/** DialogBot: decides, per inbound message, whether the registration dialog
    runs, and greets members added to a conversation. */
module Bots {
  import opened Wrappers
  import opened Strings
  import opened UserProfiles
  import opened FormFlow
  import opened Dialogs

  /** The word that starts a registration. */
  const TriggerText := "REGISTRAMI"

  /** The gate of OnMessageActivityAsync: a form is already in progress, or
      the text contains the trigger (ordinal, case-sensitive). */
  predicate ShouldRunDialog(isRegistering: bool, text: string)
  {
    isRegistering || Contains(text, TriggerText)
  }

  /** The gate holds exactly when registering or when the trigger occurs at
      some position of the text. */
  lemma ShouldRunDialogIff(isRegistering: bool, text: string)
    ensures ShouldRunDialog(isRegistering, text) <==> isRegistering || exists i :: OccursAt(text, TriggerText, i)
  {
    ContainsIff(text, TriggerText);
  }

  /** The trigger test is a case-sensitive substring match. */
  lemma TriggerExamples()
    ensures ShouldRunDialog(false, "ciao REGISTRAMI")
    ensures !ShouldRunDialog(false, "registrami")
    ensures forall text :: ShouldRunDialog(true, text)
  {
    ContainsInfix("ciao ", TriggerText, "");
    assert "ciao " + TriggerText + "" == "ciao REGISTRAMI";
    var s := "registrami";
    assert !StartsWith(s, TriggerText) by { assert s[0] != TriggerText[0]; }
    ContainsNoLonger(s[1..], TriggerText);
  }

  /** An inbound message: its text, and what the number recognizer made of it
      (consulted only while the age is awaited). */
  datatype Message = Message(text: string, recognized: Option<int>)

  /** What the user state holds between turns: the profile, unless none was
      created yet, and the stage and scratch values of the dialog. */
  datatype BotState = BotState(slot: Option<ProfileValue>, stage: Stage, scratch: map<string, Slot>)

  /** The profile the accessor returns: the stored one, or a new default. */
  function ProfileOf(s: BotState): ProfileValue
  {
    s.slot.GetOr(FreshProfile)
  }

  function FlowOf(s: BotState): Flow
  {
    Flow(s.stage, s.scratch, ProfileOf(s))
  }

  ghost predicate BotInv(s: BotState)
  {
    Inv(FlowOf(s))
  }

  /** The user state before the first message. */
  const Start := BotState(None, Idle, map[])

  /** OnMessageActivityAsync on one message. */
  function HandleMessage(s: BotState, m: Message): (t: Turn)
    requires BotInv(s)
    ensures Inv(t.flow)
  {
    var f := FlowOf(s);
    if ShouldRunDialog(f.profile.isRegistering, m.text) then Run(f, m.text, m.recognized)
    else Turn(f, [])
  }

  /** The stored state after a turn. */
  function After(t: Turn): BotState
  {
    BotState(Some(t.flow.profile), t.flow.stage, t.flow.scratch)
  }

  /** A sequence of messages handled one turn after another: the final state
      and every message sent, in order. */
  function Conversation(s: BotState, ms: seq<Message>): (t: Turn)
    requires BotInv(s)
    ensures Inv(t.flow)
    decreases |ms|
  {
    if ms == [] then Turn(FlowOf(s), [])
    else
      var first := HandleMessage(s, ms[0]);
      var rest := Conversation(After(first), ms[1..]);
      Turn(rest.flow, first.sent + rest.sent)
  }

  /** The dialog runs exactly when the gate holds: it always answers, and
      when the gate is closed nothing but the lazily created profile changes. */
  lemma HandleMessageGate(s: BotState, m: Message)
    requires BotInv(s)
    ensures HandleMessage(s, m).sent != [] <==> ShouldRunDialog(ProfileOf(s).isRegistering, m.text)
    ensures !ShouldRunDialog(ProfileOf(s).isRegistering, m.text) ==> HandleMessage(s, m).flow == FlowOf(s)
  {
  }

  /** While registering, any text resumes the step that is waiting, whether
      or not it contains the trigger. */
  lemma RegisteringRoutesAnyText(s: BotState, m: Message)
    requires BotInv(s) && ProfileOf(s).isRegistering
    ensures s.stage != Idle
    ensures HandleMessage(s, m) == Run(FlowOf(s), m.text, m.recognized)
  {
  }

  /** On a profile created for this message the gate is the trigger test. */
  lemma FreshProfileGate(s: BotState, m: Message)
    requires BotInv(s) && s.slot == None
    ensures s.stage == Idle
    ensures HandleMessage(s, m).sent != [] <==> Contains(m.text, TriggerText)
  {
  }

  /** After a finished form the trigger starts a new one from the name
      prompt, whatever the previous form committed to the profile. */
  lemma RestartIgnoresCommitted(s: BotState, u: BotState, m: Message)
    requires BotInv(s) && BotInv(u) && s.stage == Idle && u.stage == Idle
    requires Contains(m.text, TriggerText)
    ensures HandleMessage(s, m).flow.stage == HandleMessage(u, m).flow.stage == AwaitingName
    ensures HandleMessage(s, m).flow.scratch == HandleMessage(u, m).flow.scratch == map[]
    ensures HandleMessage(s, m).sent == HandleMessage(u, m).sent == [NamePrompt]
    ensures HandleMessage(s, m).flow.profile.isRegistering
  {
  }

  // ---- End-to-end scenarios -----------------------------------------------

  /** A conversation is its first turn followed by the rest, from the state
      the first turn leaves. */
  lemma ConversationStep(s: BotState, m: Message, ms: seq<Message>, next: BotState)
    requires BotInv(s) && After(HandleMessage(s, m)) == next
    ensures BotInv(next)
    ensures Conversation(s, [m] + ms).flow == Conversation(next, ms).flow
    ensures Conversation(s, [m] + ms).sent == HandleMessage(s, m).sent + Conversation(next, ms).sent
  {
    assert FlowOf(next) == HandleMessage(s, m).flow;
    assert ([m] + ms)[0] == m && ([m] + ms)[1..] == ms;
  }

  // The state both scenarios reach after "REGISTRAMI": a profile created for
  // the message, marked as registering, and the name prompt awaiting an answer.

  const Registering := ProfileValue(None, None, None, 0, true)
  const NameAwaited := BotState(Some(Registering), AwaitingName, map[])

  // Registration without an age, confirmed: the state after each message.

  const MarioCommitted := ProfileValue(Some("Go"), Some("Mario"), Some("Rome"), NoAge, true)
  const Mario2 := BotState(Some(Registering), AwaitingAgeChoice, map[NameKey := TextValue("Mario")])
  const Mario3 := BotState(Some(Registering), AwaitingCity, Mario2.scratch[AgeKey := IntValue(NoAge)])
  const Mario4 := BotState(Some(Registering), AwaitingLanguage, Mario3.scratch[CityKey := TextValue("Rome")])
  const Mario5 := BotState(Some(MarioCommitted), AwaitingConfirmation, Mario4.scratch[LanguageKey := TextValue("Go")])
  const Mario6 := BotState(Some(MarioCommitted.(isRegistering := false)), Idle, map[])

  lemma MarioTurns()
    ensures HandleMessage(Start, Message("REGISTRAMI", None)) == Turn(FlowOf(NameAwaited), [NamePrompt])
    ensures HandleMessage(NameAwaited, Message("Mario", None)) == Turn(FlowOf(Mario2), [ThanksMessage("Mario"), AgeChoicePrompt])
    ensures HandleMessage(Mario2, Message("No", None)) == Turn(FlowOf(Mario3), [NoAgeMessage("Mario"), CityPrompt])
    ensures HandleMessage(Mario3, Message("Rome", None)) == Turn(FlowOf(Mario4), [LanguagePrompt])
    ensures HandleMessage(Mario4, Message("Go", None)) ==
      Turn(FlowOf(Mario5), [RecapMessage("Mario"), SummaryText("Mario", NoAge, "Rome", "Go"), ConfirmPrompt])
    ensures HandleMessage(Mario5, Message("Si", None)) ==
      Turn(FlowOf(Mario6), [CompletedMessage, RegisteredMessage("Mario"), ClosingMessage])
  {
    assert Contains("REGISTRAMI", TriggerText) by { assert StartsWith("REGISTRAMI", TriggerText); }
  }

  const MarioMessages := [Message("REGISTRAMI", None), Message("Mario", None), Message("No", None),
    Message("Rome", None), Message("Go", None), Message("Si", None)]

  /** Registration without an age, confirmed: the age stays -1 in the
      profile, the recap has no age clause, and the three completion
      messages close the conversation. */
  lemma ScenarioWithoutAge()
    ensures var t := Conversation(Start, MarioMessages);
      && t.flow == Flow(Idle, map[], ProfileValue(Some("Go"), Some("Mario"), Some("Rome"), NoAge, false))
      && t.sent == [NamePrompt, ThanksMessage("Mario"), AgeChoicePrompt, NoAgeMessage("Mario"), CityPrompt,
                    LanguagePrompt, RecapMessage("Mario"), SummaryText("Mario", NoAge, "Rome", "Go"),
                    ConfirmPrompt, CompletedMessage, RegisteredMessage("Mario"), ClosingMessage]
  {
    var m1, m2, m3 := Message("REGISTRAMI", None), Message("Mario", None), Message("No", None);
    var m4, m5, m6 := Message("Rome", None), Message("Go", None), Message("Si", None);
    MarioTurns();
    ConversationStep(Mario5, m6, [], Mario6);
    var s6 := [CompletedMessage, RegisteredMessage("Mario"), ClosingMessage];
    assert Conversation(Mario5, [m6]).sent == s6;
    ConversationStep(Mario4, m5, [m6], Mario5);
    var s5 := [RecapMessage("Mario"), SummaryText("Mario", NoAge, "Rome", "Go"), ConfirmPrompt] + s6;
    assert Conversation(Mario4, [m5, m6]).sent == s5;
    ConversationStep(Mario3, m4, [m5, m6], Mario4);
    var s4 := [LanguagePrompt] + s5;
    assert Conversation(Mario3, [m4, m5, m6]).sent == s4;
    ConversationStep(Mario2, m3, [m4, m5, m6], Mario3);
    var s3 := [NoAgeMessage("Mario"), CityPrompt] + s4;
    assert Conversation(Mario2, [m3, m4, m5, m6]).sent == s3;
    ConversationStep(NameAwaited, m2, [m3, m4, m5, m6], Mario2);
    var s2 := [ThanksMessage("Mario"), AgeChoicePrompt] + s3;
    assert Conversation(NameAwaited, [m2, m3, m4, m5, m6]).sent == s2;
    ConversationStep(Start, m1, [m2, m3, m4, m5, m6], NameAwaited);
    assert Conversation(Start, MarioMessages).sent == [NamePrompt] + s2;
  }

  // Registration with one rejected age, then discarded: the state after each message.

  const Anna2 := BotState(Some(Registering), AwaitingAgeChoice, map[NameKey := TextValue("Anna")])
  const Anna3 := Anna2.(stage := AwaitingAge)
  const Anna5 := BotState(Some(Registering), AwaitingCity, Anna2.scratch[AgeKey := IntValue(30)])
  const Anna6 := BotState(Some(Registering), AwaitingLanguage, Anna5.scratch[CityKey := TextValue("Turin")])
  const AnnaCommitted := ProfileValue(Some("Python"), Some("Anna"), Some("Turin"), 30, true)
  const Anna7 := BotState(Some(AnnaCommitted), AwaitingConfirmation, Anna6.scratch[LanguageKey := TextValue("Python")])
  const Anna8 := BotState(Some(AnnaCommitted.(isRegistering := false)), Idle, map[])

  lemma AnnaTurns()
    ensures After(HandleMessage(Start, Message("REGISTRAMI", None))) == NameAwaited
    ensures After(HandleMessage(NameAwaited, Message("Anna", None))) == Anna2
    ensures After(HandleMessage(Anna2, Message("Si", None))) == Anna3
    ensures HandleMessage(Anna3, Message("200", Some(200))) == Turn(FlowOf(Anna3), [AgeRetryPrompt])
    ensures After(HandleMessage(Anna3, Message("30", Some(30)))) == Anna5
    ensures After(HandleMessage(Anna5, Message("Turin", None))) == Anna6
    ensures After(HandleMessage(Anna6, Message("Python", None))) == Anna7
    ensures HandleMessage(Anna7, Message("No", None)) == Turn(FlowOf(Anna8), [DiscardedMessage])
  {
    assert Contains("REGISTRAMI", TriggerText) by { assert StartsWith("REGISTRAMI", TriggerText); }
  }

  const AnnaOpeningMessages := [Message("REGISTRAMI", None), Message("Anna", None), Message("Si", None),
    Message("200", Some(200))]
  const AnnaClosingMessages := [Message("30", Some(30)), Message("Turin", None), Message("Python", None),
    Message("No", None)]

  /** The messages the bot sends for each half: the retry prompt right
      after the rejected age, and the retry invitation at the end. */
  const AnnaOpeningSent := [NamePrompt, ThanksMessage("Anna"), AgeChoicePrompt, AgePrompt, AgeRetryPrompt]
  const AnnaClosingSent := [CityPrompt, LanguagePrompt, RecapMessage("Anna"), SummaryText("Anna", 30, "Turin", "Python"),
    ConfirmPrompt, DiscardedMessage]

  lemma AnnaClosing()
    ensures Conversation(Anna3, AnnaClosingMessages).flow == FlowOf(Anna8)
    ensures Conversation(Anna3, AnnaClosingMessages).sent == AnnaClosingSent
  {
    var m5, m6, m7, m8 := Message("30", Some(30)), Message("Turin", None), Message("Python", None), Message("No", None);
    AnnaTurns();
    ConversationStep(Anna7, m8, [], Anna8);
    ConversationStep(Anna6, m7, [m8], Anna7);
    ConversationStep(Anna5, m6, [m7, m8], Anna6);
    ConversationStep(Anna3, m5, [m6, m7, m8], Anna5);
  }

  /** Registration with one rejected age, then discarded: the retry prompt
      answers the rejected age and nothing else, the form ends with the retry
      invitation and no completion message, and the fields copied before the
      final answer stay in the profile. */
  lemma ScenarioRetriedAgeDiscarded()
    ensures var t := Conversation(Start, AnnaOpeningMessages + AnnaClosingMessages);
      && t.flow == Flow(Idle, map[], ProfileValue(Some("Python"), Some("Anna"), Some("Turin"), 30, false))
      && t.sent == AnnaOpeningSent + AnnaClosingSent
  {
    var m1, m2, m3, m4 := Message("REGISTRAMI", None), Message("Anna", None), Message("Si", None), Message("200", Some(200));
    var c := AnnaClosingMessages;
    AnnaTurns();
    AnnaClosing();
    ConversationStep(Anna3, m4, c, Anna3);
    var s4 := [AgeRetryPrompt] + AnnaClosingSent;
    assert Conversation(Anna3, [m4] + c).sent == s4;
    ConversationStep(Anna2, m3, [m4] + c, Anna3);
    var s3 := [AgePrompt] + s4;
    assert Conversation(Anna2, [m3] + ([m4] + c)).sent == s3;
    ConversationStep(NameAwaited, m2, [m3] + ([m4] + c), Anna2);
    var s2 := [ThanksMessage("Anna"), AgeChoicePrompt] + s3;
    assert Conversation(NameAwaited, [m2] + ([m3] + ([m4] + c))).sent == s2;
    ConversationStep(Start, m1, [m2] + ([m3] + ([m4] + c)), NameAwaited);
    assert AnnaOpeningMessages + c == [m1] + ([m2] + ([m3] + ([m4] + c)));
    assert AnnaOpeningSent + AnnaClosingSent == [NamePrompt] + s2;
  }

  // ---- Welcoming added members --------------------------------------------

  /** An added conversation member. */
  datatype Member = Member(id: string, name: string)

  function WelcomeText(name: string): string
  {
    "Benvenuto, " + name + ": digita " + TriggerText + " per registrarti."
  }

  /** The added members other than the bot, in list order. */
  function Guests(members: seq<Member>, botId: string): (r: seq<Member>)
    ensures |r| <= |members|
    decreases |members|
  {
    if members == [] then []
    else (if members[0].id != botId then [members[0]] else []) + Guests(members[1..], botId)
  }

  /** Guests keeps list order: filtering a concatenation concatenates the filtered parts. */
  lemma {:induction false} GuestsAppend(a: seq<Member>, b: seq<Member>, botId: string)
    ensures Guests(a + b, botId) == Guests(a, botId) + Guests(b, botId)
    decreases |a|
  {
    if a != [] {
      var head := if a[0].id != botId then [a[0]] else [];
      assert (a + b)[0] == a[0] && (a + b)[1..] == a[1..] + b;
      assert Guests(a + b, botId) == head + Guests(a[1..] + b, botId);
      GuestsAppend(a[1..], b, botId);
      assert Guests(a, botId) == head + Guests(a[1..], botId);
    } else {
      assert a + b == b;
    }
  }

  /** Each member other than the bot is kept as often as it was added; the
      bot is dropped. */
  lemma {:induction false} GuestsCount(members: seq<Member>, botId: string, m: Member)
    ensures multiset(Guests(members, botId))[m] == if m.id != botId then multiset(members)[m] else 0
    decreases |members|
  {
    if members != [] {
      GuestsCount(members[1..], botId, m);
      assert members == [members[0]] + members[1..];
    }
  }

  /** Exactly the members other than the bot are kept. */
  lemma GuestsMembers(members: seq<Member>, botId: string, m: Member)
    ensures m in Guests(members, botId) <==> m in members && m.id != botId
  {
    GuestsCount(members, botId, m);
  }

  /** Every welcome names the member and the trigger word. */
  lemma WelcomeMentions(name: string)
    ensures Contains(WelcomeText(name), name)
    ensures Contains(WelcomeText(name), TriggerText)
  {
    ContainsInfix("Benvenuto, ", name, ": digita " + TriggerText + " per registrarti.");
    assert WelcomeText(name) == "Benvenuto, " + name + (": digita " + TriggerText + " per registrarti.");
    ContainsInfix("Benvenuto, " + name + ": digita ", TriggerText, " per registrarti.");
  }

  /** The turn router over one user's state. */
  class DialogBot {
    /** The user-state slot of the profile; null until the first message. */
    var profile: UserProfile?
    const dialog: UserProfileDialog

    constructor (dialog: UserProfileDialog)
      requires dialog.stage == Idle && dialog.scratch == map[]
      ensures this.dialog == dialog && profile == null
      ensures Valid()
    {
      this.dialog := dialog;
      profile := null;
    }

    ghost function State(): BotState
      reads this, dialog, profile
    {
      BotState(if profile == null then None else Some(profile.Value()), dialog.stage, dialog.scratch)
    }

    ghost predicate Valid()
      reads this, dialog, profile
    {
      BotInv(State())
    }

    /** OnMessageActivityAsync. */
    method OnMessage(m: Message)
      requires Valid()
      modifies this`profile, dialog`stage, dialog`scratch, dialog`outbox, profile
      ensures Valid() && profile != null
      ensures old(profile) != null ==> profile == old(profile)
      ensures old(profile) == null ==> fresh(profile)
      ensures State() == After(HandleMessage(old(State()), m))
      ensures dialog.outbox == old(dialog.outbox) + HandleMessage(old(State()), m).sent
    {
      if profile == null {
        profile := new UserProfile();
      }
      if ShouldRunDialog(profile.isRegistering, m.text) {
        dialog.Run(profile, m.text, m.recognized);
      }
    }

    /** OnMembersAddedAsync: one welcome per added member whose id is not the
        bot's (`botId`, the activity's recipient), in list order. */
    method OnMembersAdded(members: seq<Member>, botId: string) returns (sent: seq<string>)
      ensures |sent| == |Guests(members, botId)|
      ensures forall i :: 0 <= i < |sent| ==> sent[i] == WelcomeText(Guests(members, botId)[i].name)
    {
      sent := [];
      for k := 0 to |members|
        invariant |sent| == |Guests(members[..k], botId)|
        invariant forall i :: 0 <= i < |sent| ==> sent[i] == WelcomeText(Guests(members[..k], botId)[i].name)
      {
        var member := members[k];
        GuestsAppend(members[..k], [member], botId);
        assert members[..k + 1] == members[..k] + [member];
        if member.id != botId {
          sent := sent + [WelcomeText(member.name)];
        }
      }
      assert members[..|members|] == members;
    }
  }
}
