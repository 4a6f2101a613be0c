/** The registration waterfall as values: where the form stands between turns,
    what each step does to the scratch dictionary, the profile and the outgoing
    messages, and the properties of those steps. The class in
    user_profile_dialog.dfy executes these steps in place and is proved to
    agree with the functions here. */
module FormFlow {
  import opened Wrappers
  import opened Strings
  import opened UserProfiles

  /** What the suspended waterfall is waiting for. `Idle` means no waterfall
      is on the dialog stack: before the first step, or after the last step
      ended the dialog. */
  datatype Stage =
    | Idle                  // the next run begins with NameStepAsync
    | AwaitingName          // NameConfirmStepAsync consumes the text prompt's answer
    | AwaitingAgeChoice     // AgeStepAsync consumes the "share your age?" choice
    | AwaitingAge           // the number prompt, then CityStepAsync, consumes the age
    | AwaitingCity          // FavouriteLanguageStepAsync consumes the city
    | AwaitingLanguage      // ConfirmStepAsync consumes the language choice
    | AwaitingConfirmation  // SummaryStepAsync consumes the final choice

  /** A value of the waterfall's scratch dictionary (`stepContext.Values`). */
  datatype Slot = TextValue(text: string) | IntValue(value: int)

  const NameKey := "name"
  const AgeKey := "age"
  const CityKey := "city"
  const LanguageKey := "language"

  /** The label of the affirmative choice in both yes/no prompts. */
  const Yes := "Si"

  /** The age that stands for "not given". */
  const NoAge := -1

  /** The state one inbound answer acts on. */
  datatype Flow = Flow(stage: Stage, scratch: map<string, Slot>, profile: ProfileValue)

  /** The state after a turn and the messages the turn sent, in order. */
  datatype Turn = Turn(flow: Flow, sent: seq<string>)

  // ---- Messages -----------------------------------------------------------

  const NamePrompt := "D'accordo! Per prima cosa, inserisci il tuo nome."
  const AgeChoicePrompt := "Desideri comunicare la tua età?"
  const AgePrompt := "Perfetto! Inserisci la tua età."
  const AgeRetryPrompt := "ATTENZIONE: devi inserire un valore numerico intero compreso tra 0 e 150."
  const CityPrompt := "Inserisci la tua città di provenienza."
  const LanguagePrompt := "Inserisci il tuo linguaggio di programmazione preferito:"
  const ConfirmPrompt := "Confermi le tue scelte?"
  const CompletedMessage := "OPERAZIONE COMPLETATA!"
  const ClosingMessage := "Non vediamo l'ora di averti con noi: a presto!"
  const DiscardedMessage := "Ricevuto: le informazioni che hai inserito non saranno memorizzate. Digita REGISTRAMI se vuoi provare ancora."
  const NamePrefix := "Il tuo nome è "

  function ThanksMessage(name: string): string
  {
    "Grazie mille, " + name + "."
  }

  function NoAgeMessage(name: string): string
  {
    "Nessun problema, " + name + "! Continuiamo pure."
  }

  function RecapMessage(name: string): string
  {
    "Grazie per le risposte, " + name + ". Ecco un riepilogo dei dati che hai inserito:"
  }

  function RegisteredMessage(name: string): string
  {
    "Grazie per esserti registrato, " + name + ": riceverai a breve una e-mail di conferma contenente il riepilogo dei dati inseriti."
  }

  // ---- The summary sentence -----------------------------------------------

  /** The age clause of the summary: empty when the age was not given. */
  function AgeClause(age: int): string
  {
    if age != NoAge then ", hai " + IntToString(age) + " anni" else ""
  }

  function PlaceClause(city: string, language: string): string
  {
    ", vieni da " + city + " e il tuo linguaggio preferito è " + language + "."
  }

  /** The recap sentence ConfirmStepAsync sends. */
  function SummaryText(name: string, age: int, city: string, language: string): string
  {
    NamePrefix + name + AgeClause(age) + PlaceClause(city, language)
  }

  /** The summary starts with the name, ends with city and language, and
      carries the rendered age exactly when an age was given. */
  lemma SummaryShape(name: string, age: int, city: string, language: string)
    ensures StartsWith(SummaryText(name, age, city, language), NamePrefix + name)
    ensures EndsWith(SummaryText(name, age, city, language), PlaceClause(city, language))
    ensures SummaryText(name, age, city, language) == SummaryText(name, NoAge, city, language) <==> age == NoAge
    ensures age != NoAge ==> Contains(SummaryText(name, age, city, language), ", hai " + IntToString(age) + " anni")
  {
    var s := SummaryText(name, age, city, language);
    assert s[..|NamePrefix + name|] == NamePrefix + name;
    assert s == (NamePrefix + name + AgeClause(age)) + PlaceClause(city, language);
    if age != NoAge {
      assert |SummaryText(name, NoAge, city, language)| < |s|;
      ContainsInfix(NamePrefix + name, AgeClause(age), PlaceClause(city, language));
    }
  }

  /** The age clause tells apart every two ages. */
  lemma AgeClauseInjective(a: int, b: int)
    requires AgeClause(a) == AgeClause(b)
    ensures a == b
  {
    if a != NoAge && b != NoAge {
      var c := AgeClause(a);
      assert c[6..|c| - 5] == IntToString(a);
      assert AgeClause(b)[6..|c| - 5] == IntToString(b);
      IntToStringInjective(a, b);
    }
  }

  /** The summary sentence determines the age it reports. */
  lemma SummaryDeterminesAge(name: string, a: int, b: int, city: string, language: string)
    requires SummaryText(name, a, city, language) == SummaryText(name, b, city, language)
    ensures a == b
  {
    var head, tail := NamePrefix + name, PlaceClause(city, language);
    var s := SummaryText(name, a, city, language);
    assert s == head + AgeClause(a) + tail;
    assert s == head + AgeClause(b) + tail;
    assert s[|head|..|s| - |tail|] == AgeClause(a);
    assert s[|head|..|s| - |tail|] == AgeClause(b);
    AgeClauseInjective(a, b);
  }

  // ---- Validation ---------------------------------------------------------

  /** AgePromptValidatorAsync: the recognizer succeeded and the value lies
      strictly between 0 and 150. */
  predicate AgePromptValidator(recognized: Option<int>)
  {
    recognized.Some? && recognized.value > 0 && recognized.value < 150
  }

  /** The validator accepts exactly the recognized values 1 through 149. */
  lemma AgePromptValidatorRange(recognized: Option<int>)
    ensures AgePromptValidator(recognized) <==> recognized.Some? && 1 <= recognized.value <= 149
    ensures !AgePromptValidator(None)
    ensures !AgePromptValidator(Some(0)) && !AgePromptValidator(Some(150)) && !AgePromptValidator(Some(NoAge))
  {
  }

  /** An age the scratch dictionary may hold: the marker or a validated value. */
  ghost predicate StoredAge(age: int)
  {
    age == NoAge || 0 < age < 150
  }

  // ---- The state invariant ------------------------------------------------

  /** The scratch keys each stage has written. */
  function KeysAt(stage: Stage): set<string>
  {
    match stage
    case Idle => {}
    case AwaitingName => {}
    case AwaitingAgeChoice => {NameKey}
    case AwaitingAge => {NameKey}
    case AwaitingCity => {NameKey, AgeKey}
    case AwaitingLanguage => {NameKey, AgeKey, CityKey}
    case AwaitingConfirmation => {NameKey, AgeKey, CityKey, LanguageKey}
  }

  /** Every state between turns: the scratch dictionary holds exactly the
      keys written so far, each with the type its step stores (the age one a
      stored age), and the profile's flag says whether a form is active. */
  ghost predicate Inv(f: Flow)
  {
    && f.scratch.Keys == KeysAt(f.stage)
    && (NameKey in f.scratch ==> f.scratch[NameKey].TextValue?)
    && (AgeKey in f.scratch ==> f.scratch[AgeKey].IntValue? && StoredAge(f.scratch[AgeKey].value))
    && (CityKey in f.scratch ==> f.scratch[CityKey].TextValue?)
    && (LanguageKey in f.scratch ==> f.scratch[LanguageKey].TextValue?)
    && (f.profile.isRegistering <==> f.stage != Idle)
  }

  // ---- The seven waterfall steps ------------------------------------------

  /** NameStepAsync: a fresh waterfall starts, the profile is marked as
      registering and the name is asked for. */
  function NameStep(f: Flow): (t: Turn)
    requires Inv(f) && f.stage == Idle
    ensures Inv(t.flow)
  {
    Turn(Flow(AwaitingName, map[], f.profile.(isRegistering := true)), [NamePrompt])
  }

  /** NameConfirmStepAsync: stores the name, thanks the user and asks whether
      they want to give their age. */
  function NameConfirmStep(f: Flow, name: string): (t: Turn)
    requires Inv(f) && f.stage == AwaitingName
    ensures Inv(t.flow)
  {
    Turn(f.(stage := AwaitingAgeChoice, scratch := f.scratch[NameKey := TextValue(name)]),
         [ThanksMessage(name), AgeChoicePrompt])
  }

  /** CityStepAsync: stores the age it was resumed with and asks for the city. */
  function CityStep(f: Flow, age: int): (t: Turn)
    requires Inv(f) && (f.stage == AwaitingAgeChoice || f.stage == AwaitingAge) && StoredAge(age)
    ensures Inv(t.flow)
  {
    Turn(f.(stage := AwaitingCity, scratch := f.scratch[AgeKey := IntValue(age)]), [CityPrompt])
  }

  /** AgeStepAsync: "Si" issues the number prompt; any other choice sends the
      "no problem" message and runs CityStepAsync at once with age -1. */
  function AgeStep(f: Flow, choice: string): (t: Turn)
    requires Inv(f) && f.stage == AwaitingAgeChoice
    ensures Inv(t.flow)
  {
    if choice == Yes then
      Turn(f.(stage := AwaitingAge), [AgePrompt])
    else
      var next := CityStep(f, NoAge);
      Turn(next.flow, [NoAgeMessage(f.scratch[NameKey].text)] + next.sent)
  }

  /** The number prompt with AgePromptValidatorAsync: a rejected answer sends
      the retry prompt and leaves everything else as it was; an accepted one
      resumes the waterfall at CityStepAsync. */
  function AgeAnswer(f: Flow, recognized: Option<int>): (t: Turn)
    requires Inv(f) && f.stage == AwaitingAge
    ensures Inv(t.flow)
  {
    if AgePromptValidator(recognized) then CityStep(f, recognized.value)
    else Turn(f, [AgeRetryPrompt])
  }

  /** FavouriteLanguageStepAsync: stores the city and offers the languages. */
  function FavouriteLanguageStep(f: Flow, city: string): (t: Turn)
    requires Inv(f) && f.stage == AwaitingCity
    ensures Inv(t.flow)
  {
    Turn(f.(stage := AwaitingLanguage, scratch := f.scratch[CityKey := TextValue(city)]), [LanguagePrompt])
  }

  /** ConfirmStepAsync: stores the language, copies the four scratch values
      into the profile, sends the recap and asks for confirmation. */
  function ConfirmStep(f: Flow, language: string): (t: Turn)
    requires Inv(f) && f.stage == AwaitingLanguage
    ensures Inv(t.flow)
  {
    var scratch := f.scratch[LanguageKey := TextValue(language)];
    var name, age, city := scratch[NameKey].text, scratch[AgeKey].value, scratch[CityKey].text;
    var profile := f.profile.(name := Some(name), age := age, city := Some(city), language := Some(language));
    Turn(Flow(AwaitingConfirmation, scratch, profile),
         [RecapMessage(name),
          SummaryText(Display(profile.name), profile.age, Display(profile.city), Display(profile.language)),
          ConfirmPrompt])
  }

  /** SummaryStepAsync: "Si" sends the three completion messages; any other
      answer clears the scratch values and invites a retry. Either way the
      profile stops registering and the dialog ends. */
  function SummaryStep(f: Flow, choice: string): (t: Turn)
    requires Inv(f) && f.stage == AwaitingConfirmation
    ensures Inv(t.flow)
  {
    var sent :=
      if choice == Yes then [CompletedMessage, RegisteredMessage(Display(f.profile.name)), ClosingMessage]
      else [DiscardedMessage];
    Turn(Flow(Idle, map[], f.profile.(isRegistering := false)), sent)
  }

  /** One run of the dialog on an inbound message: a new waterfall when none
      is active, otherwise the step waiting for this answer. `text` is the
      message; `recognized` is what the number recognizer made of it. */
  function Run(f: Flow, text: string, recognized: Option<int>): (t: Turn)
    requires Inv(f)
    ensures Inv(t.flow)
    ensures |t.sent| >= 1
  {
    match f.stage
    case Idle => NameStep(f)
    case AwaitingName => NameConfirmStep(f, text)
    case AwaitingAgeChoice => AgeStep(f, text)
    case AwaitingAge => AgeAnswer(f, recognized)
    case AwaitingCity => FavouriteLanguageStep(f, text)
    case AwaitingLanguage => ConfirmStep(f, text)
    case AwaitingConfirmation => SummaryStep(f, text)
  }

  // ---- Properties of the steps --------------------------------------------

  /** Whatever a previous registration left in the profile, starting the form
      marks the profile as registering, waits for the name, sends the same
      prompt and keeps the other profile fields. */
  lemma StartMarksRegistering(f: Flow, g: Flow)
    requires Inv(f) && f.stage == Idle && Inv(g) && g.stage == Idle
    ensures NameStep(f).flow.profile.isRegistering
    ensures NameStep(f).flow.stage == AwaitingName && NameStep(f).flow.scratch == map[]
    ensures NameStep(f).sent == NameStep(g).sent == [NamePrompt]
    ensures NameStep(f).flow.profile.(isRegistering := f.profile.isRegistering) == f.profile
  {
  }

  /** Only "Si" issues the number prompt; every other choice stores age -1,
      reaches the city prompt in the same turn and sends the "no problem"
      message first. */
  lemma AgeChoiceBranches(f: Flow, choice: string)
    requires Inv(f) && f.stage == AwaitingAgeChoice
    ensures choice == Yes ==>
      AgeStep(f, choice) == Turn(f.(stage := AwaitingAge), [AgePrompt])
    ensures choice != Yes ==>
      && AgeStep(f, choice).flow.stage == AwaitingCity
      && AgeStep(f, choice).flow.scratch == f.scratch[AgeKey := IntValue(NoAge)]
      && AgeStep(f, choice).sent == [NoAgeMessage(f.scratch[NameKey].text), CityPrompt]
      && AgeStep(f, choice).flow.profile == f.profile
  {
  }

  /** A rejected age changes nothing and re-prompts; an accepted one is stored. */
  lemma AgeAnswerRetries(f: Flow, recognized: Option<int>)
    requires Inv(f) && f.stage == AwaitingAge
    ensures !AgePromptValidator(recognized) ==> AgeAnswer(f, recognized) == Turn(f, [AgeRetryPrompt])
    ensures AgePromptValidator(recognized) ==>
      && AgeAnswer(f, recognized).flow.stage == AwaitingCity
      && AgeAnswer(f, recognized).flow.scratch[AgeKey] == IntValue(recognized.value)
      && AgeAnswer(f, recognized).sent == [CityPrompt]
  {
  }

  /** The scratch age that CityStepAsync stored is -1 or an age in 1..149. */
  lemma ScratchAgeInRange(f: Flow)
    requires Inv(f) && AgeKey in f.scratch
    ensures f.stage in {AwaitingCity, AwaitingLanguage, AwaitingConfirmation}
    ensures f.scratch[AgeKey] == IntValue(NoAge) || (f.scratch[AgeKey].IntValue? && 1 <= f.scratch[AgeKey].value <= 149)
  {
  }

  /** The scratch age becomes -1 only when the age choice was not "Si". */
  lemma NoAgeOnlyFromDecline(f: Flow, text: string, recognized: Option<int>)
    requires Inv(f) && AgeKey !in f.scratch
    requires AgeKey in Run(f, text, recognized).flow.scratch
    requires Run(f, text, recognized).flow.scratch[AgeKey] == IntValue(NoAge)
    ensures f.stage == AwaitingAgeChoice && text != Yes
  {
  }

  /** The confirm step copies exactly the four scratch values into the
      profile and leaves the registering flag alone. */
  lemma ConfirmCopiesScratch(f: Flow, language: string)
    requires Inv(f) && f.stage == AwaitingLanguage
    ensures var p := ConfirmStep(f, language).flow.profile;
      && p.name == Some(f.scratch[NameKey].text)
      && p.age == f.scratch[AgeKey].value
      && p.city == Some(f.scratch[CityKey].text)
      && p.language == Some(language)
      && p.isRegistering == f.profile.isRegistering
    ensures ConfirmStep(f, language).sent[1] ==
      SummaryText(f.scratch[NameKey].text, f.scratch[AgeKey].value, f.scratch[CityKey].text, language)
  {
  }

  /** The profile's age changes only in the confirm step, which takes it
      from the scratch dictionary. */
  lemma AgeWrittenOnlyByConfirm(f: Flow, text: string, recognized: Option<int>)
    requires Inv(f)
    requires Run(f, text, recognized).flow.profile.age != f.profile.age
    ensures f.stage == AwaitingLanguage
    ensures Run(f, text, recognized).flow.profile.age == f.scratch[AgeKey].value
  {
  }

  /** The final answer: "Si" sends the three completion messages in order;
      anything else clears the scratch values but leaves the fields copied
      by the confirm step as they were. Both end the form. */
  lemma SummaryOutcomes(f: Flow, choice: string)
    requires Inv(f) && f.stage == AwaitingConfirmation
    ensures var t := SummaryStep(f, choice);
      && t.flow.stage == Idle && !t.flow.profile.isRegistering && t.flow.scratch == map[]
      && t.flow.profile.(isRegistering := true) == f.profile
    ensures choice == Yes ==>
      SummaryStep(f, choice).sent == [CompletedMessage, RegisteredMessage(Display(f.profile.name)), ClosingMessage]
    ensures choice != Yes ==> SummaryStep(f, choice).sent == [DiscardedMessage]
  {
  }

  /** isRegistering changes only at the first and the last step. */
  lemma RegisteringFlagChanges(f: Flow, text: string, recognized: Option<int>)
    requires Inv(f)
    ensures var g := Run(f, text, recognized).flow;
      g.profile.isRegistering != f.profile.isRegistering <==> f.stage in {Idle, AwaitingConfirmation}
  {
  }

  /** A run that changes the profile's name, city or language is the confirm
      step, and it sets them to the scratch values. */
  lemma ProfileTextWrittenOnlyByConfirm(f: Flow, text: string, recognized: Option<int>)
    requires Inv(f)
    requires var g := Run(f, text, recognized).flow.profile;
      g.name != f.profile.name || g.city != f.profile.city || g.language != f.profile.language
    ensures f.stage == AwaitingLanguage
    ensures var g := Run(f, text, recognized).flow.profile;
      g.name == Some(f.scratch[NameKey].text) && g.city == Some(f.scratch[CityKey].text) && g.language == Some(text)
  {
  }
}
