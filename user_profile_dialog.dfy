/** UserProfileDialog: the seven-step waterfall run in place. The object
    holds the suspended stage, the scratch dictionary of the active waterfall
    and the messages sent so far; the user's profile is passed to the steps
    that read or write it. Each step is proved to do what the function of
    the same name in FormFlow specifies. */
module Dialogs {
  import opened Wrappers
  import opened Strings
  import opened UserProfiles
  import opened FormFlow

  class UserProfileDialog {
    var stage: Stage
    var scratch: map<string, Slot>
    var outbox: seq<string>

    constructor ()
      ensures stage == Idle && scratch == map[] && outbox == []
    {
      stage, scratch, outbox := Idle, map[], [];
    }

    /** The state this dialog and profile `p` are in together. */
    ghost function Current(p: UserProfile): Flow
      reads this, p
    {
      Flow(stage, scratch, p.Value())
    }

    ghost predicate Valid(p: UserProfile)
      reads this, p
    {
      Inv(Current(p))
    }

    /** SendActivityAsync, and the message a prompt shows. */
    method Send(text: string)
      modifies this`outbox
      ensures outbox == old(outbox) + [text]
    {
      outbox := outbox + [text];
    }

    method NameStep(p: UserProfile)
      requires Valid(p) && stage == Idle
      modifies this`stage, this`scratch, this`outbox, p`isRegistering
      ensures Valid(p)
      ensures Current(p) == FormFlow.NameStep(old(Current(p))).flow
      ensures outbox == old(outbox) + FormFlow.NameStep(old(Current(p))).sent
    {
      stage, scratch := AwaitingName, map[];
      p.isRegistering := true;
      Send(NamePrompt);
    }

    method NameConfirmStep(p: UserProfile, name: string)
      requires Valid(p) && stage == AwaitingName
      modifies this`stage, this`scratch, this`outbox
      ensures Valid(p)
      ensures Current(p) == FormFlow.NameConfirmStep(old(Current(p)), name).flow
      ensures outbox == old(outbox) + FormFlow.NameConfirmStep(old(Current(p)), name).sent
    {
      scratch := scratch[NameKey := TextValue(name)];
      Send(ThanksMessage(name));
      Send(AgeChoicePrompt);
      stage := AwaitingAgeChoice;
    }

    method CityStep(p: UserProfile, age: int)
      requires Valid(p) && (stage == AwaitingAgeChoice || stage == AwaitingAge) && StoredAge(age)
      modifies this`stage, this`scratch, this`outbox
      ensures Valid(p)
      ensures Current(p) == FormFlow.CityStep(old(Current(p)), age).flow
      ensures outbox == old(outbox) + FormFlow.CityStep(old(Current(p)), age).sent
    {
      scratch := scratch[AgeKey := IntValue(age)];
      Send(CityPrompt);
      stage := AwaitingCity;
    }

    method AgeStep(p: UserProfile, choice: string)
      requires Valid(p) && stage == AwaitingAgeChoice
      modifies this`stage, this`scratch, this`outbox
      ensures Valid(p)
      ensures Current(p) == FormFlow.AgeStep(old(Current(p)), choice).flow
      ensures outbox == old(outbox) + FormFlow.AgeStep(old(Current(p)), choice).sent
    {
      if choice == Yes {
        Send(AgePrompt);
        stage := AwaitingAge;
      } else {
        Send(NoAgeMessage(scratch[NameKey].text));
        // NextAsync(-1): the next step runs in this same turn.
        CityStep(p, NoAge);
      }
    }

    /** The number prompt consulting AgePromptValidatorAsync. */
    method AgeAnswer(p: UserProfile, recognized: Option<int>)
      requires Valid(p) && stage == AwaitingAge
      modifies this`stage, this`scratch, this`outbox
      ensures Valid(p)
      ensures Current(p) == FormFlow.AgeAnswer(old(Current(p)), recognized).flow
      ensures outbox == old(outbox) + FormFlow.AgeAnswer(old(Current(p)), recognized).sent
    {
      if AgePromptValidator(recognized) {
        CityStep(p, recognized.value);
      } else {
        Send(AgeRetryPrompt);
      }
    }

    method FavouriteLanguageStep(p: UserProfile, city: string)
      requires Valid(p) && stage == AwaitingCity
      modifies this`stage, this`scratch, this`outbox
      ensures Valid(p)
      ensures Current(p) == FormFlow.FavouriteLanguageStep(old(Current(p)), city).flow
      ensures outbox == old(outbox) + FormFlow.FavouriteLanguageStep(old(Current(p)), city).sent
    {
      scratch := scratch[CityKey := TextValue(city)];
      Send(LanguagePrompt);
      stage := AwaitingLanguage;
    }

    /** The recap sentence, built clause by clause as ConfirmStepAsync does. */
    static method BuildSummary(name: string, age: int, city: string, language: string) returns (msg: string)
      ensures msg == SummaryText(name, age, city, language)
    {
      msg := NamePrefix + name;
      if age != NoAge {
        msg := msg + (", hai " + IntToString(age) + " anni");
      }
      msg := msg + (", vieni da " + city + " e il tuo linguaggio preferito è " + language + ".");
    }

    method ConfirmStep(p: UserProfile, language: string)
      requires Valid(p) && stage == AwaitingLanguage
      modifies this`stage, this`scratch, this`outbox, p`name, p`age, p`city, p`language
      ensures Valid(p)
      ensures Current(p) == FormFlow.ConfirmStep(old(Current(p)), language).flow
      ensures outbox == old(outbox) + FormFlow.ConfirmStep(old(Current(p)), language).sent
    {
      ghost var t := FormFlow.ConfirmStep(Current(p), language);
      scratch := scratch[LanguageKey := TextValue(language)];
      var name, age, city := scratch[NameKey].text, scratch[AgeKey].value, scratch[CityKey].text;
      Send(RecapMessage(name));
      p.name, p.age, p.city, p.language := Some(name), age, Some(city), Some(scratch[LanguageKey].text);
      var msg := BuildSummary(Display(p.name), p.age, Display(p.city), Display(p.language));
      assert msg == t.sent[1];
      Send(msg);
      Send(ConfirmPrompt);
      stage := AwaitingConfirmation;
      assert outbox == old(outbox) + t.sent;
    }

    method SummaryStep(p: UserProfile, choice: string)
      requires Valid(p) && stage == AwaitingConfirmation
      modifies this`stage, this`scratch, this`outbox, p`isRegistering
      ensures Valid(p)
      ensures Current(p) == FormFlow.SummaryStep(old(Current(p)), choice).flow
      ensures outbox == old(outbox) + FormFlow.SummaryStep(old(Current(p)), choice).sent
    {
      if choice == Yes {
        Send(CompletedMessage);
        Send(RegisteredMessage(Display(p.name)));
        Send(ClosingMessage);
      } else {
        scratch := map[];
        Send(DiscardedMessage);
      }
      p.isRegistering := false;
      // EndDialogAsync: the waterfall and its scratch values are discarded.
      stage, scratch := Idle, map[];
    }

    /** Dialog.RunAsync on one inbound message. */
    method Run(p: UserProfile, text: string, recognized: Option<int>)
      requires Valid(p)
      modifies this`stage, this`scratch, this`outbox, p`isRegistering, p`name, p`age, p`city, p`language
      ensures Valid(p)
      ensures Current(p) == FormFlow.Run(old(Current(p)), text, recognized).flow
      ensures outbox == old(outbox) + FormFlow.Run(old(Current(p)), text, recognized).sent
    {
      match stage
      case Idle => NameStep(p);
      case AwaitingName => NameConfirmStep(p, text);
      case AwaitingAgeChoice => AgeStep(p, text);
      case AwaitingAge => AgeAnswer(p, recognized);
      case AwaitingCity => FavouriteLanguageStep(p, text);
      case AwaitingLanguage => ConfirmStep(p, text);
      case AwaitingConfirmation => SummaryStep(p, text);
    }
  }
}
