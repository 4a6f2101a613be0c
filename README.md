# MS365 DialogBot registration form, modelled in Dafny

The bot runs a seven-step registration form (a Bot Framework waterfall) for
each user: name, whether to give the age, the age, the city, the favourite
programming language, a recap, and a final yes/no. A turn router
(`DialogBot`) decides per message whether the form runs: when the user's
profile says a registration is in progress, or when the text contains the
trigger word `REGISTRAMI`. It also greets members added to a conversation.

The model has six modules:

- `Wrappers` (wrappers.dfy): `Option`, used for .NET strings that may be
  `null` and for the outcome of the number recognizer.
- `Strings` (strings.dfy): ordinal `string.Contains` and the decimal
  rendering of an `int`, with their reference definitions (occurrence at an
  index; parsing back).
- `UserProfiles` (user_profile.dfy): the mutable `UserProfile` class with its
  five fields and .NET defaults, and `ProfileValue`, a snapshot of one.
- `FormFlow` (form_flow.dfy): the waterfall as values. A `Stage` says what the
  suspended waterfall awaits. A `Flow` is the stage, the scratch dictionary
  (`stepContext.Values`) and the profile. One function per waterfall step
  returns the next `Flow` and the messages sent. `Inv` is the invariant every
  state keeps between turns, and the lemmas state the form's properties.
- `Dialogs` (user_profile_dialog.dfy): the class `UserProfileDialog`. It holds
  the stage, the scratch map and an outbox (a sequence of sent messages),
  and updates them in place. It also assigns the profile's fields. Each
  method's frame names exactly the fields it writes. Each method is proved
  to produce the state and messages of the `FormFlow` function of the same
  name.
- `Bots` (dialog_bot.dfy): the gate, the message handler as a function
  (`HandleMessage`), conversations as folds over messages, two end-to-end
  scenarios, the welcome filter, and the class `DialogBot`. That class
  lazily creates the profile, runs the dialog behind the gate and greets
  added members in a loop.

Suspend and resume are explicit. Each inbound message is one call of `Run`.
It starts a waterfall when the stage is `Idle` and otherwise runs the step
that consumes the answer. The "no age" branch runs the city step in the same
turn (`NextAsync(-1)`). A rejected age sends the retry prompt and changes
nothing else.

Ending the dialog discards the waterfall instance, and with it the scratch
values. So the scratch map is empty whenever the stage is `Idle`, whichever
answer ended the form. The explicit `Values.Clear()` of the "No" branch is
modelled as well.

The model keeps one behaviour of the code as written. The confirm step
copies the scratch values into the profile before the user confirms, so a
final "No" does not roll them back, although its message says the data will
not be stored. `FormFlow.SummaryOutcomes` and
`Bots.ScenarioRetriedAgeDiscarded` state this behaviour.

Three more behaviours of the C# are modelled as written:

- The language is whatever the choice prompt returns. The code offers
  "Altro" and lists "Java" twice (UserProfileDialog.cs:133).
- The profile's name is overwritten by every registration that reaches the
  confirm step (UserProfileDialog.cs:150).
- The router creates the profile on the first message, before the gate is
  tested (DialogBot.cs:67).

## Model

| member | source | states |
|---|---|---|
| Strings.ContainsIff | MS365_DialogBot/Bots/DialogBot.cs:73 | The ordinal `Contains` holds exactly when the trigger occurs at some index of the text. |
| Strings.NatToString | MS365_DialogBot/Dialogs/UserProfileDialog.cs:158 | Rendering an age gives a non-empty string of decimal digits with no leading zero. |
| Strings.ParseIntOfIntToString | MS365_DialogBot/Dialogs/UserProfileDialog.cs:158 | The rendering of an `int` (sign and digits) can be read back to the same value. |
| Strings.IntToStringInjective | MS365_DialogBot/Dialogs/UserProfileDialog.cs:158 | Different ages render as different text. |
| UserProfiles.UserProfile.constructor | MS365_DialogBot/UserProfile.cs:12-23 | A new profile has the five fields at their .NET defaults: no language, name or city, age 0, not registering. |
| UserProfiles.FreshProfileDefaults | MS365_DialogBot/UserProfile.cs:14-22 | A fresh profile is not registering, and its age 0 is not the "age not given" marker -1. |
| FormFlow.AgePromptValidatorRange | MS365_DialogBot/Dialogs/UserProfileDialog.cs:222-226 | The validator accepts exactly recognized values 1..149. It rejects no recognition, 0, 150 and -1. |
| FormFlow.SummaryShape | MS365_DialogBot/Dialogs/UserProfileDialog.cs:155-160 | The recap starts with "Il tuo nome è {name}" and ends with ", vieni da {city} e il tuo linguaggio preferito è {language}.". It differs from the no-age recap exactly when the age is not -1, and then it contains ", hai {age} anni". |
| FormFlow.AgeClauseInjective | MS365_DialogBot/Dialogs/UserProfileDialog.cs:157-158 | Two ages with the same age clause are equal. |
| FormFlow.SummaryDeterminesAge | MS365_DialogBot/Dialogs/UserProfileDialog.cs:155-160 | With the same name, city and language, equal recaps imply equal ages. |
| FormFlow.NameStep | MS365_DialogBot/Dialogs/UserProfileDialog.cs:46-64 | Starting the form keeps the state invariant. |
| FormFlow.NameConfirmStep | MS365_DialogBot/Dialogs/UserProfileDialog.cs:66-81 | Storing the name keeps the state invariant. |
| FormFlow.AgeStep | MS365_DialogBot/Dialogs/UserProfileDialog.cs:83-111 | Both branches of the age choice keep the state invariant. |
| FormFlow.AgeAnswer | MS365_DialogBot/Dialogs/UserProfileDialog.cs:93-99 | The number prompt with its validator keeps the state invariant, so only validated ages are stored. |
| FormFlow.CityStep | MS365_DialogBot/Dialogs/UserProfileDialog.cs:113-123 | Storing a validated age or -1 keeps the state invariant. |
| FormFlow.FavouriteLanguageStep | MS365_DialogBot/Dialogs/UserProfileDialog.cs:125-135 | Storing the city keeps the state invariant. |
| FormFlow.ConfirmStep | MS365_DialogBot/Dialogs/UserProfileDialog.cs:137-172 | Storing the language and copying into the profile keeps the state invariant. |
| FormFlow.SummaryStep | MS365_DialogBot/Dialogs/UserProfileDialog.cs:174-220 | Ending the form keeps the state invariant: idle, empty scratch, not registering. |
| FormFlow.Run | MS365_DialogBot/Dialogs/UserProfileDialog.cs:25-34 | Every run of the waterfall keeps the state invariant and sends at least one message. |
| FormFlow.StartMarksRegistering | MS365_DialogBot/Dialogs/UserProfileDialog.cs:46-64 | After the first step the profile is registering and the form awaits the name, with an empty scratch map. The prompt is the same whatever the profile held, and no other field changes. |
| FormFlow.AgeChoiceBranches | MS365_DialogBot/Dialogs/UserProfileDialog.cs:85-110 | "Si" issues only the number prompt. Any other choice stores age -1, sends the "Nessun problema" message and reaches the city prompt in the same turn. |
| FormFlow.AgeAnswerRetries | MS365_DialogBot/Dialogs/UserProfileDialog.cs:93-99 | A rejected age changes no state and sends the retry prompt. An accepted one is stored and the city is asked for. |
| FormFlow.ScratchAgeInRange | MS365_DialogBot/Dialogs/UserProfileDialog.cs:115 | The scratch age is present only from the city step on. It is -1 or a value in 1..149. |
| FormFlow.NoAgeOnlyFromDecline | MS365_DialogBot/Dialogs/UserProfileDialog.cs:101-109 | A run that newly stores age -1 answered the age choice with something other than "Si". |
| FormFlow.ConfirmCopiesScratch | MS365_DialogBot/Dialogs/UserProfileDialog.cs:139-162 | The confirm step copies exactly the four scratch values into Name, Age, City and Language. It leaves IsRegistering alone and sends the recap built from those values. |
| FormFlow.AgeWrittenOnlyByConfirm | MS365_DialogBot/Dialogs/UserProfileDialog.cs:151 | A run that changes the profile's age is the confirm step, and it sets the age to the scratch age. |
| FormFlow.SummaryOutcomes | MS365_DialogBot/Dialogs/UserProfileDialog.cs:181-219 | "Si" sends the three completion messages in order. Any other answer sends the retry invitation. Either way the form ends idle with empty scratch and not registering, and the copied fields are not rolled back. |
| FormFlow.RegisteringFlagChanges | MS365_DialogBot/Dialogs/UserProfileDialog.cs:54 | IsRegistering changes in a run exactly when the run is the first or the last step. |
| FormFlow.ProfileTextWrittenOnlyByConfirm | MS365_DialogBot/Dialogs/UserProfileDialog.cs:150-153 | A run that changes the profile's name, city or language is the confirm step, and it sets them to the scratch name and city and the chosen language. |
| Dialogs.UserProfileDialog.constructor | MS365_DialogBot/Dialogs/UserProfileDialog.cs:19-44 | A new dialog has no active waterfall, no scratch values and no sent messages. |
| Dialogs.UserProfileDialog.Send | MS365_DialogBot/Dialogs/UserProfileDialog.cs:71 | Sending a message or a prompt appends exactly that text to the outbox and changes nothing else. |
| Dialogs.UserProfileDialog.NameStep | MS365_DialogBot/Dialogs/UserProfileDialog.cs:46-64 | Sets IsRegistering, the stage and the outbox, and resets the scratch map, as `FormFlow.NameStep` says. |
| Dialogs.UserProfileDialog.NameConfirmStep | MS365_DialogBot/Dialogs/UserProfileDialog.cs:66-81 | Writes the name into the scratch map and sends thanks and the age choice, as `FormFlow.NameConfirmStep` says. |
| Dialogs.UserProfileDialog.AgeStep | MS365_DialogBot/Dialogs/UserProfileDialog.cs:83-111 | Branches on the choice and on "no" continues at the city step in the same call, as `FormFlow.AgeStep` says. |
| Dialogs.UserProfileDialog.AgeAnswer | MS365_DialogBot/Dialogs/UserProfileDialog.cs:93-99 | Re-prompts or stores the age, as `FormFlow.AgeAnswer` says. |
| Dialogs.UserProfileDialog.CityStep | MS365_DialogBot/Dialogs/UserProfileDialog.cs:113-123 | Stores the age and asks for the city, as `FormFlow.CityStep` says. |
| Dialogs.UserProfileDialog.FavouriteLanguageStep | MS365_DialogBot/Dialogs/UserProfileDialog.cs:125-135 | Stores the city and asks for the language, as `FormFlow.FavouriteLanguageStep` says. |
| Dialogs.UserProfileDialog.BuildSummary | MS365_DialogBot/Dialogs/UserProfileDialog.cs:155-160 | Building the recap clause by clause yields `SummaryText`, whose shape `SummaryShape` states. |
| Dialogs.UserProfileDialog.ConfirmStep | MS365_DialogBot/Dialogs/UserProfileDialog.cs:137-172 | Writes only the four profile fields, the scratch map, the stage and the outbox, as `FormFlow.ConfirmStep` says. |
| Dialogs.UserProfileDialog.SummaryStep | MS365_DialogBot/Dialogs/UserProfileDialog.cs:174-220 | Writes only IsRegistering among the profile fields, clears the scratch values on a non-"Si" answer and ends the dialog, as `FormFlow.SummaryStep` says. |
| Dialogs.UserProfileDialog.Run | MS365_DialogBot/Dialogs/UserProfileDialog.cs:25-34 | Dispatches the answer to the waiting step and keeps `Valid`, as `FormFlow.Run` says. |
| Bots.ShouldRunDialogIff | MS365_DialogBot/Bots/DialogBot.cs:73 | The gate holds exactly when registering or when "REGISTRAMI" occurs at some index of the text. |
| Bots.TriggerExamples | MS365_DialogBot/Bots/DialogBot.cs:38 | "ciao REGISTRAMI" opens the gate and "registrami" does not. While registering, every text does. |
| Bots.HandleMessage | MS365_DialogBot/Bots/DialogBot.cs:63-99 | Handling a message keeps the state invariant. |
| Bots.HandleMessageGate | MS365_DialogBot/Bots/DialogBot.cs:73-98 | The bot answers exactly when the gate holds. With the gate closed, nothing changes except the lazily created profile. |
| Bots.RegisteringRoutesAnyText | MS365_DialogBot/Bots/DialogBot.cs:73 | While registering, a form is in progress and any text goes to the waiting step. |
| Bots.FreshProfileGate | MS365_DialogBot/Bots/DialogBot.cs:67 | On a profile created for this message, the bot answers exactly when the text contains the trigger. |
| Bots.RestartIgnoresCommitted | MS365_DialogBot/Bots/DialogBot.cs:73-97 | After a finished form, the trigger starts a new form at the name prompt whatever the profile holds. |
| Bots.Conversation | MS365_DialogBot/Bots/DialogBot.cs:53-61 | Every state a sequence of turns reaches keeps the invariant. |
| Bots.ConversationStep | MS365_DialogBot/Bots/DialogBot.cs:53-61 | A conversation is its first turn followed by the rest, started from the state that turn stores, with the messages concatenated in order. |
| Bots.ScenarioWithoutAge | MS365_DialogBot/Dialogs/UserProfileDialog.cs:25-34 | REGISTRAMI, Mario, No, Rome, Go, Si gives the profile Mario/-1/Rome/Go, not registering. The transcript is exact, with a recap without an age clause and the three completion messages. |
| Bots.ScenarioRetriedAgeDiscarded | MS365_DialogBot/Dialogs/UserProfileDialog.cs:25-34 | REGISTRAMI, Anna, Si, 200, 30, Turin, Python, No gives an exact transcript: one retry prompt right after 200, the retry invitation at the end and no completion message. Scratch ends empty and the profile keeps Anna/30/Turin/Python. |
| Bots.Guests | MS365_DialogBot/Bots/DialogBot.cs:103-105 | The members other than the bot are never more than the added members. |
| Bots.GuestsAppend | MS365_DialogBot/Bots/DialogBot.cs:103 | Filtering keeps list order: the filter of a concatenation is the concatenation of the filters. |
| Bots.GuestsCount | MS365_DialogBot/Bots/DialogBot.cs:103-105 | Each member whose Id is not the bot's is kept as many times as it was added. Members with the bot's Id are dropped. |
| Bots.GuestsMembers | MS365_DialogBot/Bots/DialogBot.cs:105 | A member is kept exactly when it was added and its Id differs from the bot's. |
| Bots.WelcomeMentions | MS365_DialogBot/Bots/DialogBot.cs:107 | Every welcome text contains the member's name and the trigger word. |
| Bots.DialogBot.constructor | MS365_DialogBot/Bots/DialogBot.cs:40-51 | A new bot has no profile yet and an idle dialog. |
| Bots.DialogBot.OnMessage | MS365_DialogBot/Bots/DialogBot.cs:63-99 | Lazily creates the profile, keeps it afterwards, and runs the dialog only behind the gate, as `HandleMessage` says. |
| Bots.DialogBot.OnMembersAdded | MS365_DialogBot/Bots/DialogBot.cs:101-111 | Sends one welcome per added member whose Id is not the bot's Id, in list order. There are as many welcomes as such members. |

## Left out

- The Bot Framework's waterfall engine (`PromptAsync`, `NextAsync`, `EndDialogAsync`, the dialog stack) is left out. It is replaced by the explicit `Stage` and one method call per inbound message.
- `ChoicePrompt` label matching is left out. The answer text stands for `FoundChoice.Value`. An answer matching no choice would make the framework re-prompt, and the model does not cover that.
- `NumberPrompt<int>` text-to-number recognition is left out. What it recognized is a parameter (`Option<int>`), and its 32-bit range is not modelled. Only values 1..149 and -1 are ever stored, so the width of `int` never matters.
- Prompt rendering is left out. The outbox holds a prompt's text, not the choices a channel would append. The contents of the language list (the duplicate "Java", "Altro") are not modelled, and the language is any string.
- State persistence is left out: `OnTurnAsync` and `SaveChangesAsync`, the state property accessors, and the commented-out alternative scopes of the dialog state. The model is the state of one user under the scope the code selects (user state).
- `async`, `Task` and `CancellationToken` are left out. Steps run one after another.
- The database write and the confirmation e-mail are left out. They are TODO comments with no behaviour.
- A message whose `Text` is null is left out. When the profile is not registering, the C# throws in `Contains` (DialogBot.cs:73). When it is, the `||` skips `Contains` and the waiting prompt fails to recognize the message and re-prompts. The model takes the text as a string.
- Several users and concurrent turns for one user are left out. The model assumes one turn at a time per user; the code does not enforce this, since it saves the user state without a lock or an ETag check (DialogBot.cs:55-60).
- FormFlow.SummaryShape: the age clause is stated by the recap's structure, not as a substring test. A name, city or language that itself contains ", hai 5 anni" would make the substring form false for age -1.
