# Genlingo front end: the interaction logic of three components

The repository is a React front end for a language-learning app. Almost all of
it is markup and styling; its logic is the local state of three components and
the rules that guard it. This project models that logic and proves what the
components promise about it.

- `DemoMobileForm` (`demo_form.dfy`, module `DemoMobileForm`): five controlled
  fields (name, feedback, level, agree, gender), a `touched` map and a
  `submitted` flag. The per-field `errors` and `hasError` are pure functions.
  The change, blur and submit handlers are events of a reducer `Step`, and
  `Form` is a class with the component's fields whose methods are proved to
  perform exactly those steps. `handleSubmit` returns the value it passes to
  `onSubmit`.
- `FeedbackDialog` (`feedback_dialog.dfy`, module `FeedbackDialog`): the draft
  text, the emoji rating, and the `submitting` and `success` flags. The
  `await onSubmit(...)` continuation and the 1800 ms reset timer are separate
  events (`SubmitResolved`, `SubmitRejected`, `TimerFired`). The state also
  counts the outstanding awaits and armed timers. Calls to the parent's
  `onSubmit` and `onOpenChange` are outputs of each step; the class `Dialog`
  keeps them in a `calls` log.
- `ProfileSettings` (`profile_settings.dfy`, module `ProfileSettings`): the
  notifications preference and the two-step sign-out confirmation. Calls to
  the optional `onSignOut` are counted. The profile header's fallbacks for the
  avatar letter, the name and the level are pure functions.

Each module has a function `Run` that folds `Step` over a list of events; the
trace lemmas are stated over `Run`. A predicate `Enabled` says which events the
rendered controls can produce: in the dialog and the settings panel a disabled
or hidden control produces none. The form's `Enabled` restricts only the
values the level select and the gender radios offer. The form does not guard
`handleSubmit` itself, so a submit is always enabled there; instead
`ReachableDisabledSubmitIsNoOp` proves that, in every state reached from
mount, a submit while the button is disabled changes nothing and calls nothing.

In these places the code does less than its option lists and labels suggest,
and the model follows the code:
- The form's level and gender are accepted when non-empty. The code does not
  check them against the offered options.
- The form's submit button is disabled only when the form has an error AND a
  submit has been tried. It is not simply disabled whenever the form is invalid.
- The dialog's submit button needs only non-empty text and a picked rating.
  The 5..500 length bounds come from the browser's constraint validation and
  the textarea's `maxLength`, not from the component. The model keeps only the
  500-character limit, as a condition on text edits.

## Model

| member | source | states |
|---|---|---|
| DemoMobileForm.InitialValues | src/components/DemoMobileForm.tsx:27-31 | Each of the five fields starts as the supplied `initial` value, or "" (false for agree) when `initial` or that key is absent |
| DemoMobileForm.ErrorOf | src/components/DemoMobileForm.tsx:35-41 | Every error message is a non-empty string, so it is truthy |
| DemoMobileForm.SomeTruthyIff | src/components/DemoMobileForm.tsx:42 | `some(Boolean)` holds iff some element is a truthy message |
| DemoMobileForm.HasErrorIffSomeField | src/components/DemoMobileForm.tsx:42 | `hasError` holds iff at least one of the five fields has an error |
| DemoMobileForm.ValidIff | src/components/DemoMobileForm.tsx:35-42 | No error iff the name is non-empty, the feedback has at least 5 characters (no upper bound), level and gender are non-empty, and agree is true |
| DemoMobileForm.UnofferedValuesAccepted | src/components/DemoMobileForm.tsx:36-40 | A level and a gender outside the offered options and a 501-character feedback pass validation |
| DemoMobileForm.InitialState | src/components/DemoMobileForm.tsx:27-33 | A new form is unsubmitted with no field touched |
| DemoMobileForm.AllFieldsTouched | src/components/DemoMobileForm.tsx:46 | The map `handleSubmit` installs marks all five fields touched |
| DemoMobileForm.SubmitTouchesAll | src/components/DemoMobileForm.tsx:44-47 | A submit marks all five fields touched and sets `submitted`, valid or not, and keeps the values |
| DemoMobileForm.SubmitForwardsOnlyValid | src/components/DemoMobileForm.tsx:48-50 | `onSubmit` is called iff all five rules hold, and it receives the current values unchanged |
| DemoMobileForm.SubmitShowsAllErrors | src/components/DemoMobileForm.tsx:74-76 | After a submit, a field's message is visible iff that field has an error |
| DemoMobileForm.BlurTouchesOnly | src/components/DemoMobileForm.tsx:70 | Blurring a field sets only that field's touched flag; the values and `submitted` are unchanged |
| DemoMobileForm.RunSendsOnlyValid | src/components/DemoMobileForm.tsx:48-50 | Along any run, every value passed to `onSubmit` is error-free |
| DemoMobileForm.RunSubmitted | src/components/DemoMobileForm.tsx:44-51 | After a run, `submitted` holds iff it held before or the run contains a submit |
| DemoMobileForm.ButtonDisabledIff | src/components/DemoMobileForm.tsx:166 | From a new form, the button is disabled iff the form has an error and a submit has been tried |
| DemoMobileForm.BlankFormSubmittable | src/components/DemoMobileForm.tsx:166 | A blank form has errors, yet its button starts enabled |
| DemoMobileForm.DisabledSubmitIsNoOp | src/components/DemoMobileForm.tsx:44-51 | In a disabled state whose touched map is the full one once submitted, a submit changes no state and calls nothing |
| DemoMobileForm.RunKeepsAllTouched | src/components/DemoMobileForm.tsx:46 | Once the form is submitted, every later state has all five fields touched: blurs only re-set flags |
| DemoMobileForm.ReachableDisabledSubmitIsNoOp | src/components/DemoMobileForm.tsx:166 | In every state reached from mount, a submit while the button is disabled changes nothing and calls nothing |
| DemoMobileForm.ControlsKeepOfferedChoices | src/components/DemoMobileForm.tsx:106-131 | Through the controls alone, the level stays an offered option or the placeholder and the gender a radio value or unset; only `initial` can supply other values |
| DemoMobileForm.Form.constructor | src/components/DemoMobileForm.tsx:27-33 | The fields start as the initial state |
| DemoMobileForm.Form.ChangeName | src/components/DemoMobileForm.tsx:69 | Sets the name; touched and submitted unchanged |
| DemoMobileForm.Form.ChangeFeedback | src/components/DemoMobileForm.tsx:88 | Sets the feedback; touched and submitted unchanged |
| DemoMobileForm.Form.ChangeLevel | src/components/DemoMobileForm.tsx:106 | Sets the level to one of the select's option values |
| DemoMobileForm.Form.PickGender | src/components/DemoMobileForm.tsx:131 | Sets the gender to the picked radio value |
| DemoMobileForm.Form.ChangeAgree | src/components/DemoMobileForm.tsx:151 | Sets agree to the checkbox's checked value |
| DemoMobileForm.Form.Blur | src/components/DemoMobileForm.tsx:70 | Sets the blurred field's touched flag and nothing else |
| DemoMobileForm.Form.HandleSubmit | src/components/DemoMobileForm.tsx:44-51 | Marks all fields touched, sets `submitted`, and returns the values iff there was no error |
| FeedbackDialog.OfferedRatings | src/components/FeedbackDialog.tsx:14-19 | The offered ratings are exactly {2, 3, 4, 5}; 1 is never offered |
| FeedbackDialog.InitialInv | src/components/FeedbackDialog.tsx:22-25 | The initial state satisfies the invariant, shows no thank-you and has submit disabled |
| FeedbackDialog.StepInv | src/components/FeedbackDialog.tsx:27-39 | Every event keeps the invariant: the rating is unset or offered, at most one submit is awaited and only while submitting, and success always has a reset timer armed |
| FeedbackDialog.PickSetsOfferedValue | src/components/FeedbackDialog.tsx:66 | Picking the i-th button stores that button's value, which lies in {2, 3, 4, 5} |
| FeedbackDialog.SubmitEnabledIff | src/components/FeedbackDialog.tsx:90 | Submit is enabled iff not submitting, the text is non-empty and a rating is picked |
| FeedbackDialog.SubmitSendsDraft | src/components/FeedbackDialog.tsx:29-30 | Beginning a submit sets `submitting` and sends the current text and the picked rating, never the `?? 0` fallback |
| FeedbackDialog.ResolveKeepsDraft | src/components/FeedbackDialog.tsx:31-32 | When `onSubmit` resolves, `submitting` clears and `success` is set, the textarea stays disabled, and the text and rating are kept |
| FeedbackDialog.TimerResets | src/components/FeedbackDialog.tsx:33-38 | The timer clears `success`, the text and the rating, and calls `onOpenChange(false)` exactly once |
| FeedbackDialog.CloseKeepsDraft | src/components/FeedbackDialog.tsx:42 | Closing from outside calls `onOpenChange(false)` and keeps the text and rating |
| FeedbackDialog.RunInv | src/components/FeedbackDialog.tsx:27-39 | Along any run the invariant holds, and every submission sent has non-empty text and a rating in {2, 3, 4, 5} |
| FeedbackDialog.StuckAfterRejection | src/components/FeedbackDialog.tsx:29-32 | Once a rejected submit leaves `submitting` set with nothing awaited, no run clears it or sends another submission |
| FeedbackDialog.NoSuccessAfterRejection | src/components/FeedbackDialog.tsx:29-32 | Once stuck in `submitting` after a rejection with no thank-you shown, no run ever shows the thank-you or enables the submit button |
| FeedbackDialog.RejectionStrands | src/components/FeedbackDialog.tsx:29-32 | A submit followed by a rejection leaves `submitting` set with nothing awaited, and nothing else changes |
| FeedbackDialog.ResubmitDuringSuccess | src/components/FeedbackDialog.tsx:90 | During the thank-you window the draft can be submitted again, leaving `submitting` and `success` both set |
| FeedbackDialog.Dialog.constructor | src/components/FeedbackDialog.tsx:22-25 | Empty text, no rating, both flags false, no calls made |
| FeedbackDialog.Dialog.EditText | src/components/FeedbackDialog.tsx:78 | Sets the text, only while the textarea is enabled |
| FeedbackDialog.Dialog.PickRating | src/components/FeedbackDialog.tsx:66 | Sets the rating to the picked button's value, an offered value |
| FeedbackDialog.Dialog.HandleSubmit | src/components/FeedbackDialog.tsx:27-30 | Sets `submitting`, keeps the flow invariant, and calls `onSubmit` with `{text: feedback, rating: rating ?? 0}`, whose text is non-empty and whose rating lies in {2, 3, 4, 5} |
| FeedbackDialog.Dialog.OnSubmitResolved | src/components/FeedbackDialog.tsx:31-33 | Clears `submitting`, sets `success` and arms the reset timer |
| FeedbackDialog.Dialog.OnSubmitRejected | src/components/FeedbackDialog.tsx:30 | Changes no flag: the rest of the handler does not run |
| FeedbackDialog.Dialog.OnTimer | src/components/FeedbackDialog.tsx:33-38 | Clears `success`, the text and the rating, and calls `onOpenChange(false)` |
| FeedbackDialog.Dialog.RequestClose | src/components/FeedbackDialog.tsx:42 | Calls `onOpenChange(false)` and changes no state |
| ProfileSettings.AvatarInitial | src/components/ProfileSettings.tsx:32 | One character: the name's first, or "U" when the user or the name is missing or empty |
| ProfileSettings.DisplayName | src/components/ProfileSettings.tsx:35 | The name when one is given, otherwise "Your Name" |
| ProfileSettings.DisplayLevel | src/components/ProfileSettings.tsx:37 | The given level, 0 included, or 5 when the user or level is missing |
| ProfileSettings.Avatar | src/components/ProfileSettings.tsx:29-33 | The image, with the URL as source and the name as alt text, is shown iff a non-empty avatar URL is given; otherwise the fallback shows `AvatarInitial` |
| ProfileSettings.InitialMatchesNameIff | src/components/ProfileSettings.tsx:32-35 | The avatar letter starts the displayed name iff a name is given ("U" versus "Your Name") |
| ProfileSettings.FallbacksDiffer | src/components/ProfileSettings.tsx:35-37 | An empty name falls back to "Your Name", while level 0 is kept and only a missing level shows 5 |
| ProfileSettings.SwitchOnlyOnNotificationsRow | src/components/ProfileSettings.tsx:13-18 | Each settings key has a row, and a row carries the switch iff it is the notifications row |
| ProfileSettings.RowClickEffect | src/components/ProfileSettings.tsx:52-55 | A row click flips notifications iff it is the notifications row, and changes nothing else |
| ProfileSettings.SwitchSetsReported | src/components/ProfileSettings.tsx:64 | The switch sets notifications to the reported value (idempotent, not a flip) |
| ProfileSettings.SwitchAndRowCancel | src/components/ProfileSettings.tsx:52-64 | The switch handler followed by its row's flip leaves the state as it was |
| ProfileSettings.OpenThenCancel | src/components/ProfileSettings.tsx:77-104 | Opening then cancelling restores the state and calls no `onSignOut` |
| ProfileSettings.ConfirmSignsOut | src/components/ProfileSettings.tsx:96 | Confirm hides the confirmation, keeps notifications, and calls `onSignOut` once iff it is supplied |
| ProfileSettings.SignOutNeedsOpenAndConfirm | src/components/ProfileSettings.tsx:77-104 | Along any run, sign-out calls never outnumber confirm clicks, nor sign-out-row clicks (plus one if the confirmation was already open) |
| ProfileSettings.NoSignOutWithoutOpening | src/components/ProfileSettings.tsx:21-22 | From the initial panel, no run without a sign-out-row click calls `onSignOut` |
| ProfileSettings.Panel.constructor | src/components/ProfileSettings.tsx:21-22 | Notifications on, confirmation hidden, no sign-out calls |
| ProfileSettings.Panel.ClickRow | src/components/ProfileSettings.tsx:52-55 | Flips notifications for the notifications row only |
| ProfileSettings.Panel.ChangeSwitch | src/components/ProfileSettings.tsx:64 | Sets notifications to the checked value |
| ProfileSettings.Panel.ClickSignOut | src/components/ProfileSettings.tsx:77 | Shows the confirmation |
| ProfileSettings.Panel.Confirm | src/components/ProfileSettings.tsx:96 | Hides the confirmation and calls `onSignOut` if it is supplied |
| ProfileSettings.Panel.Cancel | src/components/ProfileSettings.tsx:104 | Hides the confirmation and calls nothing |

## Left out

- Markup, styling, animations, icons and aria attributes: presentational only.
- `src/app/page.tsx`, `src/app/layout.tsx` and `src/components/MainNavigation.tsx`: `page.tsx` holds the current tab and the dialog's open flag, and its submit and sign-out callbacks only log to the console; `MainNavigation.tsx` only forwards the clicked tab key; `layout.tsx` is static metadata with no handlers.
- The sign-out confirmation is a full-screen overlay, so while it shows, clicks cannot reach the settings rows, the switch or the sign-out row. The settings panel's `Enabled` does not model this occlusion and allows those events then; no lemma depends on it.
- Wall-clock time and scheduling: the 1800 ms timer and the `await` are events that may occur in any order their counters allow. Timer cancellation on unmount is not modelled.
- The dialog's `open` prop: the component's state does not depend on it, and the model does not restrict which events can occur while the dialog is closed.
- Browser constraint validation (`required`, `minLength`) of the dialog's textarea is not modelled. Its `maxLength` of 500 is kept as a condition on text edits.
- DOM event bubbling: a click on the notifications switch also reaches its row. The model treats the two handlers as separate events; `SwitchAndRowCancel` shows what running both does.
- String lengths count Dafny characters, not UTF-16 code units, and the avatar letter is the first character. Text with characters outside the Basic Multilingual Plane is therefore measured differently from the browser.
- The `user` prop's level is an integer or absent. TypeScript's `number` also allows fractions and NaN, which `??` passes through unchanged like any other number.
- The `user` prop's name is always present, as its declared type requires; the header code also guards a missing name, which behaves like an empty one.
- Console logging and the internals of the UI library components (Dialog, Switch, Input, Avatar).
