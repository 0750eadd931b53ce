# Sign-up form gating model

A Dafny model of the sign-up form of a teacher/student user-management
front end (`src/components/signUp/SignUpForm.tsx`). The form holds:

- the identifier gate `{isIdDuplicateCheck, idDuplicateMsg, isIdBtnDisabled}`,
- the invitation-code gate `{isCodeDuplicateCheck, codeDuplicateMsg, isCodeBtnDisabled}`,
- the code error `{isError, codeErrorMsg}` and the code text,
- the selected role `auth` (teacher by default),
- the confirm-modal record `{selectedAuth, isModalOpen}` it shares with the modal,

and changes them from two check-button handlers, the submit-click handler and
three watchers (React effects) on the role, the identifier and the code. The
submit button's `disabled` flag is a pure function of that state.

Modules:

- `SignUpGates` (`signup_gates.dfy`): the state record `Form` as a datatype;
  each event as a function from the state before to the state after
  (`OnRoleChange`, `OnIdChange`, `OnCodeChange`, `OnIdCheck`, `OnCodeCheck`,
  `OnSubmitClick`, `OnValidation`); the submit gate `SubmitDisabled`; the
  invariant `Inv`; and `Step`/`Run` over event sequences.
- `SignUpProperties` (`signup_properties.dfy`): lemmas over single events and
  whole runs from mount.
- `SignUp` (`signup_form.dfy`): the class `SignUpForm`, whose fields are the
  state hooks and whose methods perform the handlers' and watchers' writes in
  source order. Each watcher reads its conditions from the snapshot it runs in
  and applies its queued updates in order (a functional update changes the
  latest pending value; a whole-object set replaces it). Each event method is
  proved to produce exactly the `SignUpGates` function of the old state and to
  keep `Valid()`.

React semantics that the model makes explicit:

- A watcher runs only when its dependency changes. Entering the same role,
  identifier or code again changes nothing.
- On mount each watcher runs once, in declaration order.
- Switching to student clears the code. When the code was non-empty, that
  clear re-runs the code watcher afterwards.

Behaviour as written, which the model follows:

- Both checks are synchronous stubs that always succeed. There is no failure
  path, and `codeError` stays `{false, ""}` in every reachable state.
- The code button's rule does not consult `isCodeDuplicateCheck`.
- Editing the code never withdraws a code verification
  (`VerifiedCodeSurvivesEdit`).
- Editing a confirmed identifier sets the button-disabled flag to
  `length >= 8`, so the button is disabled at a valid length.
  Until the check is clicked, the two edge-triggered identifier updates
  together amount to the level rule "disabled iff length < 8".
- Clicking the identifier check does not clear the injected "아이디 중복확인을
  하세요." error. Only the next validation result replaces it.
- Switching to teacher sets only `isCodeDuplicateCheck` to false. It leaves the
  code button and message as they were.

## Model

| member | source | states |
|---|---|---|
| SignUpGates.Mounted | src/components/signUp/SignUpForm.tsx:37-63 | after mount both gates are unconfirmed with disabled buttons and empty messages, the code error is clear, the role is teacher and recorded in the modal record, the modal's open flag is untouched, submit is disabled, and the invariant holds |
| SignUpGates.OnRoleChange | src/components/signUp/SignUpForm.tsx:92-122 | the same role changes nothing; switching to student sets the code gate to {true, "", true}, clears the code error and the code text; switching to teacher sets only the gate's confirmation to false; any switch writes the role into selectedAuth and keeps isModalOpen; the identifier side is untouched |
| SignUpGates.OnIdChange | src/components/signUp/SignUpForm.tsx:124-154 | any real edit leaves the identifier gate unconfirmed and submit disabled; from an unconfirmed gate the button ends disabled exactly when the new length is below 8; from a confirmed gate the whole gate becomes {false, "", length >= 8}; the prompt error is recorded exactly when the button was disabled and the length is at least 8; nothing else changes |
| SignUpGates.OnCodeChange | src/components/signUp/SignUpForm.tsx:156-172 | a real edit enables the code button exactly when role is teacher, the button was disabled and the code has length 8, otherwise disables it; confirmation and message never change; in student mode the button stays disabled |
| SignUpGates.OnIdCheck | src/components/signUp/SignUpForm.tsx:67-74 | the identifier gate becomes confirmed with the available message and a disabled button; afterwards submit is enabled iff the form is valid and the code gate is confirmed; nothing else changes |
| SignUpGates.OnCodeCheck | src/components/signUp/SignUpForm.tsx:76-83 | the code gate becomes confirmed with the verified message and a disabled button; afterwards submit is enabled iff the form is valid and the identifier is confirmed; nothing else changes |
| SignUpGates.OnSubmitClick | src/components/signUp/SignUpForm.tsx:85-90 | the modal opens, selectedAuth is unchanged, nothing else changes |
| SignUpProperties.SubmitGateByRole | src/components/signUp/SignUpForm.tsx:362-366 | under the invariant, submit is enabled iff valid, identifier confirmed, and (student or code confirmed) |
| SignUpProperties.StepPreservesInv | src/components/signUp/SignUpForm.tsx:67-172 | every event keeps the invariant: confirmed identifier implies a disabled identifier button and the available message, code error clear, student implies a satisfied code gate, selectedAuth equals the role |
| SignUpProperties.RunPreservesInv | src/components/signUp/SignUpForm.tsx:67-172 | every event sequence keeps the invariant |
| SignUpProperties.Reachable | src/components/signUp/SignUpForm.tsx:49-172 | in every state reachable from mount, confirmed implies identifier button disabled, the code error is clear, selectedAuth is the role, and in student mode submit depends only on validity and the identifier gate |
| SignUpProperties.UncheckedIdButtonFollowsLength | src/components/signUp/SignUpForm.tsx:124-154 | as long as the identifier check is not clicked, the identifier stays unconfirmed, submit stays disabled and the button is disabled exactly below length 8 |
| SignUpProperties.IdBoundaryScenario | src/components/signUp/SignUpForm.tsx:127-143 | from mount, lengths 7, 8, 9, 8, 7 give disabled, enabled with the prompt error, enabled, enabled, disabled |
| SignUpProperties.ConfirmedIdEditScenario | src/components/signUp/SignUpForm.tsx:145-153 | editing a confirmed identifier to length at least 8 gives {false, "", disabled} with the prompt error; the next edit at length at least 8 enables the button; an edit of a confirmed identifier to a short length enables it |
| SignUpProperties.RoleToggleScenario | src/components/signUp/SignUpForm.tsx:95-116 | teacher with a verified code to student and back: code text cleared, code gate satisfied as student, then {false, "", disabled} as teacher with submit disabled |
| SignUpProperties.VerifiedCodeSurvivesEdit | src/components/signUp/SignUpForm.tsx:156-172 | after a code check, any code edit keeps the code gate confirmed and, with a valid form and confirmed identifier, submit enabled |
| SignUpProperties.StudentUncheckedIdScenario | src/components/signUp/SignUpForm.tsx:132-135 | student, valid form, identifier "abcdefgh" typed from mount: prompt error present, identifier unconfirmed, button enabled, submit disabled |
| SignUpProperties.CodeBoundaryScenario | src/components/signUp/SignUpForm.tsx:156-172 | from mount, a teacher's 8-character code enables the code button, clearing it disables it, and in student mode the 8-character code leaves it disabled |
| SignUp.SignUpForm.constructor | src/components/signUp/SignUpForm.tsx:37-63 | the object starts in the mounted state, valid, with submit disabled |
| SignUp.SignUpForm.IdDuplicateCheckHandler | src/components/signUp/SignUpForm.tsx:67-74 | the new state is OnIdCheck of the old one; the gate is confirmed with a disabled button; validity kept |
| SignUp.SignUpForm.CodeDuplicateCheckHandler | src/components/signUp/SignUpForm.tsx:76-83 | the new state is OnCodeCheck of the old one; validity kept |
| SignUp.SignUpForm.OnClickSignUpBtnHandler | src/components/signUp/SignUpForm.tsx:85-90 | the modal record becomes {old selectedAuth, open}; validity kept |
| SignUp.SignUpForm.SelectAuth | src/components/signUp/SignUpForm.tsx:92-122 | the new state is OnRoleChange of the old one, including the code watcher re-run after a cleared code |
| SignUp.SignUpForm.TypeId | src/components/signUp/SignUpForm.tsx:124-154 | the new state is OnIdChange of the old one; a real edit unconfirms the identifier |
| SignUp.SignUpForm.OnChangeCodeHandler | src/components/signUp/SignUpForm.tsx:156-172 | the new state is OnCodeChange of the old one; code confirmation unchanged |
| SignUp.SignUpForm.ApplyValidation | src/components/signUp/SignUpForm.tsx:30-46 | the validity flag and the identifier error take the reported values; the gates and the modal record are unchanged |
| SignUp.SignUpForm.RoleWatcher | src/components/signUp/SignUpForm.tsx:92-122 | the role watcher's writes, in order, give RoleWatch of the old state |
| SignUp.SignUpForm.IdWatcher | src/components/signUp/SignUpForm.tsx:124-154 | the queued identifier-gate updates read from the snapshot, with the whole-object reset last, give IdWatch of the old state |
| SignUp.SignUpForm.CodeWatcher | src/components/signUp/SignUpForm.tsx:156-172 | the code watcher's functional update gives CodeWatch of the old state |

## Left out

- The rendered markup, styling and the error/success message components (SignUpForm.tsx lines 174-373): presentation only.
- The form library and its schema. The schema file is not part of this model. `isValid` and the identifier's field error are abstract inputs, delivered by `ApplyValidation`. The other fields' errors are folded into `isValid`. The library's asynchronous validation and its timing relative to the watchers are not modelled.
- The `maxLength` attributes of the inputs. Any string may be typed.
- String length is counted in characters, not in UTF-16 code units.
- The DOM reset of the code input through its ref. The model mirrors it by clearing the code text.
- The shared-state library. The modal record is a plain field, given to the constructor as the form finds it. Its initial value is defined in a file that is not part of this model.
- The confirm modal's close handlers and outside-click listener, which only set `isModalOpen` to false. The container's teardown reset. The delete-learner modal, the learner search box and the route table. None of these is gating logic.
- Asynchronous or failing checks. Both handlers are synchronous stubs, so there is no failure path and no race to model.
- Role values other than teacher and student. The radio inputs produce only these two.
- The submit handler passed to the form library, which is empty.
- A click on a disabled button. The handlers are modelled as the functions they are; the browser not delivering clicks to disabled buttons is not modelled.
