/** The state record of the sign-up form and its transitions, as values.
    Each user event is a function from the state before the event to the state
    after it; the watchers (React effects) read their conditions from the state
    before the event and their queued updates are folded into one result.
    The class in module SignUp performs the same writes step by step and is
    proved equal to these functions. */
module SignUpGates {

  datatype Option<T> = None | Some(value: T)

  /** The two values the role radio buttons produce ("teacher", "student"). */
  datatype Role = Teacher | Student

  /** The identifier uniqueness gate {isIdDuplicateCheck, idDuplicateMsg, isIdBtnDisabled}. */
  datatype IdGate = IdGate(confirmed: bool, msg: string, btnDisabled: bool)

  /** The invitation code gate {isCodeDuplicateCheck, codeDuplicateMsg, isCodeBtnDisabled}. */
  datatype CodeGate = CodeGate(confirmed: bool, msg: string, btnDisabled: bool)

  /** The code error record {isError, codeErrorMsg}. */
  datatype CodeError = CodeError(isError: bool, msg: string)

  /** The confirm-modal record shared with the modal component. */
  datatype ModalState = ModalState(selectedAuth: Role, isModalOpen: bool)

  /** The whole form state. `isValid` and `idError` are what the form library's
      schema validation reports; the schema itself is not modelled, so they
      change only through the Validation event, except for the synthetic
      identifier error the identifier watcher injects. */
  datatype Form = Form(
    id: string,
    auth: Role,
    code: string,
    isValid: bool,
    idError: Option<string>,
    idCheck: IdGate,
    codeCheck: CodeGate,
    codeError: CodeError,
    modal: ModalState)

  /** Identifier length from which the uniqueness check may be run. */
  const IdMinLength: nat := 8
  /** Exact length of an invitation code. */
  const CodeLength: nat := 8

  const IdAvailableMsg: string := "사용 가능한 아이디입니다."
  const IdCheckPromptMsg: string := "아이디 중복확인을 하세요."
  const CodeVerifiedMsg: string := "인증이 완료되었습니다."

  const NoCodeError := CodeError(false, "")

  /** The useState / useForm default values, before any effect has run.
      The form library reports the form invalid until it has validated. */
  function Initial(shared: ModalState): Form {
    Form("", Teacher, "", false, None,
         IdGate(false, "", true),
         CodeGate(false, "", true),
         NoCodeError,
         shared)
  }

  // ---------------------------------------------------------------- watchers

  /** Body of the role watcher, for the role `f.auth` just selected. */
  function RoleWatch(f: Form): Form {
    match f.auth
    case Student =>
      f.(codeError := NoCodeError,
         codeCheck := CodeGate(true, "", true),
         code := "",
         modal := f.modal.(selectedAuth := Student))
    case Teacher =>
      f.(codeCheck := f.codeCheck.(confirmed := false),
         modal := f.modal.(selectedAuth := Teacher))
  }

  /** Body of the identifier watcher, for the identifier `f.id` just typed.
      The two edge-triggered updates read the gate before the event; a
      confirmed gate is then replaced as a whole, overriding them. */
  function IdWatch(f: Form): Form {
    var g := f.idCheck;
    var long := |f.id| >= IdMinLength;
    var edge :=
      if g.btnDisabled && long then false
      else if !g.btnDisabled && !long then true
      else g.btnDisabled;
    f.(idCheck := if g.confirmed then IdGate(false, "", long) else g.(btnDisabled := edge),
       idError := if g.btnDisabled && long then Some(IdCheckPromptMsg) else f.idError)
  }

  /** Body of the code watcher, for the code `f.code` just typed. */
  function CodeWatch(f: Form): Form {
    var enable := f.auth == Teacher && f.codeCheck.btnDisabled && |f.code| == CodeLength;
    f.(codeCheck := f.codeCheck.(btnDisabled := !enable))
  }

  /** The state once the form is mounted: the three watchers run once, in
      declaration order. (They all read the initial render; with the initial
      values no watcher's condition depends on another's writes.) */
  function Mounted(shared: ModalState): (r: Form)
    ensures r.id == "" && r.code == "" && r.auth == Teacher
    ensures r.idCheck == IdGate(false, "", true)
    ensures r.codeCheck == CodeGate(false, "", true)
    ensures r.codeError == NoCodeError && r.idError == None
    ensures r.modal == ModalState(Teacher, shared.isModalOpen)
    ensures SubmitDisabled(r) && Inv(r)
  {
    CodeWatch(IdWatch(RoleWatch(Initial(shared))))
  }

  // ------------------------------------------------------------------ events

  /** The user picks a role. The role watcher runs only when the role changes;
      when it clears a non-empty code, the code watcher runs after it. */
  function OnRoleChange(f: Form, role: Role): (r: Form)
    ensures role == f.auth ==> r == f
    ensures r.auth == role && r.id == f.id && r.isValid == f.isValid
    ensures r.idCheck == f.idCheck && r.idError == f.idError
    ensures role != f.auth ==> r.modal == ModalState(role, f.modal.isModalOpen)
    ensures role != f.auth && role == Student ==>
      r.codeCheck == CodeGate(true, "", true) && r.codeError == NoCodeError && r.code == ""
    ensures role != f.auth && role == Teacher ==>
      r.codeCheck == f.codeCheck.(confirmed := false) && r.codeError == f.codeError && r.code == f.code
  {
    if role == f.auth then f
    else
      var g := RoleWatch(f.(auth := role));
      if g.code != f.code then CodeWatch(g) else g
  }

  /** The user edits the identifier. Any real edit leaves the gate unconfirmed;
      from an unconfirmed gate the button ends disabled exactly below the
      minimum length, while editing a confirmed identifier sets the button's
      disabled flag to (length >= minimum). */
  function OnIdChange(f: Form, s: string): (r: Form)
    ensures s == f.id ==> r == f
    ensures s != f.id ==> r == f.(id := s, idCheck := r.idCheck, idError := r.idError)
    ensures s != f.id ==> !r.idCheck.confirmed && SubmitDisabled(r)
    ensures s != f.id && !f.idCheck.confirmed ==>
      r.idCheck == f.idCheck.(btnDisabled := |s| < IdMinLength)
    ensures s != f.id && f.idCheck.confirmed ==>
      r.idCheck == IdGate(false, "", |s| >= IdMinLength)
    ensures s != f.id ==>
      r.idError == if f.idCheck.btnDisabled && |s| >= IdMinLength then Some(IdCheckPromptMsg) else f.idError
  {
    if s == f.id then f else IdWatch(f.(id := s))
  }

  /** The user edits the invitation code. The button is enabled exactly when
      the role is teacher, it was disabled and the code has the exact length;
      the gate's confirmation and message are never touched. */
  function OnCodeChange(f: Form, s: string): (r: Form)
    ensures s == f.code ==> r == f
    ensures s != f.code ==> r == f.(code := s, codeCheck := r.codeCheck)
    ensures r.codeCheck.confirmed == f.codeCheck.confirmed && r.codeCheck.msg == f.codeCheck.msg
    ensures s != f.code ==>
      (!r.codeCheck.btnDisabled <==>
         f.auth == Teacher && f.codeCheck.btnDisabled && |s| == CodeLength)
    ensures Inv(f) && f.auth == Student ==> r.codeCheck.btnDisabled
  {
    if s == f.code then f else CodeWatch(f.(code := s))
  }

  /** The identifier check button: the stubbed check always succeeds. */
  function OnIdCheck(f: Form): (r: Form)
    ensures r == f.(idCheck := r.idCheck)
    ensures r.idCheck.confirmed && r.idCheck.btnDisabled && r.idCheck.msg == IdAvailableMsg
    ensures !SubmitDisabled(r) <==> f.isValid && f.codeCheck.confirmed
  {
    f.(idCheck := IdGate(true, IdAvailableMsg, true))
  }

  /** The code check button: the stubbed check always succeeds. */
  function OnCodeCheck(f: Form): (r: Form)
    ensures r == f.(codeCheck := r.codeCheck)
    ensures r.codeCheck.confirmed && r.codeCheck.btnDisabled && r.codeCheck.msg == CodeVerifiedMsg
    ensures !SubmitDisabled(r) <==> f.isValid && f.idCheck.confirmed
  {
    f.(codeCheck := CodeGate(true, CodeVerifiedMsg, true))
  }

  /** The submit button's click handler opens the confirm modal. */
  function OnSubmitClick(f: Form): (r: Form)
    ensures r == f.(modal := r.modal)
    ensures r.modal.isModalOpen && r.modal.selectedAuth == f.modal.selectedAuth
  {
    f.(modal := f.modal.(isModalOpen := true))
  }

  /** The form library reports a new validation outcome. */
  function OnValidation(f: Form, valid: bool, idError: Option<string>): Form {
    f.(isValid := valid, idError := idError)
  }

  // ------------------------------------------------------------- submit gate

  /** The submit button's `disabled` expression. */
  predicate SubmitDisabled(f: Form) {
    !f.isValid || !f.idCheck.confirmed || !f.codeCheck.confirmed
  }

  // --------------------------------------------------------------- invariant

  /** What holds in every state reachable from mount. */
  ghost predicate Inv(f: Form) {
    (f.idCheck.confirmed ==> f.idCheck.btnDisabled)
    && f.idCheck.msg == (if f.idCheck.confirmed then IdAvailableMsg else "")
    && (f.codeCheck.msg == "" || f.codeCheck.msg == CodeVerifiedMsg)
    && (f.auth == Student ==> f.codeCheck.confirmed && f.codeCheck.btnDisabled)
    && f.codeError == NoCodeError
    && f.modal.selectedAuth == f.auth
  }

  // ---------------------------------------------------------- event sequences

  datatype Event =
    | IdCheckClick
    | CodeCheckClick
    | SubmitClick
    | RoleChange(role: Role)
    | IdChange(id: string)
    | CodeChange(code: string)
    | Validation(valid: bool, idError: Option<string>)

  function Step(f: Form, e: Event): Form {
    match e
    case IdCheckClick => OnIdCheck(f)
    case CodeCheckClick => OnCodeCheck(f)
    case SubmitClick => OnSubmitClick(f)
    case RoleChange(role) => OnRoleChange(f, role)
    case IdChange(s) => OnIdChange(f, s)
    case CodeChange(s) => OnCodeChange(f, s)
    case Validation(valid, err) => OnValidation(f, valid, err)
  }

  /** The state after the events `es`, in order. */
  function Run(f: Form, es: seq<Event>): Form
    decreases |es|
  {
    if es == [] then f else Run(Step(f, es[0]), es[1..])
  }
}
