/** The sign-up form component as an object: its fields are the state hooks
    and the watched form values, its methods the event handlers and the
    watchers. Each watcher reads its conditions from the render it runs in
    (the snapshot) and applies its queued updates in order: a functional
    update changes the latest pending value, a whole-object set replaces it. */
module SignUp {
  import opened SignUpGates
  import SignUpProperties

  class SignUpForm {
    var id: string
    var auth: Role
    var code: string
    var isValid: bool
    var idError: Option<string>
    var idCheck: IdGate
    var codeCheck: CodeGate
    var codeError: CodeError
    /** The confirm-modal record shared with the modal component. */
    var modal: ModalState

    /** The fields as one value. */
    function State(): Form
      reads this
    {
      Form(id, auth, code, isValid, idError, idCheck, codeCheck, codeError, modal)
    }

    ghost predicate Valid()
      reads this
    {
      Inv(State())
    }

    /** Mounting: the default values, then each watcher once. `shared` is the
        modal record as the form finds it. */
    constructor (shared: ModalState)
      ensures State() == Mounted(shared) && Valid()
      ensures SubmitDisabled(State())
    {
      id, auth, code := "", Teacher, "";
      isValid, idError := false, None;
      idCheck := IdGate(false, "", true);
      codeCheck := CodeGate(false, "", true);
      codeError := CodeError(false, "");
      modal := shared;
      new;
      RoleWatcher();
      IdWatcher();
      CodeWatcher();
    }

    // ------------------------------------------------------------ handlers

    /** The identifier check button (the check itself is a stub that succeeds). */
    method IdDuplicateCheckHandler()
      requires Valid()
      modifies this
      ensures Valid() && State() == OnIdCheck(old(State()))
      ensures idCheck.confirmed && idCheck.btnDisabled && idCheck.msg == IdAvailableMsg
      ensures !SubmitDisabled(State()) <==> isValid && codeCheck.confirmed
    {
      idCheck := IdGate(true, IdAvailableMsg, true);
      SignUpProperties.StepPreservesInv(old(State()), IdCheckClick);
    }

    /** The code check button (the check itself is a stub that succeeds). */
    method CodeDuplicateCheckHandler()
      requires Valid()
      modifies this
      ensures Valid() && State() == OnCodeCheck(old(State()))
      ensures codeCheck.confirmed && codeCheck.btnDisabled && codeCheck.msg == CodeVerifiedMsg
    {
      codeCheck := CodeGate(true, CodeVerifiedMsg, true);
      SignUpProperties.StepPreservesInv(old(State()), CodeCheckClick);
    }

    /** The submit button's click handler: opens the confirm modal. */
    method OnClickSignUpBtnHandler()
      requires Valid()
      modifies this
      ensures Valid() && State() == OnSubmitClick(old(State()))
      ensures modal == ModalState(old(modal.selectedAuth), true)
    {
      modal := modal.(isModalOpen := true);
      SignUpProperties.StepPreservesInv(old(State()), SubmitClick);
    }

    // -------------------------------------------------------------- events

    /** The user picks a role radio button. */
    method SelectAuth(role: Role)
      requires Valid()
      modifies this
      ensures Valid() && State() == OnRoleChange(old(State()), role)
    {
      if role != auth {
        auth := role;
        var before := code;
        RoleWatcher();
        if code != before {
          CodeWatcher();
        }
      }
      SignUpProperties.StepPreservesInv(old(State()), RoleChange(role));
    }

    /** The user edits the identifier. */
    method TypeId(s: string)
      requires Valid()
      modifies this
      ensures Valid() && State() == OnIdChange(old(State()), s)
      ensures s != old(id) ==> !idCheck.confirmed
    {
      if s != id {
        id := s;
        IdWatcher();
      }
      SignUpProperties.StepPreservesInv(old(State()), IdChange(s));
    }

    /** The user edits the invitation code. */
    method OnChangeCodeHandler(s: string)
      requires Valid()
      modifies this
      ensures Valid() && State() == OnCodeChange(old(State()), s)
      ensures codeCheck.confirmed == old(codeCheck.confirmed)
    {
      if s != code {
        code := s;
        CodeWatcher();
      }
      SignUpProperties.StepPreservesInv(old(State()), CodeChange(s));
    }

    /** The form library reports the outcome of validating the current values
        against its schema. */
    method ApplyValidation(valid: bool, err: Option<string>)
      requires Valid()
      modifies this
      ensures Valid() && State() == OnValidation(old(State()), valid, err)
      ensures isValid == valid && idError == err
      ensures idCheck == old(idCheck) && codeCheck == old(codeCheck) && modal == old(modal)
    {
      isValid, idError := valid, err;
      SignUpProperties.StepPreservesInv(old(State()), Validation(valid, err));
    }

    // ------------------------------------------------------------ watchers

    /** The role watcher, for the role now in `auth`. */
    method RoleWatcher()
      modifies this
      ensures State() == RoleWatch(old(State()))
    {
      if auth == Student {
        codeError := CodeError(false, "");
        codeCheck := CodeGate(true, "", true);
        code := "";
      }
      if auth == Teacher {
        codeCheck := codeCheck.(confirmed := false);
      }
      modal := modal.(selectedAuth := auth);
    }

    /** The identifier watcher, for the identifier now in `id`. */
    method IdWatcher()
      modifies this
      ensures State() == IdWatch(old(State()))
    {
      var snapshot := idCheck;
      var pending := idCheck;
      if snapshot.btnDisabled && |id| >= IdMinLength {
        pending := pending.(btnDisabled := false);
        idError := Some(IdCheckPromptMsg);
      }
      if !snapshot.btnDisabled && |id| < IdMinLength {
        pending := pending.(btnDisabled := true);
      }
      if snapshot.confirmed {
        var isDisabled := |id| >= IdMinLength;
        pending := IdGate(false, "", isDisabled);
      }
      idCheck := pending;
    }

    /** The code watcher, for the code now in `code`. */
    method CodeWatcher()
      modifies this
      ensures State() == CodeWatch(old(State()))
    {
      if auth == Teacher && codeCheck.btnDisabled && |code| == CodeLength {
        codeCheck := codeCheck.(btnDisabled := false);
      } else {
        codeCheck := codeCheck.(btnDisabled := true);
      }
    }
  }
}
