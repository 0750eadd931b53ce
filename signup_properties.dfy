/** Properties of the sign-up form's gates over single events and whole
    sequences of events from mount. */
module SignUpProperties {
  import opened SignUpGates

  /** Every event keeps the invariant. */
  lemma StepPreservesInv(f: Form, e: Event)
    requires Inv(f)
    ensures Inv(Step(f, e))
  {
  }

  /** Every sequence of events keeps the invariant. */
  lemma {:induction false} RunPreservesInv(f: Form, es: seq<Event>)
    requires Inv(f)
    ensures Inv(Run(f, es))
    decreases |es|
  {
    if es != [] {
      StepPreservesInv(f, es[0]);
      RunPreservesInv(Step(f, es[0]), es[1..]);
    }
  }

  /** The submit gate in the role-aware form: once the invariant holds, a
      student never waits on the code gate. */
  lemma SubmitGateByRole(f: Form)
    requires Inv(f)
    ensures !SubmitDisabled(f) <==>
      f.isValid && f.idCheck.confirmed && (f.auth == Student || f.codeCheck.confirmed)
  {
  }

  /** In every state reachable from mount: a confirmed identifier has its check
      button disabled, the code error is clear, the modal records the current
      role, and in student mode submitting depends only on validity and the
      identifier gate. */
  lemma Reachable(shared: ModalState, es: seq<Event>)
    ensures var f := Run(Mounted(shared), es);
      && (f.idCheck.confirmed ==> f.idCheck.btnDisabled)
      && f.codeError == CodeError(false, "")
      && f.modal.selectedAuth == f.auth
      && (f.auth == Student ==> (SubmitDisabled(f) <==> !f.isValid || !f.idCheck.confirmed))
  {
    RunPreservesInv(Mounted(shared), es);
  }

  /** Until the identifier check is clicked, the edge-triggered button rule
      amounts to a level rule: the identifier button is disabled exactly when
      the identifier is shorter than the minimum, and the gate stays
      unconfirmed (so submitting stays disabled). */
  lemma {:induction false} UncheckedIdButtonFollowsLength(f: Form, es: seq<Event>)
    requires !f.idCheck.confirmed && f.idCheck.btnDisabled == (|f.id| < IdMinLength)
    requires forall i :: 0 <= i < |es| ==> es[i] != IdCheckClick
    ensures var r := Run(f, es);
      !r.idCheck.confirmed && r.idCheck.btnDisabled == (|r.id| < IdMinLength) && SubmitDisabled(r)
    decreases |es|
  {
    if es != [] {
      assert es[0] != IdCheckClick;
      var g := Step(f, es[0]);
      assert !g.idCheck.confirmed && g.idCheck.btnDisabled == (|g.id| < IdMinLength);
      forall i | 0 <= i < |es[1..]| ensures es[1..][i] != IdCheckClick {
        assert es[1..][i] == es[i + 1];
      }
      UncheckedIdButtonFollowsLength(g, es[1..]);
    }
  }

  /** From mount, typing 7, 8, 9, 8 and 7 characters disables, enables, keeps
      enabled, keeps enabled and disables the identifier button; reaching 8
      characters records the prompt to run the check. */
  lemma IdBoundaryScenario(shared: ModalState)
    ensures var f0 := Mounted(shared);
      var f7 := OnIdChange(f0, "abcdefg");
      var f8 := OnIdChange(f7, "abcdefgh");
      var f9 := OnIdChange(f8, "abcdefghi");
      var g8 := OnIdChange(f9, "abcdefgh");
      var g7 := OnIdChange(g8, "abcdefg");
      && f7.idCheck.btnDisabled
      && !f8.idCheck.btnDisabled && f8.idError == Some(IdCheckPromptMsg)
      && !f9.idCheck.btnDisabled
      && !g8.idCheck.btnDisabled
      && g7.idCheck.btnDisabled
  {
  }

  /** Editing a confirmed identifier to a valid length leaves the button
      disabled while unconfirmed (and injects the prompt); the next edit at a
      valid length enables it. Editing it to a short length enables the
      button for one step. */
  lemma ConfirmedIdEditScenario(f: Form, s: string, t: string, u: string)
    requires Inv(f) && f.idCheck.confirmed
    requires s != f.id && |s| >= IdMinLength && t != s && |t| >= IdMinLength
    requires u != f.id && |u| < IdMinLength
    ensures var g := OnIdChange(f, s);
      && g.idCheck == IdGate(false, "", true) && g.idError == Some(IdCheckPromptMsg)
      && OnIdChange(g, t).idCheck == IdGate(false, "", false)
    ensures OnIdChange(f, u).idCheck == IdGate(false, "", false)
  {
  }

  /** Switching a teacher with a verified code to student and back: the code
      text is cleared, the code gate is satisfied while a student, and it is
      unconfirmed with a disabled button once a teacher again. */
  lemma RoleToggleScenario(f: Form)
    requires Inv(f) && f.auth == Teacher && f.codeCheck.confirmed
    ensures var s := OnRoleChange(f, Student);
      var t := OnRoleChange(s, Teacher);
      && s.code == "" && s.codeCheck == CodeGate(true, "", true)
      && (SubmitDisabled(s) <==> !f.isValid || !f.idCheck.confirmed)
      && t.code == "" && t.codeCheck == CodeGate(false, "", true)
      && t.modal == ModalState(Teacher, f.modal.isModalOpen)
      && SubmitDisabled(t)
  {
  }

  /** As written, editing a verified code does not withdraw the verification:
      a teacher can verify a code, shorten it and still submit. */
  lemma VerifiedCodeSurvivesEdit(f: Form, s: string)
    requires f.auth == Teacher && f.isValid && f.idCheck.confirmed
    ensures var g := OnCodeChange(OnCodeCheck(f), s);
      g.codeCheck.confirmed && !SubmitDisabled(g)
  {
  }

  /** An identifier of exactly 8 characters typed in student mode with an
      otherwise valid form shows the check prompt and cannot be submitted. */
  lemma StudentUncheckedIdScenario(shared: ModalState)
    ensures var f := Run(Mounted(shared),
                         [RoleChange(Student), Validation(true, None), IdChange("abcdefgh")]);
      f.idError == Some(IdCheckPromptMsg) && f.isValid && !f.idCheck.confirmed
      && !f.idCheck.btnDisabled && SubmitDisabled(f)
  {
  }

  /** From mount, a teacher who types an 8-character code gets an enabled
      code button; clearing the code disables it again; in student mode the
      same 8-character code leaves it disabled. */
  lemma CodeBoundaryScenario(shared: ModalState)
    ensures var f0 := Mounted(shared);
      var f8 := OnCodeChange(f0, "abcdefgh");
      var f0b := OnCodeChange(f8, "");
      var s8 := OnCodeChange(OnRoleChange(f0, Student), "abcdefgh");
      && f0.codeCheck.btnDisabled
      && !f8.codeCheck.btnDisabled
      && f0b.codeCheck.btnDisabled
      && s8.codeCheck.btnDisabled
  {
  }
}
