/** What holds of an attempt, a session or a person over whole runs of the magic-link protocol. */
module MagicLinkHistory {
  import opened Collections
  import opened MagicLinkModel
  import opened MagicLinkInvariant

  // ---- the life of one attempt ----

  predicate Final(a: Attempt) {
    a.state.Consumed? || a.state.Superseded? || a.state.Expired? || a.state.Failed?
  }

  /** What one step may do to an attempt; a final record is never written again. */
  predicate Moves(a: Attempt, b: Attempt) {
    b == a ||
    (b.request == a.request && b.kind == a.kind && SameSubject(a, b) &&
     match a.state
     case Pending => b.state.Issuing? || b.state.Failed?
     case Issuing => b.state.Issued? || b.state.Superseded? || b.state.Failed?
     case Issued => b.state.Consumed? || b.state.Superseded? || b.state.Expired?
     case _ => false)
  }

  ghost predicate AllMove(s: Store, s': Store) {
    forall i :: i in s.attempts ==> i in s'.attempts && Moves(s.attempts[i], s'.attempts[i])
  }

  lemma CloseIssueMoves(s: Store, call: Id, g: Generated, at: int, current: Option<Id>)
    requires current.Some? ==> current.value in s.attempts && s.attempts[current.value].state.Issued?
    requires InIssue(s, call) ==> s.attempts[s.calls[call].attempt].state.Issuing?
    ensures AllMove(s, CloseIssue(s, call, g, at, current))
  {
  }

  lemma OpenIssueMoves(s: Store, call: Id, id: Id, expected: Option<Id>)
    ensures AllMove(s, OpenIssue(s, call, id, expected))
  {
  }

  lemma FailIssueMoves(s: Store, call: Id, reason: string)
    requires InIssue(s, call) ==> s.attempts[s.calls[call].attempt].state.Issuing?
    ensures AllMove(s, FailIssue(s, call, reason))
  {
  }

  lemma ConfirmMoves(s: Store, call: Id, proof: Proof, link: Option<Id>, newUser: Id, newLink: Id, newSession: Id)
    ensures AllMove(s, CloseConfirm(s, call, proof, link, newUser, newLink, newSession))
  {
  }

  lemma RequestMoves(s: Store, invitation: Option<Id>, user: Option<Id>, counts: Limits, now: int,
                     correlation: Id, newRequest: Id, newAttempt: Id, job: JobAnswer)
    requires (invitation.Some? ==> invitation.value in s.invitations) && (user.Some? ==> user.value in s.users)
    ensures AllMove(s, RequestLink(s, invitation, user, counts, now, correlation, newRequest, newAttempt, job))
  {
  }

  lemma OpenConfirmMoves(s: Store, call: Id, id: Id, now: int, commit: bool)
    ensures AllMove(s, OpenConfirm(s, call, id, now, commit))
  {
  }

  lemma SameMoves(s: Store, s': Store)
    requires s'.attempts == s.attempts
    ensures AllMove(s, s')
  {
  }

  lemma StepMoves(s: Store, step: Step)
    requires CallsOk(s)
    ensures AllMove(s, Apply(s, step))
  {
    SameMoves(s, s);
    if Answered(s, step) {
      match step
      case DoPreload(email, found, newId) => SameMoves(s, Preload(s, email, found, newId));
      case DoSetStatus(u, active) => SameMoves(s, SetStatus(s, u, active));
      case DoRequest(_, invitation, account, counts, now, correlation, newRequest, newAttempt, job) =>
        RequestMoves(s, invitation, account, counts, now, correlation, newRequest, newAttempt, job);
      case DoOpenIssue(call, id, expected) => OpenIssueMoves(s, call, id, expected);
      case DoFailIssue(call, reason) => FailIssueMoves(s, call, reason);
      case DoCloseIssue(call, g, at, current) => if InIssue(s, call) { CloseIssueMoves(s, call, g, at, current); }
      case DoOpenConfirm(call, id, now, commit) => OpenConfirmMoves(s, call, id, now, commit);
      case DoCloseConfirm(call, proof, link, newUser, newLink, newSession) =>
        ConfirmMoves(s, call, proof, link, newUser, newLink, newSession);
      case DoDrop(call) => SameMoves(s, s.(calls := s.calls - {call}));
      case DoPurge(cutoff) => SameMoves(s, Purge(s, cutoff));
    }
  }

  lemma {:induction false} FinalIsFrozen(s: Store, steps: seq<Step>, id: Id)
    requires Inv(s) && id in s.attempts && Final(s.attempts[id])
    ensures id in Run(s, steps).attempts && Run(s, steps).attempts[id] == s.attempts[id]
    decreases |steps|
  {
    if steps == [] {
    } else {
      StepInv(s, steps[0]);
      StepMoves(s, steps[0]);
      assert Moves(s.attempts[id], Apply(s, steps[0]).attempts[id]);
      FinalIsFrozen(Apply(s, steps[0]), steps[1..], id);
    }
  }

  /** An issuing attempt whose call is lost between its transactions. */
  ghost predicate Stranded(s: Store, id: Id) {
    id in s.attempts && s.attempts[id].state.Issuing? &&
    forall c :: c in s.calls && s.calls[c].Generating? ==> s.calls[c].attempt != id
  }

  /** Untouched by a step: the record stays, and no call comes to own it. */
  ghost predicate Untouched(s: Store, s': Store, id: Id) {
    id in s.attempts && id in s'.attempts && s'.attempts[id] == s.attempts[id] && (Stranded(s, id) ==> Stranded(s', id))
  }

  lemma CloseIssueUntouched(s: Store, call: Id, g: Generated, at: int, current: Option<Id>, id: Id)
    requires current.Some? ==> current.value in s.attempts && s.attempts[current.value].state.Issued?
    requires Stranded(s, id)
    ensures Untouched(s, CloseIssue(s, call, g, at, current), id)
  {
  }

  lemma IssueUntouched(s: Store, call: Id, other: Id, expected: Option<Id>, reason: string, id: Id)
    requires Stranded(s, id)
    ensures Untouched(s, OpenIssue(s, call, other, expected), id) && Untouched(s, FailIssue(s, call, reason), id)
  {
  }

  lemma ConfirmUntouched(s: Store, call: Id, proof: Proof, link: Option<Id>, newUser: Id, newLink: Id,
                         newSession: Id, id: Id)
    requires Stranded(s, id)
    ensures Untouched(s, CloseConfirm(s, call, proof, link, newUser, newLink, newSession), id)
  {
  }

  lemma RequestUntouched(s: Store, invitation: Option<Id>, user: Option<Id>, counts: Limits, now: int,
                         correlation: Id, newRequest: Id, newAttempt: Id, job: JobAnswer, id: Id)
    requires (invitation.Some? ==> invitation.value in s.invitations) && (user.Some? ==> user.value in s.users)
    requires Stranded(s, id)
    ensures Untouched(s, RequestLink(s, invitation, user, counts, now, correlation, newRequest, newAttempt, job), id)
  {
  }

  lemma OpenConfirmUntouched(s: Store, call: Id, other: Id, now: int, commit: bool, id: Id)
    requires Stranded(s, id)
    ensures Untouched(s, OpenConfirm(s, call, other, now, commit), id)
  {
  }

  lemma SameUntouched(s: Store, s': Store, id: Id)
    requires Stranded(s, id) && s'.attempts == s.attempts
    requires forall c :: c in s'.calls ==> c in s.calls && s'.calls[c] == s.calls[c]
    ensures Untouched(s, s', id)
  {
  }

  lemma StrandedUntouched(s: Store, step: Step, id: Id)
    requires Stranded(s, id)
    ensures Untouched(s, Apply(s, step), id)
  {
    SameUntouched(s, s, id);
    if Answered(s, step) {
      match step
      case DoPreload(email, found, newId) => SameUntouched(s, Preload(s, email, found, newId), id);
      case DoSetStatus(u, active) => SameUntouched(s, SetStatus(s, u, active), id);
      case DoRequest(_, invitation, account, counts, now, correlation, newRequest, newAttempt, job) =>
        RequestUntouched(s, invitation, account, counts, now, correlation, newRequest, newAttempt, job, id);
      case DoOpenIssue(call, other, expected) => IssueUntouched(s, call, other, expected, "", id);
      case DoFailIssue(call, reason) => IssueUntouched(s, call, 0, None, reason, id);
      case DoCloseIssue(call, g, at, current) =>
        if InIssue(s, call) { CloseIssueUntouched(s, call, g, at, current, id); }
      case DoOpenConfirm(call, other, now, commit) => OpenConfirmUntouched(s, call, other, now, commit, id);
      case DoCloseConfirm(call, proof, link, newUser, newLink, newSession) =>
        ConfirmUntouched(s, call, proof, link, newUser, newLink, newSession, id);
      case DoDrop(call) => SameUntouched(s, s.(calls := s.calls - {call}), id);
      case DoPurge(cutoff) => SameUntouched(s, Purge(s, cutoff), id);
    }
  }

  /** Nothing picks a stranded attempt up again, and dropping the call is what strands one. */
  lemma {:induction false} StrandedForever(s: Store, steps: seq<Step>, id: Id)
    requires Inv(s) && Stranded(s, id)
    ensures id in Run(s, steps).attempts && Run(s, steps).attempts[id] == s.attempts[id]
    decreases |steps|
  {
    if steps == [] {
    } else {
      StepInv(s, steps[0]);
      StrandedUntouched(s, steps[0], id);
      StrandedForever(Apply(s, steps[0]), steps[1..], id);
    }
  }

  ghost predicate LeavesIssuing(s: Store, steps: seq<Step>, id: Id) {
    id in Run(s, steps).attempts && !Run(s, steps).attempts[id].state.Issuing?
  }

  /** An issuing attempt can still end in some run exactly when some call between the issuing transactions owns it. */
  lemma IssuingCanEndIff(s: Store, id: Id)
    requires Inv(s) && id in s.attempts && s.attempts[id].state.Issuing?
    ensures (exists steps :: LeavesIssuing(s, steps, id)) <==>
            (exists call :: call in s.calls && s.calls[call].Generating? && s.calls[call].attempt == id)
  {
    if call :| call in s.calls && s.calls[call].Generating? && s.calls[call].attempt == id {
      var refusal := DoFailIssue(call, "provider_rejected");
      assert Apply(s, refusal).attempts[id].state.Failed?;
      assert Run(s, [refusal]) == Run(Apply(s, refusal), []);
      assert LeavesIssuing(s, [refusal], id);
    } else {
      assert Stranded(s, id);
      forall steps ensures !LeavesIssuing(s, steps, id) { StrandedForever(s, steps, id); }
    }
  }

  lemma DropStrands(s: Store, call: Id)
    requires Inv(s) && InIssue(s, call)
    ensures Stranded(Apply(s, DoDrop(call)), s.calls[call].attempt)
  {
    CloseFindsIssuing(s, call);
  }

  // ---- supersession ----

  /** Attempts requested after the given one. */
  ghost function After(s: Store, id: Id): set<Id>
    requires SubjectsOk(s) && id in s.attempts
  {
    set j |
      && j in s.attempts && SubjectOk(s, s.attempts[id]) && SubjectOk(s, s.attempts[j])
      && Earlier(s, s.attempts[id], s.attempts[j])
  }

  lemma AfterShrinks(s: Store, id: Id, next: Id)
    requires SubjectsOk(s) && id in s.attempts && next in s.attempts
    requires SubjectOk(s, s.attempts[id]) && SubjectOk(s, s.attempts[next])
    requires Earlier(s, s.attempts[id], s.attempts[next])
    ensures |After(s, next)| < |After(s, id)|
  {
    forall j | j in After(s, next) ensures j in After(s, id) { }
    assert next in After(s, id) && next !in After(s, next);
    Smaller(After(s, next), After(s, id), next);
  }

  lemma Smaller<T>(a: set<T>, b: set<T>, x: T)
    requires a <= b && x in b && x !in a
    ensures |a| < |b|
  {
    assert b == (b - a) + a && x in b - a;
  }

  /** One attempt names another, a later request of its subject, as the one that superseded it. */
  ghost predicate Names(s: Store, i: Id, j: Id) {
    && i in s.attempts && j in s.attempts && s.attempts[i].supersededBy == Some(j)
    && SameSubject(s.attempts[i], s.attempts[j])
    && s.attempts[i].request in s.requests && s.attempts[j].request in s.requests
    && Earlier(s, s.attempts[i], s.attempts[j])
  }

  /** Each attempt of the path names the next one, and the last is not superseded. */
  ghost predicate Leads(s: Store, path: seq<Id>)
    decreases |path|
  {
    && path != [] && path[0] in s.attempts
    && (if |path| == 1 then !s.attempts[path[0]].state.Superseded?
        else Names(s, path[0], path[1]) && Leads(s, path[1..]))
  }

  /** Following superseded_by from any attempt visits ever later requests of the subject and ends, at an attempt that is
      not superseded. */
  lemma {:induction false} LinksLeadToTheLatest(s: Store, id: Id) returns (path: seq<Id>)
    requires Inv(s) && id in s.attempts
    ensures Leads(s, path) && path[0] == id
    ensures var last := path[|path| - 1];
            && last in s.attempts && !s.attempts[last].state.Superseded?
            && SameSubject(s.attempts[id], s.attempts[last])
            && s.attempts[id].request in s.requests && s.attempts[last].request in s.requests
            && (last == id || Earlier(s, s.attempts[id], s.attempts[last]))
    decreases |After(s, id)|
  {
    assert SubjectOk(s, s.attempts[id]) && TimeOk(s.attempts[id]) && ChainOk(s, s.attempts[id]);
    if !s.attempts[id].state.Superseded? {
      path := [id];
    } else {
      var next: Id := s.attempts[id].supersededBy.value;
      assert SubjectOk(s, s.attempts[next]);
      AfterShrinks(s, id, next);
      var rest := LinksLeadToTheLatest(s, next);
      path := [id] + rest;
      assert path[1] == next && path[1..] == rest && path[|path| - 1] == rest[|rest| - 1];
    }
  }

  predicate Confirms(step: Step) {
    step.DoOpenConfirm? || step.DoCloseConfirm?
  }

  predicate Delivered(a: Attempt) {
    a.state.Issued? || a.state.Superseded?
  }

  ghost predicate Beats(s: Store, w: Id, id: Id) {
    w in s.attempts && id in s.attempts && s.attempts[w].state.Issued? && SameSubject(s.attempts[id], s.attempts[w])
    && s.attempts[id].request in s.requests && s.attempts[w].request in s.requests
    && Earlier(s, s.attempts[id], s.attempts[w])
  }

  ghost predicate Beaten(s: Store, id: Id) {
    exists w :: Beats(s, w, id)
  }

  /** Every superseded attempt is beaten by one that is still issued. */
  ghost predicate Ranked(s: Store) {
    forall i :: i in s.attempts && s.attempts[i].state.Superseded? ==> Beaten(s, i)
  }

  ghost predicate KeepsRequests(s: Store, s': Store) {
    forall i :: i in s.attempts ==>
      s.attempts[i].request in s.requests && s.attempts[i].request in s'.requests &&
      s'.requests[s.attempts[i].request] == s.requests[s.attempts[i].request]
  }

  /** No delivered attempt is touched, and none becomes superseded. */
  ghost predicate KeepsDelivered(s: Store, s': Store) {
    && (forall i :: i in s.attempts && Delivered(s.attempts[i]) ==> i in s'.attempts && s'.attempts[i] == s.attempts[i])
    && (forall i :: i in s'.attempts && s'.attempts[i].state.Superseded? ==>
        i in s.attempts && s.attempts[i].state.Superseded?)
  }

  lemma RankedKeeps(s: Store, s': Store)
    requires Ranked(s) && KeepsDelivered(s, s') && KeepsRequests(s, s')
    ensures Ranked(s')
  {
    forall i | i in s'.attempts && s'.attempts[i].state.Superseded? ensures Beaten(s', i) {
      assert Beaten(s, i);
      var w :| Beats(s, w, i);
      assert s'.attempts[w] == s.attempts[w] && s'.attempts[i] == s.attempts[i];
      assert Beats(s', w, i);
    }
  }

  lemma RequestsHeld(s: Store)
    requires SubjectsOk(s)
    ensures forall i :: i in s.attempts ==> s.attempts[i].request in s.requests
  {
    forall i | i in s.attempts ensures s.attempts[i].request in s.requests { assert SubjectOk(s, s.attempts[i]); }
  }

  /** The closing attempt loses: the current one beats it. */
  lemma LoseRanked(s: Store, call: Id, at: int, w: Id)
    requires SubjectsOk(s) && Ranked(s) && InIssue(s, call) && w in s.attempts
    requires var id := s.calls[call].attempt;
             && w != id && SameSubject(s.attempts[id], s.attempts[w])
             && s.attempts[w].state.Issued? && s.attempts[id].state.Issuing?
    requires s.attempts[w].request in s.requests && s.attempts[s.calls[call].attempt].request in s.requests
    requires !Earlier(s, s.attempts[w], s.attempts[s.calls[call].attempt])
    ensures var id := s.calls[call].attempt;
            Ranked(s.(attempts := s.attempts[id := Supersede(s.attempts[id], w, at)], calls := s.calls - {call}))
  {
    var id := s.calls[call].attempt;
    var s' := s.(attempts := s.attempts[id := Supersede(s.attempts[id], w, at)], calls := s.calls - {call});
    forall i | i in s'.attempts && s'.attempts[i].state.Superseded? ensures Beaten(s', i) {
      if i == id {
        assert s.attempts[id].request != s.attempts[w].request;
        assert Beats(s', w, id);
      } else {
        assert Beaten(s, i);
        var v :| Beats(s, v, i);
        assert Beats(s', v, i);
      }
    }
  }

  /** The closing attempt wins: it beats the current one and all that one has beaten. */
  lemma WinRanked(s: Store, call: Id, g: Generated, at: int, w: Id)
    requires SubjectsOk(s) && Ranked(s) && InIssue(s, call) && w in s.attempts
    requires var id := s.calls[call].attempt;
             && w != id && SameSubject(s.attempts[id], s.attempts[w])
             && s.attempts[w].state.Issued? && s.attempts[id].state.Issuing?
    requires s.attempts[w].request in s.requests && s.attempts[s.calls[call].attempt].request in s.requests
    requires Earlier(s, s.attempts[w], s.attempts[s.calls[call].attempt])
    ensures var id := s.calls[call].attempt;
            var beaten := s.attempts[w := Supersede(s.attempts[w], id, at)];
            Ranked(s.(attempts := beaten[id := IssuedAs(s.attempts[id], g, at)], calls := s.calls - {call}))
  {
    var id := s.calls[call].attempt;
    var s' := s.(attempts := s.attempts[w := Supersede(s.attempts[w], id, at)][id := IssuedAs(s.attempts[id], g, at)],
                 calls := s.calls - {call});
    forall i | i in s'.attempts && s'.attempts[i].state.Superseded? ensures Beaten(s', i) {
      if i == w {
        assert Beats(s', id, w);
      } else {
        assert Beaten(s, i);
        var v :| Beats(s, v, i);
        if v == w { assert Beats(s', id, i); } else { assert Beats(s', v, i); }
      }
    }
  }

  lemma AloneRanked(s: Store, id: Id, b: Attempt, calls: map<Id, Call>)
    requires Ranked(s) && id in s.attempts && s.attempts[id].state.Issuing? && b.state.Issued?
    ensures Ranked(s.(attempts := s.attempts[id := b], calls := calls))
  {
    var s' := s.(attempts := s.attempts[id := b], calls := calls);
    forall i | i in s'.attempts && s'.attempts[i].state.Superseded? ensures Beaten(s', i) {
      assert Beaten(s, i);
      var v :| Beats(s, v, i);
      assert Beats(s', v, i);
    }
  }

  lemma CloseRanked(s: Store, call: Id, g: Generated, at: int, current: Option<Id>)
    requires Inv(s) && Ranked(s) && InIssue(s, call) && IsCurrent(s, s.attempts[s.calls[call].attempt], current)
    ensures Ranked(CloseIssue(s, call, g, at, current))
  {
    var id := s.calls[call].attempt;
    CloseFindsIssuing(s, call);
    CurrentIsOnly(s, id, current);
    RequestsHeld(s);
    if current.None? {
      AloneRanked(s, id, IssuedAs(s.attempts[id], g, at), s.calls - {call});
    } else if Earlier(s, s.attempts[current.value], s.attempts[id]) {
      WinRanked(s, call, g, at, current.value);
    } else {
      LoseRanked(s, call, at, current.value);
    }
  }

  lemma UndeliveredKeeps(s: Store, id: Id, b: Attempt, calls: map<Id, Call>)
    requires SubjectsOk(s) && id in s.attempts && !Delivered(s.attempts[id]) && !b.state.Superseded?
    ensures var s' := s.(attempts := s.attempts[id := b], calls := calls); KeepsDelivered(s, s') && KeepsRequests(s, s')
  {
    RequestsHeld(s);
  }

  lemma OpenIssueKeeps(s: Store, call: Id, id: Id, expected: Option<Id>)
    requires SubjectsOk(s)
    ensures var s' := OpenIssue(s, call, id, expected); KeepsDelivered(s, s') && KeepsRequests(s, s')
  {
    if OpenIssue(s, call, id, expected) == s {
      RequestsHeld(s);
    } else {
      var a := s.attempts[id];
      UndeliveredKeeps(s, id, a.(state := Failed, failure := Some("not_eligible")), s.calls);
      UndeliveredKeeps(s, id, a.(state := Issuing), s.calls[call := Generating(id)]);
    }
  }

  lemma FailIssueKeeps(s: Store, call: Id, reason: string)
    requires SubjectsOk(s)
    requires InIssue(s, call) ==> s.attempts[s.calls[call].attempt].state.Issuing?
    ensures var s' := FailIssue(s, call, reason); KeepsDelivered(s, s') && KeepsRequests(s, s')
  {
    if InIssue(s, call) {
      var id := s.calls[call].attempt;
      UndeliveredKeeps(s, id, s.attempts[id].(state := Failed, failure := Some(reason)), s.calls - {call});
    } else {
      RequestsHeld(s);
    }
  }

  lemma NewRequestKeeps(s: Store, r: Id, request: Request)
    requires SubjectsOk(s) && r !in s.requests
    ensures var s' := s.(requests := s.requests[r := request]); KeepsDelivered(s, s') && KeepsRequests(s, s')
  {
    RequestsHeld(s);
  }

  lemma NewAttemptKeeps(s: Store, s': Store, id: Id, a: Attempt)
    requires KeepsDelivered(s, s') && KeepsRequests(s, s') && s'.attempts == s.attempts
    requires id !in s.attempts && (a.state.Pending? || a.state.Failed?)
    ensures var s2 := s'.(attempts := s'.attempts[id := a]); KeepsDelivered(s, s2) && KeepsRequests(s, s2)
  {
  }

  lemma RequestKeeps(s: Store, invitation: Option<Id>, user: Option<Id>, counts: Limits, now: int,
                     correlation: Id, newRequest: Id, newAttempt: Id, job: JobAnswer)
    requires (invitation.Some? ==> invitation.value in s.invitations) && (user.Some? ==> user.value in s.users)
    requires SubjectsOk(s)
    ensures var s' := RequestLink(s, invitation, user, counts, now, correlation, newRequest, newAttempt, job);
            KeepsDelivered(s, s') && KeepsRequests(s, s')
  {
    if newRequest in s.requests || newAttempt in s.attempts {
      RequestsHeld(s);
    } else {
      var request := Request(Decision(s, invitation, user, counts), now, now + Minutes(24 * 60), correlation);
      var filed := s.(requests := s.requests[newRequest := request]);
      NewRequestKeeps(s, newRequest, request);
      NewAttemptKeeps(s, filed, newAttempt, NewAttempt(s, newRequest, invitation, user, job));
    }
  }

  lemma SameRanked(s: Store, s': Store)
    requires Ranked(s) && s'.attempts == s.attempts && KeepsRequests(s, s')
    ensures Ranked(s')
  {
    RankedKeeps(s, s');
  }

  lemma StepRanked(s: Store, step: Step)
    requires Inv(s) && Ranked(s) && !Confirms(step)
    ensures Ranked(Apply(s, step))
  {
    RequestsHeld(s);
    if Answered(s, step) {
      match step
      case DoPreload(email, found, newId) => SameRanked(s, Preload(s, email, found, newId));
      case DoSetStatus(u, active) => SameRanked(s, SetStatus(s, u, active));
      case DoRequest(_, invitation, account, counts, now, correlation, newRequest, newAttempt, job) =>
        RequestKeeps(s, invitation, account, counts, now, correlation, newRequest, newAttempt, job);
        RankedKeeps(s, RequestLink(s, invitation, account, counts, now, correlation, newRequest, newAttempt, job));
      case DoOpenIssue(call, id, expected) =>
        OpenIssueKeeps(s, call, id, expected);
        RankedKeeps(s, OpenIssue(s, call, id, expected));
      case DoFailIssue(call, reason) =>
        FailIssueKeeps(s, call, reason);
        RankedKeeps(s, FailIssue(s, call, reason));
      case DoCloseIssue(call, g, at, current) => if InIssue(s, call) { CloseRanked(s, call, g, at, current); }
      case DoDrop(call) => SameRanked(s, s.(calls := s.calls - {call}));
      case DoPurge(cutoff) => SameRanked(s, Purge(s, cutoff));
    }
  }

  lemma {:induction false} RunRanked(s: Store, steps: seq<Step>)
    requires Inv(s) && Ranked(s) && forall k :: 0 <= k < |steps| ==> !Confirms(steps[k])
    ensures Ranked(Run(s, steps))
    decreases |steps|
  {
    if steps == [] {
    } else {
      StepInv(s, steps[0]);
      StepRanked(s, steps[0]);
      RunRanked(Apply(s, steps[0]), steps[1..]);
    }
  }

  /** The greatest request, by time and identifier, among those of a subject whose mail went out. */
  ghost predicate IsLatest(s: Store, last: Id) {
    last in s.attempts && s.attempts[last].state.Issued? && s.attempts[last].request in s.requests &&
    forall i ::
      i in s.attempts && i != last && Delivered(s.attempts[i]) && SameSubject(s.attempts[i], s.attempts[last]) ==>
      s.attempts[i].state.Superseded? && s.attempts[i].request in s.requests
      && Earlier(s, s.attempts[i], s.attempts[last])
  }

  /** Without confirmations, in whatever order provider calls return or fail, the latest request is the issued one. */
  lemma TheLatestRequestIsIssued(steps: seq<Step>, id: Id) returns (last: Id)
    requires forall k :: 0 <= k < |steps| ==> !Confirms(steps[k])
    requires id in Run(EMPTY, steps).attempts && Delivered(Run(EMPTY, steps).attempts[id])
    ensures IsLatest(Run(EMPTY, steps), last)
    ensures SameSubject(Run(EMPTY, steps).attempts[id], Run(EMPTY, steps).attempts[last])
  {
    var s := Run(EMPTY, steps);
    ReachableInv(steps);
    RunRanked(EMPTY, steps);
    if s.attempts[id].state.Issued? {
      last := id;
    } else {
      assert Beaten(s, id);
      last :| Beats(s, last, id);
    }
    RankedIsLatest(s, last);
  }

  lemma RankedIsLatest(s: Store, last: Id)
    requires Inv(s) && Ranked(s) && last in s.attempts && s.attempts[last].state.Issued?
    ensures IsLatest(s, last)
  {
    RequestsHeld(s);
    forall i | i in s.attempts && i != last && Delivered(s.attempts[i]) && SameSubject(s.attempts[i], s.attempts[last])
      ensures s.attempts[i].state.Superseded? && Earlier(s, s.attempts[i], s.attempts[last])
    {
      assert s.attempts[i].state.Superseded? && Beaten(s, i);
      var w :| Beats(s, w, i);
      assert w == last;
    }
  }

  /** Two stores agree on who asked for what, and on whose mail went out. */
  ghost predicate SameDeliveries(s: Store, t: Store) {
    s.requests == t.requests && s.attempts.Keys == t.attempts.Keys &&
    forall i :: i in s.attempts && i in t.attempts ==>
      s.attempts[i].request == t.attempts[i].request && SameSubject(s.attempts[i], t.attempts[i]) &&
      Delivered(s.attempts[i]) == Delivered(t.attempts[i])
  }

  /** The order of deliveries does not show in the outcome. */
  lemma OutcomeIgnoresOrder(s: Store, t: Store, id: Id)
    requires Inv(s) && Ranked(s) && Inv(t) && Ranked(t) && SameDeliveries(s, t)
    requires id in s.attempts && s.attempts[id].state.Issued?
    ensures id in t.attempts && t.attempts[id].state.Issued?
  {
    RankedIsLatest(s, id);
    assert id in t.attempts.Keys;
    if t.attempts[id].state.Superseded? {
      assert false;
    }
  }

  /** Two runs without confirmations that delivered the same attempts, in whatever orders, leave the same ones
      issued. */
  lemma DeliveryOrderIsIrrelevant(a: seq<Step>, b: seq<Step>, id: Id)
    requires forall k :: 0 <= k < |a| ==> !Confirms(a[k])
    requires forall k :: 0 <= k < |b| ==> !Confirms(b[k])
    requires SameDeliveries(Run(EMPTY, a), Run(EMPTY, b)) && id in Run(EMPTY, a).attempts
    ensures id in Run(EMPTY, b).attempts
    ensures Run(EMPTY, a).attempts[id].state.Issued? <==> Run(EMPTY, b).attempts[id].state.Issued?
    ensures Run(EMPTY, a).attempts[id].state.Superseded? <==> Run(EMPTY, b).attempts[id].state.Superseded?
  {
    var s, t := Run(EMPTY, a), Run(EMPTY, b);
    ReachableInv(a);
    ReachableInv(b);
    RunRanked(EMPTY, a);
    RunRanked(EMPTY, b);
    assert id in t.attempts.Keys;
    if s.attempts[id].state.Issued? { OutcomeIgnoresOrder(s, t, id); }
    if t.attempts[id].state.Issued? { OutcomeIgnoresOrder(t, s, id); }
  }

  /** In every reachable store, a call between the issuing transactions owns an attempt that is still issuing, alone. */
  lemma OpenIssuancesAreAlone(steps: seq<Step>, call: Id, other: Id)
    requires InIssue(Run(EMPTY, steps), call)
    ensures var s := Run(EMPTY, steps);
            && s.attempts[s.calls[call].attempt].state.Issuing?
            && (InIssue(s, other) && s.calls[other].attempt == s.calls[call].attempt ==> other == call)
  {
    ReachableInv(steps);
  }

  // ---- what every reachable store satisfies ----

  ghost function ConsumedAttempts(s: Store): set<Id> {
    set i | i in s.attempts && s.attempts[i].state.Consumed?
  }

  ghost function SessionAttempts(s: Store): set<Id> {
    set t | t in s.sessions :: s.sessions[t].attempt
  }

  /** Sessions and consumed attempts are in one-to-one correspondence. */
  lemma SessionsMatchConsumed(steps: seq<Step>)
    ensures var s := Run(EMPTY, steps);
            && SessionAttempts(s) == ConsumedAttempts(s) && |s.sessions| == |ConsumedAttempts(s)|
            && forall t, r ::
                 t in s.sessions && r in s.sessions && s.sessions[t].attempt == s.sessions[r].attempt ==> t == r
  {
    var s := Run(EMPTY, steps);
    ReachableInv(steps);
    forall i ensures i in SessionAttempts(s) <==> i in ConsumedAttempts(s) {
      if i in ConsumedAttempts(s) { assert HasSession(s, i); }
      if i in SessionAttempts(s) {
        var t :| t in s.sessions && s.sessions[t].attempt == i;
        assert SessionOk(s, s.sessions[t]);
      }
    }
    ImageSize(s.sessions, s.sessions.Keys);
    assert SessionAttempts(s) == set t | t in s.sessions.Keys :: s.sessions[t].attempt;
  }

  lemma {:induction false} ImageSize(m: map<Id, Session>, keys: set<Id>)
    requires keys <= m.Keys
    requires forall t, r :: t in m && r in m && t != r ==> m[t].attempt != m[r].attempt
    ensures |set t | t in keys :: m[t].attempt| == |keys|
    decreases |keys|
  {
    var image := set t | t in keys :: m[t].attempt;
    if keys == {} {
    } else {
      var k :| k in keys;
      var rest := keys - {k};
      ImageSize(m, rest);
      assert image == (set t | t in rest :: m[t].attempt) + {m[k].attempt};
    }
  }

  /** A link opens a session at most once, before its expiry, within fifteen minutes of being generated. */
  lemma ConsumedInTime(steps: seq<Step>, id: Id)
    requires id in Run(EMPTY, steps).attempts && Run(EMPTY, steps).attempts[id].state.Consumed?
    ensures var a := Run(EMPTY, steps).attempts[id];
            a.consumedAt.Some? && a.expiresAt.Some? && a.generatedAt.Some? &&
            a.consumedAt.value < a.expiresAt.value <= a.generatedAt.value + Minutes(15)
  {
    ReachableInv(steps);
    assert TimeOk(Run(EMPTY, steps).attempts[id]);
  }

  /** One usable link per subject. */
  lemma OneLinkPerSubject(steps: seq<Step>, i: Id, j: Id)
    requires var s := Run(EMPTY, steps); i in s.attempts && j in s.attempts && SameSubject(s.attempts[i], s.attempts[j])
    requires Run(EMPTY, steps).attempts[i].state.Issued? && Run(EMPTY, steps).attempts[j].state.Issued?
    ensures i == j
  {
    ReachableInv(steps);
  }

  predicate SameGuest(v: Invitation, w: Invitation) {
    v.acceptedUser == w.acceptedUser
  }

  /** People are told apart by address, invitation and external identity alike. */
  ghost predicate PeopleAreDistinct(s: Store) {
    && (forall u, v :: u in s.users && v in s.users && s.users[u].email == s.users[v].email ==> u == v)
    && (forall i :: i in s.invitations && s.invitations[i].accepted ==>
          s.invitations[i].acceptedUser.Some? && s.invitations[i].acceptedUser.value in s.users &&
          s.users[s.invitations[i].acceptedUser.value].email == s.invitations[i].email)
    && (forall i, j ::
          i in s.invitations && j in s.invitations && i != j && s.invitations[i].accepted ==>
            !SameGuest(s.invitations[i], s.invitations[j]))
    && (forall i :: i in s.attempts ==> s.attempts[i].invitation.Some? != s.attempts[i].user.Some?)
    && (forall l, m :: l in s.links && m in s.links && s.links[l].identity == s.links[m].identity ==>
          s.links[l].user == s.links[m].user)
  }

  lemma ReachablePeople(steps: seq<Step>)
    ensures PeopleAreDistinct(Run(EMPTY, steps))
  {
    var s := Run(EMPTY, steps);
    ReachableInv(steps);
    forall i | i in s.attempts ensures s.attempts[i].invitation.Some? != s.attempts[i].user.Some? {
      assert SubjectOk(s, s.attempts[i]);
    }
    forall i, j | i in s.invitations && j in s.invitations && i != j && s.invitations[i].accepted
      ensures !SameGuest(s.invitations[i], s.invitations[j])
    {
      assert AcceptedOk(s, s.invitations[i]) && AcceptedOk(s, s.invitations[j]);
    }
    forall i | i in s.invitations && s.invitations[i].accepted
      ensures s.invitations[i].acceptedUser.Some? && s.invitations[i].acceptedUser.value in s.users
      ensures s.users[s.invitations[i].acceptedUser.value].email == s.invitations[i].email
    {
      assert AcceptedOk(s, s.invitations[i]);
    }
  }
}
