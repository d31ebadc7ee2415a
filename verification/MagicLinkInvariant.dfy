/** What every interleaving of issuances, confirmations and administration keeps. */
module MagicLinkInvariant {
  import opened Collections
  import opened MagicLinkModel

  /** Exactly one subject, which exists, and a retained request. */
  ghost predicate SubjectOk(s: Store, a: Attempt) {
    && a.request in s.requests
    && (a.kind.ForInvitation? ==> a.invitation.Some? && a.invitation.value in s.invitations && a.user.None?)
    && (a.kind.ForUser? ==> a.user.Some? && a.user.value in s.users && a.invitation.None?)
  }

  ghost predicate SubjectsOk(s: Store) {
    && (forall i :: i in s.attempts ==> SubjectOk(s, s.attempts[i]))
    && (forall i, j :: i in s.attempts && j in s.attempts && i != j ==> s.attempts[i].request != s.attempts[j].request)
  }

  /** A call between the two issuing transactions owns an attempt that is still issuing. */
  ghost predicate CallsOk(s: Store) {
    && (forall c :: c in s.calls ==> s.calls[c].attempt in s.attempts)
    && (forall c :: c in s.calls && s.calls[c].Generating? ==> s.attempts[s.calls[c].attempt].state.Issuing?)
    && (forall c, d :: c in s.calls && d in s.calls && s.calls[c].Generating? && s.calls[d].Generating? && c != d ==>
          s.calls[c].attempt != s.calls[d].attempt)
  }

  ghost predicate OneIssued(s: Store) {
    forall i, j ::
      i in s.attempts && j in s.attempts && i != j && s.attempts[i].state.Issued? && s.attempts[j].state.Issued? ==>
      !SameSubject(s.attempts[i], s.attempts[j])
  }

  ghost predicate TimeOk(a: Attempt) {
    && (a.state.Issued? || a.state.Consumed? ==>
          a.generatedAt.Some? && a.issuedAt.Some? && a.expiresAt.Some? &&
          a.expiresAt.value <= a.generatedAt.value + Minutes(15))
    && (a.consumedAt.Some? <==> a.state.Consumed?)
    && (a.state.Consumed? ==> a.consumedAt.value < a.expiresAt.value)
    && (a.supersededAt.Some? <==> a.state.Superseded?)
    && (a.supersededBy.Some? <==> a.state.Superseded?)
  }

  ghost predicate TimesOk(s: Store) {
    forall i :: i in s.attempts ==> TimeOk(s.attempts[i])
  }

  /** A superseded attempt names a later request for the same subject. */
  ghost predicate ChainOk(s: Store, a: Attempt) {
    a.supersededBy.Some? ==>
      && a.supersededBy.value in s.attempts
      && SameSubject(a, s.attempts[a.supersededBy.value])
      && a.request in s.requests && s.attempts[a.supersededBy.value].request in s.requests
      && Earlier(s, a, s.attempts[a.supersededBy.value])
  }

  ghost predicate ChainsOk(s: Store) {
    forall i :: i in s.attempts ==> ChainOk(s, s.attempts[i])
  }

  ghost predicate HasSession(s: Store, id: Id) {
    exists t :: t in s.sessions && s.sessions[t].attempt == id
  }

  /** The session of a consumed attempt belongs to the attempt's subject. */
  ghost predicate SessionOk(s: Store, t: Session) {
    t.attempt in s.attempts && s.attempts[t.attempt].state.Consumed? && t.user in s.users &&
    var a := s.attempts[t.attempt];
    (a.user.Some? ==> t.user == a.user.value) &&
    (a.invitation.Some? && a.invitation.value in s.invitations ==>
       s.invitations[a.invitation.value].acceptedUser == Some(t.user))
  }

  ghost predicate SessionsOk(s: Store) {
    && (forall t :: t in s.sessions ==> SessionOk(s, s.sessions[t]))
    && (forall t, r :: t in s.sessions && r in s.sessions && t != r ==> s.sessions[t].attempt != s.sessions[r].attempt)
    && (forall i :: i in s.attempts && s.attempts[i].state.Consumed? ==> HasSession(s, i))
  }

  ghost predicate Welcomed(s: Store, email: string) {
    exists i :: i in s.invitations && s.invitations[i].accepted && s.invitations[i].email == email
  }

  ghost predicate AcceptedOk(s: Store, v: Invitation) {
    && (v.accepted <==> v.acceptedUser.Some?)
    && (v.accepted ==> v.acceptedUser.value in s.users && s.users[v.acceptedUser.value].email == v.email)
  }

  ghost predicate PeopleOk(s: Store) {
    && (forall i, j :: i in s.invitations && j in s.invitations && i != j ==>
        s.invitations[i].email != s.invitations[j].email)
    && (forall u, v :: u in s.users && v in s.users && u != v ==> s.users[u].email != s.users[v].email)
    && (forall i :: i in s.invitations ==> AcceptedOk(s, s.invitations[i]))
    && (forall u :: u in s.users ==> Welcomed(s, s.users[u].email))
  }

  ghost predicate LinksOk(s: Store) {
    && (forall l :: l in s.links ==> s.links[l].user in s.users)
    && (forall l, m :: l in s.links && m in s.links && l != m ==> s.links[l].identity != s.links[m].identity)
  }

  ghost predicate Inv(s: Store) {
    && SubjectsOk(s) && CallsOk(s) && OneIssued(s) && TimesOk(s)
    && ChainsOk(s) && SessionsOk(s) && PeopleOk(s) && LinksOk(s)
  }

  /** No attempt changes subject or request, none disappears, and what it refers to stays. */
  ghost predicate Steady(s: Store, s': Store) {
    && s'.attempts.Keys == s.attempts.Keys
    && (forall i :: i in s.attempts ==>
          && s'.attempts[i].request == s.attempts[i].request && s'.attempts[i].kind == s.attempts[i].kind
          && SameSubject(s.attempts[i], s'.attempts[i]))
    && s'.requests == s.requests
    && s.invitations.Keys <= s'.invitations.Keys && s.users.Keys <= s'.users.Keys
  }

  lemma SteadySubjects(s: Store, s': Store)
    requires SubjectsOk(s) && Steady(s, s')
    ensures SubjectsOk(s')
  {
    forall i | i in s'.attempts ensures SubjectOk(s', s'.attempts[i]) {
      assert i in s.attempts.Keys && SubjectOk(s, s.attempts[i]);
    }
    forall i, j | i in s'.attempts && j in s'.attempts && i != j
      ensures s'.attempts[i].request != s'.attempts[j].request
    {
      assert i in s.attempts.Keys && j in s.attempts.Keys;
    }
  }

  lemma SteadyChains(s: Store, s': Store)
    requires SubjectsOk(s) && ChainsOk(s) && Steady(s, s')
    requires forall i :: i in s'.attempts && s'.attempts[i].supersededBy != s.attempts[i].supersededBy ==>
               ChainOk(s', s'.attempts[i])
    ensures ChainsOk(s')
  {
    forall i | i in s'.attempts ensures ChainOk(s', s'.attempts[i]) {
      assert i in s.attempts.Keys && ChainOk(s, s.attempts[i]);
      if s'.attempts[i].supersededBy == s.attempts[i].supersededBy && s.attempts[i].supersededBy.Some? {
        var w := s.attempts[i].supersededBy.value;
        assert w in s.attempts.Keys;
        assert s'.attempts[i].request == s.attempts[i].request && s'.attempts[w].request == s.attempts[w].request;
        assert SameSubject(s.attempts[i], s'.attempts[i]) && SameSubject(s.attempts[w], s'.attempts[w]);
      }
    }
  }

  lemma SubjectsHeld(s: Store)
    requires SubjectsOk(s)
    ensures forall i :: i in s.attempts && s.attempts[i].invitation.Some? ==>
        s.attempts[i].invitation.value in s.invitations
  {
    forall i | i in s.attempts && s.attempts[i].invitation.Some?
      ensures s.attempts[i].invitation.value in s.invitations
    {
      assert SubjectOk(s, s.attempts[i]);
    }
  }

  /** Sessions survive a step that leaves people and consumed attempts alone. */
  lemma SteadySessions(s: Store, s': Store)
    requires SessionsOk(s) && s'.sessions == s.sessions && s.users.Keys <= s'.users.Keys
    requires forall i :: i in s.attempts && s.attempts[i].state.Consumed? ==>
        i in s'.attempts && s'.attempts[i] == s.attempts[i]
    requires forall i :: i in s'.attempts && s'.attempts[i].state.Consumed? ==>
        i in s.attempts && s.attempts[i].state.Consumed?
    requires forall i :: i in s.invitations ==> i in s'.invitations && s'.invitations[i] == s.invitations[i]
    requires forall i :: i in s.attempts && s.attempts[i].state.Consumed? && s.attempts[i].invitation.Some? ==>
               s.attempts[i].invitation.value in s.invitations
    ensures SessionsOk(s')
  {
    forall t | t in s'.sessions ensures SessionOk(s', s'.sessions[t]) {
      assert SessionOk(s, s.sessions[t]);
      assert s.sessions[t].user in s.users.Keys;
      var a := s.attempts[s.sessions[t].attempt];
      assert s'.attempts[s.sessions[t].attempt] == a;
      if a.invitation.Some? {
        var v: Id := a.invitation.value;
        assert v in s.invitations && s'.invitations[v] == s.invitations[v];
      }
    }
    forall i | i in s'.attempts && s'.attempts[i].state.Consumed? ensures HasSession(s', i) {
      assert HasSession(s, i);
      var t :| t in s.sessions && s.sessions[t].attempt == i;
      assert t in s'.sessions;
    }
  }

  // ---- administration and requests ----

  lemma PeopleKeep(s: Store, s': Store)
    requires PeopleOk(s) && s'.invitations == s.invitations && s'.users.Keys == s.users.Keys
    requires forall u :: u in s.users ==> s'.users[u].email == s.users[u].email
    ensures PeopleOk(s')
  {
    forall i | i in s'.invitations ensures AcceptedOk(s', s'.invitations[i]) {
      assert AcceptedOk(s, s.invitations[i]);
      if s.invitations[i].accepted {
        var u := s.invitations[i].acceptedUser.value;
        assert u in s.users.Keys;
        assert s'.users[u].email == s.users[u].email;
      }
    }
    forall u | u in s'.users ensures Welcomed(s', s'.users[u].email) {
      assert u in s.users.Keys && Welcomed(s, s.users[u].email);
    }
    forall u, v | u in s'.users && v in s'.users && u != v ensures s'.users[u].email != s'.users[v].email {
      assert u in s.users.Keys && v in s.users.Keys;
    }
  }

  lemma PreloadPeople(s: Store, email: string, newId: Id)
    requires PeopleOk(s) && IsInvitationFor(s, email, None) && newId !in s.invitations
    ensures PeopleOk(s.(invitations := s.invitations[newId := Invitation(email, false, None)]))
  {
    var s' := s.(invitations := s.invitations[newId := Invitation(email, false, None)]);
    forall i | i in s'.invitations ensures AcceptedOk(s', s'.invitations[i]) {
      if i != newId { assert AcceptedOk(s, s.invitations[i]); }
    }
    forall u | u in s'.users ensures Welcomed(s', s'.users[u].email) {
      assert Welcomed(s, s.users[u].email);
      var i :| i in s.invitations && s.invitations[i].accepted && s.invitations[i].email == s.users[u].email;
      assert i in s'.invitations && s'.invitations[i] == s.invitations[i];
    }
  }

  lemma PreloadInv(s: Store, email: string, found: Option<Id>, newId: Id)
    requires Inv(s) && IsInvitationFor(s, email, found)
    ensures Inv(Preload(s, email, found, newId))
  {
    var s' := Preload(s, email, found, newId);
    if s' != s {
      SteadySubjects(s, s');
      SteadyChains(s, s');
      SubjectsHeld(s);
      SteadySessions(s, s');
      PreloadPeople(s, email, newId);
    }
  }

  lemma StatusInv(s: Store, u: Id, active: bool)
    requires Inv(s)
    ensures Inv(SetStatus(s, u, active))
  {
    var s' := SetStatus(s, u, active);
    if u in s.users {
      SteadySubjects(s, s');
      SteadyChains(s, s');
      SubjectsHeld(s);
      SteadySessions(s, s');
      PeopleKeep(s, s');
    }
  }

  lemma FiledInv(s: Store, r: Id, request: Request)
    requires Inv(s) && r !in s.requests
    ensures Inv(s.(requests := s.requests[r := request]))
  {
    var s' := s.(requests := s.requests[r := request]);
    RequestsInv(s, s');
  }

  /** Only requests change, and those that attempts refer to stay as they are. */
  lemma RequestsInv(s: Store, s': Store)
    requires Inv(s) && s' == s.(requests := s'.requests)
    requires forall i :: i in s.attempts ==>
               s.attempts[i].request in s'.requests &&
                   s'.requests[s.attempts[i].request] == s.requests[s.attempts[i].request]
    ensures Inv(s')
  {
    forall i | i in s'.attempts ensures SubjectOk(s', s'.attempts[i]) && ChainOk(s', s'.attempts[i]) {
      assert SubjectOk(s, s.attempts[i]) && ChainOk(s, s.attempts[i]);
      if s.attempts[i].supersededBy.Some? {
        var w := s.attempts[i].supersededBy.value;
        assert SubjectOk(s, s.attempts[w]) && s.attempts[w].request in s'.requests;
      }
    }
    SessionsSame(s, s');
    PeopleKeep(s, s');
  }

  lemma SessionsSame(s: Store, s': Store)
    requires SessionsOk(s) && s' == s.(requests := s'.requests, calls := s'.calls)
    ensures SessionsOk(s')
  {
    forall t | t in s'.sessions ensures SessionOk(s', s'.sessions[t]) { assert SessionOk(s, s.sessions[t]); }
    forall i | i in s'.attempts && s'.attempts[i].state.Consumed? ensures HasSession(s', i) { assert HasSession(s, i); }
  }

  /** A new attempt, for a request nobody refers to yet. */
  lemma AddAttemptInv(s: Store, id: Id, a: Attempt)
    requires Inv(s) && id !in s.attempts && SubjectOk(s, a)
    requires a.state.Pending? || a.state.Failed?
    requires TimeOk(a) && a.supersededBy.None?
    requires forall i :: i in s.attempts ==> s.attempts[i].request != a.request
    ensures Inv(s.(attempts := s.attempts[id := a]))
  {
    AddSubjects(s, id, a);
    AddChains(s, id, a);
    AddSessions(s, id, a);
  }

  lemma AddChains(s: Store, id: Id, a: Attempt)
    requires CallsOk(s) && OneIssued(s) && ChainsOk(s) && id !in s.attempts && a.supersededBy.None?
    requires a.state.Pending? || a.state.Failed?
    ensures var s' := s.(attempts := s.attempts[id := a]); CallsOk(s') && OneIssued(s') && ChainsOk(s')
  {
    var s' := s.(attempts := s.attempts[id := a]);
    forall i | i in s'.attempts ensures ChainOk(s', s'.attempts[i]) {
      if i != id { assert ChainOk(s, s.attempts[i]); }
    }
  }

  lemma AddSessions(s: Store, id: Id, a: Attempt)
    requires SubjectsOk(s) && SessionsOk(s) && PeopleOk(s) && id !in s.attempts && !a.state.Consumed?
    ensures var s' := s.(attempts := s.attempts[id := a]); SessionsOk(s') && PeopleOk(s')
  {
    var s' := s.(attempts := s.attempts[id := a]);
    SubjectsHeld(s);
    SteadySessions(s, s');
    PeopleKeep(s, s');
  }

  lemma AddSubjects(s: Store, id: Id, a: Attempt)
    requires SubjectsOk(s) && TimesOk(s) && id !in s.attempts && SubjectOk(s, a) && TimeOk(a)
    requires forall i :: i in s.attempts ==> s.attempts[i].request != a.request
    ensures var s' := s.(attempts := s.attempts[id := a]); SubjectsOk(s') && TimesOk(s')
  {
    var s' := s.(attempts := s.attempts[id := a]);
    forall i | i in s'.attempts ensures SubjectOk(s', s'.attempts[i]) && TimeOk(s'.attempts[i]) {
      if i != id { assert SubjectOk(s, s.attempts[i]) && TimeOk(s.attempts[i]); }
    }
  }

  lemma RequestLinkInv(s: Store, email: string, invitation: Option<Id>, user: Option<Id>, counts: Limits, now: int,
                       correlation: Id, newRequest: Id, newAttempt: Id, job: JobAnswer)
    requires Inv(s) && IsInvitationFor(s, email, invitation) && IsUserFor(s, email, user)
    ensures Inv(RequestLink(s, invitation, user, counts, now, correlation, newRequest, newAttempt, job))
  {
    if newRequest !in s.requests && newAttempt !in s.attempts {
      var decision := Decision(s, invitation, user, counts);
      var request := Request(decision, now, now + Minutes(24 * 60), correlation);
      var filed := s.(requests := s.requests[newRequest := request]);
      FiledInv(s, newRequest, request);
      if decision == "eligible" {
        forall i | i in s.attempts ensures s.attempts[i].request != newRequest {
          assert SubjectOk(s, s.attempts[i]);
        }
        AddAttemptInv(filed, newAttempt, NewAttempt(s, newRequest, invitation, user, job));
      }
    }
  }

  lemma PurgeInv(s: Store, cutoff: int)
    requires Inv(s)
    ensures Inv(Purge(s, cutoff))
  {
    forall i | i in s.attempts ensures s.attempts[i].request in Purge(s, cutoff).requests {
      assert SubjectOk(s, s.attempts[i]);
    }
    RequestsInv(s, Purge(s, cutoff));
  }

  // ---- one attempt moves on ----

  /** The same attempt in another state, neither of them consumed. */
  ghost predicate Revised(a: Attempt, b: Attempt) {
    && b.request == a.request && b.kind == a.kind && SameSubject(a, b)
    && !a.state.Consumed? && !b.state.Consumed? && TimeOk(b)
  }

  lemma MoveSubjects(s: Store, id: Id, b: Attempt, calls: map<Id, Call>)
    requires SubjectsOk(s) && ChainsOk(s) && TimesOk(s)
    requires id in s.attempts && Revised(s.attempts[id], b) && ChainOk(s, b)
    ensures var s' := s.(attempts := s.attempts[id := b], calls := calls); SubjectsOk(s') && ChainsOk(s') && TimesOk(s')
  {
    var s' := s.(attempts := s.attempts[id := b], calls := calls);
    assert s'.attempts.Keys == s.attempts.Keys;
    SteadySubjects(s, s');
    SteadyChains(s, s');
  }

  lemma MoveSessions(s: Store, id: Id, b: Attempt, calls: map<Id, Call>)
    requires SubjectsOk(s) && SessionsOk(s) && PeopleOk(s) && id in s.attempts && Revised(s.attempts[id], b)
    ensures var s' := s.(attempts := s.attempts[id := b], calls := calls); SessionsOk(s') && PeopleOk(s')
  {
    var s' := s.(attempts := s.attempts[id := b], calls := calls);
    SubjectsHeld(s);
    SteadySessions(s, s');
    PeopleKeep(s, s');
  }

  /** Rewriting one attempt that is not consumed, before or after, with its subject unchanged. */
  lemma MoveAttempt(s: Store, id: Id, b: Attempt, calls: map<Id, Call>)
    requires Inv(s) && id in s.attempts && Revised(s.attempts[id], b) && ChainOk(s, b)
    requires b.state.Issued? ==>
               forall i :: i in s.attempts && i != id && s.attempts[i].state.Issued? ==> !SameSubject(b, s.attempts[i])
    requires CallsOk(s.(attempts := s.attempts[id := b], calls := calls))
    ensures Inv(s.(attempts := s.attempts[id := b], calls := calls))
  {
    MoveSubjects(s, id, b, calls);
    MoveSessions(s, id, b, calls);
  }

  /** A pending attempt has no call of its own yet. */
  lemma TakeUpCalls(s: Store, call: Id, id: Id, b: Attempt)
    requires CallsOk(s) && call !in s.calls && id in s.attempts && s.attempts[id].state.Pending?
    ensures CallsOk(s.(attempts := s.attempts[id := b]))
    ensures b.state.Issuing? ==> CallsOk(s.(attempts := s.attempts[id := b], calls := s.calls[call := Generating(id)]))
  {
  }

  lemma RefuseInv(s: Store, call: Id, id: Id)
    requires Inv(s) && call !in s.calls && id in s.attempts && s.attempts[id].state.Pending?
    ensures Inv(s.(attempts := s.attempts[id := s.attempts[id].(state := Failed, failure := Some("not_eligible"))]))
  {
    var b := s.attempts[id].(state := Failed, failure := Some("not_eligible"));
    assert TimeOk(s.attempts[id]) && ChainOk(s, s.attempts[id]);
    TakeUpCalls(s, call, id, b);
    MoveAttempt(s, id, b, s.calls);
  }

  lemma TakeUpInv(s: Store, call: Id, id: Id)
    requires Inv(s) && call !in s.calls && id in s.attempts && s.attempts[id].state.Pending?
    ensures Inv(s.(attempts := s.attempts[id := s.attempts[id].(state := Issuing)],
                   calls := s.calls[call := Generating(id)]))
  {
    var b := s.attempts[id].(state := Issuing);
    assert TimeOk(s.attempts[id]) && ChainOk(s, s.attempts[id]);
    TakeUpCalls(s, call, id, b);
    MoveAttempt(s, id, b, s.calls[call := Generating(id)]);
  }

  lemma OpenIssueInv(s: Store, call: Id, id: Id, correlation: Option<Id>)
    requires Inv(s)
    ensures Inv(OpenIssue(s, call, id, correlation))
  {
    if call !in s.calls && id in s.attempts && s.attempts[id].state.Pending? {
      RefuseInv(s, call, id);
      TakeUpInv(s, call, id);
    }
  }

  lemma FailIssueInv(s: Store, call: Id, reason: string)
    requires Inv(s)
    ensures Inv(FailIssue(s, call, reason))
  {
    if InIssue(s, call) {
      var id := s.calls[call].attempt;
      assert TimeOk(s.attempts[id]) && ChainOk(s, s.attempts[id]);
      MoveAttempt(s, id, FailIssue(s, call, reason).attempts[id], s.calls - {call});
    }
  }

  lemma OpenConfirmInv(s: Store, call: Id, id: Id, now: int, commit: bool)
    requires Inv(s)
    ensures Inv(OpenConfirm(s, call, id, now, commit))
  {
    if call !in s.calls && id in s.attempts && s.attempts[id].state.Issued? {
      var a := s.attempts[id];
      assert TimeOk(a) && ChainOk(s, a);
      MoveAttempt(s, id, a.(state := Expired), s.calls);
      MoveAttempt(s, id, a, s.calls[call := Verifying(id, now)]);
      assert s.attempts[id := a] == s.attempts;
    }
  }

  lemma DropInv(s: Store, call: Id)
    requires Inv(s)
    ensures Inv(s.(calls := s.calls - {call}))
  {
    var s' := s.(calls := s.calls - {call});
    SteadySubjects(s, s');
    SteadyChains(s, s');
    SessionsSame(s, s');
    PeopleKeep(s, s');
  }

  /** No other attempt of the subject is issued when the query finds none, or finds the one given. */
  lemma CurrentIsOnly(s: Store, id: Id, current: Option<Id>)
    requires SubjectsOk(s) && OneIssued(s) && id in s.attempts && IsCurrent(s, s.attempts[id], current)
    ensures forall i :: i in s.attempts && s.attempts[i].state.Issued? && SameSubject(s.attempts[id], s.attempts[i]) ==>
              current == Some(i)
    ensures current.Some? ==> SameSubject(s.attempts[id], s.attempts[current.value])
  {
    var a := s.attempts[id];
    assert SubjectOk(s, a);
    if current.Some? { assert SubjectOk(s, s.attempts[current.value]); }
    forall i | i in s.attempts && s.attempts[i].state.Issued? && SameSubject(a, s.attempts[i])
      ensures current == Some(i)
    {
      assert IssuedFor(s, a, i);
    }
  }

  /** The attempt found by the closing transaction is still issuing. */
  lemma CloseFindsIssuing(s: Store, call: Id)
    requires Inv(s) && InIssue(s, call)
    ensures s.attempts[s.calls[call].attempt].state.Issuing?
  {
  }

  lemma CloseAloneInv(s: Store, call: Id, g: Generated, at: int)
    requires Inv(s) && InIssue(s, call)
    requires forall i :: i in s.attempts && s.attempts[i].state.Issued? ==>
               !SameSubject(s.attempts[s.calls[call].attempt], s.attempts[i])
    ensures var id := s.calls[call].attempt;
            Inv(s.(attempts := s.attempts[id := IssuedAs(s.attempts[id], g, at)], calls := s.calls - {call}))
  {
    var id := s.calls[call].attempt;
    assert TimeOk(s.attempts[id]) && ChainOk(s, s.attempts[id]);
    MoveAttempt(s, id, IssuedAs(s.attempts[id], g, at), s.calls - {call});
  }

  lemma CloseLosesInv(s: Store, call: Id, at: int, winner: Id)
    requires Inv(s) && InIssue(s, call) && winner in s.attempts && winner != s.calls[call].attempt
    requires SameSubject(s.attempts[s.calls[call].attempt], s.attempts[winner])
    requires s.attempts[winner].request in s.requests && s.attempts[s.calls[call].attempt].request in s.requests
    requires !Earlier(s, s.attempts[winner], s.attempts[s.calls[call].attempt])
    ensures var id := s.calls[call].attempt;
            Inv(s.(attempts := s.attempts[id := Supersede(s.attempts[id], winner, at)], calls := s.calls - {call}))
  {
    var id := s.calls[call].attempt;
    assert TimeOk(s.attempts[id]);
    assert s.attempts[id].request != s.attempts[winner].request;
    MoveAttempt(s, id, Supersede(s.attempts[id], winner, at), s.calls - {call});
  }

  lemma CloseIssueInv(s: Store, call: Id, g: Generated, at: int, current: Option<Id>)
    requires Inv(s) && InIssue(s, call) && IsCurrent(s, s.attempts[s.calls[call].attempt], current)
    ensures Inv(CloseIssue(s, call, g, at, current))
  {
    var id := s.calls[call].attempt;
    var a := s.attempts[id];
    CloseFindsIssuing(s, call);
    CurrentIsOnly(s, id, current);
    assert SubjectOk(s, a);
    if current.None? {
      CloseAloneInv(s, call, g, at);
    } else {
      var w := current.value;
      var c := s.attempts[w];
      assert SubjectOk(s, c) && TimeOk(c) && ChainOk(s, c);
      if !Earlier(s, c, a) {
        CloseLosesInv(s, call, at, w);
      } else {
        var s1 := s.(attempts := s.attempts[w := Supersede(c, id, at)]);
        MoveAttempt(s, w, Supersede(c, id, at), s.calls);
        CloseAloneInv(s1, call, g, at);
      }
    }
  }

  // ---- the confirming transaction, one table at a time ----

  function Accept(s: Store, v: Id, u: Id): Store
    requires v in s.invitations
  {
    s.(users := s.users[u := User(s.invitations[v].email, true)],
       invitations := s.invitations[v := s.invitations[v].(accepted := true, acceptedUser := Some(u))])
  }

  function Consume(s: Store, id: Id, now: int, t: Id, u: Id): Store
    requires id in s.attempts
  {
    s.(attempts := s.attempts[id := s.attempts[id].(state := Consumed, consumedAt := Some(now))],
       sessions := s.sessions[t := Session(u, id, now)])
  }

  /** Nobody has the address of an invitation that is not accepted yet. */
  lemma UninvitedAddressIsFree(s: Store, v: Id)
    requires PeopleOk(s) && v in s.invitations && !s.invitations[v].accepted
    ensures forall u :: u in s.users ==> s.users[u].email != s.invitations[v].email
  {
    forall u | u in s.users ensures s.users[u].email != s.invitations[v].email {
      assert Welcomed(s, s.users[u].email);
      var w :| w in s.invitations && s.invitations[w].accepted && s.invitations[w].email == s.users[u].email;
      assert w != v;
    }
  }

  lemma AcceptPeople(s: Store, v: Id, u: Id)
    requires PeopleOk(s) && v in s.invitations && !s.invitations[v].accepted && u !in s.users
    ensures PeopleOk(Accept(s, v, u))
  {
    var s' := Accept(s, v, u);
    UninvitedAddressIsFree(s, v);
    forall i | i in s'.invitations ensures AcceptedOk(s', s'.invitations[i]) {
      if i != v { assert AcceptedOk(s, s.invitations[i]); }
    }
    forall w | w in s'.users ensures Welcomed(s', s'.users[w].email) {
      if w == u {
        assert v in s'.invitations && s'.invitations[v].accepted;
      } else {
        assert Welcomed(s, s.users[w].email);
        var i :| i in s.invitations && s.invitations[i].accepted && s.invitations[i].email == s.users[w].email;
        assert i in s'.invitations && s'.invitations[i] == s.invitations[i];
      }
    }
  }

  lemma AcceptSessions(s: Store, v: Id, u: Id)
    requires SessionsOk(s) && PeopleOk(s) && v in s.invitations && !s.invitations[v].accepted && u !in s.users
    requires SubjectsOk(s)
    ensures SessionsOk(Accept(s, v, u))
  {
    var s' := Accept(s, v, u);
    assert AcceptedOk(s, s.invitations[v]);
    forall t | t in s'.sessions ensures SessionOk(s', s'.sessions[t]) {
      assert SessionOk(s, s.sessions[t]) && SubjectOk(s, s.attempts[s.sessions[t].attempt]);
    }
    forall i | i in s'.attempts && s'.attempts[i].state.Consumed? ensures HasSession(s', i) {
      assert HasSession(s, i);
      var t :| t in s.sessions && s.sessions[t].attempt == i;
      assert t in s'.sessions;
    }
  }

  lemma AcceptInv(s: Store, v: Id, u: Id)
    requires Inv(s) && v in s.invitations && !s.invitations[v].accepted && u !in s.users
    ensures Inv(Accept(s, v, u))
  {
    AcceptPeople(s, v, u);
    AcceptSessions(s, v, u);
    SteadySubjects(s, Accept(s, v, u));
    SteadyChains(s, Accept(s, v, u));
  }

  /** Links say nothing about attempts, sessions or people. */
  lemma LinksApart(s: Store, links: map<Id, Link>)
    requires SubjectsOk(s) && ChainsOk(s) && SessionsOk(s) && PeopleOk(s)
    ensures var s' := s.(links := links); SubjectsOk(s') && ChainsOk(s') && SessionsOk(s') && PeopleOk(s')
  {
    var s' := s.(links := links);
    SteadySubjects(s, s');
    SteadyChains(s, s');
    SubjectsHeld(s);
    SteadySessions(s, s');
    PeopleKeep(s, s');
  }

  lemma LinksAdded(s: Store, l: Id, link: Link)
    requires LinksOk(s) && l !in s.links && link.user in s.users && IsLinkFor(s, link.identity, None)
    ensures LinksOk(s.(links := s.links[l := link]))
  {
  }

  lemma NewLinkInv(s: Store, l: Id, link: Link)
    requires Inv(s) && l !in s.links && link.user in s.users && IsLinkFor(s, link.identity, None)
    ensures Inv(s.(links := s.links[l := link]))
  {
    LinksApart(s, s.links[l := link]);
    LinksAdded(s, l, link);
  }

  lemma ConsumeSessions(s: Store, id: Id, now: int, t: Id, u: Id)
    requires SessionsOk(s) && id in s.attempts && s.attempts[id].state.Issued? && t !in s.sessions && u in s.users
    requires SubjectOk(s, s.attempts[id])
    requires s.attempts[id].user.Some? ==> u == s.attempts[id].user.value
    requires s.attempts[id].invitation.Some? ==>
               s.attempts[id].invitation.value in s.invitations &&
                   s.invitations[s.attempts[id].invitation.value].acceptedUser == Some(u)
    ensures SessionsOk(Consume(s, id, now, t, u))
  {
    var s' := Consume(s, id, now, t, u);
    forall r | r in s'.sessions ensures SessionOk(s', s'.sessions[r]) && (r != t ==> s'.sessions[r].attempt != id) {
      if r != t { assert SessionOk(s, s.sessions[r]); }
    }
    forall i | i in s'.attempts && s'.attempts[i].state.Consumed? ensures HasSession(s', i) {
      if i == id {
        assert t in s'.sessions;
      } else {
        assert HasSession(s, i);
        var r :| r in s.sessions && s.sessions[r].attempt == i;
        assert r in s'.sessions && s'.sessions[r] == s.sessions[r];
      }
    }
  }

  lemma ConsumeTimes(s: Store, id: Id, now: int, t: Id, u: Id)
    requires SubjectsOk(s) && TimesOk(s) && ChainsOk(s) && id in s.attempts && CurrentAndValid(s.attempts[id], now)
    ensures var s' := Consume(s, id, now, t, u); SubjectsOk(s') && TimesOk(s') && ChainsOk(s')
  {
    var s' := Consume(s, id, now, t, u);
    assert TimeOk(s.attempts[id]) && ChainOk(s, s.attempts[id]);
    assert s'.attempts.Keys == s.attempts.Keys;
    SteadySubjects(s, s');
    SteadyChains(s, s');
  }

  /** Consuming an issued attempt touches no call, no other issued attempt and nobody. */
  lemma ConsumeApart(s: Store, id: Id, now: int, t: Id, u: Id)
    requires CallsOk(s) && OneIssued(s) && PeopleOk(s) && LinksOk(s) && id in s.attempts && s.attempts[id].state.Issued?
    ensures var s' := Consume(s, id, now, t, u); CallsOk(s') && OneIssued(s') && PeopleOk(s') && LinksOk(s')
  {
    PeopleKeep(s, Consume(s, id, now, t, u));
  }

  lemma ConsumeInv(s: Store, id: Id, now: int, t: Id, u: Id)
    requires Inv(s) && id in s.attempts && CurrentAndValid(s.attempts[id], now) && t !in s.sessions && u in s.users
    requires s.attempts[id].user.Some? ==> u == s.attempts[id].user.value
    requires s.attempts[id].invitation.Some? ==>
               s.attempts[id].invitation.value in s.invitations &&
                   s.invitations[s.attempts[id].invitation.value].acceptedUser == Some(u)
    ensures Inv(Consume(s, id, now, t, u))
  {
    assert SubjectOk(s, s.attempts[id]);
    ConsumeSessions(s, id, now, t, u);
    ConsumeTimes(s, id, now, t, u);
    ConsumeApart(s, id, now, t, u);
  }

  /** The user a confirmation signs in, with the tables that say who that is already written. */
  function Admitted(s: Store, call: Id, newUser: Id): Store
    requires InConfirm(s, call)
  {
    var a := s.attempts[s.calls[call].attempt];
    if a.invitation.Some? && a.invitation.value in s.invitations then Accept(s, a.invitation.value, newUser) else s
  }

  lemma CloseConfirmInv(s: Store, call: Id, proof: Proof, link: Option<Id>, newUser: Id, newLink: Id, newSession: Id)
    requires Inv(s) && IsLinkFor(s, proof.identity, link)
    ensures Inv(CloseConfirm(s, call, proof, link, newUser, newLink, newSession))
  {
    DropInv(s, call);
    if Confirmable(s, call, proof, link) && newUser !in s.users && newLink !in s.links && newSession !in s.sessions {
      var id, now := s.calls[call].attempt, s.calls[call].now;
      var a := s.attempts[id];
      assert SubjectOk(s, a);
      var u := if a.user.Some? then a.user.value else newUser;
      var s1 := Admitted(s, call, newUser);
      if a.invitation.Some? {
        AcceptInv(s, a.invitation.value, newUser);
      }
      var s2 := if link.Some? then s1 else s1.(links := s1.links[newLink := Link(u, proof.identity)]);
      if link.None? {
        NewLinkInv(s1, newLink, Link(u, proof.identity));
      }
      ConsumeInv(s2, id, now, newSession, u);
      DropInv(Consume(s2, id, now, newSession, u), call);
    }
  }

  // ---- every step and every run ----

  lemma AdministrationInv(s: Store, step: Step)
    requires Inv(s) && Answered(s, step) && (step.DoPreload? || step.DoSetStatus? || step.DoPurge? || step.DoDrop?)
    ensures Inv(Apply(s, step))
  {
    match step
    case DoPreload(email, found, newId) => PreloadInv(s, email, found, newId);
    case DoSetStatus(u, active) => StatusInv(s, u, active);
    case DoPurge(cutoff) => PurgeInv(s, cutoff);
    case DoDrop(call) => DropInv(s, call);
  }

  lemma IssuanceInv(s: Store, step: Step)
    requires Inv(s) && Answered(s, step)
    requires step.DoRequest? || step.DoOpenIssue? || step.DoFailIssue? || step.DoCloseIssue?
    ensures Inv(Apply(s, step))
  {
    match step
    case DoRequest(email, invitation, account, counts, now, correlation, newRequest, newAttempt, job) =>
      RequestLinkInv(s, email, invitation, account, counts, now, correlation, newRequest, newAttempt, job);
    case DoOpenIssue(call, id, expected) => OpenIssueInv(s, call, id, expected);
    case DoFailIssue(call, reason) => FailIssueInv(s, call, reason);
    case DoCloseIssue(call, g, at, current) => if InIssue(s, call) { CloseIssueInv(s, call, g, at, current); }
  }

  lemma ConfirmationInv(s: Store, step: Step)
    requires Inv(s) && Answered(s, step) && (step.DoOpenConfirm? || step.DoCloseConfirm?)
    ensures Inv(Apply(s, step))
  {
    match step
    case DoOpenConfirm(call, id, now, commit) => OpenConfirmInv(s, call, id, now, commit);
    case DoCloseConfirm(call, proof, link, newUser, newLink, newSession) =>
      CloseConfirmInv(s, call, proof, link, newUser, newLink, newSession);
  }

  lemma StepInv(s: Store, step: Step)
    requires Inv(s)
    ensures Inv(Apply(s, step))
  {
    if Answered(s, step) {
      if step.DoOpenConfirm? || step.DoCloseConfirm? {
        ConfirmationInv(s, step);
      } else if step.DoRequest? || step.DoOpenIssue? || step.DoFailIssue? || step.DoCloseIssue? {
        IssuanceInv(s, step);
      } else {
        AdministrationInv(s, step);
      }
    }
  }

  lemma {:induction false} RunInv(s: Store, steps: seq<Step>)
    requires Inv(s)
    ensures Inv(Run(s, steps))
    decreases |steps|
  {
    if steps == [] {
    } else {
      StepInv(s, steps[0]);
      RunInv(Apply(s, steps[0]), steps[1..]);
    }
  }

  /** Every state reachable from an empty store satisfies the invariant. */
  lemma ReachableInv(steps: seq<Step>)
    ensures Inv(Run(EMPTY, steps))
  {
    RunInv(EMPTY, steps);
  }
}
