/** What each transaction leaves behind, and what a new session proves about its user. */
module MagicLinkEffects {
  import opened Collections
  import opened MagicLinkModel
  import opened MagicLinkInvariant
  import MagicLinkHistory

  // ---- requesting ----

  ghost predicate Invited(s: Store, email: string) {
    exists i :: i in s.invitations && s.invitations[i].email == email && !s.invitations[i].accepted
  }

  ghost predicate HasAccount(s: Store, email: string) {
    exists u :: u in s.users && s.users[u].email == email && s.users[u].active
  }

  lemma EligibleIff(s: Store, email: string, invitation: Option<Id>, user: Option<Id>)
    requires PeopleOk(s) && IsInvitationFor(s, email, invitation) && IsUserFor(s, email, user)
    ensures Invited(s, email) <==> invitation.Some? && !s.invitations[invitation.value].accepted
    ensures HasAccount(s, email) <==> user.Some? && s.users[user.value].active
  {
    assert invitation.Some? ==> forall i :: i in s.invitations && s.invitations[i].email == email ==>
      i == invitation.value;
    assert user.Some? ==> forall u :: u in s.users && s.users[u].email == email ==> u == user.value;
  }

  /** The limits are looked at before eligibility. */
  lemma DecisionMeans(s: Store, email: string, invitation: Option<Id>, user: Option<Id>, counts: Limits)
    requires Inv(s) && IsInvitationFor(s, email, invitation) && IsUserFor(s, email, user)
    ensures var decision := Decision(s, invitation, user, counts);
            var byEmail, byOrigin := counts.emailCount >= 3, counts.originCount >= 20;
            && (decision == "eligible" <==> !byEmail && !byOrigin && (Invited(s, email) || HasAccount(s, email)))
            && (decision == "not_eligible" <==> !byEmail && !byOrigin && !Invited(s, email) && !HasAccount(s, email))
            && (decision == "email_limited" <==> byEmail && !byOrigin)
            && (decision == "origin_limited" <==> !byEmail && byOrigin)
            && (decision == "both_limited" <==> byEmail && byOrigin)
  {
    EligibleIff(s, email, invitation, user);
  }

  /** A request is recorded whatever is decided, and an attempt is filed exactly when it is eligible. */
  lemma RequestFiles(s: Store, email: string, invitation: Option<Id>, user: Option<Id>, counts: Limits, now: int,
                     correlation: Id, newRequest: Id, newAttempt: Id, job: JobAnswer)
    requires Inv(s) && IsInvitationFor(s, email, invitation) && IsUserFor(s, email, user)
    requires newRequest !in s.requests && newAttempt !in s.attempts
    ensures var s' := RequestLink(s, invitation, user, counts, now, correlation, newRequest, newAttempt, job);
            var decision := Decision(s, invitation, user, counts);
            && s'.requests == s.requests[newRequest := Request(decision, now, now + 86_400_000_000, correlation)]
            && s' == s.(requests := s'.requests, attempts := s'.attempts)
            && (if decision != "eligible" then s'.attempts == s.attempts
                else
                  && newAttempt in s'.attempts && s'.attempts == s.attempts[newAttempt := s'.attempts[newAttempt]]
                  && FiledFor(s, s'.attempts[newAttempt], newRequest, email, Invited(s, email), job))
  {
    EligibleIff(s, email, invitation, user);
  }

  /** An open invitation is the subject in preference to an account. */
  ghost predicate FiledFor(s: Store, a: Attempt, request: Id, email: string, invited: bool, job: JobAnswer) {
    && a.request == request
    && (if invited then
          a.kind.ForInvitation? && a.user.None? && a.invitation.Some? && a.invitation.value in s.invitations &&
          s.invitations[a.invitation.value].email == email && !s.invitations[a.invitation.value].accepted
        else
          a.kind.ForUser? && a.invitation.None? && a.user.Some? && a.user.value in s.users &&
          s.users[a.user.value].email == email && s.users[a.user.value].active)
    && (if job.SubmitRaised? then a.state.Failed? && a.failure == Some("job_submission_failed")
        else a.state.Pending? && a.failure.None?)
    && a.issuedAt.None? && a.expiresAt.None? && a.consumedAt.None? && a.supersededBy.None?
  }

  // ---- issuing ----

  /** The subject can still receive a link: the invitation is open, or the account is active. */
  predicate CanReceive(s: Store, a: Attempt) {
    || (a.invitation.Some? && a.invitation.value in s.invitations && !s.invitations[a.invitation.value].accepted)
    || (a.user.Some? && a.user.value in s.users && s.users[a.user.value].active)
  }

  /** A pending attempt is taken up, or failed when its subject cannot receive it; one that is not pending, or asked for
      under another correlation, is left alone. */
  lemma OpenIssueTakes(s: Store, call: Id, id: Id, correlation: Option<Id>)
    requires Inv(s) && call !in s.calls && id in s.attempts
    ensures var s', a := OpenIssue(s, call, id, correlation), s.attempts[id];
            && a.request in s.requests
            && (if !a.state.Pending? || (correlation.Some? && correlation.value != s.requests[a.request].correlation)
                then s' == s
                else if CanReceive(s, a) then
                  s' == s.(attempts := s.attempts[id := a.(state := Issuing)],
                           calls := s.calls[call := Generating(id)])
                else
                  s' == s.(attempts := s.attempts[id := a.(state := Failed, failure := Some("not_eligible"))]))
  {
    assert SubjectOk(s, s.attempts[id]);
  }

  /** A refusal fails the attempt the call owns, with its reason, and ends the call. */
  lemma FailIssueFails(s: Store, call: Id, reason: string)
    requires Inv(s) && InIssue(s, call)
    ensures var s', id := FailIssue(s, call, reason), s.calls[call].attempt;
            && s.attempts[id].state.Issuing? && id in s'.attempts
            && s'.attempts[id] == s.attempts[id].(state := Failed, failure := Some(reason))
            && s' == s.(attempts := s.attempts[id := s'.attempts[id]], calls := s.calls - {call})
  {
    CloseFindsIssuing(s, call);
  }

  /** Issued now, and valid until the provider's expiry or fifteen minutes after generation, whichever is first. */
  predicate IssuedNow(a: Attempt, a': Attempt, g: Generated, at: int) {
    && a' == a.(state := Issued, generatedAt := Some(g.generatedAt), issuedAt := Some(at), expiresAt := a'.expiresAt)
    && a'.expiresAt.Some?
    && a'.expiresAt.value <= g.expiresAt && a'.expiresAt.value <= g.generatedAt + 900_000_000
    && (a'.expiresAt.value == g.expiresAt || a'.expiresAt.value == g.generatedAt + 900_000_000)
  }

  predicate ReplacedBy(a: Attempt, a': Attempt, winner: Id, at: int) {
    a' == a.(state := Superseded, supersededAt := Some(at), supersededBy := Some(winner))
  }

  /** A delivered link of a subject without another issued one is issued. */
  lemma CloseIssuesAlone(s: Store, call: Id, g: Generated, at: int, current: Option<Id>)
    requires Inv(s) && InIssue(s, call) && IsCurrent(s, s.attempts[s.calls[call].attempt], current)
    requires forall c :: c in s.attempts && s.attempts[c].state.Issued? ==>
               !SameSubject(s.attempts[c], s.attempts[s.calls[call].attempt])
    ensures var s', id := CloseIssue(s, call, g, at, current), s.calls[call].attempt;
            && id in s'.attempts && IssuedNow(s.attempts[id], s'.attempts[id], g, at)
            && s' == s.(attempts := s.attempts[id := s'.attempts[id]], calls := s.calls - {call})
  {
    var id := s.calls[call].attempt;
    CloseFindsIssuing(s, call);
    if current.Some? { CurrentSharesSubject(s, id, current.value); }
  }

  lemma CurrentSharesSubject(s: Store, id: Id, c: Id)
    requires Inv(s) && id in s.attempts && IssuedFor(s, s.attempts[id], c)
    ensures SameSubject(s.attempts[c], s.attempts[id])
  {
    assert SubjectOk(s, s.attempts[id]) && SubjectOk(s, s.attempts[c]);
  }

  /** Of two links of one subject the one requested later is issued, ties by request identifier, and the other one names
      it. */
  lemma CloseComparesRequests(s: Store, call: Id, g: Generated, at: int, current: Option<Id>, c: Id)
    requires Inv(s) && InIssue(s, call) && IsCurrent(s, s.attempts[s.calls[call].attempt], current)
    requires c in s.attempts && s.attempts[c].state.Issued?
    requires SameSubject(s.attempts[c], s.attempts[s.calls[call].attempt])
    ensures var s', id := CloseIssue(s, call, g, at, current), s.calls[call].attempt;
            var a, b := s.attempts[id], s.attempts[c];
            && c != id && a.request in s.requests && b.request in s.requests
            && id in s'.attempts && c in s'.attempts
            && s' == s.(attempts := s.attempts[c := s'.attempts[c]][id := s'.attempts[id]], calls := s.calls - {call})
            && var asked, before := s.requests[a.request].requestedAt, s.requests[b.request].requestedAt;
               if before < asked || (before == asked && b.request < a.request)
               then ReplacedBy(b, s'.attempts[c], id, at) && IssuedNow(a, s'.attempts[id], g, at)
               else ReplacedBy(a, s'.attempts[id], c, at) && s'.attempts[c] == b
  {
    var id := s.calls[call].attempt;
    CloseFindsIssuing(s, call);
    assert SubjectOk(s, s.attempts[id]) && SubjectOk(s, s.attempts[c]);
    assert IssuedFor(s, s.attempts[id], c);
    var d: Id := current.value;
    assert SubjectOk(s, s.attempts[d]);
    assert SameSubject(s.attempts[d], s.attempts[id]) && SameSubject(s.attempts[d], s.attempts[c]);
    assert d == c;
  }

  // ---- confirming ----

  /** The link is issued and its expiry has not come. */
  predicate Fresh(a: Attempt, now: int) {
    a.state.Issued? && a.expiresAt.Some? && now < a.expiresAt.value
  }

  /** A presented link goes on to verification exactly while it is fresh; a stale one is marked expired. */
  lemma OpenConfirmChecks(s: Store, call: Id, id: Id, now: int, commit: bool)
    requires Inv(s) && call !in s.calls && id in s.attempts
    ensures OpenConfirm(s, call, id, now, commit) ==
            if Fresh(s.attempts[id], now) then s.(calls := s.calls[call := Verifying(id, now)])
            else if s.attempts[id].state.Issued? && commit then
              s.(attempts := s.attempts[id := s.attempts[id].(state := Expired)])
            else s
  {
    assert TimeOk(s.attempts[id]);
  }

  /** The proof is for the subject: the account has its address, the open invitation has its address, and its external
      identity belongs to nobody else. */
  ghost predicate ProofFits(s: Store, a: Attempt, proof: Proof) {
    && (a.user.Some? ==> a.user.value in s.users && s.users[a.user.value].email == proof.email)
    && (a.invitation.Some? ==>
          a.invitation.value in s.invitations && !s.invitations[a.invitation.value].accepted &&
          s.invitations[a.invitation.value].email == proof.email)
    && (forall l :: l in s.links && s.links[l].identity == proof.identity ==> a.user == Some(s.links[l].user))
  }

  ghost predicate Unused(s: Store, newUser: Id, newLink: Id, newSession: Id) {
    newUser !in s.users && newLink !in s.links && newSession !in s.sessions
  }

  /** Any mismatch, and a link that is stale by now, ends the call and changes nothing else. */
  lemma MismatchChangesNothing(s: Store, call: Id, proof: Proof, link: Option<Id>, newUser: Id, newLink: Id,
                               newSession: Id)
    requires Inv(s) && InConfirm(s, call) && IsLinkFor(s, proof.identity, link)
    requires var a := s.attempts[s.calls[call].attempt];
             !Fresh(a, s.calls[call].now) || !ProofFits(s, a, proof)
    ensures CloseConfirm(s, call, proof, link, newUser, newLink, newSession) == s.(calls := s.calls - {call})
  {
    if Confirmable(s, call, proof, link) { ConfirmableFits(s, call, proof, link); }
  }

  lemma ConfirmableFits(s: Store, call: Id, proof: Proof, link: Option<Id>)
    requires Inv(s) && IsLinkFor(s, proof.identity, link) && Confirmable(s, call, proof, link)
    ensures var a := s.attempts[s.calls[call].attempt]; Fresh(a, s.calls[call].now) && ProofFits(s, a, proof)
  {
    var a := s.attempts[s.calls[call].attempt];
    assert SubjectOk(s, a) && TimeOk(a);
    forall l | l in s.links && s.links[l].identity == proof.identity ensures a.user == Some(s.links[l].user) {
      assert link.Some?;
      assert l == link.value;
    }
  }

  /** The account a confirmed attempt signs in to. */
  function Account(a: Attempt, newUser: Id): Id {
    if a.user.Some? then a.user.value else newUser
  }

  /** A fitting proof consumes the link and starts a session for the account of the subject. */
  lemma FittingProofSignsIn(s: Store, call: Id, proof: Proof, link: Option<Id>, newUser: Id, newLink: Id,
                            newSession: Id)
    requires Inv(s) && InConfirm(s, call) && IsLinkFor(s, proof.identity, link)
    requires Unused(s, newUser, newLink, newSession)
    requires var a := s.attempts[s.calls[call].attempt]; Fresh(a, s.calls[call].now) && ProofFits(s, a, proof)
    ensures var s' := CloseConfirm(s, call, proof, link, newUser, newLink, newSession);
            var id, now := s.calls[call].attempt, s.calls[call].now;
            var a := s.attempts[id];
            var u := Account(a, newUser);
            && s'.sessions == s.sessions[newSession := Session(u, id, now)]
            && s'.attempts == s.attempts[id := a.(state := Consumed, consumedAt := Some(now))]
            && s'.users == (if a.user.Some? then s.users else s.users[newUser := User(proof.email, true)])
            && s'.invitations == (if a.invitation.None? then s.invitations
                 else s.invitations[a.invitation.value := Invitation(proof.email, true, Some(newUser))])
            && (forall l :: l in s.links ==> l in s'.links && s'.links[l] == s.links[l])
            && (exists l :: l in s'.links && s'.links[l] == Link(u, proof.identity))
            && s'.calls == s.calls - {call} && s'.requests == s.requests
  {
    var s' := CloseConfirm(s, call, proof, link, newUser, newLink, newSession);
    var a := s.attempts[s.calls[call].attempt];
    assert SubjectOk(s, a) && TimeOk(a);
    if link.Some? {
      assert s.links[link.value].identity == proof.identity;
      assert s'.links[link.value] == Link(Account(a, newUser), proof.identity);
    } else {
      assert s'.links[newLink] == Link(Account(a, newUser), proof.identity);
    }
  }

  /** A session starts if and only if the proof fits a fresh link. */
  lemma SignsInIff(s: Store, call: Id, proof: Proof, link: Option<Id>, newUser: Id, newLink: Id, newSession: Id)
    requires Inv(s) && InConfirm(s, call) && IsLinkFor(s, proof.identity, link)
    requires Unused(s, newUser, newLink, newSession)
    ensures var s' := CloseConfirm(s, call, proof, link, newUser, newLink, newSession);
            var a := s.attempts[s.calls[call].attempt];
            newSession in s'.sessions <==> Fresh(a, s.calls[call].now) && ProofFits(s, a, proof)
  {
    var a := s.attempts[s.calls[call].attempt];
    if Fresh(a, s.calls[call].now) && ProofFits(s, a, proof) {
      FittingProofSignsIn(s, call, proof, link, newUser, newLink, newSession);
    } else {
      MismatchChangesNothing(s, call, proof, link, newUser, newLink, newSession);
    }
  }

  // ---- what the other steps leave alone ----

  ghost predicate SamePeople(s: Store, s': Store) {
    s'.users == s.users && s'.invitations == s.invitations && s'.links == s.links && s'.sessions == s.sessions
  }

  lemma RequestSparesPeople(s: Store, invitation: Option<Id>, user: Option<Id>, counts: Limits, now: int,
                            correlation: Id, newRequest: Id, newAttempt: Id, job: JobAnswer)
    requires (invitation.Some? ==> invitation.value in s.invitations) && (user.Some? ==> user.value in s.users)
    ensures SamePeople(s, RequestLink(s, invitation, user, counts, now, correlation, newRequest, newAttempt, job))
  {
  }

  lemma CloseSparesPeople(s: Store, call: Id, g: Generated, acceptedAt: int, current: Option<Id>)
    requires current.Some? ==> current.value in s.attempts
    ensures SamePeople(s, CloseIssue(s, call, g, acceptedAt, current))
  {
  }

  lemma OpeningSparesPeople(s: Store, call: Id, id: Id, correlation: Option<Id>)
    ensures SamePeople(s, OpenIssue(s, call, id, correlation))
  {
  }

  lemma LookingSparesPeople(s: Store, call: Id, id: Id, now: int, commit: bool)
    ensures SamePeople(s, OpenConfirm(s, call, id, now, commit))
  {
  }

  lemma AttemptsSparePeople(s: Store, step: Step)
    requires !step.DoCloseConfirm? && !step.DoPreload? && !step.DoSetStatus?
    ensures SamePeople(s, Apply(s, step))
  {
    if Answered(s, step) {
      match step
      case DoRequest(_, invitation, account, counts, now, correlation, newRequest, newAttempt, job) =>
        RequestSparesPeople(s, invitation, account, counts, now, correlation, newRequest, newAttempt, job);
      case DoOpenIssue(call, id, expected) => OpeningSparesPeople(s, call, id, expected);
      case DoFailIssue(_, _) =>
      case DoCloseIssue(call, g, at, current) => if InIssue(s, call) { CloseSparesPeople(s, call, g, at, current); }
      case DoOpenConfirm(call, id, now, commit) => LookingSparesPeople(s, call, id, now, commit);
      case DoDrop(_) =>
      case DoPurge(_) =>
    }
  }

  /** Every step but a confirmation leaves links, sessions, addresses and filed invitations alone. */
  lemma OthersKeepPeople(s: Store, step: Step)
    requires !step.DoCloseConfirm?
    ensures var s' := Apply(s, step);
            && s'.links == s.links && s'.sessions == s.sessions
            && (forall u :: u in s.users ==> u in s'.users && s'.users[u].email == s.users[u].email)
            && (forall i :: i in s.invitations ==> i in s'.invitations && s'.invitations[i] == s.invitations[i])
  {
    if !step.DoPreload? && !step.DoSetStatus? { AttemptsSparePeople(s, step); }
  }

  // ---- what a session proves ----

  /** The session's user has the proven address and external identity, and was invited under that address. */
  ghost predicate Proven(s: Store, t: Id, proof: Proof) {
    && t in s.sessions && s.sessions[t].user in s.users
    && s.users[s.sessions[t].user].email == proof.email
    && Linked(s, s.sessions[t].user, proof.identity)
    && Welcomed(s, proof.email)
  }

  ghost predicate Linked(s: Store, u: Id, identity: Triple) {
    exists l :: l in s.links && s.links[l] == Link(u, identity)
  }

  lemma FittingSessionIsProven(s: Store, call: Id, proof: Proof, link: Option<Id>, newUser: Id, newLink: Id,
                               newSession: Id)
    requires Inv(s) && InConfirm(s, call) && IsLinkFor(s, proof.identity, link)
    requires Unused(s, newUser, newLink, newSession)
    requires var a := s.attempts[s.calls[call].attempt]; Fresh(a, s.calls[call].now) && ProofFits(s, a, proof)
    requires Inv(CloseConfirm(s, call, proof, link, newUser, newLink, newSession))
    ensures Proven(CloseConfirm(s, call, proof, link, newUser, newLink, newSession), newSession, proof)
  {
    FittingProofSignsIn(s, call, proof, link, newUser, newLink, newSession);
    var s' := CloseConfirm(s, call, proof, link, newUser, newLink, newSession);
    assert SubjectOk(s, s.attempts[s.calls[call].attempt]);
    var u := s'.sessions[newSession].user;
    assert Linked(s', u, proof.identity);
    assert Welcomed(s', s'.users[u].email);
  }

  lemma OnlyConfirmingStartsSessions(s: Store, step: Step, t: Id)
    requires t !in s.sessions && t in Apply(s, step).sessions
    ensures step.DoCloseConfirm? && step.newSession == t && Answered(s, step)
    ensures Unused(s, step.newUser, step.newLink, step.newSession)
    ensures Confirmable(s, step.call, step.proof, step.link)
  {
    if !step.DoCloseConfirm? { OthersKeepPeople(s, step); }
  }

  /** Only a confirmation starts a session, and only one with a proof that fits. */
  lemma NewSessionIsProven(s: Store, step: Step, t: Id)
    requires Inv(s) && t !in s.sessions && t in Apply(s, step).sessions
    ensures step.DoCloseConfirm? && step.newSession == t && Proven(Apply(s, step), t, step.proof)
  {
    OnlyConfirmingStartsSessions(s, step, t);
    StepInv(s, step);
    ConfirmableFits(s, step.call, step.proof, step.link);
    FittingSessionIsProven(s, step.call, step.proof, step.link, step.newUser, step.newLink, step.newSession);
  }

  /** Addresses, links, sessions and acceptances are never taken back. */
  ghost predicate PeopleStay(s: Store, s': Store) {
    && (forall u :: u in s.users ==> u in s'.users && s'.users[u].email == s.users[u].email)
    && (forall l :: l in s.links ==> l in s'.links && s'.links[l] == s.links[l])
    && (forall t :: t in s.sessions ==> t in s'.sessions && s'.sessions[t] == s.sessions[t])
    && (forall i :: i in s.invitations && s.invitations[i].accepted ==>
          i in s'.invitations && s'.invitations[i] == s.invitations[i])
  }

  lemma ConfirmKeepsPeople(s: Store, call: Id, proof: Proof, link: Option<Id>, newUser: Id, newLink: Id,
                           newSession: Id)
    requires Inv(s)
    ensures PeopleStay(s, CloseConfirm(s, call, proof, link, newUser, newLink, newSession))
  {
    if Confirmable(s, call, proof, link) { assert SubjectOk(s, s.attempts[s.calls[call].attempt]); }
  }

  lemma StepKeepsPeople(s: Store, step: Step)
    requires Inv(s)
    ensures PeopleStay(s, Apply(s, step))
  {
    if step.DoCloseConfirm? {
      ConfirmKeepsPeople(s, step.call, step.proof, step.link, step.newUser, step.newLink, step.newSession);
    } else {
      OthersKeepPeople(s, step);
    }
  }

  lemma {:induction false} RunKeepsProven(s: Store, steps: seq<Step>, t: Id, proof: Proof)
    requires Inv(s) && Proven(s, t, proof)
    ensures Proven(Run(s, steps), t, proof)
    decreases |steps|
  {
    if steps == [] {
    } else {
      var s1 := Apply(s, steps[0]);
      StepInv(s, steps[0]);
      StepKeepsPeople(s, steps[0]);
      var l :| l in s.links && s.links[l] == Link(s.sessions[t].user, proof.identity);
      assert l in s1.links && s1.links[l] == Link(s1.sessions[t].user, proof.identity);
      var i :| i in s.invitations && s.invitations[i].accepted && s.invitations[i].email == proof.email;
      assert i in s1.invitations && s1.invitations[i] == s.invitations[i];
      RunKeepsProven(s1, steps[1..], t, proof);
    }
  }

  /** Every session of every run was started by a confirmation whose proof names the address and the external identity
      that its user still has at the end. */
  lemma {:induction false} SessionsAreProven(s: Store, steps: seq<Step>, t: Id) returns (k: nat)
    requires Inv(s) && t !in s.sessions && t in Run(s, steps).sessions
    ensures k < |steps| && steps[k].DoCloseConfirm? && steps[k].newSession == t
    ensures Proven(Run(s, steps), t, steps[k].proof)
    decreases |steps|
  {
    var s1 := Apply(s, steps[0]);
    StepInv(s, steps[0]);
    if t in s1.sessions {
      NewSessionIsProven(s, steps[0], t);
      RunKeepsProven(s1, steps[1..], t, steps[0].proof);
      k := 0;
    } else {
      var j := SessionsAreProven(s1, steps[1..], t);
      k := j + 1;
    }
  }

  // ---- retention ----

  /** The attempt refers to a request whose time has come. */
  predicate RefersToOld(s: Store, a: Id, cutoff: int) {
    a in s.attempts && s.attempts[a].request in s.requests && s.requests[s.attempts[a].request].purgeAfter <= cutoff
  }

  lemma PinnedIff(s: Store, cutoff: int)
    ensures Pinned(s, cutoff) <==> exists a :: a in s.attempts && RefersToOld(s, a, cutoff)
  {
    if a :| a in s.attempts && RefersToOld(s, a, cutoff) {
      assert Expirable(s, s.attempts[a].request, cutoff);
    }
    if a :| a in s.attempts && Expirable(s, s.attempts[a].request, cutoff) {
      assert RefersToOld(s, a, cutoff);
    }
  }

  /** A purge deletes exactly the requests whose time has come, or none at all when an attempt refers to one of them. */
  lemma PurgeDeletes(s: Store, cutoff: int, r: Id)
    ensures Purge(s, cutoff) == s.(requests := Purge(s, cutoff).requests)
    ensures (exists a :: a in s.attempts && RefersToOld(s, a, cutoff)) ==> Purge(s, cutoff) == s
    ensures !(exists a :: a in s.attempts && RefersToOld(s, a, cutoff)) ==>
              (r in Purge(s, cutoff).requests <==> r in s.requests && cutoff < s.requests[r].purgeAfter)
    ensures r in Purge(s, cutoff).requests ==> r in s.requests && Purge(s, cutoff).requests[r] == s.requests[r]
  {
    PinnedIff(s, cutoff);
  }

  ghost predicate RequestsStay(s: Store, s': Store) {
    forall r :: r in s.requests ==> r in s'.requests && s'.requests[r] == s.requests[r]
  }

  lemma CloseKeepsRequests(s: Store, call: Id, g: Generated, acceptedAt: int, current: Option<Id>)
    requires current.Some? ==> current.value in s.attempts
    ensures CloseIssue(s, call, g, acceptedAt, current).requests == s.requests
  {
  }

  lemma OpeningKeepsRequests(s: Store, call: Id, id: Id, correlation: Option<Id>)
    ensures OpenIssue(s, call, id, correlation).requests == s.requests
  {
  }

  lemma LookingKeepsRequests(s: Store, call: Id, id: Id, now: int, commit: bool)
    ensures OpenConfirm(s, call, id, now, commit).requests == s.requests
  {
  }

  lemma ConfirmKeepsRequests(s: Store, call: Id, proof: Proof, link: Option<Id>, newUser: Id, newLink: Id,
                             newSession: Id)
    ensures CloseConfirm(s, call, proof, link, newUser, newLink, newSession).requests == s.requests
  {
  }

  lemma RequestKeepsRequests(s: Store, invitation: Option<Id>, user: Option<Id>, counts: Limits, now: int,
                             correlation: Id, newRequest: Id, newAttempt: Id, job: JobAnswer)
    requires (invitation.Some? ==> invitation.value in s.invitations) && (user.Some? ==> user.value in s.users)
    ensures RequestsStay(s, RequestLink(s, invitation, user, counts, now, correlation, newRequest, newAttempt, job))
  {
  }

  lemma StepKeepsRequests(s: Store, step: Step)
    requires !step.DoPurge?
    ensures RequestsStay(s, Apply(s, step))
  {
    if Answered(s, step) {
      match step
      case DoPreload(_, _, _) =>
      case DoSetStatus(_, _) =>
      case DoRequest(_, invitation, account, counts, now, correlation, newRequest, newAttempt, job) =>
        RequestKeepsRequests(s, invitation, account, counts, now, correlation, newRequest, newAttempt, job);
      case DoOpenIssue(call, id, expected) => OpeningKeepsRequests(s, call, id, expected);
      case DoFailIssue(_, _) =>
      case DoCloseIssue(call, g, at, current) => if InIssue(s, call) { CloseKeepsRequests(s, call, g, at, current); }
      case DoOpenConfirm(call, id, now, commit) => LookingKeepsRequests(s, call, id, now, commit);
      case DoCloseConfirm(call, proof, link, newUser, newLink, newSession) =>
        ConfirmKeepsRequests(s, call, proof, link, newUser, newLink, newSession);
      case DoDrop(_) =>
    }
  }

  lemma PurgeKeepsPin(s: Store, now: int, a: Id, cutoff: int)
    requires RefersToOld(s, a, cutoff) && s.attempts[a].request in s.requests
    ensures RefersToOld(Purge(s, now), a, cutoff)
  {
    if Expirable(s, s.attempts[a].request, now) { assert Pinned(s, now); }
  }

  lemma StepKeepsPin(s: Store, step: Step, a: Id, cutoff: int)
    requires Inv(s) && RefersToOld(s, a, cutoff)
    ensures RefersToOld(Apply(s, step), a, cutoff)
  {
    if step.DoPurge? {
      PurgeKeepsPin(s, step.cutoff, a, cutoff);
    } else {
      MagicLinkHistory.StepMoves(s, step);
      StepKeepsRequests(s, step);
      assert MagicLinkHistory.Moves(s.attempts[a], Apply(s, step).attempts[a]);
    }
  }

  /** Once some attempt has an old request, no purge of any later run deletes anything. */
  lemma {:induction false} PurgeStopsForGood(s: Store, steps: seq<Step>, a: Id, cutoff: int, later: int)
    requires Inv(s) && RefersToOld(s, a, cutoff) && cutoff <= later
    ensures RefersToOld(Run(s, steps), a, cutoff) && Purge(Run(s, steps), later) == Run(s, steps)
    decreases |steps|
  {
    if steps == [] {
      assert Expirable(s, s.attempts[a].request, later);
    } else {
      StepInv(s, steps[0]);
      StepKeepsPin(s, steps[0], a, cutoff);
      PurgeStopsForGood(Apply(s, steps[0]), steps[1..], a, cutoff, later);
    }
  }

  const A_DAY: int := 86_400_000_000

  const INVITED: Step := DoPreload("ana", None, 1)

  const ASKED: Step := DoRequest("ana", Some(1), None, Limits(0, 0), 0, 7, 1, 1, NoRuntime)

  /** One invitation and one eligible request: a day later the request is old, and a purge leaves it where it is. */
  lemma RetentionFails()
    ensures var s := Run(EMPTY, [INVITED, ASKED]);
            1 in s.requests && s.requests[1].purgeAfter <= A_DAY && Purge(s, A_DAY) == s
  {
    var s1 := Apply(EMPTY, INVITED);
    assert s1 == EMPTY.(invitations := map[1 := Invitation("ana", false, None)]);
    var s2 := Apply(s1, ASKED);
    assert 1 in s2.attempts && s2.attempts[1].request == 1 && s2.requests[1].purgeAfter == A_DAY;
    assert [INVITED, ASKED][1..] == [ASKED] && [ASKED][1..] == [];
    assert Run(s1, [ASKED]) == Run(s2, []) == s2;
    assert Run(EMPTY, [INVITED, ASKED]) == s2;
    assert RefersToOld(s2, 1, A_DAY);
    PurgeDeletes(s2, A_DAY, 1);
  }
}
