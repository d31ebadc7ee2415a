/** Identity access as it is written: records saved into a store, one transaction at a time.

    A method here is one transaction of the corresponding operation; what the operation holds in its
    local variables while the provider works is the entry of its call in `calls`. */
module IdentityAccess {
  import opened Collections
  import opened MagicLinkModel
  import opened MagicLinkInvariant

  datatype Outcome = Done | Raised(code: string)

  class IdentityAccess {
    var requests: map<Id, Request>
    var attempts: map<Id, Attempt>
    var invitations: map<Id, Invitation>
    var users: map<Id, User>
    var links: map<Id, Link>
    var sessions: map<Id, Session>
    var calls: map<Id, Call>

    function St(): Store
      reads this
    {
      Store(requests, attempts, invitations, users, links, sessions, calls)
    }

    ghost predicate Valid()
      reads this
    {
      Inv(St())
    }

    constructor ()
      ensures Valid() && St() == EMPTY
    {
      requests, attempts, invitations := map[], map[], map[];
      users, links, sessions, calls := map[], map[], map[], map[];
    }

    // ---- queries of the store ----

    /** The issued attempt of the subject with the latest issue time. */
    method CurrentAttempt(a: Attempt) returns (current: Option<Id>)
      ensures IsCurrent(St(), a, current)
    {
      current := None;
      var rest := attempts.Keys;
      while exists k :: k in rest
        invariant rest <= attempts.Keys
        invariant current.Some? ==> IssuedFor(St(), a, current.value)
        invariant current.None? ==> forall d :: d in attempts && d !in rest ==> !IssuedFor(St(), a, d)
        invariant current.Some? ==>
                    forall d :: d in attempts && d !in rest && IssuedFor(St(), a, d) ==>
                      Stamp(attempts[d]) <= Stamp(attempts[current.value])
        decreases |rest|
      {
        var c :| c in rest;
        rest := rest - {c};
        if IssuedFor(St(), a, c) && (current.None? || Stamp(attempts[current.value]) < Stamp(attempts[c])) {
          current := Some(c);
        }
      }
    }

    method InvitationForEmail(email: string) returns (found: Option<Id>)
      ensures IsInvitationFor(St(), email, found)
    {
      found := None;
      var rest := invitations.Keys;
      while exists k :: k in rest
        invariant rest <= invitations.Keys
        invariant forall i :: i in invitations && i !in rest ==> invitations[i].email != email
        decreases |rest|
      {
        var i :| i in rest;
        if invitations[i].email == email { return Some(i); }
        rest := rest - {i};
      }
    }

    method UserForEmail(email: string) returns (found: Option<Id>)
      ensures IsUserFor(St(), email, found)
    {
      found := None;
      var rest := users.Keys;
      while exists k :: k in rest
        invariant rest <= users.Keys
        invariant forall u :: u in users && u !in rest ==> users[u].email != email
        decreases |rest|
      {
        var u :| u in rest;
        if users[u].email == email { return Some(u); }
        rest := rest - {u};
      }
    }

    method LinkForSubject(t: Triple) returns (found: Option<Id>)
      ensures IsLinkFor(St(), t, found)
    {
      found := None;
      var rest := links.Keys;
      while exists k :: k in rest
        invariant rest <= links.Keys
        invariant forall l :: l in links && l !in rest ==> links[l].identity != t
        decreases |rest|
      {
        var l :| l in rest;
        if links[l].identity == t { return Some(l); }
        rest := rest - {l};
      }
    }

    // ---- transactions ----

    method PreloadInvitation(email: string, newId: Id) returns (id: Id)
      requires Valid() && newId !in invitations
      modifies this
      ensures Valid()
      ensures id in invitations && invitations[id].email == email
      ensures exists found :: IsInvitationFor(old(St()), email, found) &&
                St() == Preload(old(St()), email, found, newId)
    {
      var found := InvitationForEmail(email);
      PreloadInv(St(), email, found, newId);
      if found.Some? { return found.value; }
      invitations := invitations[newId := Invitation(email, false, None)];
      id := newId;
    }

    method FileRequest(invitation: Option<Id>, account: Option<Id>, counts: Limits, now: int, correlation: Id,
                       newRequest: Id, newAttempt: Id, job: JobAnswer)
      requires (invitation.Some? ==> invitation.value in invitations) && (account.Some? ==> account.value in users)
      requires newRequest !in requests && newAttempt !in attempts
      modifies this
      ensures St() == RequestLink(old(St()), invitation, account, counts, now, correlation, newRequest, newAttempt, job)
    {
      var decision := Decision(St(), invitation, account, counts);
      var attempt := NewAttempt(St(), newRequest, invitation, account, NoRuntime);
      requests := requests[newRequest := Request(decision, now, now + Minutes(24 * 60), correlation)];
      if decision != "eligible" { return; }
      attempts := attempts[newAttempt := attempt];
      if job.SubmitRaised? {
        attempts := attempts[newAttempt := attempt.(state := Failed, failure := Some("job_submission_failed"))];
      }
    }

    method RequestMagicLink(email: string, counts: Limits, now: int, correlation: Id, newRequest: Id, newAttempt: Id,
                            job: JobAnswer)
      requires Valid() && newRequest !in requests && newAttempt !in attempts
      modifies this
      ensures Valid()
      ensures exists invitation, account ::
                IsInvitationFor(old(St()), email, invitation) && IsUserFor(old(St()), email, account) &&
                St() == RequestLink(old(St()), invitation, account, counts, now, correlation, newRequest,
                    newAttempt, job)
    {
      var invitation := InvitationForEmail(email);
      var account := UserForEmail(email);
      RequestLinkInv(St(), email, invitation, account, counts, now, correlation, newRequest, newAttempt, job);
      FileRequest(invitation, account, counts, now, correlation, newRequest, newAttempt, job);
    }

    method BeginIssue(call: Id, id: Id, correlation: Option<Id>) returns (outcome: Outcome)
      requires Valid() && call !in calls
      modifies this
      ensures Valid() && St() == OpenIssue(old(St()), call, id, correlation)
      ensures outcome.Raised? <==>
                id in attempts && attempts[id].state.Pending? && attempts[id].request in requests &&
                    correlation.Some? &&
                requests[attempts[id].request].correlation != correlation.value
    {
      OpenIssueInv(St(), call, id, correlation);
      if id !in attempts || !attempts[id].state.Pending? { return Done; }
      var a := attempts[id];
      if a.request !in requests { return Done; }
      if correlation.Some? && requests[a.request].correlation != correlation.value {
        return Raised("auth.request_invalid");
      }
      if Recipient(St(), a).None? {
        attempts := attempts[id := a.(state := Failed, failure := Some("not_eligible"))];
        return Done;
      }
      attempts := attempts[id := a.(state := Issuing)];
      calls := calls[call := Generating(id)];
      outcome := Done;
    }

    method RefuseIssue(call: Id, reason: string)
      requires Valid() && InIssue(St(), call)
      modifies this
      ensures Valid() && St() == FailIssue(old(St()), call, reason)
    {
      FailIssueInv(St(), call, reason);
      var id := calls[call].attempt;
      calls := calls - {call};
      attempts := attempts[id := attempts[id].(state := Failed, failure := Some(reason))];
    }

    method FinishIssue(call: Id, g: Generated, acceptedAt: int)
      requires Valid() && InIssue(St(), call)
      modifies this
      ensures Valid()
      ensures exists current ::
                IsCurrent(old(St()), old(attempts[calls[call].attempt]), current) &&
                St() == CloseIssue(old(St()), call, g, acceptedAt, current)
    {
      var id := calls[call].attempt;
      var a := attempts[id];
      var current := CurrentAttempt(a);
      CloseIssueInv(St(), call, g, acceptedAt, current);
      calls := calls - {call};
      if current.Some? && current.value != id {
        var c := attempts[current.value];
        if c.request !in requests || a.request !in requests { return; }
        if !Earlier(St(), c, a) {
          attempts := attempts[id := Supersede(a, current.value, acceptedAt)];
          return;
        }
        attempts := attempts[current.value := Supersede(c, id, acceptedAt)];
      }
      attempts := attempts[id := IssuedAs(a, g, acceptedAt)];
    }

    function Unusable(s: AttemptState): string {
      if s.Consumed? then "link_consumed" else if s.Superseded? then "link_superseded" else "link_invalid"
    }

    method BeginConfirm(call: Id, id: Id, now: int, commit: bool) returns (outcome: Outcome)
      requires Valid() && call !in calls
      modifies this
      ensures Valid() && St() == OpenConfirm(old(St()), call, id, now, commit)
      ensures outcome.Done? <==> id in old(attempts) && CurrentAndValid(old(attempts)[id], now)
    {
      OpenConfirmInv(St(), call, id, now, commit);
      if id !in attempts { return Raised("link_invalid"); }
      if !attempts[id].state.Issued? {
        return Raised(Unusable(attempts[id].state));
      }
      if !CurrentAndValid(attempts[id], now) {
        if commit { attempts := attempts[id := attempts[id].(state := Expired)]; }
        return Raised("link_expired");
      }
      calls := calls[call := Verifying(id, now)];
      outcome := Done;
    }

    method SignIn(call: Id, proof: Proof, link: Option<Id>, newUser: Id, newLink: Id, newSession: Id)
      returns (started: bool)
      requires InConfirm(St(), call) && (link.Some? ==> link.value in links)
      requires newUser !in users && newLink !in links && newSession !in sessions
      modifies this
      ensures started == Confirmable(old(St()), call, proof, link)
      ensures St() == CloseConfirm(old(St()), call, proof, link, newUser, newLink, newSession)
    {
      var id, now := calls[call].attempt, calls[call].now;
      var a := attempts[id];
      calls := calls - {call};
      if a.request !in requests || !CurrentAndValid(a, now) { return false; }
      var known := a.user.Some? && a.user.value in users;
      var invited := a.invitation.Some? && a.invitation.value in invitations;
      if link.Some? && !(known && links[link.value].user == a.user.value) { return false; }
      if known && users[a.user.value].email != proof.email { return false; }
      if invited && (invitations[a.invitation.value].accepted || invitations[a.invitation.value].email != proof.email) {
        return false;
      }
      var user := if known then a.user.value else newUser;
      if !known {
        users := users[newUser := User(proof.email, true)];
        if invited {
          var v := invitations[a.invitation.value];
          invitations := invitations[a.invitation.value := v.(accepted := true, acceptedUser := Some(newUser))];
        }
      }
      if link.None? { links := links[newLink := Link(user, proof.identity)]; }
      attempts := attempts[id := a.(state := Consumed, consumedAt := Some(now))];
      sessions := sessions[newSession := Session(user, id, now)];
      started := true;
    }

    /** A session is started exactly when every check of the closing transaction passes. */
    method FinishConfirm(call: Id, proof: Proof, newUser: Id, newLink: Id, newSession: Id) returns (started: bool)
      requires Valid() && InConfirm(St(), call)
      requires newUser !in users && newLink !in links && newSession !in sessions
      modifies this
      ensures Valid()
      ensures exists link ::
                IsLinkFor(old(St()), proof.identity, link) && started == Confirmable(old(St()), call, proof, link) &&
                St() == CloseConfirm(old(St()), call, proof, link, newUser, newLink, newSession)
    {
      var link := LinkForSubject(proof.identity);
      CloseConfirmInv(St(), call, proof, link, newUser, newLink, newSession);
      started := SignIn(call, proof, link, newUser, newLink, newSession);
    }
  }
}
