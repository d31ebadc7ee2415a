/** Magic-link issuance and confirmation as interleaved transactions over the identity store.

    A call is a program counter between its two transactions; the provider call in between can take
    any time and return in any order.  What a store query answers is a parameter, and a step is
    taken only when the answer is one the query's contract allows. */
module MagicLinkModel {
  import opened Collections

  type Id = int

  function Minutes(n: int): int { n * 60_000_000 }

  datatype SubjectKind = ForInvitation | ForUser

  datatype AttemptState = Pending | Issuing | Issued | Consumed | Superseded | Expired | Failed

  datatype Attempt = Attempt(
    request: Id, kind: SubjectKind, invitation: Option<Id>, user: Option<Id>, state: AttemptState,
    generatedAt: Option<int>, issuedAt: Option<int>, expiresAt: Option<int>, consumedAt: Option<int>,
    supersededAt: Option<int>, supersededBy: Option<Id>, failure: Option<string>)

  datatype Request = Request(decision: string, requestedAt: int, purgeAfter: int, correlation: Id)

  datatype Invitation = Invitation(email: string, accepted: bool, acceptedUser: Option<Id>)

  datatype User = User(email: string, active: bool)

  datatype Triple = Triple(provider: string, issuer: string, subject: string)

  datatype Link = Link(user: Id, identity: Triple)

  datatype Session = Session(user: Id, attempt: Id, startedAt: int)

  datatype Call = Generating(attempt: Id) | Verifying(attempt: Id, now: int)

  datatype Store = Store(
    requests: map<Id, Request>, attempts: map<Id, Attempt>, invitations: map<Id, Invitation>,
    users: map<Id, User>, links: map<Id, Link>, sessions: map<Id, Session>, calls: map<Id, Call>)

  const EMPTY: Store := Store(map[], map[], map[], map[], map[], map[], map[])

  // ---- queries ----

  predicate SameSubject(a: Attempt, b: Attempt) {
    a.invitation == b.invitation && a.user == b.user
  }

  predicate IssuedFor(s: Store, a: Attempt, c: Id) {
    c in s.attempts && s.attempts[c].state.Issued? &&
    (a.invitation.Some? ==> s.attempts[c].invitation == a.invitation) &&
    (a.user.Some? ==> s.attempts[c].user == a.user)
  }

  /** An issued attempt of the subject, the latest issued if there were several. */
  ghost predicate IsCurrent(s: Store, a: Attempt, current: Option<Id>) {
    match current
    case None => forall c :: !IssuedFor(s, a, c)
    case Some(c) =>
      IssuedFor(s, a, c) &&
      forall d :: IssuedFor(s, a, d) ==> Stamp(s.attempts[d]) <= Stamp(s.attempts[c])
  }

  function Stamp(a: Attempt): int { if a.issuedAt.Some? then a.issuedAt.value else 0 }

  ghost predicate IsInvitationFor(s: Store, email: string, found: Option<Id>) {
    match found
    case None => forall i :: i in s.invitations ==> s.invitations[i].email != email
    case Some(i) => i in s.invitations && s.invitations[i].email == email
  }

  ghost predicate IsUserFor(s: Store, email: string, found: Option<Id>) {
    match found
    case None => forall u :: u in s.users ==> s.users[u].email != email
    case Some(u) => u in s.users && s.users[u].email == email
  }

  ghost predicate IsLinkFor(s: Store, t: Triple, found: Option<Id>) {
    match found
    case None => forall l :: l in s.links ==> s.links[l].identity != t
    case Some(l) => l in s.links && s.links[l].identity == t
  }

  /** The order issuance competes in: request time, then request identifier. */
  predicate Earlier(s: Store, a: Attempt, b: Attempt)
    requires a.request in s.requests && b.request in s.requests
  {
    var x, y := s.requests[a.request].requestedAt, s.requests[b.request].requestedAt;
    x < y || (x == y && a.request < b.request)
  }

  predicate CurrentAndValid(a: Attempt, now: int) {
    a.state.Issued? && a.expiresAt.Some? && now < a.expiresAt.value && a.consumedAt.None? && a.supersededAt.None?
  }

  // ---- transactions ----

  function Preload(s: Store, email: string, found: Option<Id>, newId: Id): Store {
    if found.Some? || newId in s.invitations then s
    else s.(invitations := s.invitations[newId := Invitation(email, false, None)])
  }

  function SetStatus(s: Store, u: Id, active: bool): Store {
    if u !in s.users then s else s.(users := s.users[u := s.users[u].(active := active)])
  }

  datatype JobAnswer = NoRuntime | Submitted | SubmitRaised

  datatype Limits = Limits(emailCount: int, originCount: int)

  function Decision(s: Store, invitation: Option<Id>, user: Option<Id>, counts: Limits): string
    requires (invitation.Some? ==> invitation.value in s.invitations) && (user.Some? ==> user.value in s.users)
  {
    var eligible := (invitation.Some? && !s.invitations[invitation.value].accepted)
                    || (user.Some? && s.users[user.value].active);
    if counts.emailCount >= 3 && counts.originCount >= 20 then "both_limited"
    else if counts.emailCount >= 3 then "email_limited"
    else if counts.originCount >= 20 then "origin_limited"
    else if eligible then "eligible" else "not_eligible"
  }

  function NewAttempt(s: Store, request: Id, invitation: Option<Id>, user: Option<Id>, job: JobAnswer): Attempt
    requires invitation.Some? ==> invitation.value in s.invitations
  {
    var byInvitation := invitation.Some? && !s.invitations[invitation.value].accepted;
    Attempt(request, if byInvitation then ForInvitation else ForUser,
            if byInvitation then invitation else None, if byInvitation then None else user,
            if job.SubmitRaised? then Failed else Pending, None, None, None, None, None, None,
            if job.SubmitRaised? then Some("job_submission_failed") else None)
  }

  function RequestLink(s: Store, invitation: Option<Id>, user: Option<Id>, counts: Limits, now: int,
                       correlation: Id, newRequest: Id, newAttempt: Id, job: JobAnswer): Store
    requires (invitation.Some? ==> invitation.value in s.invitations) && (user.Some? ==> user.value in s.users)
  {
    if newRequest in s.requests || newAttempt in s.attempts then s
    else
      var decision := Decision(s, invitation, user, counts);
      var filed := s.(requests := s.requests[newRequest :=
                        Request(decision, now, now + Minutes(24 * 60), correlation)]);
      if decision != "eligible" then filed
      else filed.(attempts := s.attempts[newAttempt := NewAttempt(s, newRequest, invitation, user, job)])
  }

  /** The address an attempt would be sent to, when its subject may still receive it. */
  function Recipient(s: Store, a: Attempt): Option<string> {
    if a.invitation.Some? && a.invitation.value in s.invitations then
      if s.invitations[a.invitation.value].accepted then None
      else if a.user.Some? && a.user.value in s.users && !s.users[a.user.value].active then None
      else Some(s.invitations[a.invitation.value].email)
    else if a.user.Some? && a.user.value in s.users && s.users[a.user.value].active then
      Some(s.users[a.user.value].email)
    else None
  }

  function OpenIssue(s: Store, call: Id, id: Id, correlation: Option<Id>): Store {
    if call in s.calls || id !in s.attempts || !s.attempts[id].state.Pending? then s
    else
      var a := s.attempts[id];
      if a.request !in s.requests then s
      else if correlation.Some? && s.requests[a.request].correlation != correlation.value then s
      else if Recipient(s, a).None? then
        s.(attempts := s.attempts[id := a.(state := Failed, failure := Some("not_eligible"))])
      else
        s.(attempts := s.attempts[id := a.(state := Issuing)], calls := s.calls[call := Generating(id)])
  }

  predicate InIssue(s: Store, call: Id) {
    call in s.calls && s.calls[call].Generating? && s.calls[call].attempt in s.attempts
  }

  /** The provider refused: the attempt is failed without looking at its state. */
  function FailIssue(s: Store, call: Id, reason: string): Store {
    if !InIssue(s, call) then s
    else
      var id := s.calls[call].attempt;
      s.(attempts := s.attempts[id := s.attempts[id].(state := Failed, failure := Some(reason))],
         calls := s.calls - {call})
  }

  function Supersede(a: Attempt, winner: Id, at: int): Attempt {
    a.(state := Superseded, supersededAt := Some(at), supersededBy := Some(winner))
  }

  datatype Generated = Generated(generatedAt: int, expiresAt: int)

  function IssuedAs(a: Attempt, g: Generated, acceptedAt: int): Attempt {
    var cap := g.generatedAt + Minutes(15);
    a.(state := Issued, generatedAt := Some(g.generatedAt), issuedAt := Some(acceptedAt),
       expiresAt := Some(if g.expiresAt < cap then g.expiresAt else cap))
  }

  /** The closing transaction: the later request wins, and the loser names the winner. */
  function CloseIssue(s: Store, call: Id, g: Generated, acceptedAt: int, current: Option<Id>): Store
    requires current.Some? ==> current.value in s.attempts
  {
    if !InIssue(s, call) then s
    else
      var id := s.calls[call].attempt;
      var a := s.attempts[id];
      var done := s.(calls := s.calls - {call});
      if current.None? || current.value == id then
        done.(attempts := s.attempts[id := IssuedAs(a, g, acceptedAt)])
      else
        var c := s.attempts[current.value];
        if c.request !in s.requests || a.request !in s.requests then done
        else if !Earlier(s, c, a) then
          done.(attempts := s.attempts[id := Supersede(a, current.value, acceptedAt)])
        else
          done.(attempts := s.attempts[current.value := Supersede(c, id, acceptedAt)][id := IssuedAs(a, g, acceptedAt)])
  }

  /** First look at a presented link; `commit` says whether a write before the raise survives. */
  function OpenConfirm(s: Store, call: Id, id: Id, now: int, commit: bool): Store {
    if call in s.calls || id !in s.attempts || !s.attempts[id].state.Issued? then s
    else if !CurrentAndValid(s.attempts[id], now) then
      if commit then s.(attempts := s.attempts[id := s.attempts[id].(state := Expired)]) else s
    else s.(calls := s.calls[call := Verifying(id, now)])
  }

  datatype Proof = Proof(identity: Triple, email: string)

  predicate InConfirm(s: Store, call: Id) {
    call in s.calls && s.calls[call].Verifying? && s.calls[call].attempt in s.attempts
  }

  /** Every condition under which the confirming transaction starts a session. */
  predicate Confirmable(s: Store, call: Id, proof: Proof, link: Option<Id>) {
    InConfirm(s, call) &&
    var a := s.attempts[s.calls[call].attempt];
    && a.request in s.requests
    && CurrentAndValid(a, s.calls[call].now)
    && (link.Some? ==>
          link.value in s.links && a.user == Some(s.links[link.value].user) && s.links[link.value].user in s.users)
    && (a.user.Some? && a.user.value in s.users ==> s.users[a.user.value].email == proof.email)
    && (a.invitation.Some? && a.invitation.value in s.invitations ==>
          !s.invitations[a.invitation.value].accepted && s.invitations[a.invitation.value].email == proof.email)
  }

  function CloseConfirm(s: Store, call: Id, proof: Proof, link: Option<Id>,
                        newUser: Id, newLink: Id, newSession: Id): Store
  {
    if !Confirmable(s, call, proof, link) || newUser in s.users || newLink in s.links || newSession in s.sessions
    then s.(calls := s.calls - {call})
    else
      var id, now := s.calls[call].attempt, s.calls[call].now;
      var a := s.attempts[id];
      var known := a.user.Some? && a.user.value in s.users;
      var user := if known then a.user.value else newUser;
      s.(users := if known then s.users else s.users[newUser := User(proof.email, true)],
         invitations := if known || a.invitation.None? || a.invitation.value !in s.invitations then s.invitations
                        else s.invitations[a.invitation.value :=
                               s.invitations[a.invitation.value].(accepted := true, acceptedUser := Some(newUser))],
         links := if link.Some? then s.links else s.links[newLink := Link(user, proof.identity)],
         attempts := s.attempts[id := a.(state := Consumed, consumedAt := Some(now))],
         sessions := s.sessions[newSession := Session(user, id, now)],
         calls := s.calls - {call})
  }

  predicate Expirable(s: Store, r: Id, cutoff: int) {
    r in s.requests && s.requests[r].purgeAfter <= cutoff
  }

  /** Some attempt refers to an old request, which the database then refuses to delete. */
  predicate Pinned(s: Store, cutoff: int) {
    exists a :: a in s.attempts && Expirable(s, s.attempts[a].request, cutoff)
  }

  /** Retention deletes all old requests in one statement, or none when one of them is refused. */
  function Purge(s: Store, cutoff: int): Store {
    if Pinned(s, cutoff) then s
    else s.(requests := map r | r in s.requests && !Expirable(s, r, cutoff) :: s.requests[r])
  }

  // ---- runs ----

  datatype Step =
    | DoPreload(email: string, found: Option<Id>, newId: Id)
    | DoSetStatus(user: Id, active: bool)
    | DoRequest(email: string, invitation: Option<Id>, account: Option<Id>, counts: Limits, now: int,
                correlation: Id, newRequest: Id, newAttempt: Id, job: JobAnswer)
    | DoOpenIssue(call: Id, attempt: Id, expected: Option<Id>)
    | DoFailIssue(call: Id, reason: string)
    | DoCloseIssue(call: Id, generated: Generated, acceptedAt: int, current: Option<Id>)
    | DoOpenConfirm(call: Id, attempt: Id, now: int, commit: bool)
    | DoCloseConfirm(call: Id, proof: Proof, link: Option<Id>, newUser: Id, newLink: Id, newSession: Id)
    | DoDrop(call: Id)
    | DoPurge(cutoff: int)

  /** The store answers its queries by their contracts. */
  ghost predicate Answered(s: Store, step: Step) {
    match step
    case DoPreload(email, found, _) => IsInvitationFor(s, email, found)
    case DoRequest(email, invitation, account, _, _, _, _, _, _) =>
      IsInvitationFor(s, email, invitation) && IsUserFor(s, email, account)
    case DoCloseIssue(call, _, _, current) =>
      InIssue(s, call) ==> IsCurrent(s, s.attempts[s.calls[call].attempt], current)
    case DoCloseConfirm(_, proof, link, _, _, _) => IsLinkFor(s, proof.identity, link)
    case _ => true
  }

  ghost function Apply(s: Store, step: Step): Store {
    if !Answered(s, step) then s
    else match step
      case DoPreload(email, found, newId) => Preload(s, email, found, newId)
      case DoSetStatus(u, active) => SetStatus(s, u, active)
      case DoRequest(email, invitation, account, counts, now, correlation, newRequest, newAttempt, job) =>
        RequestLink(s, invitation, account, counts, now, correlation, newRequest, newAttempt, job)
      case DoOpenIssue(call, id, expected) => OpenIssue(s, call, id, expected)
      case DoFailIssue(call, reason) => FailIssue(s, call, reason)
      case DoCloseIssue(call, g, at, current) => if InIssue(s, call) then CloseIssue(s, call, g, at, current) else s
      case DoOpenConfirm(call, id, now, commit) => OpenConfirm(s, call, id, now, commit)
      case DoCloseConfirm(call, proof, link, newUser, newLink, newSession) =>
        CloseConfirm(s, call, proof, link, newUser, newLink, newSession)
      case DoDrop(call) => s.(calls := s.calls - {call})
      case DoPurge(cutoff) => Purge(s, cutoff)
  }

  ghost function Run(s: Store, steps: seq<Step>): Store
    decreases |steps|
  {
    if steps == [] then s else Run(Apply(s, steps[0]), steps[1..])
  }
}
