/** The durable job runtime as values: its records, its atomic operations and its runs.

    Every public method of the runtime holds one lock, so each operation below is one
    atomic step.  Instants are whole microseconds.  A new identifier is a parameter,
    and an operation offered an identifier that is already in use does nothing. */
module JobModel {
  import opened Collections

  const MAX_DELAY: int := 300
  const MAX_PUBLISH: nat := 100

  function Seconds(n: int): int { n * 1_000_000 }

  function WholeSeconds(us: int): int { us / 1_000_000 }

  type Id = int

  /** Text keys are opaque; the scheduler builds its key from the schedule and a second. */
  datatype IdemKey = TextKey(text: string) | ScheduleKey(schedule: Id, second: int)

  datatype Identity = Identity(jobType: string, target: string, key: IdemKey)

  datatype JobState = Pending | Queued | Running | Succeeded | RetryWait | Failed

  datatype AttemptState = InProgress | Done | TransientFailure | PermanentFailure | Abandoned

  datatype Attempt = Attempt(ordinal: int, worker: string, startedAt: int,
                             state: AttemptState, finishedAt: Option<int>, error: Option<string>)

  datatype Execution = Execution(
    identity: Identity, correlation: Id, maxAttempts: int, createdAt: int,
    availableAt: int, state: JobState, attemptCount: int, result: Option<string>,
    error: Option<string>, finishedAt: Option<int>, leaseOwner: Option<string>,
    leaseUntil: Option<int>, attempts: seq<Attempt>)

  datatype RowKey = RowKey(id: Id, attempt: int)

  datatype RowState = RowPending | RowPublished | RowFailed

  datatype Row = Row(availableAt: int, state: RowState, publishAttempts: nat, error: Option<string>)

  datatype ScheduleKind = OneShot | FixedInterval(seconds: int)

  datatype Schedule = Schedule(jobType: string, target: string, kind: ScheduleKind,
                               nextRunAt: int, maxAttempts: int, enabled: bool,
                               lastScheduledAt: Option<int>)

  datatype Handler = Plain | Normalizing(normalize: string -> Option<string>)

  /** What the composition fixes: lease length, handler registry, identifier normalizers. */
  datatype Config = Config(leaseSeconds: int, registry: Option<map<string, Handler>>,
                           normalizeType: string -> Option<string>,
                           normalizeTarget: string -> Option<string>)

  datatype State = State(
    now: int, executions: Dict<Id, Execution>, index: map<Identity, Id>,
    outbox: Dict<RowKey, Row>, schedules: Dict<Id, Schedule>)

  datatype RawCommand = Command(identity: Identity, correlation: Id, maxAttempts: int)

  /** A submission cannot be built outside one to ten attempts. */
  type SubmitJob = c: RawCommand | 1 <= c.maxAttempts <= 10
    witness Command(Identity("a", "b", TextKey("c")), 0, 1)

  datatype JobClaim = JobClaim(id: Id, attempt: int, worker: string)

  /** Rejected stands for a returned value that is not a bounded JSON object. */
  datatype Outcome =
    | Returned(value: string)
    | Rejected
    | Transient(code: string, retryAfter: Option<int>)
    | Permanent(code: string)
    | Unclassified

  function Initial(now: int): State {
    State(now, EmptyDict(), map[], EmptyDict(), EmptyDict())
  }

  predicate Terminal(e: Execution) { e.state.Succeeded? || e.state.Failed? }

  predicate Waiting(e: Execution) { e.state.Pending? || e.state.Queued? || e.state.RetryWait? }

  function Min(a: int, b: int): int { if a < b then a else b }

  function Max(a: int, b: int): int { if a < b then b else a }

  function Pow2(n: int): (r: int)
    ensures r >= 1
    decreases n
  {
    if n <= 0 then 1 else 2 * Pow2(n - 1)
  }

  /** The delays in seconds after 1, 2, 3, ... failures: doubling, and 300 from the tenth on. */
  const DELAYS: seq<int> := [1, 2, 4, 8, 16, 32, 64, 128, 256]

  function DelayAfter(failures: int): int
    requires failures >= 1
  {
    if failures <= 9 then DELAYS[failures - 1] else 300
  }

  lemma {:induction false} Pow2Large(n: int)
    requires n >= 9
    ensures Pow2(n) >= 512
    decreases n
  {
    if n == 9 {
      assert Pow2(3) == 8 && Pow2(6) == 64;
    } else {
      Pow2Large(n - 1);
    }
  }

  lemma DelayWrittenOut(failures: int)
    requires failures >= 1
    ensures Min(MAX_DELAY, Pow2(Max(0, failures - 1))) == DelayAfter(failures)
  {
    if failures >= 10 {
      Pow2Large(failures - 1);
    } else {
      assert Pow2(0) == 1 && Pow2(3) == 8 && Pow2(6) == 64;
    }
  }

  // ---- writes ----

  function WriteExec(s: State, id: Id, e: Execution): State {
    s.(executions := s.executions.Put(id, e))
  }

  function WriteRow(s: State, k: RowKey, r: Row): State {
    s.(outbox := s.outbox.Put(k, r))
  }

  function FreshRow(availableAt: int): Row { Row(availableAt, RowPending, 0, None) }

  // ---- submit ----

  function CreateIdentity(cfg: Config, jobType: string, target: string, key: IdemKey): Option<Identity> {
    match (cfg.normalizeType(jobType), cfg.normalizeTarget(target))
    case (Some(t), Some(g)) => Some(Identity(t, g, key))
    case _ => None
  }

  /** The identity a submission is filed under, or None when the registry refuses it. */
  function Resolve(cfg: Config, identity: Identity): Option<Identity> {
    match cfg.registry
    case None => Some(identity)
    case Some(handlers) =>
      if identity.jobType !in handlers then None
      else match handlers[identity.jobType]
        case Plain => Some(identity)
        case Normalizing(f) =>
          match f(identity.target)
          case None => None
          case Some(t) =>
            if t == identity.target then Some(identity)
            else CreateIdentity(cfg, identity.jobType, t, identity.key)
  }

  function NewExecution(s: State, identity: Identity, correlation: Id, maxAttempts: int): Execution {
    Execution(identity, correlation, maxAttempts, s.now, s.now, Pending, 0,
              None, None, None, None, None, [])
  }

  function File(s: State, identity: Identity, c: SubmitJob, newId: Id): State {
    if identity in s.index || newId in s.executions.at then s
    else
      WriteRow(WriteExec(s, newId, NewExecution(s, identity, c.correlation, c.maxAttempts)),
               RowKey(newId, 1), FreshRow(s.now)).(index := s.index[identity := newId])
  }

  function Submit(cfg: Config, s: State, c: SubmitJob, newId: Id): State {
    match Resolve(cfg, c.identity)
    case None => s
    case Some(identity) => File(s, identity, c, newId)
  }

  // ---- claim, outcome, abandonment ----

  predicate Claimable(s: State, id: Id, n: int) {
    id in s.executions.at &&
    var e := s.executions.at[id];
    n == e.attemptCount + 1 && Waiting(e) && e.availableAt <= s.now
  }

  predicate LeaseExpired(s: State, id: Id) {
    id in s.executions.at &&
    var e := s.executions.at[id];
    e.state.Running? && e.leaseUntil.Some? && e.leaseUntil.value <= s.now
  }

  function Claimed(cfg: Config, s: State, e: Execution, worker: string): Execution {
    e.(attemptCount := e.attemptCount + 1, state := Running, leaseOwner := Some(worker),
       leaseUntil := Some(s.now + Seconds(cfg.leaseSeconds)),
       attempts := e.attempts + [Attempt(e.attemptCount + 1, worker, s.now, InProgress, None, None)])
  }

  function Claim(cfg: Config, s: State, id: Id, n: int, worker: string): State {
    if Claimable(s, id, n) then
      WriteExec(s, id, Claimed(cfg, s, s.executions.at[id], worker))
    else if LeaseExpired(s, id) && n == s.executions.at[id].attemptCount + 1 then Abandon(s, id)
    else s
  }

  /** Closing the latest attempt. */
  function CloseLast(e: Execution, now: int, st: AttemptState, err: Option<string>): seq<Attempt> {
    if e.attempts == [] then []
    else
      var last := |e.attempts| - 1;
      e.attempts[last := e.attempts[last].(state := st, finishedAt := Some(now), error := err)]
  }

  function Retry(e: Execution, at: int, code: string, attempts: seq<Attempt>): Execution {
    e.(state := RetryWait, availableAt := at, error := Some(code), attempts := attempts,
       leaseOwner := None, leaseUntil := None)
  }

  function Fail(e: Execution, at: int, code: string, attempts: seq<Attempt>): Execution {
    e.(state := JobState.Failed, finishedAt := Some(at), error := Some(code), attempts := attempts,
       leaseOwner := None, leaseUntil := None)
  }

  /** Back to waiting, with a row for the next attempt. */
  function RetryLater(s: State, id: Id, at: int, code: string, attempts: seq<Attempt>): State
    requires id in s.executions.at
  {
    var e := s.executions.at[id];
    WriteRow(WriteExec(s, id, Retry(e, at, code, attempts)), RowKey(id, e.attemptCount + 1), FreshRow(at))
  }

  /** Ends the open attempt: another one waits until `at` while the bound allows it. */
  function EndRetryable(s: State, id: Id, at: int, st: AttemptState, code: string): State
    requires id in s.executions.at
  {
    var e := s.executions.at[id];
    var closed := CloseLast(e, s.now, st, Some(code));
    if e.attemptCount < e.maxAttempts then RetryLater(s, id, at, code, closed)
    else WriteExec(s, id, Fail(e, s.now, code, closed))
  }

  function Abandon(s: State, id: Id): State
    requires id in s.executions.at
  {
    EndRetryable(s, id, s.now, Abandoned, "job.lease_expired")
  }

  /** The claim still owns an unexpired lease on its attempt. */
  predicate Holds(s: State, c: JobClaim) {
    c.id in s.executions.at &&
    var e := s.executions.at[c.id];
    e.state.Running? && e.attemptCount == c.attempt && e.leaseOwner == Some(c.worker) &&
    e.leaseUntil.Some? && s.now < e.leaseUntil.value
  }

  /** Seconds before the next attempt: doubling from one, or what the handler asked for. */
  function Backoff(attemptCount: int, retryAfter: Option<int>): (d: int)
    ensures 0 <= d <= MAX_DELAY
  {
    match retryAfter
    case None => Min(MAX_DELAY, Pow2(Max(0, attemptCount - 1)))
    case Some(us) => Min(MAX_DELAY, Max(0, WholeSeconds(us)))
  }

  /** The seconds until the next attempt, written out. */
  function RetryDelay(attempt: int, retryAfter: Option<int>): int
    requires attempt >= 1
  {
    match retryAfter
    case None => DelayAfter(attempt)
    case Some(us) => if us < 0 then 0 else if us >= 300_000_000 then 300 else us / 1_000_000
  }

  lemma BackoffWrittenOut(attempt: int, retryAfter: Option<int>)
    requires attempt >= 1
    ensures Backoff(attempt, retryAfter) == RetryDelay(attempt, retryAfter)
  {
    DelayWrittenOut(attempt);
  }

  function Record(s: State, c: JobClaim, o: Outcome): State {
    if !Holds(s, c) then s
    else
      var e := s.executions.at[c.id];
      match o
      case Returned(v) =>
        WriteExec(s, c.id,
          e.(state := Succeeded, result := Some(v), error := None, finishedAt := Some(s.now),
             leaseOwner := None, leaseUntil := None, attempts := CloseLast(e, s.now, Done, None)))
      case Rejected =>
        WriteExec(s, c.id,
          e.(leaseOwner := None, leaseUntil := None, attempts := CloseLast(e, s.now, InProgress, None)))
      case Transient(code, after) =>
        EndRetryable(s, c.id, s.now + Seconds(Backoff(e.attemptCount, after)), TransientFailure, code)
      case Permanent(code) =>
        WriteExec(s, c.id, Fail(e, s.now, code, CloseLast(e, s.now, PermanentFailure, Some(code))))
      case Unclassified =>
        var code := "job.unclassified_failure";
        WriteExec(s, c.id, Fail(e, s.now, code, CloseLast(e, s.now, PermanentFailure, Some(code))))
  }

  // ---- outbox relay, rebuild, reaper ----

  predicate Due(s: State, k: RowKey) {
    k in s.outbox.at &&
    var r := s.outbox.at[k];
    r.state.RowPending? && r.availableAt <= s.now && r.publishAttempts < MAX_PUBLISH
  }

  predicate Republishable(s: State, k: RowKey) {
    k in s.outbox.at && s.outbox.at[k].state.RowPublished?
  }

  /** One publication: accepted by the queue, or refused and rescheduled. */
  function Publish(s: State, k: RowKey, accepted: bool): State {
    if k !in s.outbox.at || k.id !in s.executions.at then s
    else
      var r := s.outbox.at[k];
      var e := s.executions.at[k.id];
      if accepted then
        WriteExec(WriteRow(s, k, r.(state := RowPublished)), k.id,
                  if k.attempt == e.attemptCount + 1 then e.(state := Queued) else e)
      else
        var tries := r.publishAttempts + 1;
        var refused := r.(publishAttempts := tries, error := Some("queue.publish_failed"));
        WriteRow(s, k,
          if tries >= MAX_PUBLISH then refused.(state := RowFailed)
          else refused.(availableAt := s.now + Seconds(Min(MAX_DELAY, Pow2(Max(0, tries - 1))))))
  }

  function PublishAll(s: State, keys: seq<RowKey>, accepting: set<RowKey>): State
    decreases |keys|
  {
    if keys == [] then s else PublishAll(Publish(s, keys[0], keys[0] in accepting), keys[1..], accepting)
  }

  function DueRows(s: State): seq<RowKey> {
    Filter(s.outbox.order, (k: RowKey) => Due(s, k))
  }

  function Relay(s: State, limit: int, accepting: set<RowKey>): State {
    if !(1 <= limit <= 1000) then s else PublishAll(s, Slice(DueRows(s), limit), accepting)
  }

  function Reopen(s: State, k: RowKey): State {
    if k !in s.outbox.at then s
    else
      var r := s.outbox.at[k];
      WriteRow(s, k,
        if r.publishAttempts >= MAX_PUBLISH
        then r.(state := RowFailed, error := Some("queue.publish_exhausted"))
        else r.(state := RowPending, error := None))
  }

  function ReopenAll(s: State, keys: seq<RowKey>): State
    decreases |keys|
  {
    if keys == [] then s else ReopenAll(Reopen(s, keys[0]), keys[1..])
  }

  function PublishedRows(s: State): seq<RowKey> {
    Filter(s.outbox.order, (k: RowKey) => Republishable(s, k))
  }

  function Rebuild(s: State, limit: int): State {
    ReopenAll(s, Slice(PublishedRows(s), limit))
  }

  function AbandonAll(s: State, ids: seq<Id>): State
    decreases |ids|
  {
    if ids == [] then s
    else AbandonAll(if ids[0] in s.executions.at then Abandon(s, ids[0]) else s, ids[1..])
  }

  function ExpiredLeases(s: State): seq<Id> {
    Filter(s.executions.order, (id: Id) => LeaseExpired(s, id))
  }

  function Reap(s: State, limit: int): State {
    AbandonAll(s, Slice(ExpiredLeases(s), limit))
  }

  // ---- schedules ----

  predicate ScheduleDue(s: State, id: Id) {
    id in s.schedules.at && s.schedules.at[id].enabled && s.schedules.at[id].nextRunAt <= s.now
  }

  /** The first due schedule in registration order. */
  function FirstDue(s: State, order: seq<Id>): Option<Id> {
    if order == [] then None
    else if ScheduleDue(s, order[0]) then Some(order[0])
    else FirstDue(s, order[1..])
  }

  function CanonicalSecond(instant: int): int { WholeSeconds(instant) }

  function ScheduleIdentity(cfg: Config, id: Id, c: Schedule, planned: int): Option<Identity> {
    match CreateIdentity(cfg, c.jobType, c.target, ScheduleKey(id, CanonicalSecond(planned)))
    case None => None
    case Some(identity) => Resolve(cfg, identity)
  }

  /** The submission of a schedule is accepted: a condition on the schedule alone. */
  predicate Submittable(cfg: Config, id: Id, c: Schedule) {
    1 <= c.maxAttempts <= 10 && ScheduleIdentity(cfg, id, c, c.nextRunAt).Some?
  }

  function Advanced(c: Schedule): Schedule {
    match c.kind
    case OneShot => c.(enabled := false, lastScheduledAt := Some(c.nextRunAt))
    case FixedInterval(seconds) =>
      c.(nextRunAt := c.nextRunAt + Seconds(seconds), lastScheduledAt := Some(c.nextRunAt))
  }

  datatype TickResult = TickRaised | Ticked(count: int)

  function TickReturns(cfg: Config, s: State): TickResult {
    match FirstDue(s, s.schedules.order)
    case None => Ticked(0)
    case Some(id) =>
      if id in s.schedules.at && Submittable(cfg, id, s.schedules.at[id]) then Ticked(1) else TickRaised
  }

  function Tick(cfg: Config, s: State, correlation: Id, newId: Id): State {
    match FirstDue(s, s.schedules.order)
    case None => s
    case Some(id) =>
      if id !in s.schedules.at || !Submittable(cfg, id, s.schedules.at[id]) || newId in s.executions.at then s
      else
        var c := s.schedules.at[id];
        var identity := ScheduleIdentity(cfg, id, c, c.nextRunAt).value;
        var filed := File(s, identity, Command(identity, correlation, c.maxAttempts), newId);
        filed.(schedules := s.schedules.Put(id, Advanced(c)))
  }

  predicate ValidKind(kind: ScheduleKind) { kind.FixedInterval? ==> kind.seconds >= 60 }

  function AddSchedule(s: State, id: Id, c: Schedule): State {
    if !ValidKind(c.kind) then s
    else s.(schedules := s.schedules.Put(id, c.(enabled := true, lastScheduledAt := None)))
  }

  function Advance(s: State, delta: int): State {
    if delta < 0 then s else s.(now := s.now + delta)
  }

  // ---- runs ----

  datatype Step =
    | DoSubmit(command: SubmitJob, newId: Id)
    | DoClaim(id: Id, attempt: int, worker: string)
    | DoRecord(claim: JobClaim, outcome: Outcome)
    | DoRelay(limit: int, accepting: set<RowKey>)
    | DoRebuild(limit: int)
    | DoReap(limit: int)
    | DoAddSchedule(id: Id, schedule: Schedule)
    | DoTick(correlation: Id, newId: Id)
    | DoAdvance(delta: int)

  function Apply(cfg: Config, s: State, step: Step): State {
    match step
    case DoSubmit(c, newId) => Submit(cfg, s, c, newId)
    case DoClaim(id, n, w) => Claim(cfg, s, id, n, w)
    case DoRecord(c, o) => Record(s, c, o)
    case DoRelay(limit, accepting) => Relay(s, limit, accepting)
    case DoRebuild(limit) => Rebuild(s, limit)
    case DoReap(limit) => Reap(s, limit)
    case DoAddSchedule(id, c) => AddSchedule(s, id, c)
    case DoTick(correlation, newId) => Tick(cfg, s, correlation, newId)
    case DoAdvance(delta) => Advance(s, delta)
  }

  /** Any interleaving of any number of callers is a sequence of atomic steps. */
  function Run(cfg: Config, s: State, steps: seq<Step>): State
    decreases |steps|
  {
    if steps == [] then s else Run(cfg, Apply(cfg, s, steps[0]), steps[1..])
  }
}
