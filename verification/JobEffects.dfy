/** What each operation of the runtime leaves behind, field by field. */
module JobEffects {
  import opened Collections
  import opened JobModel
  import opened JobInvariant
  import opened JobHistory
  import opened JobRows

  /** Nothing but one execution and the outbox can differ. */
  ghost predicate Only(s: State, s': State, id: Id) {
    && s'.now == s.now && s'.index == s.index && s'.schedules == s.schedules
    && s'.executions.order == s.executions.order && s'.executions.at.Keys == s.executions.at.Keys
    && id in s.executions.at
    && (forall j :: j in s.executions.at && j != id ==> s'.executions.at[j] == s.executions.at[j])
    && var e, e' := s.executions.at[id], s'.executions.at[id];
       e'.identity == e.identity && e'.correlation == e.correlation && e'.maxAttempts == e.maxAttempts &&
       e'.createdAt == e.createdAt
  }

  /** The lease is gone and the last attempt is closed; its number, worker and start, and all earlier attempts, stay. */
  predicate LastClosed(e: Execution, e': Execution, now: int, st: AttemptState, err: Option<string>) {
    && e'.leaseOwner.None? && e'.leaseUntil.None? && e'.attemptCount == e.attemptCount
    && |e'.attempts| == |e.attempts| > 0
    && var k := |e.attempts| - 1;
       e'.attempts[..k] == e.attempts[..k] &&
       var a := e.attempts[k];
       e'.attempts[k] == Attempt(a.ordinal, a.worker, a.startedAt, st, Some(now), err)
  }

  /** It waits for its next attempt, which has a new row due at the same time. */
  ghost predicate RetriedAt(s: State, s': State, id: Id, at: int, code: string)
    requires id in s.executions.at && id in s'.executions.at
  {
    var e, e' := s.executions.at[id], s'.executions.at[id];
    && e'.state.RetryWait? && e'.availableAt == at && e'.error == Some(code)
    && e'.result == e.result && e'.finishedAt == e.finishedAt
    && RowKey(id, e.attemptCount + 1) in s'.outbox.at
    && s'.outbox.at[RowKey(id, e.attemptCount + 1)] == Row(at, RowPending, 0, None)
  }

  /** It has failed for good. */
  predicate FailedFor(e: Execution, e': Execution, now: int, code: string) {
    e'.state == JobState.Failed && e'.finishedAt == Some(now) && e'.error == Some(code) && e'.result == e.result &&
    e'.availableAt == e.availableAt
  }

  // ---- submit ----

  /** A refused submission and one for existing work change nothing; any other one is filed as a new pending execution
      with the attempts and correlation asked for, whose first row is due at once. */
  lemma SubmitFiles(cfg: Config, s: State, c: SubmitJob, newId: Id)
    requires Inv(s) && newId !in s.executions.at
    ensures var s', identity := Submit(cfg, s, c, newId), Resolve(cfg, c.identity);
            if identity.None? || identity.value in s.index then s' == s
            else
              && s'.executions.at == s.executions.at[newId := Execution(identity.value, c.correlation, c.maxAttempts,
                    s.now, s.now, Pending, 0, None, None, None, None, None, [])]
              && s'.executions.order == s.executions.order + [newId]
              && s'.index == s.index[identity.value := newId]
              && s'.outbox.at == s.outbox.at[RowKey(newId, 1) := Row(s.now, RowPending, 0, None)]
              && s'.outbox.order == s.outbox.order + [RowKey(newId, 1)]
              && s'.now == s.now && s'.schedules == s.schedules
  {
    assert RowKey(newId, 1).id !in s.executions.at;
  }

  /** A registry refuses types it does not know and targets its handler refuses; a handler that leaves the target as it
      is leaves the identity as it is, and the key of the caller is never changed. */
  lemma ResolveMeans(cfg: Config, i: Identity)
    ensures Resolve(cfg, i).Some? ==> Resolve(cfg, i).value.key == i.key
    ensures cfg.registry.None? ==> Resolve(cfg, i) == Some(i)
    ensures cfg.registry.Some? && i.jobType !in cfg.registry.value ==> Resolve(cfg, i).None?
    ensures cfg.registry.Some? && i.jobType in cfg.registry.value && cfg.registry.value[i.jobType].Plain? ==>
              Resolve(cfg, i) == Some(i)
    ensures cfg.registry.Some? && i.jobType in cfg.registry.value && cfg.registry.value[i.jobType].Normalizing? ==>
              var t := (cfg.registry.value[i.jobType].normalize)(i.target);
              && (t.None? ==> Resolve(cfg, i).None?)
              && (t == Some(i.target) ==> Resolve(cfg, i) == Some(i))
              && (t.Some? && t.value != i.target && Resolve(cfg, i).Some? ==>
                    Some(Resolve(cfg, i).value.target) == cfg.normalizeTarget(t.value) &&
                    Some(Resolve(cfg, i).value.jobType) == cfg.normalizeType(i.jobType))
              && (t.Some? && t.value != i.target ==>
                    (Resolve(cfg, i).None? <==>
                     cfg.normalizeTarget(t.value).None? || cfg.normalizeType(i.jobType).None?))
  {
  }

  // ---- claim ----

  /** The condition under which a claim for attempt n is granted. */
  predicate Startable(s: State, id: Id, n: int) {
    id in s.executions.at &&
    var e := s.executions.at[id];
    n == e.attemptCount + 1 && (e.state.Pending? || e.state.Queued? || e.state.RetryWait?) && e.availableAt <= s.now
  }

  /** A granted claim opens attempt n for the worker, with a lease of exactly the configured length. */
  lemma ClaimOpens(cfg: Config, s: State, id: Id, n: int, worker: string)
    requires Inv(s) && Startable(s, id, n)
    ensures var s' := Claim(cfg, s, id, n, worker);
            && Claimable(s, id, n) && Only(s, s', id) && s'.outbox == s.outbox
            && var e, e' := s.executions.at[id], s'.executions.at[id];
               && e'.state.Running? && e'.attemptCount == n
               && e'.leaseOwner == Some(worker) && e'.leaseUntil == Some(s.now + cfg.leaseSeconds * 1_000_000)
               && e'.attempts == e.attempts + [Attempt(n, worker, s.now, InProgress, None, None)]
               && e'.availableAt == e.availableAt && e'.result == e.result && e'.error == e.error
               && e'.finishedAt == e.finishedAt
  {
    assert Local(s, id);
  }

  /** Any other claim changes nothing, except that one for the attempt after an expired lease ends that attempt. */
  lemma ClaimRefused(cfg: Config, s: State, id: Id, n: int, worker: string)
    requires Inv(s) && !Startable(s, id, n)
    ensures !Claimable(s, id, n)
    ensures Claim(cfg, s, id, n, worker) ==
            if id in s.executions.at && Expired(s.executions.at[id], s.now) && n == s.executions.at[id].attemptCount + 1
            then Abandon(s, id) else s
  {
  }

  // ---- outcomes ----

  predicate HeldBy(s: State, c: JobClaim) {
    c.id in s.executions.at &&
    var e := s.executions.at[c.id];
    e.state.Running? && e.attemptCount == c.attempt && e.leaseOwner == Some(c.worker) &&
    e.leaseUntil.Some? && e.leaseUntil.value > s.now
  }

  /** An outcome changes the state if and only if it comes from the worker that holds the unexpired lease. */
  lemma OnlyTheHolderRecords(s: State, c: JobClaim, o: Outcome)
    requires Inv(s)
    ensures Record(s, c, o) != s <==> HeldBy(s, c)
    ensures Holds(s, c) <==> HeldBy(s, c)
  {
    if HeldBy(s, c) {
      var e := s.executions.at[c.id];
      assert Local(s, c.id);
      if o.Transient? {
        var at := RecordTransient(s, c, o);
        assert Record(s, c, o).executions.at[c.id].leaseOwner.None?;
      } else {
        assert Record(s, c, o).executions.at[c.id].leaseOwner.None?;
      }
      assert e.leaseOwner.Some?;
    }
  }

  lemma CloseLastCloses(e: Execution, now: int, st: AttemptState, err: Option<string>, e': Execution)
    requires e.attempts != [] && e'.attempts == CloseLast(e, now, st, err) && e'.attemptCount == e.attemptCount
    requires e'.leaseOwner.None? && e'.leaseUntil.None?
    ensures LastClosed(e, e', now, st, err)
  {
  }

  /** A returned value ends the execution with that value as its result. */
  lemma ReturnedSucceeds(s: State, c: JobClaim, o: Outcome)
    requires Inv(s) && HeldBy(s, c) && o.Returned?
    ensures var s' := Record(s, c, o);
            && Only(s, s', c.id) && s'.outbox == s.outbox
            && var e, e' := s.executions.at[c.id], s'.executions.at[c.id];
               && LastClosed(e, e', s.now, Done, None)
               && e'.state.Succeeded? && e'.result == Some(o.value) && e'.error.None? && e'.finishedAt == Some(s.now)
               && e'.availableAt == e.availableAt
  {
    assert Local(s, c.id);
  }

  /** A refused value leaves the execution running without a lease. */
  lemma RejectedWedges(s: State, c: JobClaim, o: Outcome)
    requires Inv(s) && HeldBy(s, c) && o.Rejected?
    ensures var s' := Record(s, c, o);
            && Only(s, s', c.id) && s'.outbox == s.outbox
            && var e, e' := s.executions.at[c.id], s'.executions.at[c.id];
               && LastClosed(e, e', s.now, InProgress, None)
               && e'.state.Running? && e'.result.None? && e'.error == e.error && e'.finishedAt.None?
               && e'.availableAt == e.availableAt
  {
    assert Local(s, c.id);
  }

  /** A permanent or unclassified failure is final, however many attempts are left, and adds no row. */
  lemma PermanentFails(s: State, c: JobClaim, o: Outcome)
    requires Inv(s) && HeldBy(s, c) && (o.Permanent? || o.Unclassified?)
    ensures var s' := Record(s, c, o);
            var code := if o.Permanent? then o.code else "job.unclassified_failure";
            && Only(s, s', c.id) && s'.outbox == s.outbox
            && LastClosed(s.executions.at[c.id], s'.executions.at[c.id], s.now, PermanentFailure, Some(code))
            && FailedFor(s.executions.at[c.id], s'.executions.at[c.id], s.now, code)
  {
    assert Local(s, c.id);
  }

  /** A transient failure waits for the next attempt while one is left, and is final at the bound. */
  lemma TransientRetries(s: State, c: JobClaim, o: Outcome)
    requires Inv(s) && HeldBy(s, c) && o.Transient?
    ensures c.attempt >= 1
    ensures var s' := Record(s, c, o);
            var e := s.executions.at[c.id];
            && Only(s, s', c.id)
            && LastClosed(e, s'.executions.at[c.id], s.now, TransientFailure, Some(o.code))
            && (if c.attempt < e.maxAttempts then
                  RetriedAt(s, s', c.id, s.now + RetryDelay(c.attempt, o.retryAfter) * 1_000_000, o.code)
                else FailedFor(e, s'.executions.at[c.id], s.now, o.code) && s'.outbox == s.outbox)
            && RowsSame(s, s') && s'.outbox.at.Keys <= s.outbox.at.Keys + {RowKey(c.id, c.attempt + 1)}
  {
    assert Local(s, c.id);
    BackoffWrittenOut(c.attempt, o.retryAfter);
    EndAddsOneRow(s, c.id, s.now + Seconds(Backoff(c.attempt, o.retryAfter)), TransientFailure, o.code);
  }

  // ---- expired leases ----

  predicate Expired(e: Execution, now: int) {
    e.state.Running? && e.leaseUntil.Some? && e.leaseUntil.value <= now
  }

  /** An attempt whose lease ran out is abandoned: the next one waits, due now, while one is left. */
  ghost predicate GivenUp(s: State, s': State, id: Id)
    requires id in s.executions.at && id in s'.executions.at
  {
    var e, e' := s.executions.at[id], s'.executions.at[id];
    && LastClosed(e, e', s.now, Abandoned, Some("job.lease_expired"))
    && (if e.attemptCount < e.maxAttempts then RetriedAt(s, s', id, s.now, "job.lease_expired")
        else FailedFor(e, e', s.now, "job.lease_expired") && RowKey(id, e.attemptCount + 1) !in s'.outbox.at)
  }

  lemma AbandonGivesUp(s: State, id: Id)
    requires Inv(s) && id in s.executions.at && Expired(s.executions.at[id], s.now)
    ensures Only(s, Abandon(s, id), id) && GivenUp(s, Abandon(s, id), id) && RowsSame(s, Abandon(s, id))
  {
    var e := s.executions.at[id];
    assert Local(s, id);
    assert !RowExpected(e, e.attemptCount + 1);
    assert RowKey(id, e.attemptCount + 1) !in s.outbox.at;
    EndAddsOneRow(s, id, s.now, Abandoned, "job.lease_expired");
  }

  /** Ending a batch of attempts does to the rows of each execution what ending it alone does. */
  lemma {:induction false} AbandonAllRow(s: State, ids: seq<Id>, k: RowKey)
    requires Distinct(ids) && k.id in s.executions.at
    ensures var t := if k.id in ids then Abandon(s, k.id) else s; var s' := AbandonAll(s, ids);
            && (k in s'.outbox.at <==> k in t.outbox.at) && (k in t.outbox.at ==> s'.outbox.at[k] == t.outbox.at[k])
            && s'.now == s.now
    decreases |ids|
  {
    if ids == [] {
    } else {
      var s1 := if ids[0] in s.executions.at then Abandon(s, ids[0]) else s;
      assert ids[0] !in ids[1..];
      AbandonAllRow(s1, ids[1..], k);
    }
  }

  /** One pass of the reaper gives up exactly the first `limit` executions, in the order they were filed, whose lease
      has run out, and leaves the others and their rows as they were. */
  lemma ReapGivesUp(s: State, limit: int, id: Id)
    requires Inv(s) && id in s.executions.at
    ensures id in ExpiredLeases(s) <==> Expired(s.executions.at[id], s.now)
    ensures var s' := Reap(s, limit);
            && id in s'.executions.at && s'.now == s.now
            && (if id in Slice(ExpiredLeases(s), limit) then GivenUp(s, s', id)
                else s'.executions.at[id] == s.executions.at[id] &&
                     forall n: int :: RowKey(id, n) in s'.outbox.at <==> RowKey(id, n) in s.outbox.at)
            && RowsSame(s, s')
  {
    var batch := Slice(ExpiredLeases(s), limit);
    FilterMembers(s.executions.order, (j: Id) => LeaseExpired(s, j));
    ExpiredBatch(s, limit);
    AbandonAllAt(s, batch, id);
    AbandonAllRow(s, batch, RowKey(id, s.executions.at[id].attemptCount + 1));
    ReapAddsRows(s, limit);
    if id in batch {
      AbandonGivesUp(s, id);
    } else {
      forall n: int ensures RowKey(id, n) in Reap(s, limit).outbox.at <==> RowKey(id, n) in s.outbox.at {
        AbandonAllRow(s, batch, RowKey(id, n));
      }
    }
  }

  /** After a full pass of the reaper an execution has failed only if it had failed before or its lease ran out on its
      last attempt. */
  lemma ReapEndsOnlyTheExhausted(s: State, limit: int, id: Id)
    requires Inv(s) && id in s.executions.at && |ExpiredLeases(s)| <= limit
    ensures id in Reap(s, limit).executions.at
    ensures var e, e' := s.executions.at[id], Reap(s, limit).executions.at[id];
            Terminal(e') ==> e' == e || (Expired(e, s.now) && e.attemptCount == e.maxAttempts && e'.state.Failed?)
  {
    ReapGivesUp(s, limit, id);
    assert Local(s, id);
  }

  // ---- the outbox ----

  predicate Ready(r: Row, now: int) { r.state.RowPending? && r.availableAt <= now && r.publishAttempts < 100 }

  /** Accepted, or refused once more: put off by 1, 2, 4, ... at most 300 seconds, or given up at the hundredth time. */
  predicate Offered(r: Row, r': Row, accepted: bool, now: int) {
    if accepted then r' == Row(r.availableAt, RowPublished, r.publishAttempts, r.error)
    else
      var tries := r.publishAttempts + 1;
      r' == (if tries >= 100 then Row(r.availableAt, RowFailed, tries, Some("queue.publish_failed"))
                else Row(now + DelayAfter(tries) * 1_000_000, RowPending, tries, Some("queue.publish_failed")))
  }

  lemma {:induction false} PublishAllRow(s: State, keys: seq<RowKey>, accepting: set<RowKey>, k: RowKey)
    requires Distinct(keys) && k in s.outbox.at && k.id in s.executions.at
    ensures var s' := PublishAll(s, keys, accepting);
            && k in s'.outbox.at && s'.now == s.now
            && s'.outbox.at[k] == (if k in keys then Publish(s, k, k in accepting).outbox.at[k] else s.outbox.at[k])
    decreases |keys|
  {
    if keys == [] {
    } else {
      var s1 := Publish(s, keys[0], keys[0] in accepting);
      assert keys[0] !in keys[1..];
      assert k in s1.outbox.at.Keys && k.id in s1.executions.at.Keys;
      PublishAllRow(s1, keys[1..], accepting, k);
    }
  }

  lemma PublishOffers(s: State, k: RowKey, accepted: bool)
    requires k in s.outbox.at && k.id in s.executions.at
    requires s.outbox.at[k].state.RowPending?
    ensures k in Publish(s, k, accepted).outbox.at
    ensures Offered(s.outbox.at[k], Publish(s, k, accepted).outbox.at[k], accepted, s.now)
  {
    DelayWrittenOut(s.outbox.at[k].publishAttempts + 1);
  }

  /** One relay offers the queue exactly the first `limit` rows that are ready, oldest first. */
  lemma RelayOffers(s: State, limit: int, accepting: set<RowKey>, k: RowKey)
    requires Inv(s) && k in s.outbox.at && 1 <= limit <= 1000
    ensures k in DueRows(s) <==> Ready(s.outbox.at[k], s.now)
    ensures var s' := Relay(s, limit, accepting);
            && k in s'.outbox.at
            && (if k in Slice(DueRows(s), limit) then
                  Offered(s.outbox.at[k], s'.outbox.at[k], k in accepting, s.now)
                else s'.outbox.at[k] == s.outbox.at[k])
  {
    FilterMembers(s.outbox.order, (j: RowKey) => Due(s, j));
    DueBatch(s, limit);
    PublishAllRow(s, Slice(DueRows(s), limit), accepting, k);
    assert Local(s, k.id) && k == RowKey(k.id, k.attempt) && RowOk(s.outbox.at[k], s.now);
    if k in Slice(DueRows(s), limit) { PublishOffers(s, k, k in accepting); }
  }

  /** A relay queues exactly the executions whose next attempt's row was offered and accepted. */
  lemma RelayQueues(s: State, limit: int, accepting: set<RowKey>, id: Id)
    requires Inv(s) && id in s.executions.at && 1 <= limit <= 1000
    ensures var s' := Relay(s, limit, accepting);
            var k := RowKey(id, s.executions.at[id].attemptCount + 1);
            && id in s'.executions.at
            && s'.executions.at[id] == (if k in Slice(DueRows(s), limit) && k in accepting
                                        then s.executions.at[id].(state := Queued) else s.executions.at[id])
  {
    DueBatch(s, limit);
    forall k | k in Slice(DueRows(s), limit) ensures k in s.outbox.at && k.id in s.executions.at {
      assert Due(s, k);
    }
    BatchQueues(s, Slice(DueRows(s), limit), accepting, id);
  }

  lemma {:induction false} ReopenAllRow(s: State, keys: seq<RowKey>, k: RowKey)
    requires Distinct(keys) && k in s.outbox.at
    ensures k in ReopenAll(s, keys).outbox.at
    ensures ReopenAll(s, keys).outbox.at[k] == if k in keys then Reopen(s, k).outbox.at[k] else s.outbox.at[k]
    decreases |keys|
  {
    if keys == [] {
    } else {
      assert keys[0] !in keys[1..];
      assert k in Reopen(s, keys[0]).outbox.at.Keys;
      ReopenAllRow(Reopen(s, keys[0]), keys[1..], k);
    }
  }

  /** A rebuild makes exactly the first `limit` published rows pending again, with their due time and refusals kept. */
  lemma RebuildReturns(s: State, limit: int, k: RowKey)
    requires Inv(s) && k in s.outbox.at
    ensures k in PublishedRows(s) <==> s.outbox.at[k].state.RowPublished?
    ensures var r, s' := s.outbox.at[k], Rebuild(s, limit);
            && k in s'.outbox.at && s'.executions == s.executions
            && s'.outbox.at[k] == (if k in Slice(PublishedRows(s), limit)
                                   then Row(r.availableAt, RowPending, r.publishAttempts, None) else r)
  {
    FilterMembers(s.outbox.order, (j: RowKey) => Republishable(s, j));
    PublishedBatch(s, limit);
    ReopenAllAt(s, Slice(PublishedRows(s), limit));
    ReopenAllRow(s, Slice(PublishedRows(s), limit), k);
    if k in Slice(PublishedRows(s), limit) { ReopenInv(s, k); }
  }

  // ---- schedules ----

  predicate Waits(s: State, id: Id) {
    id in s.schedules.at && !(s.schedules.at[id].enabled && s.schedules.at[id].nextRunAt <= s.now)
  }

  lemma {:induction false} FirstDueIsFirst(s: State, order: seq<Id>, i: nat)
    requires i < |order| && ScheduleDue(s, order[i]) && forall j :: 0 <= j < i ==> Waits(s, order[j])
    ensures FirstDue(s, order) == Some(order[i])
  {
    if i == 0 {
    } else {
      assert Waits(s, order[0]);
      FirstDueIsFirst(s, order[1..], i - 1);
    }
  }

  /** A tick fires the first schedule registered whose planned instant has come: it submits the occurrence under the
      planned second, and then plans the next one, or none for a one-shot schedule. */
  lemma TickFiresTheFirst(cfg: Config, s: State, correlation: Id, newId: Id, i: nat)
    requires Inv(s) && newId !in s.executions.at && i < |s.schedules.order|
    requires forall j :: 0 <= j < i ==> Waits(s, s.schedules.order[j])
    requires ScheduleDue(s, s.schedules.order[i])
    requires Submittable(cfg, s.schedules.order[i], s.schedules.at[s.schedules.order[i]])
    ensures var id := s.schedules.order[i]; var s' := Tick(cfg, s, correlation, newId);
            var c := s.schedules.at[id];
            && s'.schedules.at == s.schedules.at[id := if c.kind.OneShot?
                 then c.(enabled := false, lastScheduledAt := Some(c.nextRunAt))
                 else c.(nextRunAt := c.nextRunAt + c.kind.seconds * 1_000_000, lastScheduledAt := Some(c.nextRunAt))]
            && exists p: Identity :: p in s'.index && p.key == ScheduleKey(id, c.nextRunAt / 1_000_000) &&
                 (p !in s.index ==>
                   s'.index == s.index[p := newId] && newId in s'.executions.at &&
                   s'.executions.at[newId].identity == p && s'.executions.at[newId].correlation == correlation &&
                   s'.executions.at[newId].maxAttempts == c.maxAttempts) &&
                 (p in s.index ==> s'.index == s.index && s'.executions == s.executions && s'.outbox == s.outbox)
  {
    var id := s.schedules.order[i];
    FirstDueIsFirst(s, s.schedules.order, i);
    var c := s.schedules.at[id];
    var p := ScheduleIdentity(cfg, id, c, c.nextRunAt).value;
    assert p.key == ScheduleKey(id, c.nextRunAt / 1_000_000);
    var s' := Tick(cfg, s, correlation, newId);
    assert p in s'.index;
  }

  /** A schedule is stored as given, enabled and never fired, unless its interval is under a minute. */
  lemma AddScheduleStores(s: State, id: Id, c: Schedule)
    ensures AddSchedule(s, id, c) ==
            if c.kind.FixedInterval? && c.kind.seconds < 60 then s
            else s.(schedules := Dict(if id in s.schedules.at then s.schedules.order else s.schedules.order + [id],
                 s.schedules.at[id := Schedule(c.jobType, c.target, c.kind, c.nextRunAt, c.maxAttempts, true, None)]))
  {
  }
}
