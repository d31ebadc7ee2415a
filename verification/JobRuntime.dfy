/** The runtime as it is written: dictionaries of records updated in place under one lock. */
module JobRuntime {
  import opened Collections
  import opened JobModel
  import opened JobInvariant

  datatype JobSnapshot = JobSnapshot(
    id: Id, identity: Identity, state: JobState, attemptCount: int, maxAttempts: int,
    result: Option<string>, error: Option<string>, availableAt: int)

  function Snapshot(id: Id, e: Execution): JobSnapshot {
    JobSnapshot(id, e.identity, e.state, e.attemptCount, e.maxAttempts, e.result, e.error, e.availableAt)
  }

  datatype RecordResult = Recorded(snapshot: JobSnapshot) | RecordRaised

  /** The latest attempt is still as it was opened. */
  predicate OpenLast(e: Execution) {
    e.attempts != [] &&
    e.attempts[|e.attempts| - 1].state.InProgress? && e.attempts[|e.attempts| - 1].error.None?
  }

  /** The messages of a batch that the queue takes. */
  function Taken(keys: seq<RowKey>, accepting: set<RowKey>): seq<RowKey> {
    if keys == [] then [] else (if keys[0] in accepting then [keys[0]] else []) + Taken(keys[1..], accepting)
  }

  lemma BatchFromHere(s: State, due: seq<RowKey>, i: nat, accepting: set<RowKey>)
    requires i < |due|
    ensures PublishAll(s, due[i..], accepting) ==
            PublishAll(Publish(s, due[i], due[i] in accepting), due[i + 1..], accepting)
  {
    assert due[i..][0] == due[i] && due[i..][1..] == due[i + 1..];
  }

  lemma PublishKeepsKeys(s: State, k: RowKey, accepted: bool)
    ensures Publish(s, k, accepted).outbox.at.Keys == s.outbox.at.Keys
    ensures Publish(s, k, accepted).executions.at.Keys == s.executions.at.Keys
  {
  }

  lemma TakenNext(done: seq<RowKey>, due: seq<RowKey>, i: nat, accepting: set<RowKey>)
    requires i < |due|
    ensures done + Taken(due[i..], accepting) ==
            (if due[i] in accepting then done + [due[i]] else done) + Taken(due[i + 1..], accepting)
  {
    assert due[i..][0] == due[i] && due[i..][1..] == due[i + 1..];
  }

  class InMemoryJobRuntime {
    const cfg: Config
    var now: int
    var executions: Dict<Id, Execution>
    var index: map<Identity, Id>
    var outbox: Dict<RowKey, Row>
    var schedules: Dict<Id, Schedule>

    function St(): State
      reads this
    {
      State(now, executions, index, outbox, schedules)
    }

    /** Holds after construction and after every public method. */
    ghost predicate Valid()
      reads this
    {
      Inv(St())
    }

    /** The part of Valid() that the code under the lock relies on. */
    ghost predicate Usable()
      reads this
    {
      && executions.Valid() && outbox.Valid() && schedules.Valid()
      && (forall k :: k in outbox.at ==> k.id in executions.at)
      && (forall i :: i in index ==> index[i] in executions.at)
      && (forall id :: id in executions.at && executions.at[id].leaseUntil.Some? ==> OpenLast(executions.at[id]))
    }

    lemma ValidIsUsable()
      requires Valid()
      ensures Usable()
    {
      forall id | id in executions.at && executions.at[id].leaseUntil.Some? ensures OpenLast(executions.at[id]) {
        var e := executions.at[id];
        assert Local(St(), id);
        assert AttemptOk(e, now, |e.attempts| - 1);
      }
    }

    constructor (cfg: Config, now: int)
      ensures Valid() && Usable() && St() == Initial(now) && this.cfg == cfg
    {
      this.cfg := cfg;
      this.now := now;
      executions, index, outbox, schedules := EmptyDict(), map[], EmptyDict(), EmptyDict();
    }

    method AdvanceTimeLocked(delta: int) returns (raised: bool)
      requires Usable()
      modifies this
      ensures St() == Advance(old(St()), delta) && raised == (delta < 0)
    {
      if delta < 0 { return true; }
      now := now + delta;
      raised := false;
    }

    /** Existing work is returned unchanged; new work is filed with its first row. */
    method SubmitLocked(command: SubmitJob, newId: Id) returns (snapshot: Option<JobSnapshot>)
      requires Usable() && newId !in executions.at
      modifies this
      ensures St() == JobModel.Submit(cfg, old(St()), command, newId)
      ensures snapshot.None? <==> Resolve(cfg, command.identity).None?
      ensures snapshot.Some? ==>
                var identity := Resolve(cfg, command.identity).value;
                identity in index && index[identity] in executions.at &&
                snapshot.value == Snapshot(index[identity], executions.at[index[identity]])
    {
      var identity := command.identity;
      if cfg.registry.Some? {
        if identity.jobType !in cfg.registry.value { return None; }
        var handler := cfg.registry.value[identity.jobType];
        if handler.Normalizing? {
          var target := (handler.normalize)(identity.target);
          if target.None? { return None; }
          if target.value != identity.target {
            var created := CreateIdentity(cfg, identity.jobType, target.value, identity.key);
            if created.None? { return None; }
            identity := created.value;
          }
        }
      }
      if identity in index {
        return Some(Snapshot(index[identity], executions.at[index[identity]]));
      }
      var e := NewExecution(St(), identity, command.correlation, command.maxAttempts);
      executions := executions.Put(newId, e);
      index := index[identity := newId];
      outbox := outbox.Put(RowKey(newId, 1), FreshRow(now));
      snapshot := Some(Snapshot(newId, e));
    }

    method AbandonLocked(id: Id)
      requires id in executions.at
      modifies this`executions, this`outbox
      ensures St() == Abandon(old(St()), id)
    {
      var e := executions.at[id];
      if e.attempts != [] {
        var last := |e.attempts| - 1;
        var attempt := e.attempts[last];
        attempt := attempt.(state := Abandoned, finishedAt := Some(now), error := Some("job.lease_expired"));
        e := e.(attempts := e.attempts[last := attempt]);
      }
      e := e.(leaseOwner := None, leaseUntil := None, error := Some("job.lease_expired"));
      if e.attemptCount < e.maxAttempts {
        e := e.(state := RetryWait, availableAt := now);
        outbox := outbox.Put(RowKey(id, e.attemptCount + 1), FreshRow(now));
      } else {
        e := e.(state := JobState.Failed, finishedAt := Some(now));
      }
      executions := executions.Put(id, e);
    }

    /** A message is honoured only for the next attempt of a due, waiting execution. */
    method ClaimLocked(id: Id, attempt: int, worker: string) returns (claim: Option<JobClaim>)
      requires Usable()
      modifies this
      ensures St() == JobModel.Claim(cfg, old(St()), id, attempt, worker)
      ensures claim == if Claimable(old(St()), id, attempt) then Some(JobClaim(id, attempt, worker)) else None
    {
      if id !in executions.at { return None; }
      var e := executions.at[id];
      if attempt != e.attemptCount + 1 { return None; }
      if e.state.Succeeded? || e.state.Failed? { return None; }
      if e.state.RetryWait? && e.availableAt > now { return None; }
      if e.state.Running? {
        if e.leaseUntil.None? || e.leaseUntil.value > now { return None; }
        AbandonLocked(id);
        return None;
      }
      if e.availableAt > now { return None; }
      e := e.(attemptCount := e.attemptCount + 1, state := Running, leaseOwner := Some(worker),
              leaseUntil := Some(now + Seconds(cfg.leaseSeconds)));
      e := e.(attempts := e.attempts + [Attempt(attempt, worker, now, InProgress, None, None)]);
      executions := executions.Put(id, e);
      claim := Some(JobClaim(id, attempt, worker));
    }

    /** A transient failure schedules the next attempt while there is one left. */
    method EndTransient(id: Id, code: string, retryAfter: Option<int>)
      requires id in executions.at && OpenLast(executions.at[id])
      modifies this`executions, this`outbox
      ensures var wait := Seconds(Backoff(old(executions).at[id].attemptCount, retryAfter));
              St() == EndRetryable(old(St()), id, now + wait, TransientFailure, code)
      ensures id in executions.at
    {
      var e := executions.at[id];
      var last := |e.attempts| - 1;
      var attempt := e.attempts[last].(finishedAt := Some(now), error := Some(code), state := TransientFailure);
      e := e.(leaseOwner := None, leaseUntil := None, error := Some(code), attempts := e.attempts[last := attempt]);
      if e.attemptCount < e.maxAttempts {
        var delay := Min(MAX_DELAY, Pow2(Max(0, e.attemptCount - 1)));
        if retryAfter.Some? { delay := Min(MAX_DELAY, Max(0, WholeSeconds(retryAfter.value))); }
        e := e.(state := RetryWait, availableAt := now + Seconds(delay));
        outbox := outbox.Put(RowKey(id, e.attemptCount + 1), FreshRow(e.availableAt));
      } else {
        e := e.(state := JobState.Failed, finishedAt := Some(now));
      }
      executions := executions.Put(id, e);
    }

    /** Only the holder of a live lease can record; a refused value raises after the lease is gone. */
    method RecordOutcomeLocked(claim: JobClaim, outcome: Outcome) returns (r: RecordResult)
      requires Usable() && claim.id in executions.at
      modifies this
      ensures St() == Record(old(St()), claim, outcome)
      ensures r.RecordRaised? <==> Holds(old(St()), claim) && outcome.Rejected?
      ensures r.Recorded? ==> claim.id in executions.at && r.snapshot == Snapshot(claim.id, executions.at[claim.id])
    {
      var e := executions.at[claim.id];
      if !e.state.Running? || e.attemptCount != claim.attempt || e.leaseOwner != Some(claim.worker)
         || e.leaseUntil.None? || e.leaseUntil.value <= now
      {
        return Recorded(Snapshot(claim.id, e));
      }
      var last := |e.attempts| - 1;
      var attempt := e.attempts[last].(finishedAt := Some(now));
      e := e.(leaseOwner := None, leaseUntil := None);
      match outcome {
      case Rejected =>
        executions := executions.Put(claim.id, e.(attempts := e.attempts[last := attempt]));
        return RecordRaised;
      case Returned(v) =>
        attempt := attempt.(state := Done);
        e := e.(result := Some(v), error := None, state := Succeeded, finishedAt := Some(now));
      case Transient(code, retryAfter) =>
        EndTransient(claim.id, code, retryAfter);
        return Recorded(Snapshot(claim.id, executions.at[claim.id]));
      case Permanent(code) =>
        attempt := attempt.(error := Some(code), state := PermanentFailure);
        e := e.(error := Some(code), state := JobState.Failed, finishedAt := Some(now));
      case Unclassified =>
        attempt := attempt.(error := Some("job.unclassified_failure"), state := PermanentFailure);
        e := e.(error := Some("job.unclassified_failure"), state := JobState.Failed, finishedAt := Some(now));
      }
      e := e.(attempts := e.attempts[last := attempt]);
      executions := executions.Put(claim.id, e);
      r := Recorded(Snapshot(claim.id, e));
    }

    method PublishRow(k: RowKey, accepted: bool)
      requires k in outbox.at && k.id in executions.at
      modifies this`executions, this`outbox
      ensures St() == Publish(old(St()), k, accepted)
    {
      var row := outbox.at[k];
      var e := executions.at[k.id];
      if !accepted {
        row := row.(publishAttempts := row.publishAttempts + 1, error := Some("queue.publish_failed"));
        if row.publishAttempts >= 100 {
          row := row.(state := RowFailed);
        } else {
          row := row.(availableAt := now + Seconds(Min(300, Pow2(Max(0, row.publishAttempts - 1)))));
        }
        outbox := outbox.Put(k, row);
      } else {
        outbox := outbox.Put(k, row.(state := RowPublished));
        executions := executions.Put(k.id, e.(state := if k.attempt == e.attemptCount + 1 then Queued else e.state));
      }
    }

    method PublishBatch(due: seq<RowKey>, accepting: set<RowKey>)
      returns (published: nat, failed: nat, sent: seq<RowKey>)
      requires forall k :: k in due ==> k in outbox.at && k.id in executions.at
      modifies this`executions, this`outbox
      ensures St() == PublishAll(old(St()), due, accepting)
      ensures sent == Taken(due, accepting) && published == |sent| && published + failed == |due|
    {
      published, failed, sent := 0, 0, [];
      var i := 0;
      while i < |due|
        invariant 0 <= i <= |due|
        invariant outbox.at.Keys == old(outbox).at.Keys && executions.at.Keys == old(executions).at.Keys
        invariant PublishAll(St(), due[i..], accepting) == PublishAll(old(St()), due, accepting)
        invariant sent + Taken(due[i..], accepting) == Taken(due, accepting)
        invariant published == |sent| && published + failed == i
      {
        assert due[i] in due;
        assert due[i] in outbox.at.Keys && due[i].id in executions.at.Keys;
        BatchFromHere(St(), due, i, accepting);
        PublishKeepsKeys(St(), due[i], due[i] in accepting);
        TakenNext(sent, due, i, accepting);
        PublishRow(due[i], due[i] in accepting);
        if due[i] in accepting {
          published, sent := published + 1, sent + [due[i]];
        } else {
          failed := failed + 1;
        }
        i := i + 1;
      }
    }

    /** Publishes due rows oldest first; `sent` is what the queue accepted. */
    method RelayDueLocked(limit: int, accepting: set<RowKey>)
      returns (raised: bool, published: nat, failed: nat, sent: seq<RowKey>)
      requires Usable()
      modifies this
      ensures St() == Relay(old(St()), limit, accepting)
      ensures raised == !(1 <= limit <= 1000)
      ensures raised ==> published == failed == 0 && sent == []
      ensures !raised ==> sent == Taken(Slice(DueRows(old(St())), limit), accepting)
      ensures !raised ==> published == |sent| && published + failed == |Slice(DueRows(old(St())), limit)|
    {
      if !(1 <= limit <= 1000) { return true, 0, 0, []; }
      DueBatch(St(), limit);
      var due := Slice(DueRows(St()), limit);
      forall k | k in due ensures k in outbox.at && k.id in executions.at { assert Due(St(), k); }
      raised := false;
      published, failed, sent := PublishBatch(due, accepting);
    }

    /** After the transport is lost, published rows become publishable again. */
    method RebuildOutboxLocked(limit: int) returns (rebuilt: nat)
      requires Usable()
      modifies this
      ensures St() == Rebuild(old(St()), limit)
      ensures rebuilt == |Slice(PublishedRows(old(St())), limit)|
    {
      PublishedBatch(St(), limit);
      var eligible := Slice(PublishedRows(St()), limit);
      rebuilt := 0;
      while rebuilt < |eligible|
        invariant 0 <= rebuilt <= |eligible|
        invariant now == old(now) && index == old(index) && schedules == old(schedules) && executions == old(executions)
        invariant forall k :: k in eligible[rebuilt..] ==> k in outbox.at
        invariant ReopenAll(St(), eligible[rebuilt..]) == ReopenAll(old(St()), eligible)
      {
        var k := eligible[rebuilt];
        assert k in eligible[rebuilt..] && eligible[rebuilt..][1..] == eligible[rebuilt + 1..];
        var row := outbox.at[k];
        if row.publishAttempts >= 100 {
          row := row.(state := RowFailed, error := Some("queue.publish_exhausted"));
        } else {
          row := row.(state := RowPending, error := None);
        }
        outbox := outbox.Put(k, row);
        rebuilt := rebuilt + 1;
      }
    }

    method AbandonBatch(eligible: seq<Id>) returns (count: nat)
      requires forall id :: id in eligible ==> id in executions.at
      modifies this`executions, this`outbox
      ensures St() == AbandonAll(old(St()), eligible)
      ensures count == |eligible|
    {
      count := 0;
      while count < |eligible|
        invariant 0 <= count <= |eligible|
        invariant forall id :: id in eligible ==> id in executions.at
        invariant AbandonAll(St(), eligible[count..]) == AbandonAll(old(St()), eligible)
      {
        assert eligible[count] in eligible[count..] && eligible[count..][1..] == eligible[count + 1..];
        AbandonLocked(eligible[count]);
        count := count + 1;
      }
    }

    method ReapExpiredLocked(limit: int) returns (count: nat)
      requires Usable()
      modifies this
      ensures St() == Reap(old(St()), limit)
      ensures count == |Slice(ExpiredLeases(old(St())), limit)|
    {
      ExpiredBatch(St(), limit);
      count := AbandonBatch(Slice(ExpiredLeases(St()), limit));
    }

    method RegisterScheduleLocked(id: Id, schedule: Schedule) returns (raised: bool)
      requires Usable()
      modifies this
      ensures St() == AddSchedule(old(St()), id, schedule)
      ensures raised == !ValidKind(schedule.kind)
    {
      if schedule.kind.FixedInterval? && schedule.kind.seconds < 60 { return true; }
      schedules := schedules.Put(id, schedule.(enabled := true, lastScheduledAt := None));
      raised := false;
    }

    /** Fires the first due schedule, if any. */
    method ScheduleTickLocked(correlation: Id, newId: Id) returns (r: TickResult)
      requires Usable() && newId !in executions.at
      modifies this
      ensures St() == Tick(cfg, old(St()), correlation, newId)
      ensures r == TickReturns(cfg, old(St()))
    {
      var order := schedules.order;
      var i := 0;
      while i < |order|
        invariant 0 <= i <= |order| && St() == old(St())
        invariant FirstDue(St(), order[i..]) == FirstDue(St(), order)
      {
        assert order[i] in order && order[i..][1..] == order[i + 1..];
        var schedule := schedules.at[order[i]];
        if schedule.enabled && schedule.nextRunAt <= now {
          r := Fire(order[i], correlation, newId);
          return;
        }
        i := i + 1;
      }
      r := Ticked(0);
    }

    method Fire(id: Id, correlation: Id, newId: Id) returns (r: TickResult)
      requires Usable() && newId !in executions.at && FirstDue(St(), schedules.order) == Some(id)
      requires id in schedules.at
      modifies this
      ensures St() == Tick(cfg, old(St()), correlation, newId)
      ensures r == TickReturns(cfg, old(St()))
    {
      var schedule := schedules.at[id];
      var planned := schedule.nextRunAt;
      var created := CreateIdentity(cfg, schedule.jobType, schedule.target, ScheduleKey(id, CanonicalSecond(planned)));
      if created.None? || !(1 <= schedule.maxAttempts <= 10) { return TickRaised; }
      var filed := SubmitLocked(Command(created.value, correlation, schedule.maxAttempts), newId);
      if filed.None? { return TickRaised; }
      AdvanceSchedule(id);
      r := Ticked(1);
    }

    method AdvanceSchedule(id: Id)
      requires id in schedules.at
      modifies this`schedules
      ensures schedules == old(schedules).Put(id, Advanced(old(schedules).at[id]))
    {
      var schedule := schedules.at[id];
      var planned := schedule.nextRunAt;
      schedule := schedule.(lastScheduledAt := Some(planned));
      match schedule.kind {
        case OneShot => schedule := schedule.(enabled := false);
        case FixedInterval(seconds) => schedule := schedule.(nextRunAt := planned + Seconds(seconds));
      }
      schedules := schedules.Put(id, schedule);
    }

    // ---- the public methods: one locked step each ----

    method AdvanceTime(delta: int) returns (raised: bool)
      requires Valid()
      modifies this
      ensures Valid() && St() == Advance(old(St()), delta) && raised == (delta < 0)
    {
      ValidIsUsable();
      StepInv(cfg, St(), DoAdvance(delta));
      raised := AdvanceTimeLocked(delta);
    }

    method Submit(command: SubmitJob, newId: Id) returns (snapshot: Option<JobSnapshot>)
      requires Valid() && newId !in executions.at
      modifies this
      ensures Valid() && St() == JobModel.Submit(cfg, old(St()), command, newId)
      ensures snapshot.None? <==> Resolve(cfg, command.identity).None?
      ensures snapshot.Some? ==>
                var identity := Resolve(cfg, command.identity).value;
                identity in index && index[identity] in executions.at &&
                snapshot.value == Snapshot(index[identity], executions.at[index[identity]])
    {
      ValidIsUsable();
      StepInv(cfg, St(), DoSubmit(command, newId));
      snapshot := SubmitLocked(command, newId);
    }

    method Claim(id: Id, attempt: int, worker: string) returns (claim: Option<JobClaim>)
      requires Valid()
      modifies this
      ensures Valid() && St() == JobModel.Claim(cfg, old(St()), id, attempt, worker)
      ensures claim == if Claimable(old(St()), id, attempt) then Some(JobClaim(id, attempt, worker)) else None
    {
      ValidIsUsable();
      StepInv(cfg, St(), DoClaim(id, attempt, worker));
      claim := ClaimLocked(id, attempt, worker);
    }

    method RecordOutcome(claim: JobClaim, outcome: Outcome) returns (r: RecordResult)
      requires Valid() && claim.id in executions.at
      modifies this
      ensures Valid() && St() == Record(old(St()), claim, outcome)
      ensures r.RecordRaised? <==> Holds(old(St()), claim) && outcome.Rejected?
      ensures r.Recorded? ==> claim.id in executions.at && r.snapshot == Snapshot(claim.id, executions.at[claim.id])
    {
      ValidIsUsable();
      StepInv(cfg, St(), DoRecord(claim, outcome));
      r := RecordOutcomeLocked(claim, outcome);
    }

    method RelayDue(limit: int, accepting: set<RowKey>)
      returns (raised: bool, published: nat, failed: nat, sent: seq<RowKey>)
      requires Valid()
      modifies this
      ensures Valid() && St() == Relay(old(St()), limit, accepting)
      ensures raised == !(1 <= limit <= 1000)
      ensures !raised ==> sent == Taken(Slice(DueRows(old(St())), limit), accepting)
      ensures !raised ==> published == |sent| && published + failed == |Slice(DueRows(old(St())), limit)|
    {
      ValidIsUsable();
      StepInv(cfg, St(), DoRelay(limit, accepting));
      raised, published, failed, sent := RelayDueLocked(limit, accepting);
    }

    method RebuildOutbox(limit: int) returns (rebuilt: nat)
      requires Valid()
      modifies this
      ensures Valid() && St() == Rebuild(old(St()), limit)
      ensures rebuilt == |Slice(PublishedRows(old(St())), limit)|
    {
      ValidIsUsable();
      StepInv(cfg, St(), DoRebuild(limit));
      rebuilt := RebuildOutboxLocked(limit);
    }

    method ReapExpired(limit: int) returns (count: nat)
      requires Valid()
      modifies this
      ensures Valid() && St() == Reap(old(St()), limit)
      ensures count == |Slice(ExpiredLeases(old(St())), limit)|
    {
      ValidIsUsable();
      StepInv(cfg, St(), DoReap(limit));
      count := ReapExpiredLocked(limit);
    }

    method RegisterSchedule(id: Id, schedule: Schedule) returns (raised: bool)
      requires Valid()
      modifies this
      ensures Valid() && St() == AddSchedule(old(St()), id, schedule)
      ensures raised == !ValidKind(schedule.kind)
    {
      ValidIsUsable();
      if ValidKind(schedule.kind) { ScheduleInv(St(), id, schedule.(enabled := true, lastScheduledAt := None)); }
      raised := RegisterScheduleLocked(id, schedule);
    }

    method ScheduleTick(correlation: Id, newId: Id) returns (r: TickResult)
      requires Valid() && newId !in executions.at
      modifies this
      ensures Valid() && St() == Tick(cfg, old(St()), correlation, newId)
      ensures r == TickReturns(cfg, old(St()))
    {
      ValidIsUsable();
      TickInv(cfg, St(), correlation, newId);
      r := ScheduleTickLocked(correlation, newId);
    }
  }
}
