/** What may happen to an outbox row: one operation moves it one step, and no run overwrites it. */
module JobRows {
  import opened Collections
  import opened JobModel
  import opened JobInvariant

  /** Published, refused once more by the queue, reopened, or left as it is. */
  predicate RowMoves(r: Row, r': Row, now: int) {
    || r' == r
    || (r.state.RowPending? && r.availableAt <= now && r' == r.(state := RowPublished))
    || (r.state.RowPublished? && r' == r.(state := RowPending, error := None))
    || (r.state.RowPending? && r.availableAt <= now && Refused(r, r', now))
  }

  /** The hundredth refusal is final; the others put the row off by 1, 2, 4, ... and at most 300 seconds. */
  predicate Refused(r: Row, r': Row, now: int) {
    && r.publishAttempts < MAX_PUBLISH && r'.publishAttempts == r.publishAttempts + 1
    && r'.error == Some("queue.publish_failed")
    && (if r'.publishAttempts == MAX_PUBLISH then r'.state.RowFailed? && r'.availableAt == r.availableAt
        else r'.state.RowPending? && r'.availableAt == now + DelayAfter(r'.publishAttempts) * 1_000_000)
  }

  ghost predicate RowsMoved(s: State, s': State) {
    forall k :: k in s.outbox.at ==> k in s'.outbox.at && RowMoves(s.outbox.at[k], s'.outbox.at[k], s.now)
  }

  /** Every row that was there is there unchanged. */
  ghost predicate RowsSame(s: State, s': State) {
    forall k :: k in s.outbox.at ==> k in s'.outbox.at && s'.outbox.at[k] == s.outbox.at[k]
  }

  // ---- single operations ----

  lemma EndAddsOneRow(s: State, id: Id, at: int, st: AttemptState, code: string)
    requires Local(s, id) && s.executions.at[id].state.Running?
    ensures RowsSame(s, EndRetryable(s, id, at, st, code))
  {
    assert !RowExpected(s.executions.at[id], s.executions.at[id].attemptCount + 1);
    assert RowKey(id, s.executions.at[id].attemptCount + 1) !in s.outbox.at;
  }

  lemma SameOn(s: State, s1: State, s2: State)
    requires RowsSame(s, s1) && RowsSame(s1, s2)
    ensures RowsSame(s, s2)
  {
  }

  lemma {:induction false} AbandonAllAddsRows(s: State, ids: seq<Id>)
    requires Inv(s) && Distinct(ids) && forall id :: id in ids ==> LeaseExpired(s, id)
    ensures RowsSame(s, AbandonAll(s, ids))
    decreases |ids|
  {
    if ids == [] {
    } else {
      assert LeaseExpired(s, ids[0]) && Local(s, ids[0]);
      var s1 := Abandon(s, ids[0]);
      EndAddsOneRow(s, ids[0], s.now, Abandoned, "job.lease_expired");
      AbandonInv(s, ids[0]);
      forall id | id in ids[1..] ensures LeaseExpired(s1, id) { assert id in ids && id != ids[0]; }
      AbandonAllAddsRows(s1, ids[1..]);
      SameOn(s, s1, AbandonAll(s1, ids[1..]));
    }
  }

  lemma PublishMoves(s: State, k: RowKey, accepted: bool)
    requires Due(s, k)
    ensures k in Publish(s, k, accepted).outbox.at
    ensures RowMoves(s.outbox.at[k], Publish(s, k, accepted).outbox.at[k], s.now)
    ensures Publish(s, k, accepted).outbox.at.Keys == s.outbox.at.Keys && Publish(s, k, accepted).now == s.now
    ensures forall j :: j in s.outbox.at && j != k ==> Publish(s, k, accepted).outbox.at[j] == s.outbox.at[j]
  {
    DelayWrittenOut(s.outbox.at[k].publishAttempts + 1);
  }

  /** A batch moves each of its rows once and leaves the others. */
  lemma {:induction false} PublishAllMoves(s: State, keys: seq<RowKey>, accepting: set<RowKey>)
    requires Distinct(keys) && forall k :: k in keys ==> Due(s, k)
    ensures RowsMoved(s, PublishAll(s, keys, accepting))
    ensures forall j :: j in s.outbox.at && j !in keys ==> PublishAll(s, keys, accepting).outbox.at[j] == s.outbox.at[j]
    decreases |keys|
  {
    if keys == [] {
    } else {
      var k := keys[0];
      var s1 := Publish(s, k, k in accepting);
      assert Due(s, k);
      PublishMoves(s, k, k in accepting);
      forall j | j in keys[1..] ensures Due(s1, j) {
        assert j in keys && j != k && Due(s, j);
        assert j in s1.outbox.at.Keys;
      }
      PublishAllMoves(s1, keys[1..], accepting);
      forall j | j in s.outbox.at
        ensures j in PublishAll(s, keys, accepting).outbox.at
        ensures RowMoves(s.outbox.at[j], PublishAll(s, keys, accepting).outbox.at[j], s.now)
      {
        assert j in s1.outbox.at.Keys;
      }
    }
  }

  lemma ReopenMoves(s: State, k: RowKey)
    requires Republishable(s, k) && s.outbox.at[k].publishAttempts < MAX_PUBLISH
    ensures k in Reopen(s, k).outbox.at && RowMoves(s.outbox.at[k], Reopen(s, k).outbox.at[k], s.now)
    ensures Reopen(s, k).outbox.at.Keys == s.outbox.at.Keys && Reopen(s, k).now == s.now
    ensures forall j :: j in s.outbox.at && j != k ==> Reopen(s, k).outbox.at[j] == s.outbox.at[j]
  {
  }

  lemma {:induction false} ReopenAllMoves(s: State, keys: seq<RowKey>)
    requires Distinct(keys)
    requires forall k :: k in keys ==> Republishable(s, k) && s.outbox.at[k].publishAttempts < MAX_PUBLISH
    ensures RowsMoved(s, ReopenAll(s, keys))
    ensures forall j :: j in s.outbox.at && j !in keys ==> ReopenAll(s, keys).outbox.at[j] == s.outbox.at[j]
    decreases |keys|
  {
    if keys == [] {
    } else {
      var k := keys[0];
      var s1 := Reopen(s, k);
      assert Republishable(s, k);
      ReopenMoves(s, k);
      forall j | j in keys[1..] ensures Republishable(s1, j) && s1.outbox.at[j].publishAttempts < MAX_PUBLISH {
        assert j in keys && j != k && Republishable(s, j);
        assert j in s1.outbox.at.Keys;
      }
      ReopenAllMoves(s1, keys[1..]);
      forall j | j in s.outbox.at
        ensures j in ReopenAll(s, keys).outbox.at && RowMoves(s.outbox.at[j], ReopenAll(s, keys).outbox.at[j], s.now)
      {
        assert j in s1.outbox.at.Keys;
      }
    }
  }

  lemma FileAddsOneRow(s: State, identity: Identity, c: SubmitJob, newId: Id)
    requires Inv(s)
    ensures RowsSame(s, File(s, identity, c, newId))
  {
    assert RowKey(newId, 1).id == newId;
  }

  lemma TickAddsOneRow(cfg: Config, s: State, correlation: Id, newId: Id)
    requires Inv(s)
    ensures RowsSame(s, Tick(cfg, s, correlation, newId))
  {
    match FirstDue(s, s.schedules.order)
    case None =>
    case Some(id) =>
      if id in s.schedules.at && Submittable(cfg, id, s.schedules.at[id]) {
        var c := s.schedules.at[id];
        var identity := ScheduleIdentity(cfg, id, c, c.nextRunAt).value;
        FileAddsOneRow(s, identity, Command(identity, correlation, c.maxAttempts), newId);
      }
  }

  lemma SubmitAddsOneRow(cfg: Config, s: State, c: SubmitJob, newId: Id)
    requires Inv(s)
    ensures RowsSame(s, Submit(cfg, s, c, newId))
  {
    if Resolve(cfg, c.identity).Some? { FileAddsOneRow(s, Resolve(cfg, c.identity).value, c, newId); }
  }

  lemma RecordAddsOneRow(s: State, c: JobClaim, o: Outcome)
    requires Inv(s)
    ensures RowsSame(s, Record(s, c, o))
  {
    if Holds(s, c) && o.Transient? {
      var at := RecordTransient(s, c, o);
      assert Local(s, c.id);
      EndAddsOneRow(s, c.id, at, TransientFailure, o.code);
    }
  }

  lemma ClaimAddsOneRow(cfg: Config, s: State, id: Id, n: int, worker: string)
    requires Inv(s)
    ensures RowsSame(s, Claim(cfg, s, id, n, worker))
  {
    if LeaseExpired(s, id) {
      assert Local(s, id);
      EndAddsOneRow(s, id, s.now, Abandoned, "job.lease_expired");
    }
  }

  lemma RelayMovesRows(s: State, limit: int, accepting: set<RowKey>)
    requires Inv(s)
    ensures RowsMoved(s, Relay(s, limit, accepting))
  {
    DueBatch(s, limit);
    PublishAllMoves(s, Slice(DueRows(s), limit), accepting);
  }

  lemma RebuildMovesRows(s: State, limit: int)
    requires Inv(s)
    ensures RowsMoved(s, Rebuild(s, limit))
  {
    PublishedBatch(s, limit);
    forall k | k in Slice(PublishedRows(s), limit) ensures s.outbox.at[k].publishAttempts < MAX_PUBLISH {
      ReopenInv(s, k);
    }
    ReopenAllMoves(s, Slice(PublishedRows(s), limit));
  }

  lemma ReapAddsRows(s: State, limit: int)
    requires Inv(s)
    ensures RowsSame(s, Reap(s, limit))
  {
    ExpiredBatch(s, limit);
    AbandonAllAddsRows(s, Slice(ExpiredLeases(s), limit));
  }

  lemma SameIsMoved(s: State, s': State)
    requires RowsSame(s, s')
    ensures RowsMoved(s, s')
  {
  }

  lemma SameOutbox(s: State, s': State)
    requires s'.outbox == s.outbox
    ensures RowsSame(s, s')
  {
  }

  lemma SubmitStepAddsRows(cfg: Config, s: State, step: Step)
    requires Inv(s) && step.DoSubmit?
    ensures RowsSame(s, Apply(cfg, s, step))
  {
    SubmitAddsOneRow(cfg, s, step.command, step.newId);
  }

  lemma TickStepAddsRows(cfg: Config, s: State, step: Step)
    requires Inv(s) && step.DoTick?
    ensures RowsSame(s, Apply(cfg, s, step))
  {
    TickAddsOneRow(cfg, s, step.correlation, step.newId);
  }

  lemma ClaimStepAddsRows(cfg: Config, s: State, step: Step)
    requires Inv(s) && step.DoClaim?
    ensures RowsSame(s, Apply(cfg, s, step))
  {
    ClaimAddsOneRow(cfg, s, step.id, step.attempt, step.worker);
  }

  lemma RecordStepAddsRows(cfg: Config, s: State, step: Step)
    requires Inv(s) && step.DoRecord?
    ensures RowsSame(s, Apply(cfg, s, step))
  {
    RecordAddsOneRow(s, step.claim, step.outcome);
  }

  lemma ReapStepAddsRows(cfg: Config, s: State, step: Step)
    requires Inv(s) && step.DoReap?
    ensures RowsSame(s, Apply(cfg, s, step))
  {
    var s' := Reap(s, step.limit);
    assert Apply(cfg, s, step) == s';
    ReapAddsRows(s, step.limit);
  }

  lemma RelayStepMovesRows(cfg: Config, s: State, step: Step)
    requires Inv(s) && step.DoRelay?
    ensures RowsMoved(s, Apply(cfg, s, step))
  {
    RelayMovesRows(s, step.limit, step.accepting);
  }

  lemma RebuildStepMovesRows(cfg: Config, s: State, step: Step)
    requires Inv(s) && step.DoRebuild?
    ensures RowsMoved(s, Apply(cfg, s, step))
  {
    RebuildMovesRows(s, step.limit);
  }

  /** One operation moves every existing row by at most one of the allowed moves, and drops none. */
  lemma StepMovesRows(cfg: Config, s: State, step: Step)
    requires Inv(s)
    ensures RowsMoved(s, Apply(cfg, s, step))
  {
    if step.DoRelay? {
      RelayStepMovesRows(cfg, s, step);
    } else if step.DoRebuild? {
      RebuildStepMovesRows(cfg, s, step);
    } else {
      if step.DoSubmit? {
        SubmitStepAddsRows(cfg, s, step);
      } else if step.DoTick? {
        TickStepAddsRows(cfg, s, step);
      } else if step.DoClaim? {
        ClaimStepAddsRows(cfg, s, step);
      } else if step.DoRecord? {
        RecordStepAddsRows(cfg, s, step);
      } else if step.DoReap? {
        ReapStepAddsRows(cfg, s, step);
      } else {
        SameOutbox(s, Apply(cfg, s, step));
      }
      SameIsMoved(s, Apply(cfg, s, step));
    }
  }

  // ---- runs ----

  /** Refusals only accumulate; the due time changes only with a refusal, and then to a later one; an exhausted row is
      final, and a row becomes exhausted only by its hundredth refusal. */
  predicate RowKept(r: Row, r': Row) {
    && r.publishAttempts <= r'.publishAttempts
    && r.availableAt <= r'.availableAt
    && (r'.publishAttempts == r.publishAttempts ==> r'.availableAt == r.availableAt)
    && (r.state.RowFailed? ==> r' == r)
    && (r'.state.RowFailed? && r' != r ==> r.publishAttempts < r'.publishAttempts == MAX_PUBLISH)
  }

  ghost predicate RowsKept(s: State, s': State) {
    forall k :: k in s.outbox.at ==> k in s'.outbox.at && RowKept(s.outbox.at[k], s'.outbox.at[k])
  }

  lemma KeptOn(s: State, s1: State, s2: State)
    requires RowsMoved(s, s1) && RowsKept(s1, s2)
    ensures RowsKept(s, s2)
  {
    forall k | k in s.outbox.at ensures k in s2.outbox.at && RowKept(s.outbox.at[k], s2.outbox.at[k]) {
      assert RowMoves(s.outbox.at[k], s1.outbox.at[k], s.now) && RowKept(s1.outbox.at[k], s2.outbox.at[k]);
    }
  }

  /** Along every run no row is dropped, and none is replaced by one with another due time or with fewer refusals. */
  lemma {:induction false} RunKeepsRows(cfg: Config, s: State, steps: seq<Step>)
    requires Inv(s)
    ensures RowsKept(s, Run(cfg, s, steps))
    decreases |steps|
  {
    if steps == [] {
    } else {
      var s1 := Apply(cfg, s, steps[0]);
      StepInv(cfg, s, steps[0]);
      StepMovesRows(cfg, s, steps[0]);
      RunKeepsRows(cfg, s1, steps[1..]);
      KeptOn(s, s1, Run(cfg, s1, steps[1..]));
    }
  }
}
