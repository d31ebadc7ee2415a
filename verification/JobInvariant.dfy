/** The relation between executions, attempts and outbox rows that every step keeps. */
module JobInvariant {
  import opened Collections
  import opened JobModel

  /** Attempts are numbered from one, follow one another in time, and only the last can be open. */
  ghost predicate AttemptOk(e: Execution, now: int, k: int)
    requires 0 <= k < |e.attempts|
  {
    var a := e.attempts[k];
    var last := k == |e.attempts| - 1;
    && a.ordinal == k + 1
    && a.startedAt <= now
    && (a.state.InProgress? <==> last && e.state.Running?)
    && (a.finishedAt.None? <==> last && e.state.Running? && e.leaseUntil.Some?)
    && (a.state.InProgress? ==> a.error.None?)
    && (a.finishedAt.Some? ==> a.startedAt <= a.finishedAt.value <= now)
    && (a.finishedAt.Some? && !last ==> a.finishedAt.value <= e.attempts[k + 1].startedAt)
  }

  /** A waiting execution that was already tried becomes available within the backoff bound. */
  ghost predicate BackoffOk(e: Execution) {
    Waiting(e) && e.attempts != [] ==>
      var f := e.attempts[|e.attempts| - 1].finishedAt;
      f.Some? && f.value <= e.availableAt <= f.value + Seconds(MAX_DELAY)
  }

  ghost predicate ExecOk(e: Execution, now: int) {
    && 1 <= e.maxAttempts <= 10
    && 0 <= e.attemptCount <= e.maxAttempts
    && |e.attempts| == e.attemptCount
    && (Waiting(e) ==> e.attemptCount < e.maxAttempts)
    && (e.state.Pending? ==> e.attemptCount == 0)
    && (e.state.RetryWait? || e.state.Running? ==> e.attemptCount > 0)
    && (e.finishedAt.Some? <==> Terminal(e))
    && (e.result.Some? <==> e.state.Succeeded?)
    && (e.state.Failed? ==> e.error.Some?)
    && (e.leaseOwner.Some? <==> e.leaseUntil.Some?)
    && (e.leaseUntil.Some? ==> e.state.Running?)
    && e.createdAt <= now
    && (e.state.Pending? || e.state.Queued? ==> e.availableAt <= now)
    && BackoffOk(e)
    && (forall k :: 0 <= k < |e.attempts| ==> AttemptOk(e, now, k))
  }

  /** Attempts 1..attemptCount have a row, and the next attempt has one exactly while it waits. */
  predicate RowExpected(e: Execution, n: int) {
    1 <= n <= e.attemptCount || (n == e.attemptCount + 1 && Waiting(e))
  }

  ghost predicate RowOk(r: Row, now: int) {
    && r.publishAttempts <= MAX_PUBLISH
    && (r.state.RowFailed? <==> r.publishAttempts == MAX_PUBLISH)
    && (r.state.RowPublished? ==> r.availableAt <= now)
  }

  ghost predicate RowsOk(s: State, id: Id)
    requires id in s.executions.at
  {
    var e := s.executions.at[id];
    && (forall n: int :: RowKey(id, n) in s.outbox.at <==> RowExpected(e, n))
    && (forall n: int :: RowKey(id, n) in s.outbox.at ==> RowOk(s.outbox.at[RowKey(id, n)], s.now))
    && (Waiting(e) ==>
          var r := s.outbox.at[RowKey(id, e.attemptCount + 1)];
          e.availableAt <= r.availableAt && (r.state.RowPublished? ==> e.state.Queued?))
  }

  ghost predicate Local(s: State, id: Id) {
    id in s.executions.at && ExecOk(s.executions.at[id], s.now) && RowsOk(s, id)
  }

  ghost predicate IndexOk(s: State) {
    && (forall i :: i in s.index ==>
          s.index[i] in s.executions.at && s.executions.at[s.index[i]].identity == i)
    && (forall id :: id in s.executions.at ==>
          s.executions.at[id].identity in s.index && s.index[s.executions.at[id].identity] == id)
  }

  ghost predicate Frame(s: State) {
    && s.executions.Valid() && s.outbox.Valid() && s.schedules.Valid()
    && IndexOk(s)
    && (forall k :: k in s.outbox.at ==> k.id in s.executions.at)
    && (forall id :: id in s.schedules.at ==> ValidKind(s.schedules.at[id].kind))
  }

  ghost predicate Inv(s: State) {
    && Frame(s)
    && forall id :: id in s.executions.at ==> Local(s, id)
  }

  /** A step that writes only the execution `id` and rows of that execution. */
  ghost predicate Touch(s: State, s': State, id: Id) {
    && id in s.executions.at
    && s' == s.(executions := s'.executions, outbox := s'.outbox)
    && s'.executions.Valid() && s'.outbox.Valid()
    && s'.executions.at.Keys == s.executions.at.Keys
    && s'.executions.at[id].identity == s.executions.at[id].identity
    && (forall j :: j in s.executions.at && j != id ==> s'.executions.at[j] == s.executions.at[j])
    && (forall k :: k in s.outbox.at && k.id != id ==> k in s'.outbox.at && s'.outbox.at[k] == s.outbox.at[k])
    && (forall k :: k in s'.outbox.at && k.id != id ==> k in s.outbox.at)
  }

  lemma LocalFrame(s: State, s': State, id: Id)
    requires Local(s, id)
    requires s.now <= s'.now
    requires id in s'.executions.at && s'.executions.at[id] == s.executions.at[id]
    requires forall n: int :: RowKey(id, n) in s.outbox.at <==> RowKey(id, n) in s'.outbox.at
    requires forall n: int :: RowKey(id, n) in s.outbox.at ==>
               s'.outbox.at[RowKey(id, n)] == s.outbox.at[RowKey(id, n)]
    ensures Local(s', id)
  {
    var e := s.executions.at[id];
    forall k | 0 <= k < |e.attempts| ensures AttemptOk(e, s'.now, k) {
      assert AttemptOk(e, s.now, k);
    }
  }

  lemma TouchInv(s: State, s': State, id: Id)
    requires Inv(s) && Touch(s, s', id) && Local(s', id)
    ensures Inv(s')
  {
    forall j | j in s'.executions.at ensures Local(s', j) {
      if j != id { LocalFrame(s, s', j); }
    }
    forall i | i in s'.index
      ensures s'.index[i] in s'.executions.at && s'.executions.at[s'.index[i]].identity == i
    {
      var j := s.index[i];
      assert j in s.executions.at.Keys && s.executions.at[j].identity == i;
      assert j == id || s'.executions.at[j] == s.executions.at[j];
    }
  }

  // ---- one-execution operations ----

  lemma WriteExecTouch(s: State, id: Id, e: Execution)
    requires Inv(s) && id in s.executions.at && e.identity == s.executions.at[id].identity
    ensures Touch(s, WriteExec(s, id, e), id)
  {
    PutValid(s.executions, id, e);
  }

  lemma WriteBothTouch(s: State, id: Id, e: Execution, n: int, r: Row)
    requires Inv(s) && id in s.executions.at && e.identity == s.executions.at[id].identity
    ensures Touch(s, WriteRow(WriteExec(s, id, e), RowKey(id, n), r), id)
  {
    PutValid(s.executions, id, e);
    PutValid(s.outbox, RowKey(id, n), r);
  }

  lemma ClaimInv(cfg: Config, s: State, id: Id, worker: string)
    requires Inv(s) && id in s.executions.at && Claimable(s, id, s.executions.at[id].attemptCount + 1)
    ensures Inv(WriteExec(s, id, Claimed(cfg, s, s.executions.at[id], worker)))
  {
    var e := s.executions.at[id];
    var e' := Claimed(cfg, s, e, worker);
    var s' := WriteExec(s, id, e');
    WriteExecTouch(s, id, e');
    assert Local(s, id);
    forall k | 0 <= k < |e'.attempts| ensures AttemptOk(e', s'.now, k) {
      if k < |e.attempts| { assert AttemptOk(e, s.now, k); }
    }
    forall n: int ensures RowKey(id, n) in s'.outbox.at <==> RowExpected(e', n) {
      assert RowKey(id, n) in s.outbox.at <==> RowExpected(e, n);
    }
    TouchInv(s, s', id);
  }

  /** The open attempt of a running execution can be closed. */
  lemma CloseLastOk(e: Execution, now: int, e': Execution, st: AttemptState, err: Option<string>)
    requires ExecOk(e, now) && e.state.Running? && e.leaseUntil.Some?
    requires e'.attempts == CloseLast(e, now, st, err)
    requires e'.leaseUntil.None?
    requires st.InProgress? <==> e'.state.Running?
    requires st.InProgress? ==> err.None?
    ensures forall k :: 0 <= k < |e'.attempts| ==> AttemptOk(e', now, k)
    ensures |e'.attempts| == |e.attempts| > 0
    ensures e'.attempts[|e'.attempts| - 1].finishedAt == Some(now)
  {
    forall k | 0 <= k < |e'.attempts| ensures AttemptOk(e', now, k) {
      assert AttemptOk(e, now, k);
    }
  }

  /** Ending an attempt without another one to follow. */
  lemma EndInv(s: State, id: Id, e': Execution, st: AttemptState, err: Option<string>)
    requires Inv(s) && id in s.executions.at
    requires s.executions.at[id].state.Running? && s.executions.at[id].leaseUntil.Some?
    requires e' == s.executions.at[id].(
                     state := e'.state, result := e'.result, error := e'.error, finishedAt := e'.finishedAt,
                     leaseOwner := None, leaseUntil := None,
                     attempts := CloseLast(s.executions.at[id], s.now, st, err))
    requires e'.state.Succeeded? || e'.state.Failed? || e'.state.Running?
    requires st.InProgress? ==> err.None?
    requires st.InProgress? <==> e'.state.Running?
    requires e'.finishedAt.Some? <==> Terminal(e')
    requires e'.result.Some? <==> e'.state.Succeeded?
    requires e'.state.Failed? ==> e'.error.Some?
    ensures Inv(WriteExec(s, id, e'))
  {
    var e := s.executions.at[id];
    var s' := WriteExec(s, id, e');
    assert Local(s, id);
    CloseLastOk(e, s.now, e', st, err);
    WriteExecTouch(s, id, e');
    forall n: int ensures RowKey(id, n) in s'.outbox.at <==> RowExpected(e', n) {
      assert RowKey(id, n) in s.outbox.at <==> RowExpected(e, n);
    }
    TouchInv(s, s', id);
  }

  lemma RetryLocal(s: State, id: Id, at: int, code: string, st: AttemptState, err: Option<string>)
    requires Local(s, id)
    requires s.executions.at[id].state.Running? && s.executions.at[id].leaseUntil.Some?
    requires s.executions.at[id].attemptCount < s.executions.at[id].maxAttempts
    requires !st.InProgress?
    requires s.now <= at <= s.now + Seconds(MAX_DELAY)
    ensures RowKey(id, s.executions.at[id].attemptCount + 1) !in s.outbox.at
    ensures Local(RetryLater(s, id, at, code, CloseLast(s.executions.at[id], s.now, st, err)), id)
  {
    var e := s.executions.at[id];
    var e' := Retry(e, at, code, CloseLast(e, s.now, st, err));
    var s' := RetryLater(s, id, at, code, CloseLast(e, s.now, st, err));
    CloseLastOk(e, s.now, e', st, err);
    assert ExecOk(e', s.now);
    assert !RowExpected(e, e.attemptCount + 1);
    forall n: int ensures RowKey(id, n) in s'.outbox.at <==> RowExpected(e', n) {
      assert RowKey(id, n) in s.outbox.at <==> RowExpected(e, n);
    }
  }

  /** Ending an attempt with a retry: the row written for it did not exist. */
  lemma RetryInv(s: State, id: Id, at: int, code: string, st: AttemptState, err: Option<string>)
    requires Inv(s) && id in s.executions.at
    requires s.executions.at[id].state.Running? && s.executions.at[id].leaseUntil.Some?
    requires s.executions.at[id].attemptCount < s.executions.at[id].maxAttempts
    requires !st.InProgress?
    requires s.now <= at <= s.now + Seconds(MAX_DELAY)
    ensures RowKey(id, s.executions.at[id].attemptCount + 1) !in s.outbox.at
    ensures Inv(RetryLater(s, id, at, code, CloseLast(s.executions.at[id], s.now, st, err)))
  {
    var e := s.executions.at[id];
    var closed := CloseLast(e, s.now, st, err);
    assert Local(s, id);
    RetryLocal(s, id, at, code, st, err);
    WriteBothTouch(s, id, Retry(e, at, code, closed), e.attemptCount + 1, FreshRow(at));
    TouchInv(s, RetryLater(s, id, at, code, closed), id);
  }

  lemma FailInv(s: State, id: Id, code: string, st: AttemptState)
    requires Inv(s) && id in s.executions.at && !st.InProgress?
    requires s.executions.at[id].state.Running? && s.executions.at[id].leaseUntil.Some?
    ensures var e := s.executions.at[id];
            Inv(WriteExec(s, id, Fail(e, s.now, code, CloseLast(e, s.now, st, Some(code)))))
  {
    var e := s.executions.at[id];
    assert Local(s, id);
    EndInv(s, id, Fail(e, s.now, code, CloseLast(e, s.now, st, Some(code))), st, Some(code));
  }

  lemma EndRetryableInv(s: State, id: Id, at: int, st: AttemptState, code: string)
    requires Inv(s) && id in s.executions.at && !st.InProgress?
    requires s.executions.at[id].state.Running? && s.executions.at[id].leaseUntil.Some?
    requires s.now <= at <= s.now + Seconds(MAX_DELAY)
    ensures Inv(EndRetryable(s, id, at, st, code))
  {
    var e := s.executions.at[id];
    if e.attemptCount < e.maxAttempts {
      RetryInv(s, id, at, code, st, Some(code));
    } else {
      FailInv(s, id, code, st);
    }
  }

  lemma AbandonInv(s: State, id: Id)
    requires Inv(s) && LeaseExpired(s, id)
    ensures Inv(Abandon(s, id))
  {
    EndRetryableInv(s, id, s.now, Abandoned, "job.lease_expired");
  }

  lemma ReturnedInv(s: State, c: JobClaim, o: Outcome)
    requires Inv(s) && Holds(s, c) && (o.Returned? || o.Rejected?)
    ensures Inv(Record(s, c, o))
  {
    var e := s.executions.at[c.id];
    assert Local(s, c.id);
    var e' := Record(s, c, o).executions.at[c.id];
    EndInv(s, c.id, e', if o.Returned? then Done else InProgress, None);
  }

  lemma FailedInv(s: State, c: JobClaim, o: Outcome)
    requires Inv(s) && Holds(s, c) && (o.Permanent? || o.Unclassified?)
    ensures Inv(Record(s, c, o))
  {
    FailInv(s, c.id, if o.Permanent? then o.code else "job.unclassified_failure", PermanentFailure);
  }

  lemma RecordTransient(s: State, c: JobClaim, o: Outcome) returns (at: int)
    requires Holds(s, c) && o.Transient?
    ensures s.now <= at <= s.now + Seconds(MAX_DELAY)
    ensures Record(s, c, o) == EndRetryable(s, c.id, at, TransientFailure, o.code)
  {
    at := s.now + Seconds(Backoff(s.executions.at[c.id].attemptCount, o.retryAfter));
  }

  lemma TransientInv(s: State, c: JobClaim, o: Outcome)
    requires Inv(s) && Holds(s, c) && o.Transient?
    ensures Inv(Record(s, c, o))
  {
    var at := RecordTransient(s, c, o);
    EndRetryableInv(s, c.id, at, TransientFailure, o.code);
  }

  lemma RecordInv(s: State, c: JobClaim, o: Outcome)
    requires Inv(s)
    ensures Inv(Record(s, c, o))
  {
    if Holds(s, c) {
      match o
      case Returned(v) => ReturnedInv(s, c, o);
      case Rejected => ReturnedInv(s, c, o);
      case Transient(code, after) => TransientInv(s, c, o);
      case Permanent(code) => FailedInv(s, c, o);
      case Unclassified => FailedInv(s, c, o);
    }
  }

  /** The relay's unconditional write of QUEUED only ever reaches an execution that waits. */
  lemma RelayWritesOnlyWaiting(s: State, k: RowKey)
    requires Inv(s) && k in s.outbox.at && k.id in s.executions.at
    requires k.attempt == s.executions.at[k.id].attemptCount + 1
    ensures Waiting(s.executions.at[k.id])
  {
    assert Local(s, k.id);
    assert RowKey(k.id, k.attempt) in s.outbox.at;
  }

  /** Rewriting one existing row, and possibly queueing its execution. */
  lemma RowInv(s: State, k: RowKey, r: Row, queue: bool)
    requires Inv(s) && k in s.outbox.at && k.id in s.executions.at
    requires RowOk(r, s.now) && s.outbox.at[k].availableAt <= r.availableAt
    requires var e := s.executions.at[k.id];
             && (queue ==> k.attempt == e.attemptCount + 1 && r.availableAt <= s.now)
             && (k.attempt == e.attemptCount + 1 && r.state.RowPublished? ==> queue)
    ensures var e := s.executions.at[k.id];
            Inv(WriteExec(WriteRow(s, k, r), k.id, if queue then e.(state := Queued) else e))
  {
    var e := s.executions.at[k.id];
    var e' := if queue then e.(state := Queued) else e;
    assert Local(s, k.id) && k == RowKey(k.id, k.attempt);
    if queue { RelayWritesOnlyWaiting(s, k); }
    WriteBothTouch(s, k.id, e', k.attempt, r);
    var s' := WriteExec(WriteRow(s, k, r), k.id, e');
    RowLocal(s, k, r, e');
    TouchInv(s, s', k.id);
  }

  lemma RowLocal(s: State, k: RowKey, r: Row, e': Execution)
    requires Local(s, k.id) && k in s.outbox.at
    requires RowOk(r, s.now) && s.outbox.at[k].availableAt <= r.availableAt
    requires var e := s.executions.at[k.id];
             && (e' == e || (e' == e.(state := Queued) && Waiting(e) && k.attempt == e.attemptCount + 1 &&
                 r.availableAt <= s.now))
             && (k.attempt == e.attemptCount + 1 && r.state.RowPublished? ==> e'.state.Queued?)
    ensures Local(WriteExec(WriteRow(s, k, r), k.id, e'), k.id)
  {
    var e := s.executions.at[k.id];
    var s' := WriteExec(WriteRow(s, k, r), k.id, e');
    forall i | 0 <= i < |e'.attempts| ensures AttemptOk(e', s.now, i) {
      assert AttemptOk(e, s.now, i);
    }
    assert k == RowKey(k.id, k.attempt);
    forall n: int ensures RowKey(k.id, n) in s'.outbox.at <==> RowExpected(e', n) {
      assert RowKey(k.id, n) in s.outbox.at <==> RowExpected(e, n);
    }
    forall n: int | RowKey(k.id, n) in s'.outbox.at ensures RowOk(s'.outbox.at[RowKey(k.id, n)], s.now) {
      if RowKey(k.id, n) != k { assert RowKey(k.id, n) in s.outbox.at; }
    }
  }

  lemma SameExec(s: State, k: RowKey, r: Row)
    requires k.id in s.executions.at
    ensures WriteExec(WriteRow(s, k, r), k.id, s.executions.at[k.id]) == WriteRow(s, k, r)
  {
  }

  lemma PublishInv(s: State, k: RowKey, accepted: bool)
    requires Inv(s) && Due(s, k)
    ensures Inv(Publish(s, k, accepted))
  {
    var r := s.outbox.at[k];
    assert Local(s, k.id) && k == RowKey(k.id, k.attempt) && RowOk(r, s.now);
    if accepted {
      RowInv(s, k, r.(state := RowPublished), k.attempt == s.executions.at[k.id].attemptCount + 1);
    } else {
      var r' := Publish(s, k, accepted).outbox.at[k];
      SameExec(s, k, r');
      RowInv(s, k, r', false);
    }
  }

  /** A published row never used up its publications, so the rebuild always reopens it. */
  lemma ReopenInv(s: State, k: RowKey)
    requires Inv(s) && Republishable(s, k)
    ensures s.outbox.at[k].publishAttempts < MAX_PUBLISH
    ensures Inv(Reopen(s, k))
  {
    var r := s.outbox.at[k];
    assert Local(s, k.id) && k == RowKey(k.id, k.attempt) && RowOk(r, s.now);
    SameExec(s, k, r.(state := RowPending, error := None));
    RowInv(s, k, r.(state := RowPending, error := None), false);
  }

  // ---- batches ----

  lemma {:induction false} PublishAllInv(s: State, keys: seq<RowKey>, accepting: set<RowKey>)
    requires Inv(s) && Distinct(keys) && forall k :: k in keys ==> Due(s, k)
    ensures Inv(PublishAll(s, keys, accepting))
    decreases |keys|
  {
    if keys == [] {
    } else {
      var s' := Publish(s, keys[0], keys[0] in accepting);
      PublishInv(s, keys[0], keys[0] in accepting);
      forall k | k in keys[1..] ensures Due(s', k) {
        assert k in keys && k != keys[0];
      }
      PublishAllInv(s', keys[1..], accepting);
    }
  }

  lemma {:induction false} ReopenAllInv(s: State, keys: seq<RowKey>)
    requires Inv(s) && Distinct(keys) && forall k :: k in keys ==> Republishable(s, k)
    ensures Inv(ReopenAll(s, keys))
    decreases |keys|
  {
    if keys == [] {
    } else {
      var s' := Reopen(s, keys[0]);
      ReopenInv(s, keys[0]);
      forall k | k in keys[1..] ensures Republishable(s', k) {
        assert k in keys && k != keys[0];
      }
      ReopenAllInv(s', keys[1..]);
    }
  }

  lemma {:induction false} AbandonAllInv(s: State, ids: seq<Id>)
    requires Inv(s) && Distinct(ids) && forall id :: id in ids ==> LeaseExpired(s, id)
    ensures Inv(AbandonAll(s, ids))
    decreases |ids|
  {
    if ids == [] {
    } else {
      assert LeaseExpired(s, ids[0]);
      var s' := Abandon(s, ids[0]);
      AbandonInv(s, ids[0]);
      forall id | id in ids[1..] ensures LeaseExpired(s', id) {
        assert id in ids && id != ids[0];
      }
      AbandonAllInv(s', ids[1..]);
    }
  }

  lemma SliceDistinct<T>(s: seq<T>, limit: int)
    requires Distinct(s)
    ensures Distinct(Slice(s, limit))
    ensures forall x :: x in Slice(s, limit) ==> x in s
  {
    var r := Slice(s, limit);
    assert forall i :: 0 <= i < |r| ==> r[i] == s[i];
  }

  lemma DueBatch(s: State, limit: int)
    requires s.outbox.Valid()
    ensures Distinct(Slice(DueRows(s), limit))
    ensures forall k :: k in Slice(DueRows(s), limit) ==> Due(s, k)
  {
    FilterMembers(s.outbox.order, (k: RowKey) => Due(s, k));
    FilterDistinct(s.outbox.order, (k: RowKey) => Due(s, k));
    SliceDistinct(DueRows(s), limit);
  }

  lemma PublishedBatch(s: State, limit: int)
    requires s.outbox.Valid()
    ensures Distinct(Slice(PublishedRows(s), limit))
    ensures forall k :: k in Slice(PublishedRows(s), limit) ==> Republishable(s, k)
  {
    FilterMembers(s.outbox.order, (k: RowKey) => Republishable(s, k));
    FilterDistinct(s.outbox.order, (k: RowKey) => Republishable(s, k));
    SliceDistinct(PublishedRows(s), limit);
  }

  lemma ExpiredBatch(s: State, limit: int)
    requires s.executions.Valid()
    ensures Distinct(Slice(ExpiredLeases(s), limit))
    ensures forall id :: id in Slice(ExpiredLeases(s), limit) ==> LeaseExpired(s, id)
  {
    FilterMembers(s.executions.order, (id: Id) => LeaseExpired(s, id));
    FilterDistinct(s.executions.order, (id: Id) => LeaseExpired(s, id));
    SliceDistinct(ExpiredLeases(s), limit);
  }

  // ---- submission and schedules ----

  lemma NewLocal(s: State, identity: Identity, c: SubmitJob, newId: Id)
    requires Inv(s) && identity !in s.index && newId !in s.executions.at
    ensures Local(File(s, identity, c, newId), newId)
  {
    var s' := File(s, identity, c, newId);
    var e := NewExecution(s, identity, c.correlation, c.maxAttempts);
    forall n: int ensures RowKey(newId, n) in s'.outbox.at <==> RowExpected(e, n) {
      assert RowKey(newId, n).id !in s.executions.at;
    }
  }

  lemma FileInv(s: State, identity: Identity, c: SubmitJob, newId: Id)
    requires Inv(s)
    ensures Inv(File(s, identity, c, newId))
  {
    var s' := File(s, identity, c, newId);
    if identity !in s.index && newId !in s.executions.at {
      PutValid(s.executions, newId, NewExecution(s, identity, c.correlation, c.maxAttempts));
      PutValid(s.outbox, RowKey(newId, 1), FreshRow(s.now));
      NewLocal(s, identity, c, newId);
      forall id | id in s'.executions.at ensures Local(s', id) {
        if id != newId { LocalFrame(s, s', id); }
      }
    }
  }

  lemma ScheduleInv(s: State, id: Id, c: Schedule)
    requires Inv(s) && ValidKind(c.kind)
    ensures Inv(s.(schedules := s.schedules.Put(id, c)))
  {
    var s' := s.(schedules := s.schedules.Put(id, c));
    PutValid(s.schedules, id, c);
    forall j | j in s'.executions.at ensures Local(s', j) { LocalFrame(s, s', j); }
  }

  lemma TickInv(cfg: Config, s: State, correlation: Id, newId: Id)
    requires Inv(s)
    ensures Inv(Tick(cfg, s, correlation, newId))
  {
    match FirstDue(s, s.schedules.order)
    case None =>
    case Some(id) =>
      if id in s.schedules.at && Submittable(cfg, id, s.schedules.at[id]) && newId !in s.executions.at {
        var c := s.schedules.at[id];
        var identity := ScheduleIdentity(cfg, id, c, c.nextRunAt).value;
        FileInv(s, identity, Command(identity, correlation, c.maxAttempts), newId);
        ScheduleInv(File(s, identity, Command(identity, correlation, c.maxAttempts), newId), id, Advanced(c));
      }
  }

  // ---- every step, every run ----

  lemma RelayInv(s: State, limit: int, accepting: set<RowKey>)
    requires Inv(s)
    ensures Inv(Relay(s, limit, accepting))
  {
    DueBatch(s, limit);
    PublishAllInv(s, Slice(DueRows(s), limit), accepting);
  }

  lemma RebuildInv(s: State, limit: int)
    requires Inv(s)
    ensures Inv(Rebuild(s, limit))
  {
    PublishedBatch(s, limit);
    ReopenAllInv(s, Slice(PublishedRows(s), limit));
  }

  lemma ReapInv(s: State, limit: int)
    requires Inv(s)
    ensures Inv(Reap(s, limit))
  {
    ExpiredBatch(s, limit);
    AbandonAllInv(s, Slice(ExpiredLeases(s), limit));
  }

  lemma AdvanceInv(s: State, delta: int)
    requires Inv(s)
    ensures Inv(Advance(s, delta))
  {
    var s' := Advance(s, delta);
    forall j | j in s.executions.at ensures Local(s', j) { LocalFrame(s, s', j); }
  }

  lemma StepInv(cfg: Config, s: State, step: Step)
    requires Inv(s)
    ensures Inv(Apply(cfg, s, step))
  {
    match step
    case DoSubmit(c, newId) =>
      if Resolve(cfg, c.identity).Some? { FileInv(s, Resolve(cfg, c.identity).value, c, newId); }
    case DoClaim(id, n, w) =>
      if Claimable(s, id, n) { ClaimInv(cfg, s, id, w); }
      else if LeaseExpired(s, id) { AbandonInv(s, id); }
    case DoRecord(c, o) => RecordInv(s, c, o);
    case DoRelay(limit, accepting) => RelayInv(s, limit, accepting);
    case DoRebuild(limit) => RebuildInv(s, limit);
    case DoReap(limit) => ReapInv(s, limit);
    case DoAddSchedule(id, c) =>
      if ValidKind(c.kind) { ScheduleInv(s, id, c.(enabled := true, lastScheduledAt := None)); }
    case DoTick(correlation, newId) => TickInv(cfg, s, correlation, newId);
    case DoAdvance(delta) => AdvanceInv(s, delta);
  }

  lemma {:induction false} RunInv(cfg: Config, s: State, steps: seq<Step>)
    requires Inv(s)
    ensures Inv(Run(cfg, s, steps))
    decreases |steps|
  {
    if steps == [] {
    } else {
      StepInv(cfg, s, steps[0]);
      RunInv(cfg, Apply(cfg, s, steps[0]), steps[1..]);
    }
  }
}
