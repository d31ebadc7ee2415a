/** What one step can do to one execution, and what every run therefore keeps. */
module JobHistory {
  import opened Collections
  import opened JobModel
  import opened JobInvariant

  /** Running without a lease: left behind by a result that was refused. */
  predicate Wedged(e: Execution) { e.state.Running? && e.leaseUntil.None? }

  /** The only five things a step can do to an existing execution. */
  ghost predicate Moves(cfg: Config, s: State, step: Step, id: Id, e': Execution)
    requires id in s.executions.at
  {
    var e := s.executions.at[id];
    || e' == e
    || (step.DoRelay? && Waiting(e) && e' == e.(state := Queued))
    || (step.DoClaim? && step.id == id && Claimable(s, id, step.attempt) &&
        e' == Claimed(cfg, s, e, step.worker))
    || ((step.DoReap? || step.DoClaim?) && LeaseExpired(s, id) && e' == Abandon(s, id).executions.at[id])
    || (step.DoRecord? && step.claim.id == id && Holds(s, step.claim) &&
        e' == Record(s, step.claim, step.outcome).executions.at[id])
  }

  lemma {:induction false} AbandonAllAt(s: State, ids: seq<Id>, id: Id)
    requires Distinct(ids) && id in s.executions.at
    ensures id in AbandonAll(s, ids).executions.at
    ensures AbandonAll(s, ids).executions.at[id] ==
            if id in ids then Abandon(s, id).executions.at[id] else s.executions.at[id]
    decreases |ids|
  {
    if ids == [] {
    } else {
      var s' := if ids[0] in s.executions.at then Abandon(s, ids[0]) else s;
      assert ids[0] !in ids[1..];
      AbandonAllAt(s', ids[1..], id);
    }
  }

  /** What publishing a batch does to one execution, with no assumption about the others. */
  lemma {:induction false} BatchQueues(s: State, keys: seq<RowKey>, accepting: set<RowKey>, id: Id)
    requires id in s.executions.at && forall k :: k in keys ==> k in s.outbox.at && k.id in s.executions.at
    ensures var e := s.executions.at[id]; var next := RowKey(id, e.attemptCount + 1);
            var s' := PublishAll(s, keys, accepting);
            id in s'.executions.at && s'.now == s.now &&
            s'.executions.at[id] == if next in keys && next in accepting then e.(state := Queued) else e
    decreases |keys|
  {
    if keys == [] {
    } else {
      var s1 := Publish(s, keys[0], keys[0] in accepting);
      forall k | k in keys[1..] ensures k in s1.outbox.at && k.id in s1.executions.at {
        assert k in keys;
      }
      BatchQueues(s1, keys[1..], accepting, id);
      assert keys == [keys[0]] + keys[1..];
    }
  }

  /** Publishing due rows queues the execution, if it waits, or leaves it. */
  lemma RelayedAt(s: State, keys: seq<RowKey>, accepting: set<RowKey>, id: Id)
    requires Inv(s) && (forall k :: k in keys ==> Due(s, k)) && id in s.executions.at
    ensures id in PublishAll(s, keys, accepting).executions.at
    ensures var e, e' := s.executions.at[id], PublishAll(s, keys, accepting).executions.at[id];
            e' == e || (Waiting(e) && e' == e.(state := Queued))
  {
    forall k | k in keys ensures k in s.outbox.at && k.id in s.executions.at { assert Due(s, k); }
    BatchQueues(s, keys, accepting, id);
    var next := RowKey(id, s.executions.at[id].attemptCount + 1);
    if next in keys { RelayWritesOnlyWaiting(s, next); }
  }

  lemma {:induction false} ReopenAllAt(s: State, keys: seq<RowKey>)
    ensures ReopenAll(s, keys).executions == s.executions
    decreases |keys|
  {
    if keys == [] {
    } else {
      ReopenAllAt(Reopen(s, keys[0]), keys[1..]);
    }
  }

  lemma BatchMoves(cfg: Config, s: State, step: Step, id: Id)
    requires Inv(s) && id in s.executions.at && (step.DoRelay? || step.DoRebuild? || step.DoReap?)
    ensures id in Apply(cfg, s, step).executions.at
    ensures Moves(cfg, s, step, id, Apply(cfg, s, step).executions.at[id])
  {
    match step
    case DoRelay(limit, accepting) =>
      DueBatch(s, limit);
      RelayedAt(s, Slice(DueRows(s), limit), accepting, id);
    case DoRebuild(limit) => ReopenAllAt(s, Slice(PublishedRows(s), limit));
    case DoReap(limit) =>
      ExpiredBatch(s, limit);
      AbandonAllAt(s, Slice(ExpiredLeases(s), limit), id);
  }

  lemma AttemptMoves(cfg: Config, s: State, step: Step, id: Id)
    requires id in s.executions.at && (step.DoClaim? || step.DoRecord?)
    ensures id in Apply(cfg, s, step).executions.at
    ensures Moves(cfg, s, step, id, Apply(cfg, s, step).executions.at[id])
  {
  }

  lemma FilingLeavesOthers(cfg: Config, s: State, step: Step, id: Id)
    requires id in s.executions.at && (step.DoSubmit? || step.DoTick? || step.DoAddSchedule? || step.DoAdvance?)
    ensures id in Apply(cfg, s, step).executions.at && Apply(cfg, s, step).executions.at[id] == s.executions.at[id]
  {
  }

  lemma StepMoves(cfg: Config, s: State, step: Step, id: Id)
    requires Inv(s) && id in s.executions.at
    ensures id in Apply(cfg, s, step).executions.at
    ensures Moves(cfg, s, step, id, Apply(cfg, s, step).executions.at[id])
  {
    if step.DoRelay? || step.DoRebuild? || step.DoReap? {
      BatchMoves(cfg, s, step, id);
    } else if step.DoClaim? || step.DoRecord? {
      AttemptMoves(cfg, s, step, id);
    } else {
      FilingLeavesOthers(cfg, s, step, id);
    }
  }

  /** A new execution starts untried. */
  lemma StepCreates(cfg: Config, s: State, step: Step, id: Id)
    requires Inv(s) && id !in s.executions.at && id in Apply(cfg, s, step).executions.at
    ensures Apply(cfg, s, step).executions.at[id].attempts == []
    ensures Apply(cfg, s, step).executions.at[id].attemptCount == 0
    ensures Apply(cfg, s, step).executions.at[id].state.Pending?
  {
    match step
    case DoRelay(limit, accepting) =>
      DueBatch(s, limit);
      PublishAllKeys(s, Slice(DueRows(s), limit), accepting);
    case DoRebuild(limit) => ReopenAllAt(s, Slice(PublishedRows(s), limit));
    case DoReap(limit) => AbandonAllKeys(s, Slice(ExpiredLeases(s), limit));
    case _ =>
  }

  lemma {:induction false} PublishAllKeys(s: State, keys: seq<RowKey>, accepting: set<RowKey>)
    ensures PublishAll(s, keys, accepting).executions.at.Keys == s.executions.at.Keys
    decreases |keys|
  {
    if keys == [] {
    } else {
      PublishAllKeys(Publish(s, keys[0], keys[0] in accepting), keys[1..], accepting);
    }
  }

  lemma {:induction false} AbandonAllKeys(s: State, ids: seq<Id>)
    ensures AbandonAll(s, ids).executions.at.Keys == s.executions.at.Keys
    decreases |ids|
  {
    if ids == [] {
    } else {
      AbandonAllKeys(if ids[0] in s.executions.at then Abandon(s, ids[0]) else s, ids[1..]);
    }
  }

  // ---- what an execution keeps over time ----

  ghost predicate Carried(a: Attempt, a': Attempt) {
    && a'.ordinal == a.ordinal && a'.worker == a.worker && a'.startedAt == a.startedAt
    && (a.finishedAt.Some? ==> a' == a)
  }

  /** Identity is fixed, attempts only grow and a closed attempt is final, a terminal or wedged
      execution is final, and a waiting one keeps its due time until its next attempt starts. */
  ghost predicate Evolves(e: Execution, e': Execution) {
    && e'.identity == e.identity && e'.correlation == e.correlation
    && e'.maxAttempts == e.maxAttempts && e'.createdAt == e.createdAt
    && (Terminal(e) || Wedged(e) ==> e' == e)
    && e.attemptCount <= e'.attemptCount
    && |e.attempts| <= |e'.attempts|
    && (forall k :: 0 <= k < |e.attempts| ==> Carried(e.attempts[k], e'.attempts[k]))
    && (Waiting(e) && e'.attemptCount == e.attemptCount ==> Waiting(e') && e'.availableAt == e.availableAt)
    && (Waiting(e) && e'.attemptCount > e.attemptCount ==>
          |e'.attempts| > |e.attempts| && e.availableAt <= e'.attempts[|e.attempts|].startedAt)
  }

  lemma EndEvolves(s: State, id: Id, e': Execution, st: AttemptState, err: Option<string>)
    requires Local(s, id) && s.executions.at[id].state.Running? && s.executions.at[id].leaseUntil.Some?
    requires e' == s.executions.at[id].(
                     state := e'.state, result := e'.result, error := e'.error, finishedAt := e'.finishedAt,
                     availableAt := e'.availableAt, leaseOwner := None, leaseUntil := None,
                     attempts := CloseLast(s.executions.at[id], s.now, st, err))
    ensures Evolves(s.executions.at[id], e')
  {
    var e := s.executions.at[id];
    forall k | 0 <= k < |e.attempts| ensures Carried(e.attempts[k], e'.attempts[k]) {
      assert AttemptOk(e, s.now, k);
    }
  }

  /** Ending the open attempt, whatever ends it. */
  lemma EndShape(s: State, id: Id, e': Execution) returns (st: AttemptState, err: Option<string>)
    requires Local(s, id)
    requires
      || (LeaseExpired(s, id) && e' == Abandon(s, id).executions.at[id])
      || exists c: JobClaim, o: Outcome ::
           c.id == id && Holds(s, c) && e' == Record(s, c, o).executions.at[id]
    ensures s.executions.at[id].state.Running? && s.executions.at[id].leaseUntil.Some?
    ensures e' == s.executions.at[id].(
                     state := e'.state, result := e'.result, error := e'.error, finishedAt := e'.finishedAt,
                     availableAt := e'.availableAt, leaseOwner := None, leaseUntil := None,
                     attempts := CloseLast(s.executions.at[id], s.now, st, err))
    ensures st.InProgress? <==> e'.state.Running?
  {
    if LeaseExpired(s, id) && e' == Abandon(s, id).executions.at[id] {
      st, err := Abandoned, Some("job.lease_expired");
    } else {
      var c: JobClaim, o: Outcome :| c.id == id && Holds(s, c) && e' == Record(s, c, o).executions.at[id];
      match o
      case Returned(_) => st, err := Done, None;
      case Rejected => st, err := InProgress, None;
      case Transient(code, _) => st, err := TransientFailure, Some(code);
      case Permanent(code) => st, err := PermanentFailure, Some(code);
      case Unclassified => st, err := PermanentFailure, Some("job.unclassified_failure");
    }
  }

  lemma MoveEvolves(cfg: Config, s: State, step: Step, id: Id, e': Execution)
    requires Local(s, id) && Moves(cfg, s, step, id, e')
    ensures Evolves(s.executions.at[id], e')
  {
    var e := s.executions.at[id];
    if step.DoRecord? && e' != e {
      assert Holds(s, step.claim) && e' == Record(s, step.claim, step.outcome).executions.at[id];
      var st, err := EndShape(s, id, e');
      EndEvolves(s, id, e', st, err);
    } else if LeaseExpired(s, id) && e' != e {
      var st, err := EndShape(s, id, e');
      EndEvolves(s, id, e', st, err);
    }
  }

  lemma EvolvesTransitive(e0: Execution, e1: Execution, e2: Execution, now: int)
    requires Evolves(e0, e1) && Evolves(e1, e2) && |e0.attempts| == e0.attemptCount && |e1.attempts| == e1.attemptCount
    ensures Evolves(e0, e2)
  {
    forall k | 0 <= k < |e0.attempts| ensures Carried(e0.attempts[k], e2.attempts[k]) {
      assert Carried(e0.attempts[k], e1.attempts[k]) && Carried(e1.attempts[k], e2.attempts[k]);
    }
    if Waiting(e0) && e1.attemptCount > e0.attemptCount {
      assert Carried(e1.attempts[|e0.attempts|], e2.attempts[|e0.attempts|]);
    }
  }

  /** Every run of every mix of callers only evolves every execution. */
  lemma {:induction false} RunEvolves(cfg: Config, s: State, steps: seq<Step>, id: Id)
    requires Inv(s) && id in s.executions.at
    ensures id in Run(cfg, s, steps).executions.at
    ensures Evolves(s.executions.at[id], Run(cfg, s, steps).executions.at[id])
    decreases |steps|
  {
    assert Local(s, id);
    if steps == [] {
    } else {
      var s' := Apply(cfg, s, steps[0]);
      StepInv(cfg, s, steps[0]);
      StepMoves(cfg, s, steps[0], id);
      MoveEvolves(cfg, s, steps[0], id, s'.executions.at[id]);
      RunEvolves(cfg, s', steps[1..], id);
      assert Local(s', id);
      EvolvesTransitive(s.executions.at[id], s'.executions.at[id], Run(cfg, s', steps[1..]).executions.at[id], s.now);
    }
  }

  /** Once succeeded or failed, nothing about an execution ever changes again. */
  lemma TerminalIsFinal(cfg: Config, s: State, steps: seq<Step>, id: Id)
    requires Inv(s) && id in s.executions.at && Terminal(s.executions.at[id])
    ensures id in Run(cfg, s, steps).executions.at
    ensures Run(cfg, s, steps).executions.at[id] == s.executions.at[id]
  {
    RunEvolves(cfg, s, steps, id);
  }

  /** In any later state the next attempt has not started before the due time fixed while waiting,
      even when the relay moved the execution from RETRY_WAIT to QUEUED in between. */
  lemma RetryNeverStartsEarly(cfg: Config, s: State, steps: seq<Step>, id: Id)
    requires Inv(s) && id in s.executions.at && Waiting(s.executions.at[id])
    ensures id in Run(cfg, s, steps).executions.at
    ensures var e, e' := s.executions.at[id], Run(cfg, s, steps).executions.at[id];
            |e'.attempts| > |e.attempts| ==> e.availableAt <= e'.attempts[|e.attempts|].startedAt
  {
    RunEvolves(cfg, s, steps, id);
    RunInv(cfg, s, steps);
    assert Local(s, id) && Local(Run(cfg, s, steps), id);
  }

  /** When the holder of attempt k reports a transient failure, attempt k ends now, and along every later run attempt
      k + 1 starts no earlier than that plus the backoff of attempt k. */
  lemma NextAttemptWaitsForItsBackoff(cfg: Config, s: State, c: JobClaim, o: Outcome, steps: seq<Step>)
    requires Inv(s) && Holds(s, c) && o.Transient?
    ensures var s' := Run(cfg, Record(s, c, o), steps);
            && c.id in s'.executions.at && 1 <= c.attempt <= |s'.executions.at[c.id].attempts|
            && var attempts := s'.executions.at[c.id].attempts;
               && attempts[c.attempt - 1].finishedAt == Some(s.now)
               && (|attempts| > c.attempt ==>
                     s.now + RetryDelay(c.attempt, o.retryAfter) * 1_000_000 <= attempts[c.attempt].startedAt)
  {
    var e := s.executions.at[c.id];
    var s1 := Record(s, c, o);
    assert Local(s, c.id);
    RecordInv(s, c, o);
    RunEvolves(cfg, s1, steps, c.id);
    var e1 := s1.executions.at[c.id];
    BackoffWrittenOut(c.attempt, o.retryAfter);
    assert |e1.attempts| == c.attempt && e1.attempts[c.attempt - 1].finishedAt == Some(s.now);
    if e.attemptCount < e.maxAttempts {
      assert Waiting(e1) && e1.availableAt == s.now + Seconds(Backoff(c.attempt, o.retryAfter));
      RetryNeverStartsEarly(cfg, s1, steps, c.id);
    } else {
      TerminalIsFinal(cfg, s1, steps, c.id);
    }
  }

  // ---- claims ----

  predicate Grants(s: State, step: Step, id: Id) {
    step.DoClaim? && step.id == id && Claimable(s, id, step.attempt)
  }

  /** The attempt numbers granted for one execution along a run, in order. */
  function ClaimLog(cfg: Config, s: State, steps: seq<Step>, id: Id): seq<int>
    decreases |steps|
  {
    if steps == [] then []
    else (if Grants(s, steps[0], id) then [steps[0].attempt] else [])
         + ClaimLog(cfg, Apply(cfg, s, steps[0]), steps[1..], id)
  }

  function Count(s: State, id: Id): int {
    if id in s.executions.at then s.executions.at[id].attemptCount else 0
  }

  lemma StepCount(cfg: Config, s: State, step: Step, id: Id)
    requires Inv(s)
    ensures Count(Apply(cfg, s, step), id) == Count(s, id) + if Grants(s, step, id) then 1 else 0
    ensures Grants(s, step, id) ==> step.attempt == Count(s, id) + 1
  {
    if id in s.executions.at {
      StepMoves(cfg, s, step, id);
      assert Local(s, id);
      var e' := Apply(cfg, s, step).executions.at[id];
      if e' != s.executions.at[id] && (step.DoRecord? || step.DoReap? || (step.DoClaim? && !Grants(s, step, id))) {
        var _, _ := EndShape(s, id, e');
      }
    } else if id in Apply(cfg, s, step).executions.at {
      StepCreates(cfg, s, step, id);
    }
  }

  predicate Consecutive(log: seq<int>, last: int) {
    forall i :: 0 <= i < |log| ==> log[i] == last + 1 + i
  }

  lemma ConsecutiveJoin(head: seq<int>, rest: seq<int>, last: int)
    requires (head == [] && Consecutive(rest, last)) || (head == [last + 1] && Consecutive(rest, last + 1))
    ensures Consecutive(head + rest, last)
  {
  }

  lemma {:induction false} ClaimsFollow(cfg: Config, s: State, steps: seq<Step>, id: Id)
    requires Inv(s)
    ensures |ClaimLog(cfg, s, steps, id)| == Count(Run(cfg, s, steps), id) - Count(s, id)
    ensures Consecutive(ClaimLog(cfg, s, steps, id), Count(s, id))
    decreases |steps|
  {
    if steps == [] {
    } else {
      var s1 := Apply(cfg, s, steps[0]);
      StepInv(cfg, s, steps[0]);
      StepCount(cfg, s, steps[0], id);
      ClaimsFollow(cfg, s1, steps[1..], id);
      ConsecutiveJoin(if Grants(s, steps[0], id) then [steps[0].attempt] else [],
                      ClaimLog(cfg, s1, steps[1..], id), Count(s, id));
    }
  }

  /** Claims are granted as attempt 1, 2, 3, … with no repeat and no gap, at most maxAttempts of
      them, whatever messages are delivered, in whatever order and to however many workers. */
  lemma ClaimsAreConsecutive(cfg: Config, s: State, steps: seq<Step>, id: Id)
    requires Inv(s)
    ensures var log := ClaimLog(cfg, s, steps, id);
            && |log| == Count(Run(cfg, s, steps), id) - Count(s, id)
            && (forall i :: 0 <= i < |log| ==> log[i] == Count(s, id) + 1 + i)
    ensures id in Run(cfg, s, steps).executions.at ==>
              Count(s, id) + |ClaimLog(cfg, s, steps, id)| <= Run(cfg, s, steps).executions.at[id].maxAttempts
  {
    ClaimsFollow(cfg, s, steps, id);
    RunInv(cfg, s, steps);
    if id in Run(cfg, s, steps).executions.at { assert Local(Run(cfg, s, steps), id); }
  }

  // ---- how an attempt ends ----

  predicate Open(s: State, id: Id, n: int) {
    id in s.executions.at && 1 <= n <= |s.executions.at[id].attempts| &&
    s.executions.at[id].attempts[n - 1].finishedAt.None?
  }

  predicate Closed(s: State, id: Id, n: int) {
    id in s.executions.at && 1 <= n <= |s.executions.at[id].attempts| &&
    s.executions.at[id].attempts[n - 1].finishedAt.Some?
  }

  predicate EndsByOutcome(s: State, step: Step, id: Id, n: int) {
    step.DoRecord? && step.claim.id == id && step.claim.attempt == n && Holds(s, step.claim)
  }

  predicate EndsByAbandonment(s: State, s': State, step: Step, id: Id, n: int) {
    (step.DoReap? || step.DoClaim?) && LeaseExpired(s, id) && Closed(s', id, n) &&
    s'.executions.at[id].attempts[n - 1].state.Abandoned?
  }

  /** An open attempt is closed by the outcome of the claim that holds it or by abandonment after
      its lease expired, never by both, and never while the lease runs under another claim. */
  lemma AttemptEndsOneWay(cfg: Config, s: State, step: Step, id: Id, n: int)
    requires Inv(s) && Open(s, id, n)
    ensures var s' := Apply(cfg, s, step);
            && (Open(s', id, n) || Closed(s', id, n))
            && (Closed(s', id, n) <==> EndsByOutcome(s, step, id, n) || EndsByAbandonment(s, s', step, id, n))
            && !(EndsByOutcome(s, step, id, n) && EndsByAbandonment(s, s', step, id, n))
  {
    var e := s.executions.at[id];
    assert Local(s, id) && AttemptOk(e, s.now, n - 1);
    StepMoves(cfg, s, step, id);
    var e' := Apply(cfg, s, step).executions.at[id];
    if e' != e && (step.DoRecord? || step.DoReap? || step.DoClaim?) {
      assert !Claimable(s, id, if step.DoClaim? then step.attempt else 0);
      var _, _ := EndShape(s, id, e');
    }
  }

  /** How many steps of a run close one attempt. */
  function EndCount(cfg: Config, s: State, steps: seq<Step>, id: Id, n: int): int
    decreases |steps|
  {
    if steps == [] then 0
    else
      var s' := Apply(cfg, s, steps[0]);
      (if Open(s, id, n) && Closed(s', id, n) then 1 else 0) + EndCount(cfg, s', steps[1..], id, n)
  }

  lemma ClosedForever(cfg: Config, s: State, steps: seq<Step>, id: Id, n: int)
    requires Inv(s) && Closed(s, id, n)
    ensures Closed(Run(cfg, s, steps), id, n)
  {
    RunEvolves(cfg, s, steps, id);
    assert Carried(s.executions.at[id].attempts[n - 1], Run(cfg, s, steps).executions.at[id].attempts[n - 1]);
  }

  lemma StepClosed(cfg: Config, s: State, step: Step, id: Id, n: int)
    requires Inv(s)
    ensures Closed(s, id, n) ==> Closed(Apply(cfg, s, step), id, n)
    ensures !Open(s, id, n) && !Closed(s, id, n) ==> !Closed(Apply(cfg, s, step), id, n)
  {
    if Closed(s, id, n) {
      assert Run(cfg, Apply(cfg, s, step), [step][1..]) == Apply(cfg, s, step);
      ClosedForever(cfg, s, [step], id, n);
    } else if !Open(s, id, n) {
      AttemptStartsOpen(cfg, s, step, id, n);
    }
  }

  /** Over a whole run an attempt is closed exactly once, or not at all if it is still open. */
  lemma {:induction false} AttemptEndsOnce(cfg: Config, s: State, steps: seq<Step>, id: Id, n: int)
    requires Inv(s)
    ensures EndCount(cfg, s, steps, id, n) ==
            if !Closed(s, id, n) && Closed(Run(cfg, s, steps), id, n) then 1 else 0
    decreases |steps|
  {
    if steps == [] {
    } else {
      var s' := Apply(cfg, s, steps[0]);
      StepInv(cfg, s, steps[0]);
      StepClosed(cfg, s, steps[0], id, n);
      AttemptEndsOnce(cfg, s', steps[1..], id, n);
      if Closed(s', id, n) { ClosedForever(cfg, s', steps[1..], id, n); }
    }
  }

  lemma AttemptStartsOpen(cfg: Config, s: State, step: Step, id: Id, n: int)
    requires Inv(s) && !Open(s, id, n) && !Closed(s, id, n)
    ensures !Closed(Apply(cfg, s, step), id, n)
  {
    if id in s.executions.at {
      StepMoves(cfg, s, step, id);
      assert Local(s, id);
      var e' := Apply(cfg, s, step).executions.at[id];
      if e' != s.executions.at[id] && !Grants(s, step, id) && !step.DoRelay? {
        var _, _ := EndShape(s, id, e');
      }
    } else if id in Apply(cfg, s, step).executions.at {
      StepCreates(cfg, s, step, id);
    }
  }
}
