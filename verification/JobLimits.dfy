/** The constraints the database declares, and the two operations that step outside the protocol. */
module JobLimits {
  import opened Collections
  import opened JobModel
  import opened JobInvariant
  import opened JobHistory

  // ---- the schema ----

  /** The CHECK and UNIQUE constraints on the execution, attempt and outbox tables. */
  ghost predicate SchemaOk(s: State) {
    && (forall i, j :: i in s.executions.at && j in s.executions.at && i != j ==>
          s.executions.at[i].identity != s.executions.at[j].identity)
    && (forall i :: i in s.executions.at ==> ExecutionRowOk(s.executions.at[i]))
    && (forall k :: k in s.outbox.at ==>
          k.id in s.executions.at && k.attempt >= 1 && 0 <= s.outbox.at[k].publishAttempts <= 100)
  }

  ghost predicate ExecutionRowOk(e: Execution) {
    && 0 <= e.attemptCount <= e.maxAttempts
    && 1 <= e.maxAttempts <= 10
    && (Terminal(e) <==> e.finishedAt.Some?)
    && ((e.state.Running? && e.leaseOwner.Some? && e.leaseUntil.Some?)
        || (!e.state.Running? || (e.leaseOwner.None? && e.leaseUntil.None?)))
    && (forall k :: 0 <= k < |e.attempts| ==> e.attempts[k].ordinal >= 1)
    && (forall j, k :: 0 <= j < k < |e.attempts| ==> e.attempts[j].ordinal != e.attempts[k].ordinal)
  }

  lemma InvSchema(s: State)
    requires Inv(s)
    ensures SchemaOk(s)
  {
    forall i | i in s.executions.at ensures ExecutionRowOk(s.executions.at[i]) {
      assert Local(s, i);
      var e := s.executions.at[i];
      forall k | 0 <= k < |e.attempts| ensures e.attempts[k].ordinal == k + 1 { assert AttemptOk(e, s.now, k); }
    }
    forall k | k in s.outbox.at
      ensures k.id in s.executions.at && k.attempt >= 1 && 0 <= s.outbox.at[k].publishAttempts <= 100
    {
      assert Local(s, k.id) && k == RowKey(k.id, k.attempt);
      assert RowExpected(s.executions.at[k.id], k.attempt);
    }
  }

  lemma InitialInv(now: int)
    ensures Inv(Initial(now))
  {
  }

  /** Every state any run can reach satisfies the declared constraints; the identity index is the
      exact inverse of the executions; and the rebuild never meets an exhausted published row. */
  lemma ReachableStates(cfg: Config, now: int, steps: seq<Step>)
    ensures var s := Run(cfg, Initial(now), steps);
            && SchemaOk(s)
            && IndexOk(s)
            && (forall k :: Republishable(s, k) ==> s.outbox.at[k].publishAttempts < MAX_PUBLISH)
            && (forall id, n: int :: id in s.executions.at ==>
                  (RowKey(id, n) in s.outbox.at <==> RowExpected(s.executions.at[id], n)))
  {
    InitialInv(now);
    RunInv(cfg, Initial(now), steps);
    var s := Run(cfg, Initial(now), steps);
    InvSchema(s);
    forall k | Republishable(s, k) ensures s.outbox.at[k].publishAttempts < MAX_PUBLISH { ReopenInv(s, k); }
    forall id, n: int | id in s.executions.at
      ensures RowKey(id, n) in s.outbox.at <==> RowExpected(s.executions.at[id], n)
    {
      assert Local(s, id);
    }
  }

  lemma {:induction false} FinishedBefore(e: Execution, now: int, j: nat, k: nat)
    requires ExecOk(e, now) && j < k < |e.attempts|
    ensures e.attempts[j].finishedAt.Some? && e.attempts[j].finishedAt.value <= e.attempts[k].startedAt
    decreases k - j
  {
    assert AttemptOk(e, now, j);
    if j + 1 < k {
      FinishedBefore(e, now, j + 1, k);
      assert AttemptOk(e, now, j + 1);
    }
  }

  /** In every reachable state attempts of one execution never overlap, and only the last can be running. */
  lemma AttemptsNeverOverlap(cfg: Config, now: int, steps: seq<Step>, id: Id, j: nat, k: nat)
    requires id in Run(cfg, Initial(now), steps).executions.at
    requires j < k < |Run(cfg, Initial(now), steps).executions.at[id].attempts|
    ensures var e := Run(cfg, Initial(now), steps).executions.at[id];
            && e.attempts[j].finishedAt.Some? && e.attempts[j].finishedAt.value <= e.attempts[k].startedAt
            && !e.attempts[j].state.InProgress?
            && (e.attempts[k].state.InProgress? <==> k == |e.attempts| - 1 && e.state.Running?)
  {
    InitialInv(now);
    RunInv(cfg, Initial(now), steps);
    var s := Run(cfg, Initial(now), steps);
    assert Local(s, id);
    FinishedBefore(s.executions.at[id], s.now, j, k);
    assert AttemptOk(s.executions.at[id], s.now, j) && AttemptOk(s.executions.at[id], s.now, k);
  }

  /** In every reachable state there is a result exactly when the execution succeeded, and a retry waits at most 300
      seconds. */
  lemma ResultIffSucceeded(cfg: Config, now: int, steps: seq<Step>, id: Id)
    requires id in Run(cfg, Initial(now), steps).executions.at
    ensures var e := Run(cfg, Initial(now), steps).executions.at[id];
            && (e.result.Some? <==> e.state.Succeeded?)
            && (Waiting(e) && e.attempts != [] ==>
                  var f := e.attempts[|e.attempts| - 1].finishedAt;
                  f.Some? && f.value <= e.availableAt <= f.value + Seconds(300))
  {
    InitialInv(now);
    RunInv(cfg, Initial(now), steps);
    assert Local(Run(cfg, Initial(now), steps), id);
  }

  // ---- a refused result ----

  /** An execution becomes wedged exactly when the holder of its lease returns a refused value. */
  lemma WedgesExactly(cfg: Config, s: State, step: Step, id: Id)
    requires Inv(s) && id in s.executions.at && !Wedged(s.executions.at[id])
    ensures id in Apply(cfg, s, step).executions.at
    ensures Wedged(Apply(cfg, s, step).executions.at[id]) <==>
              step.DoRecord? && step.claim.id == id && step.outcome.Rejected? && Holds(s, step.claim)
  {
    StepMoves(cfg, s, step, id);
    assert Local(s, id);
    var e' := Apply(cfg, s, step).executions.at[id];
    if e' != s.executions.at[id] && (step.DoReap? || (step.DoClaim? && !Grants(s, step, id))) {
      var _, _ := EndShape(s, id, e');
    }
  }

  /** A wedged execution is out of reach of every step of every run. */
  lemma WedgedForever(cfg: Config, s: State, steps: seq<Step>, id: Id)
    requires Inv(s) && id in s.executions.at && Wedged(s.executions.at[id])
    ensures id in Run(cfg, s, steps).executions.at
    ensures Run(cfg, s, steps).executions.at[id] == s.executions.at[id]
  {
    RunEvolves(cfg, s, steps, id);
  }

  /** One submission, its first attempt, and a value that is refused: the execution is wedged. */
  function WedgingRun(cfg: Config): seq<Step> {
    [DoSubmit(Command(Identity("a", "b", TextKey("c")), 0, 1), 7), DoClaim(7, 1, "w"),
     DoRecord(JobClaim(7, 1, "w"), Rejected)]
  }

  lemma RefusedResultWedges(cfg: Config)
    requires cfg.registry.None? && cfg.leaseSeconds > 0
    ensures 7 in Run(cfg, Initial(0), WedgingRun(cfg)).executions.at
    ensures Wedged(Run(cfg, Initial(0), WedgingRun(cfg)).executions.at[7])
  {
    var steps := WedgingRun(cfg);
    var submitted := Apply(cfg, Initial(0), steps[0]);
    var claimed := Apply(cfg, submitted, steps[1]);
    var recorded := Apply(cfg, claimed, steps[2]);
    assert Claimable(submitted, 7, 1) && Holds(claimed, JobClaim(7, 1, "w"));
    assert Run(cfg, Initial(0), steps) == Run(cfg, submitted, steps[1..]);
    assert Run(cfg, submitted, steps[1..]) == Run(cfg, claimed, steps[1..][1..]);
    assert Run(cfg, claimed, steps[1..][1..]) == Run(cfg, recorded, []);
  }

  // ---- complete, which is not part of the runtime port ----

  function Complete(s: State, id: Id, value: string): State
    requires id in s.executions.at
  {
    WriteExec(s, id, s.executions.at[id].(
      result := Some(value), state := Succeeded, finishedAt := Some(s.now),
      leaseOwner := None, leaseUntil := None))
  }

  /** `complete` keeps the protocol's invariant exactly on executions that already ended. */
  lemma CompleteKeepsInvIff(s: State, id: Id, value: string)
    requires Inv(s) && id in s.executions.at
    ensures Inv(Complete(s, id, value)) <==> Terminal(s.executions.at[id])
  {
    var e := s.executions.at[id];
    var s' := Complete(s, id, value);
    var e' := s'.executions.at[id];
    assert Local(s, id);
    if Terminal(e) {
      WriteExecTouch(s, id, e');
      forall k | 0 <= k < |e'.attempts| ensures AttemptOk(e', s.now, k) { assert AttemptOk(e, s.now, k); }
      forall n: int ensures RowKey(id, n) in s'.outbox.at <==> RowExpected(e', n) {
        assert RowKey(id, n) in s.outbox.at <==> RowExpected(e, n);
      }
      TouchInv(s, s', id);
    } else if Waiting(e) {
      assert RowExpected(e, e.attemptCount + 1) && !RowExpected(e', e.attemptCount + 1);
      assert RowKey(id, e.attemptCount + 1) in s'.outbox.at;
      assert !Local(s', id);
    } else {
      assert AttemptOk(e, s.now, |e.attempts| - 1) && !AttemptOk(e', s.now, |e.attempts| - 1);
      assert !Local(s', id);
    }
  }

  /** Completing changes neither which rows are due nor what they belong to. */
  lemma CompleteLeavesDue(s: State, id: Id, value: string, limit: int)
    requires Inv(s) && id in s.executions.at
    ensures var completed := Complete(s, id, value);
            && DueRows(completed) == DueRows(s) && completed.now == s.now
            && forall k :: k in Slice(DueRows(s), limit) ==> k in completed.outbox.at && k.id in completed.executions.at
  {
    var completed := Complete(s, id, value);
    FilterAgree(s.outbox.order, (k: RowKey) => Due(s, k), (k: RowKey) => Due(completed, k));
    DueBatch(s, limit);
    assert completed.executions.at.Keys == s.executions.at.Keys;
    forall k | k in Slice(DueRows(s), limit) ensures k in s.outbox.at && k.id in completed.executions.at {
      assert Due(s, k) && k.id in s.executions.at.Keys;
    }
  }

  /** What a relay makes of one execution. */
  lemma RelayReaches(s: State, due: seq<RowKey>, limit: int, accepting: set<RowKey>, id: Id)
    requires id in s.executions.at && due == DueRows(s) && 1 <= limit <= 1000
    requires forall k :: k in Slice(due, limit) ==> k in s.outbox.at && k.id in s.executions.at
    ensures var e, s' := s.executions.at[id], Relay(s, limit, accepting);
            var next := RowKey(id, e.attemptCount + 1);
            && id in s'.executions.at && s'.now == s.now
            && s'.executions.at[id] == if next in Slice(due, limit) && next in accepting then e.(state := Queued) else e
  {
    BatchQueues(s, Slice(due, limit), accepting, id);
  }

  /** A completed execution, once a relay has been over it. */
  predicate Undone(s: State, id: Id, value: string, n: int, reached: bool) {
    && id in s.executions.at && s.executions.at[id].result == Some(value)
    && (if reached then s.executions.at[id].state.Queued? && Claimable(s, id, n)
        else s.executions.at[id].state.Succeeded?)
  }

  lemma RelayUndoes(s: State, id: Id, value: string, due: seq<RowKey>, limit: int, accepting: set<RowKey>)
    requires id in s.executions.at && s.executions.at[id].availableAt <= s.now && 1 <= limit <= 1000
    requires var completed := Complete(s, id, value);
             && due == DueRows(completed) && completed.now == s.now
             && forall k :: k in Slice(due, limit) ==> k in completed.outbox.at && k.id in completed.executions.at
    ensures var next := RowKey(id, s.executions.at[id].attemptCount + 1);
            Undone(Relay(Complete(s, id, value), limit, accepting), id, value, next.attempt,
                   next in Slice(due, limit) && next in accepting)
  {
    RelayReaches(Complete(s, id, value), due, limit, accepting, id);
  }

  /** After `complete` on a waiting execution, a relay that reaches its next row and has it accepted puts QUEUED over
      SUCCEEDED, and the execution can be claimed again; a relay that does not leaves it SUCCEEDED. */
  lemma CompleteIsUndoneByRelay(s: State, id: Id, value: string, limit: int, accepting: set<RowKey>)
    requires Inv(s) && id in s.executions.at && Waiting(s.executions.at[id])
    requires s.executions.at[id].availableAt <= s.now && 1 <= limit <= 1000
    ensures var next := RowKey(id, s.executions.at[id].attemptCount + 1);
            var completed := Complete(s, id, value);
            Undone(Relay(completed, limit, accepting), id, value, next.attempt,
                   next in Slice(DueRows(completed), limit) && next in accepting)
    ensures DueRows(Complete(s, id, value)) == DueRows(s)
  {
    CompleteLeavesDue(s, id, value, limit);
    RelayUndoes(s, id, value, DueRows(s), limit, accepting);
  }
}
