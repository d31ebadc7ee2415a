/** Nothing that still has to run is lost: reap, rebuild and relay bring it back to the queue. */
module JobRecovery {
  import opened Collections
  import opened JobModel
  import opened JobInvariant
  import opened JobHistory
  import opened JobEffects

  /** The row of the next attempt. */
  function NextRow(s: State, id: Id): RowKey
    requires id in s.executions.at
  {
    RowKey(id, s.executions.at[id].attemptCount + 1)
  }

  /** Every execution that is neither finished nor wedged is leased, or has a row for its next
      attempt that is pending, published, or failed after exactly 100 refusals. */
  lemma NothingIsForgotten(s: State, id: Id)
    requires Inv(s) && id in s.executions.at
    requires !Terminal(s.executions.at[id]) && !Wedged(s.executions.at[id])
    ensures var e := s.executions.at[id];
            || (e.state.Running? && e.leaseUntil.Some? && NextRow(s, id) !in s.outbox.at)
            || (Waiting(e) && NextRow(s, id) in s.outbox.at &&
                var r := s.outbox.at[NextRow(s, id)];
                (r.state.RowFailed? && r.publishAttempts == 100) ||
                (!r.state.RowFailed? && r.publishAttempts < 100 && (r.state.RowPublished? ==> e.state.Queued?)))
  {
    var e := s.executions.at[id];
    assert Local(s, id);
    var n := e.attemptCount + 1;
    assert RowKey(id, n) in s.outbox.at <==> RowExpected(e, n);
    if RowKey(id, n) in s.outbox.at { assert RowOk(s.outbox.at[RowKey(id, n)], s.now); }
  }

  // ---- relaying to a queue that accepts ----

  ghost predicate Linked(s: State) {
    s.outbox.Valid() && forall k :: k in s.outbox.at ==> k.id in s.executions.at
  }

  function All(s: State): set<RowKey> { s.outbox.at.Keys }

  function Rounds(s: State, n: nat, limit: int): State
    decreases n
  {
    if n == 0 then s else Rounds(Relay(s, limit, All(s)), n - 1, limit)
  }

  /** The messages those rounds put on the queue, in order. */
  function Sent(s: State, n: nat, limit: int): seq<RowKey>
    requires 1 <= limit <= 1000
    decreases n
  {
    if n == 0 then [] else Slice(DueRows(s), limit) + Sent(Relay(s, limit, All(s)), n - 1, limit)
  }

  lemma {:induction false} FilterDropsFirst(order: seq<RowKey>, p: RowKey -> bool, q: RowKey -> bool)
    requires Distinct(order) && Filter(order, p) != []
    requires forall k :: k in order ==> q(k) == (p(k) && k != Filter(order, p)[0])
    ensures Filter(order, q) == Filter(order, p)[1..]
  {
    if p(order[0]) {
      assert Filter(order, p)[0] == order[0];
      assert order[0] !in order[1..];
      FilterAgree(order[1..], p, q);
    } else {
      assert Filter(order, p) == Filter(order[1..], p);
      FilterDropsFirst(order[1..], p, q);
    }
  }

  lemma PublishDropsFirst(s: State)
    requires Linked(s) && DueRows(s) != []
    ensures DueRows(Publish(s, DueRows(s)[0], true)) == DueRows(s)[1..]
  {
    var k := DueRows(s)[0];
    FilterMembers(s.outbox.order, (j: RowKey) => Due(s, j));
    assert k in DueRows(s);
    var s' := Publish(s, k, true);
    assert forall j :: j in s.outbox.order ==> Due(s', j) == (Due(s, j) && j != k);
    FilterDropsFirst(s.outbox.order, (j: RowKey) => Due(s, j), (j: RowKey) => Due(s', j));
  }

  lemma PublishFirst(s: State) returns (k: RowKey)
    requires Linked(s) && DueRows(s) != []
    ensures k == DueRows(s)[0] && k in s.outbox.at
    ensures Linked(Publish(s, k, true))
    ensures DueRows(Publish(s, k, true)) == DueRows(s)[1..]
    ensures Publish(s, k, true).outbox.at.Keys == s.outbox.at.Keys
  {
    k := DueRows(s)[0];
    FilterMembers(s.outbox.order, (j: RowKey) => Due(s, j));
    assert k in DueRows(s) && Due(s, k);
    PublishDropsFirst(s);
    PutValid(s.outbox, k, s.outbox.at[k].(state := RowPublished));
  }

  /** Publishing some of the due rows, from the front, leaves exactly the others due. */
  lemma {:induction false} BatchDue(s: State, due: seq<RowKey>, m: int, accepting: set<RowKey>)
    requires Linked(s) && due == DueRows(s) && 0 <= m <= |due| && s.outbox.at.Keys <= accepting
    ensures Linked(PublishAll(s, due[..m], accepting))
    ensures DueRows(PublishAll(s, due[..m], accepting)) == due[m..]
    decreases m
  {
    if m == 0 {
    } else {
      var k := PublishFirst(s);
      assert due[1..][..m - 1] == due[..m][1..];
      BatchDue(Publish(s, k, true), due[1..], m - 1, accepting);
    }
  }

  /** Sending `sent` queues the execution when its next attempt is among them, and otherwise
      leaves it and its next row as they were. */
  ghost predicate Relayed(s: State, s': State, sent: seq<RowKey>, id: Id) {
    && s'.now == s.now && s'.outbox.at.Keys == s.outbox.at.Keys
    && s'.executions.at.Keys == s.executions.at.Keys
    && id in s.executions.at
    && s'.executions.at[id].attemptCount == s.executions.at[id].attemptCount
    && s'.executions.at[id].availableAt == s.executions.at[id].availableAt
    && (s.executions.at[id].state.Queued? ==> s'.executions.at[id].state.Queued?)
    && (NextRow(s, id) in sent ==> s'.executions.at[id].state.Queued?)
    && (NextRow(s, id) !in sent ==> s'.executions.at[id] == s.executions.at[id])
    && (NextRow(s, id) !in sent && NextRow(s, id) in s.outbox.at ==>
          s'.outbox.at[NextRow(s, id)] == s.outbox.at[NextRow(s, id)])
  }

  lemma RelayedCompose(s: State, s1: State, s2: State, a: seq<RowKey>, b: seq<RowKey>, id: Id)
    requires Relayed(s, s1, a, id) && Relayed(s1, s2, b, id)
    ensures Relayed(s, s2, a + b, id)
  {
    assert NextRow(s1, id) == NextRow(s, id);
  }

  lemma {:induction false} PublishAllRelayed(s: State, keys: seq<RowKey>, accepting: set<RowKey>, id: Id)
    requires s.outbox.at.Keys <= accepting && id in s.executions.at
    requires forall k :: k in keys ==> k in s.outbox.at && k.id in s.executions.at
    ensures Relayed(s, PublishAll(s, keys, accepting), keys, id)
    decreases |keys|
  {
    if keys == [] {
    } else {
      var s1 := Publish(s, keys[0], true);
      assert keys[0] in keys && keys == [keys[0]] + keys[1..];
      assert Relayed(s, s1, [keys[0]], id);
      assert s1.executions.at.Keys == s.executions.at.Keys;
      PublishAllRelayed(s1, keys[1..], accepting, id);
      RelayedCompose(s, s1, PublishAll(s, keys, accepting), [keys[0]], keys[1..], id);
    }
  }

  /** One relay sends the first due rows, and the others stay due. */
  lemma RelayBatch(s: State, due: seq<RowKey>, limit: int) returns (m: nat)
    requires Linked(s) && due == DueRows(s) && 1 <= limit <= 1000
    ensures m <= |due| && Slice(due, limit) == due[..m] && (m == limit || m == |due|)
    ensures Linked(Relay(s, limit, All(s))) && DueRows(Relay(s, limit, All(s))) == due[m..]
  {
    m := |Slice(due, limit)|;
    DueBatch(s, limit);
    BatchDue(s, due, m, All(s));
    assert due[..m] == Slice(due, limit);
  }

  lemma RelayRelayed(s: State, due: seq<RowKey>, limit: int, m: nat, id: Id)
    requires Linked(s) && due == DueRows(s) && 1 <= limit <= 1000 && id in s.executions.at
    requires m <= |due| && Slice(due, limit) == due[..m]
    ensures Relayed(s, Relay(s, limit, All(s)), due[..m], id)
  {
    DueBatch(s, limit);
    forall k | k in due[..m] ensures k in s.outbox.at && k.id in s.executions.at { assert Due(s, k); }
    PublishAllRelayed(s, due[..m], All(s), id);
  }

  /** n times limit, by repeated addition. */
  function Capacity(n: nat, limit: int): (r: int)
    ensures 0 <= limit ==> 0 <= r
  {
    if n == 0 then 0 else limit + Capacity(n - 1, limit)
  }

  lemma {:induction false} CapacityIsProduct(n: nat, limit: int)
    ensures Capacity(n, limit) == n * limit
  {
    if n == 0 {
    } else {
      CapacityIsProduct(n - 1, limit);
    }
  }

  lemma {:induction false} RoundsSend(s: State, due: seq<RowKey>, n: nat, limit: int)
    requires Linked(s) && due == DueRows(s) && 1 <= limit <= 1000
    requires |due| <= Capacity(n, limit)
    ensures Sent(s, n, limit) == due
    decreases n
  {
    if n == 0 {
    } else {
      var m := RelayBatch(s, due, limit);
      RoundsSend(Relay(s, limit, All(s)), due[m..], n - 1, limit);
      assert due == due[..m] + due[m..];
    }
  }

  lemma {:induction false} RoundsRelay(s: State, due: seq<RowKey>, n: nat, limit: int, id: Id)
    requires Linked(s) && due == DueRows(s) && 1 <= limit <= 1000
    requires |due| <= Capacity(n, limit) && id in s.executions.at
    ensures Relayed(s, Rounds(s, n, limit), due, id)
    decreases n
  {
    if n == 0 {
    } else {
      var s1 := Relay(s, limit, All(s));
      var m := RelayBatch(s, due, limit);
      RelayRelayed(s, due, limit, m, id);
      RoundsRelay(s1, due[m..], n - 1, limit, id);
      RelayedCompose(s, s1, Rounds(s1, n - 1, limit), due[..m], due[m..], id);
      assert due == due[..m] + due[m..];
    }
  }

  /** Enough rounds send exactly the due rows, in order. */
  lemma RoundsEffect(s: State, due: seq<RowKey>, n: nat, limit: int, id: Id)
    requires Linked(s) && due == DueRows(s) && 1 <= limit <= 1000
    requires |due| <= Capacity(n, limit) && id in s.executions.at
    ensures Sent(s, n, limit) == due
    ensures Relayed(s, Rounds(s, n, limit), due, id)
  {
    RoundsSend(s, due, n, limit);
    RoundsRelay(s, due, n, limit, id);
  }

  // ---- the whole recovery ----

  /** Reap what expired, reopen what was published, then relay. */
  function Recovered(s: State, reapLimit: int, rebuildLimit: int): State {
    Rebuild(Reap(s, reapLimit), rebuildLimit)
  }

  lemma {:induction false} ReopenAllRows(s: State, keys: seq<RowKey>, k: RowKey)
    requires Distinct(keys) && k in s.outbox.at && forall j :: j in keys ==> Republishable(s, j)
    ensures ReopenAll(s, keys).now == s.now && k in ReopenAll(s, keys).outbox.at
    ensures k !in keys ==> ReopenAll(s, keys).outbox.at[k] == s.outbox.at[k]
    ensures k in keys && s.outbox.at[k].publishAttempts < MAX_PUBLISH ==>
              ReopenAll(s, keys).outbox.at[k] == s.outbox.at[k].(state := RowPending, error := None)
    decreases |keys|
  {
    if keys == [] {
    } else {
      var s1 := Reopen(s, keys[0]);
      forall j | j in keys[1..] ensures Republishable(s1, j) { assert j in keys && j != keys[0]; }
      assert keys[0] !in keys[1..];
      ReopenAllRows(s1, keys[1..], k);
    }
  }

  /** After a full rebuild no row is marked published, and every row that was is due again. */
  lemma RebuildReopens(s: State, limit: int, k: RowKey)
    requires Inv(s) && k in s.outbox.at && |PublishedRows(s)| <= limit
    ensures var s' := Rebuild(s, limit);
            && k in s'.outbox.at && s'.now == s.now && s'.executions == s.executions
            && s'.outbox.at[k].availableAt == s.outbox.at[k].availableAt
            && (if s.outbox.at[k].state.RowPublished? then Due(s', k) else s'.outbox.at[k] == s.outbox.at[k])
  {
    var keys := PublishedRows(s);
    assert Slice(keys, limit) == keys;
    PublishedBatch(s, limit);
    FilterMembers(s.outbox.order, (j: RowKey) => Republishable(s, j));
    ReopenAllRows(s, keys, k);
    ReopenAllAt(s, keys);
    assert Local(s, k.id) && k == RowKey(k.id, k.attempt) && RowOk(s.outbox.at[k], s.now);
  }

  /** Waiting, or ended or wedged before, or failed because its last attempt was lost. */
  predicate Cleared(e: Execution, e': Execution) {
    || Waiting(e')
    || ((Terminal(e) || Wedged(e)) && e' == e)
    || (Exhausted(e) && e'.state.Failed?)
  }

  /** Running its last attempt. */
  predicate Exhausted(e: Execution) { e.state.Running? && e.attemptCount == e.maxAttempts }

  /** A full reap past every deadline leaves no lease behind, and what it ends for good had used all its attempts. */
  lemma ReapClearsLeases(s: State, limit: int, id: Id)
    requires Inv(s) && |ExpiredLeases(s)| <= limit && id in s.executions.at
    requires s.executions.at[id].leaseUntil.Some? ==> s.executions.at[id].leaseUntil.value <= s.now
    ensures id in Reap(s, limit).executions.at
    ensures Cleared(s.executions.at[id], Reap(s, limit).executions.at[id])
  {
    ReapEndsOnlyTheExhausted(s, limit, id);
    ExpiredBatch(s, limit);
    FilterMembers(s.executions.order, (j: Id) => LeaseExpired(s, j));
    assert Slice(ExpiredLeases(s), limit) == ExpiredLeases(s);
    AbandonAllAt(s, ExpiredLeases(s), id);
    assert Local(s, id);
  }

  /** Waiting, with a next row that is exhausted, or backing off, or among the messages sent; in the
      last case the execution is queued and its message can be claimed at once. */
  ghost predicate Accounted(s: State, id: Id, sent: seq<RowKey>)
    requires id in s.executions.at
  {
    var e := s.executions.at[id];
    var k := NextRow(s, id);
    && Waiting(e) && k in s.outbox.at
    && (|| (s.outbox.at[k].state.RowFailed? && s.outbox.at[k].publishAttempts == MAX_PUBLISH)
        || (s.outbox.at[k].state.RowPending? && s.now < s.outbox.at[k].availableAt)
        || (e.state.Queued? && k in sent && Claimable(s, id, k.attempt)))
  }

  /** The next row of a waiting execution once nothing is marked published. */
  lemma NextRowReopened(s: State, limit: int, id: Id)
    requires Inv(s) && id in s.executions.at && Waiting(s.executions.at[id])
    requires |PublishedRows(s)| <= limit
    ensures var s', k := Rebuild(s, limit), NextRow(s, id);
            && k in s'.outbox.at && s'.now == s.now && s'.executions == s.executions
            && s.executions.at[id].availableAt <= s'.outbox.at[k].availableAt
            && (|| (s'.outbox.at[k].state.RowFailed? && s'.outbox.at[k].publishAttempts == MAX_PUBLISH)
                || (s'.outbox.at[k].state.RowPending? && s'.now < s'.outbox.at[k].availableAt)
                || Due(s', k))
  {
    var k := NextRow(s, id);
    assert Local(s, id);
    assert RowExpected(s.executions.at[id], k.attempt);
    assert RowKey(id, k.attempt) in s.outbox.at && RowOk(s.outbox.at[k], s.now);
    RebuildReopens(s, limit, k);
  }

  lemma RoundsAccount(s: State, s': State, due: seq<RowKey>, id: Id)
    requires id in s.executions.at && Waiting(s.executions.at[id])
    requires s.outbox.Valid() && due == DueRows(s) && Relayed(s, s', due, id)
    requires var k := NextRow(s, id);
             && k in s.outbox.at
             && s.executions.at[id].availableAt <= s.outbox.at[k].availableAt
             && (|| (s.outbox.at[k].state.RowFailed? && s.outbox.at[k].publishAttempts == MAX_PUBLISH)
                 || (s.outbox.at[k].state.RowPending? && s.now < s.outbox.at[k].availableAt)
                 || Due(s, k))
    ensures id in s'.executions.at && Accounted(s', id, due)
  {
    var k := NextRow(s, id);
    FilterMembers(s.outbox.order, (j: RowKey) => Due(s, j));
    assert k in due <==> Due(s, k);
    assert NextRow(s', id) == k;
  }

  /** From any reachable state whose leases have all run out: one full reap, one full rebuild and
      enough rounds of relay to an accepting queue leave every execution finished or wedged as it
      was, failed if its last attempt was lost, or accounted for: its row exhausted, still backing off, or claimable
      from a message now sent. */
  lemma RecoveryIsComplete(cfg: Config, s: State, reapLimit: int, rebuildLimit: int, n: nat, limit: int, id: Id)
    requires Inv(s) && id in s.executions.at && 1 <= limit <= 1000
    requires forall j :: j in s.executions.at && s.executions.at[j].leaseUntil.Some? ==>
               s.executions.at[j].leaseUntil.value <= s.now
    requires |ExpiredLeases(s)| <= reapLimit && |PublishedRows(Reap(s, reapLimit))| <= rebuildLimit
    requires |DueRows(Recovered(s, reapLimit, rebuildLimit))| <= n * limit
    ensures var s2 := Recovered(s, reapLimit, rebuildLimit);
            var s3 := Rounds(s2, n, limit);
            var e := s.executions.at[id];
            && id in s3.executions.at
            && (|| ((Terminal(e) || Wedged(e)) && s3.executions.at[id] == e)
                || (Exhausted(e) && s3.executions.at[id].state.Failed?)
                || Accounted(s3, id, Sent(s2, n, limit)))
  {
    var s1 := Reap(s, reapLimit);
    ReapInv(s, reapLimit);
    ReapClearsLeases(s, reapLimit, id);
    CapacityIsProduct(n, limit);
    AfterReap(cfg, s1, rebuildLimit, n, limit, id);
  }

  lemma AfterReap(cfg: Config, s: State, rebuildLimit: int, n: nat, limit: int, id: Id)
    requires Inv(s) && id in s.executions.at && 1 <= limit <= 1000
    requires |PublishedRows(s)| <= rebuildLimit
    requires |DueRows(Rebuild(s, rebuildLimit))| <= Capacity(n, limit)
    ensures var s2 := Rebuild(s, rebuildLimit);
            var s3 := Rounds(s2, n, limit);
            && id in s3.executions.at
            && (Terminal(s.executions.at[id]) || Wedged(s.executions.at[id]) ==>
                  s3.executions.at[id] == s.executions.at[id])
            && (Waiting(s.executions.at[id]) ==> Accounted(s3, id, Sent(s2, n, limit)))
  {
    var s2 := Rebuild(s, rebuildLimit);
    var due := DueRows(s2);
    StepInv(cfg, s, DoRebuild(rebuildLimit));
    ReopenAllAt(s, Slice(PublishedRows(s), rebuildLimit));
    assert s2.executions == s.executions;
    if Waiting(s.executions.at[id]) {
      NextRowReopened(s, rebuildLimit, id);
      assert NextRow(s2, id) == NextRow(s, id);
      RoundsEffect(s2, due, n, limit, id);
      RoundsAccount(s2, Rounds(s2, n, limit), due, id);
    } else {
      NotWaitingNotDue(s2, id);
      RoundsEffect(s2, due, n, limit, id);
    }
  }

  lemma NotWaitingNotDue(s: State, id: Id)
    requires Inv(s) && id in s.executions.at && !Waiting(s.executions.at[id])
    ensures NextRow(s, id) !in DueRows(s)
  {
    FilterMembers(s.outbox.order, (j: RowKey) => Due(s, j));
    assert Local(s, id);
    assert !RowExpected(s.executions.at[id], NextRow(s, id).attempt);
  }
}
