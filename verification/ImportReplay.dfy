/** Replaying an interrupted import: the same snapshots in the same order, and when the counters and the quarantine
    agree with those of an undisturbed pass. */
module ImportReplay {
  import opened Collections
  import opened ImportContract
  import opened ImportCapture

  function Max(a: nat, b: nat): nat { if a < b then b else a }

  function Min(a: nat, b: nat): nat { if a < b then a else b }

  // ---- the snapshots of a pass, without its counters ----

  /** What the first n records make of the stored snapshots. */
  function Captured(c: Reader, job: Job, stored: seq<Snapshot>, n: nat): seq<Snapshot>
    requires n <= |job.records|
  {
    if n == 0 then stored
    else
      var before := Captured(c, job, stored, n - 1);
      if New(c, job, before, n - 1) && Valid(c, job.records[n - 1])
      then before + [Snapshot(job.run, KeyOf(c, job.source, job.records, n - 1), job.records[n - 1])]
      else before
  }

  predicate New(c: Reader, job: Job, stored: seq<Snapshot>, i: nat)
    requires i < |job.records|
  {
    !Exists(stored, KeyOf(c, job.source, job.records, i))
  }

  /** Whether a pass over these snapshots sends record i to quarantine, as a number. */
  function RefusedAt(c: Reader, job: Job, stored: seq<Snapshot>, i: nat): nat
    requires i < |job.records|
  {
    if New(c, job, Captured(c, job, stored, i), i) && !Valid(c, job.records[i]) then 1 else 0
  }

  /** How many of the first n records a pass sends to quarantine. */
  function Refused(c: Reader, job: Job, stored: seq<Snapshot>, n: nat): nat
    requires n <= |job.records|
  {
    if n == 0 then 0 else Refused(c, job, stored, n - 1) + RefusedAt(c, job, stored, n - 1)
  }

  /** A pass stores what Captured says and quarantines as many rows as Refused says. */
  predicate Traces(c: Reader, job: Job, s: Store, g: Progress, n: nat)
    requires n <= |job.records|
  {
    && g.store.snapshots == Captured(c, job, s.snapshots, n)
    && g.tally.quarantined == Refused(c, job, s.snapshots, n)
    && |g.store.quarantine| == |s.quarantine| + g.tally.quarantined
  }

  lemma StepTraces(c: Reader, job: Job, s: Store, g: Progress, n: nat)
    requires n < |job.records| && Traces(c, job, s, g, n) && g.seen <= Keys(g.store.snapshots)
    ensures Traces(c, job, s, Step(c, job, g, n), n + 1)
  {
    KeysMembers(g.store.snapshots, KeyOf(c, job.source, job.records, n));
  }

  lemma {:induction false} PassTraces(c: Reader, job: Job, s: Store, n: nat)
    requires n <= |job.records|
    ensures Traces(c, job, s, Pass(c, job, s, n), n)
  {
    if n == 0 {
    } else {
      PassTraces(c, job, s, n - 1);
      PassKeys(c, job, s, n - 1);
      StepTraces(c, job, s, Pass(c, job, s, n - 1), n - 1);
    }
  }

  lemma {:induction false} CapturedGrows(c: Reader, job: Job, stored: seq<Snapshot>, m: nat, n: nat)
    requires m <= n <= |job.records|
    ensures Captured(c, job, stored, m) <= Captured(c, job, stored, n)
    decreases n
  {
    if m == n {
    } else {
      CapturedGrows(c, job, stored, m, n - 1);
    }
  }

  lemma ExistsStays(a: seq<Snapshot>, b: seq<Snapshot>, key: Key)
    requires a <= b && Exists(a, key)
    ensures Exists(b, key)
  {
    var k :| 0 <= k < |a| && a[k].key == key;
    assert b[k].key == key;
  }

  /** A valid record among the first n is stored after them. */
  lemma ValidIsCaptured(c: Reader, job: Job, stored: seq<Snapshot>, n: nat, i: nat)
    requires i < n <= |job.records| && Valid(c, job.records[i])
    ensures !New(c, job, Captured(c, job, stored, n), i)
  {
    var key := KeyOf(c, job.source, job.records, i);
    var here := Captured(c, job, stored, i + 1);
    if New(c, job, Captured(c, job, stored, i), i) { assert here[|here| - 1].key == key; }
    CapturedGrows(c, job, stored, i + 1, n);
    ExistsStays(here, Captured(c, job, stored, n), key);
  }

  /** Going on from where an earlier pass stopped is going on from the start. */
  lemma {:induction false} Resume(c: Reader, job: Job, stored: seq<Snapshot>, a: nat, n: nat)
    requires a <= |job.records| && n <= |job.records|
    ensures Captured(c, job, Captured(c, job, stored, a), n) == Captured(c, job, stored, Max(a, n))
    decreases n
  {
    if n == 0 {
    } else {
      Resume(c, job, stored, a, n - 1);
      if n <= a && Valid(c, job.records[n - 1]) { ValidIsCaptured(c, job, stored, a, n - 1); }
    }
  }

  // ---- interrupted passes ----

  /** How many records the longest of the interrupted passes got through. */
  function Reach(job: Job, stops: seq<nat>): (n: nat)
    ensures n <= |job.records|
  {
    if stops == [] then 0
    else Max(Reach(job, stops[..|stops| - 1]), Min(stops[|stops| - 1], |job.records|))
  }

  lemma PartialCaptures(c: Reader, job: Job, s: Store, n: nat)
    requires n <= Total(job)
    ensures Partial(c, job, s, n).snapshots == Captured(c, job, s.snapshots, Min(n, |job.records|))
  {
    PassTraces(c, job, s, Min(n, |job.records|));
  }

  lemma {:induction false} InterruptedCaptures(c: Reader, job: Job, s: Store, stops: seq<nat>)
    requires Stops(job, stops)
    ensures Interrupted(c, job, s, stops).snapshots == Captured(c, job, s.snapshots, Reach(job, stops))
    decreases |stops|
  {
    if stops == [] {
    } else {
      var earlier, n := stops[..|stops| - 1], stops[|stops| - 1];
      InterruptedCaptures(c, job, s, earlier);
      PartialCaptures(c, job, Interrupted(c, job, s, earlier), n);
      Resume(c, job, s.snapshots, Reach(job, earlier), Min(n, |job.records|));
    }
  }

  /** Interrupted anywhere, any number of times, and replayed: the snapshots of an undisturbed pass, in the same
      order. */
  lemma ReplayGivesTheSameSnapshots(c: Reader, job: Job, s: Store, stops: seq<nat>)
    requires Stops(job, stops)
    ensures Finish(c, job, Interrupted(c, job, s, stops)).store.snapshots == Finish(c, job, s).store.snapshots
  {
    var all := |job.records|;
    InterruptedCaptures(c, job, s, stops);
    PassTraces(c, job, s, all);
    PassTraces(c, job, Interrupted(c, job, s, stops), all);
    Resume(c, job, s.snapshots, Reach(job, stops), all);
  }

  /** They are what was stored before and the valid records, and no key is stored twice. */
  lemma ReplayStoresEachKeyOnce(c: Reader, job: Job, s: Store, stops: seq<nat>)
    requires Stops(job, stops) && DistinctKeys(s.snapshots)
    ensures var t := Finish(c, job, Interrupted(c, job, s, stops)).store.snapshots;
            DistinctKeys(t) && Keys(t) == Keys(s.snapshots) + ValidKeys(c, job, |job.records|)
  {
    ReplayGivesTheSameSnapshots(c, job, s, stops);
    PassKeys(c, job, s, |job.records|);
    PassKeepsDistinct(c, job, s, |job.records|);
  }

  // ---- accepted and duplicates ----

  /** Nothing among the first n records is both valid and new. */
  predicate NothingToAdd(c: Reader, job: Job, stored: seq<Snapshot>, n: nat)
    requires n <= |job.records|
  {
    forall i :: 0 <= i < n && Valid(c, job.records[i]) ==> !New(c, job, stored, i)
  }

  lemma {:induction false} CapturedNothingIff(c: Reader, job: Job, stored: seq<Snapshot>, n: nat)
    requires n <= |job.records|
    ensures |stored| <= |Captured(c, job, stored, n)|
    ensures Captured(c, job, stored, n) == stored <==> NothingToAdd(c, job, stored, n)
    ensures Captured(c, job, stored, n) == stored <==> |Captured(c, job, stored, n)| == |stored|
  {
    if n == 0 {
    } else {
      CapturedNothingIff(c, job, stored, n - 1);
      CapturedGrows(c, job, stored, 0, n);
      if NothingToAdd(c, job, stored, n) { assert NothingToAdd(c, job, stored, n - 1); }
    }
  }

  /** Whether record i is invalid and still unknown after n records, as a number. */
  function UnsettledAt(c: Reader, job: Job, stored: seq<Snapshot>, n: nat, i: nat): nat
    requires i < n <= |job.records|
  {
    if New(c, job, Captured(c, job, stored, n), i) && !Valid(c, job.records[i]) then 1 else 0
  }

  /** How many of the first k records are so. */
  function Unsettled(c: Reader, job: Job, stored: seq<Snapshot>, n: nat, k: nat): nat
    requires k <= n <= |job.records|
  {
    if k == 0 then 0 else Unsettled(c, job, stored, n, k - 1) + UnsettledAt(c, job, stored, n, k - 1)
  }

  lemma UnsettledWasRefused(c: Reader, job: Job, stored: seq<Snapshot>, n: nat, i: nat)
    requires i < n <= |job.records|
    ensures UnsettledAt(c, job, stored, n, i) <= RefusedAt(c, job, stored, i)
  {
    CapturedGrows(c, job, stored, i, n);
    var key := KeyOf(c, job.source, job.records, i);
    if Exists(Captured(c, job, stored, i), key) {
      ExistsStays(Captured(c, job, stored, i), Captured(c, job, stored, n), key);
    }
  }

  lemma {:induction false} UnsettledWereRefused(c: Reader, job: Job, stored: seq<Snapshot>, n: nat, k: nat)
    requires k <= n <= |job.records|
    ensures Unsettled(c, job, stored, n, k) <= Refused(c, job, stored, k)
  {
    if k == 0 {
    } else {
      UnsettledWereRefused(c, job, stored, n, k - 1);
      UnsettledWasRefused(c, job, stored, n, k - 1);
    }
  }

  lemma RefusedAgainAt(c: Reader, job: Job, stored: seq<Snapshot>, n: nat, i: nat)
    requires n <= |job.records| && i < |job.records|
    ensures RefusedAt(c, job, Captured(c, job, stored, n), i) ==
            if i < n then UnsettledAt(c, job, stored, n, i) else RefusedAt(c, job, stored, i)
  {
    Resume(c, job, stored, n, i);
  }

  /** A pass that starts where another stopped refuses again what that one left unsettled, and from there on the
      same. */
  lemma {:induction false} RefusedAgain(c: Reader, job: Job, stored: seq<Snapshot>, n: nat, m: nat)
    requires n <= |job.records| && m <= |job.records|
    ensures Refused(c, job, Captured(c, job, stored, n), m) ==
            if m <= n then Unsettled(c, job, stored, n, m)
            else Unsettled(c, job, stored, n, n) + Refused(c, job, stored, m) - Refused(c, job, stored, n)
    decreases m
  {
    if m == 0 {
    } else {
      RefusedAgain(c, job, stored, n, m - 1);
      RefusedAgainAt(c, job, stored, n, m - 1);
    }
  }

  lemma FinishCounts(c: Reader, job: Job, s: Store)
    ensures var g := Finish(c, job, s);
            && g.tally.accepted == |g.store.snapshots| - |s.snapshots|
            && g.tally.quarantined == Refused(c, job, s.snapshots, |job.records|) + |job.parseErrors|
            && |g.store.quarantine| == |s.quarantine| + g.tally.quarantined
            && g.tally.duplicates == Total(job) - g.tally.accepted - g.tally.quarantined
  {
    TotalsAddUp(c, job, s);
    PassTraces(c, job, s, |job.records|);
  }

  /** A replay accepts as many records as an undisturbed pass exactly when no interrupted pass reached a record that was
      valid and new. */
  lemma AcceptedAgreeIff(c: Reader, job: Job, s: Store, stops: seq<nat>)
    requires Stops(job, stops)
    ensures var t := Interrupted(c, job, s, stops);
            Finish(c, job, t).tally.accepted == Finish(c, job, s).tally.accepted <==>
            NothingToAdd(c, job, s.snapshots, Reach(job, stops))
  {
    var t := Interrupted(c, job, s, stops);
    ReplayGivesTheSameSnapshots(c, job, s, stops);
    FinishCounts(c, job, s);
    FinishCounts(c, job, t);
    InterruptedCaptures(c, job, s, stops);
    CapturedNothingIff(c, job, s.snapshots, Reach(job, stops));
  }

  /** And it counts as many duplicates on the same condition. */
  lemma DuplicatesAgreeIff(c: Reader, job: Job, s: Store, stops: seq<nat>)
    requires Stops(job, stops)
    ensures var t := Interrupted(c, job, s, stops);
            Finish(c, job, t).tally.duplicates == Finish(c, job, s).tally.duplicates <==>
            NothingToAdd(c, job, s.snapshots, Reach(job, stops))
  {
    var t, reach := Interrupted(c, job, s, stops), Reach(job, stops);
    ReplayGivesTheSameSnapshots(c, job, s, stops);
    FinishCounts(c, job, s);
    FinishCounts(c, job, t);
    InterruptedCaptures(c, job, s, stops);
    CapturedNothingIff(c, job, s.snapshots, reach);
    RefusedAgain(c, job, s.snapshots, reach, |job.records|);
    UnsettledWereRefused(c, job, s.snapshots, reach, reach);
  }

  // ---- quarantine rows ----

  /** Rows in quarantine once the run is over, counting those a last pass from here would add. */
  function FinalRows(c: Reader, job: Job, s: Store): nat {
    |s.quarantine| + Refused(c, job, s.snapshots, |job.records|) + |job.parseErrors|
  }

  lemma FinalRowsAreFinal(c: Reader, job: Job, s: Store)
    ensures |Finish(c, job, s).store.quarantine| == FinalRows(c, job, s)
  {
    FinishCounts(c, job, s);
  }

  /** Every record the pass reached is known when it stops, and it did not get to the parse errors. */
  predicate Settles(c: Reader, job: Job, s: Store, stop: nat)
    requires stop <= Total(job)
  {
    stop <= |job.records| && Known(c, job, Partial(c, job, s, stop).snapshots, stop)
  }

  predicate Known(c: Reader, job: Job, stored: seq<Snapshot>, k: nat)
    requires k <= |job.records|
  {
    forall i :: 0 <= i < k ==> !New(c, job, stored, i)
  }

  lemma KnownOneMore(c: Reader, job: Job, stored: seq<Snapshot>, k: nat)
    requires k < |job.records|
    ensures Known(c, job, stored, k + 1) <==> Known(c, job, stored, k) && !New(c, job, stored, k)
  {
  }

  lemma {:induction false} NoneUnsettledIff(c: Reader, job: Job, stored: seq<Snapshot>, n: nat, k: nat)
    requires k <= n <= |job.records|
    ensures Unsettled(c, job, stored, n, k) == 0 <==> Known(c, job, Captured(c, job, stored, n), k)
  {
    if k == 0 {
    } else {
      NoneUnsettledIff(c, job, stored, n, k - 1);
      KnownOneMore(c, job, Captured(c, job, stored, n), k - 1);
      if Valid(c, job.records[k - 1]) { ValidIsCaptured(c, job, stored, n, k - 1); }
    }
  }

  /** One interrupted pass adds to the final rows what it leaves unsettled and the parse errors it got to. */
  lemma PartialAddsRows(c: Reader, job: Job, s: Store, stop: nat)
    requires stop <= Total(job)
    ensures FinalRows(c, job, Partial(c, job, s, stop)) >= FinalRows(c, job, s)
    ensures FinalRows(c, job, Partial(c, job, s, stop)) == FinalRows(c, job, s) <==> Settles(c, job, s, stop)
  {
    var n := Min(stop, |job.records|);
    PassTraces(c, job, s, n);
    PartialCaptures(c, job, s, stop);
    RefusedAgain(c, job, s.snapshots, n, |job.records|);
    NoneUnsettledIff(c, job, s.snapshots, n, n);
    if stop > |job.records| { FailuresCount(job.run, job.parseErrors[..stop - |job.records|]); }
  }

  predicate AllSettle(c: Reader, job: Job, s: Store, stops: seq<nat>)
    requires Stops(job, stops)
  {
    stops == [] ||
    (AllSettle(c, job, s, stops[..|stops| - 1]) &&
     Settles(c, job, Interrupted(c, job, s, stops[..|stops| - 1]), stops[|stops| - 1]))
  }

  lemma {:induction false} InterruptionsAddRows(c: Reader, job: Job, s: Store, stops: seq<nat>)
    requires Stops(job, stops)
    ensures FinalRows(c, job, Interrupted(c, job, s, stops)) >= FinalRows(c, job, s)
    ensures FinalRows(c, job, Interrupted(c, job, s, stops)) == FinalRows(c, job, s) <==> AllSettle(c, job, s, stops)
    decreases |stops|
  {
    if stops == [] {
    } else {
      var earlier := stops[..|stops| - 1];
      InterruptionsAddRows(c, job, s, earlier);
      PartialAddsRows(c, job, Interrupted(c, job, s, earlier), stops[|stops| - 1]);
    }
  }

  /** A replayed run leaves at least as many quarantine rows as an undisturbed one, and as many exactly when every
      interrupted pass settled all it reached. */
  lemma QuarantineAgreesIff(c: Reader, job: Job, s: Store, stops: seq<nat>)
    requires Stops(job, stops)
    ensures var t := Finish(c, job, Interrupted(c, job, s, stops)).store.quarantine;
            var u := Finish(c, job, s).store.quarantine;
            |t| >= |u| && (|t| == |u| <==> AllSettle(c, job, s, stops))
  {
    InterruptionsAddRows(c, job, s, stops);
    FinalRowsAreFinal(c, job, s);
    FinalRowsAreFinal(c, job, Interrupted(c, job, s, stops));
  }

  /** Records filed under one key are equally valid, as when the digest tells payloads apart. */
  predicate SameVerdicts(c: Reader, job: Job) {
    forall i, j :: 0 <= i < |job.records| && 0 <= j < |job.records| ==>
      (KeyOf(c, job.source, job.records, i) == KeyOf(c, job.source, job.records, j) ==>
         Valid(c, job.records[i]) == Valid(c, job.records[j]))
  }

  lemma {:induction false} InvalidStaysNew(c: Reader, job: Job, stored: seq<Snapshot>, n: nat, i: nat)
    requires SameVerdicts(c, job) && n <= |job.records| && i < |job.records| && !Valid(c, job.records[i])
    ensures New(c, job, Captured(c, job, stored, n), i) == New(c, job, stored, i)
  {
    if n == 0 {
    } else {
      InvalidStaysNew(c, job, stored, n - 1, i);
      var before, after := Captured(c, job, stored, n - 1), Captured(c, job, stored, n);
      var key := KeyOf(c, job.source, job.records, i);
      if Exists(before, key) { ExistsStays(before, after, key); }
    }
  }

  /** No record the passes reached is both invalid and new, and none got to the parse errors. */
  predicate ReachesNoFault(c: Reader, job: Job, s: Store, stops: seq<nat>)
    requires Stops(job, stops)
  {
    forall k :: 0 <= k < |stops| ==>
      stops[k] <= |job.records| &&
      forall i :: 0 <= i < stops[k] ==> Valid(c, job.records[i]) || !New(c, job, s.snapshots, i)
  }

  lemma {:induction false} SettlingIsReachingNoFault(c: Reader, job: Job, s: Store, stops: seq<nat>)
    requires SameVerdicts(c, job) && Stops(job, stops)
    ensures AllSettle(c, job, s, stops) <==> ReachesNoFault(c, job, s, stops)
    decreases |stops|
  {
    if stops == [] {
    } else {
      var n, earlier := |stops| - 1, stops[..|stops| - 1];
      SettlingIsReachingNoFault(c, job, s, earlier);
      SettlesIff(c, job, s, earlier, stops[n]);
      assert forall k :: 0 <= k < n ==> earlier[k] == stops[k];
    }
  }

  lemma SettlesIff(c: Reader, job: Job, s: Store, earlier: seq<nat>, stop: nat)
    requires SameVerdicts(c, job) && Stops(job, earlier) && stop <= Total(job)
    ensures Settles(c, job, Interrupted(c, job, s, earlier), stop) <==>
            stop <= |job.records| &&
            forall i :: 0 <= i < stop ==> Valid(c, job.records[i]) || !New(c, job, s.snapshots, i)
  {
    var t := Interrupted(c, job, s, earlier);
    if stop <= |job.records| {
      InterruptedCaptures(c, job, s, earlier);
      PartialCaptures(c, job, t, stop);
      Resume(c, job, s.snapshots, Reach(job, earlier), stop);
      forall i | 0 <= i < stop
        ensures New(c, job, Partial(c, job, t, stop).snapshots, i) <==>
                !(Valid(c, job.records[i]) || !New(c, job, s.snapshots, i))
      {
        if Valid(c, job.records[i]) {
          ValidIsCaptured(c, job, s.snapshots, Max(Reach(job, earlier), stop), i);
        } else {
          InvalidStaysNew(c, job, s.snapshots, Max(Reach(job, earlier), stop), i);
        }
      }
    }
  }

  /** When keys tell valid from invalid, the quarantine agrees exactly when no interrupted pass reached a parse error
      or an invalid record that is not a duplicate. */
  lemma QuarantineAgreesIffNoFaultReached(c: Reader, job: Job, s: Store, stops: seq<nat>)
    requires SameVerdicts(c, job) && Stops(job, stops)
    ensures |Finish(c, job, Interrupted(c, job, s, stops)).store.quarantine| ==
              |Finish(c, job, s).store.quarantine| <==>
            ReachesNoFault(c, job, s, stops)
  {
    QuarantineAgreesIff(c, job, s, stops);
    SettlingIsReachingNoFault(c, job, s, stops);
  }

  /** A reader that refuses everything, and one record. */
  function Refusing(): Reader {
    Reader(p => Judgement(Some(Issue("contract.type_invalid", "price")), 0), (p, i) => "", p => "")
  }

  const ONE_RECORD: Job := Job(1, "s", [map[]], [])

  /** Interrupted once after an invalid record, the replay quarantines it a second time. */
  lemma ReplayRefusesTwice()
    ensures Stops(ONE_RECORD, AFTER_ONE)
    ensures var s := Store([], []);
            && |Finish(Refusing(), ONE_RECORD, s).store.quarantine| == 1
            && |Finish(Refusing(), ONE_RECORD, Interrupted(Refusing(), ONE_RECORD, s, AFTER_ONE)).store.quarantine| == 2
  {
    var c, s := Refusing(), Store([], []);
    var t := Interrupted(c, ONE_RECORD, s, AFTER_ONE);
    assert AFTER_ONE[..0] == [] && Interrupted(c, ONE_RECORD, s, []) == s;
    assert t == Partial(c, ONE_RECORD, s, 1);
    PassTraces(c, ONE_RECORD, s, 1);
    FinalRowsAreFinal(c, ONE_RECORD, s);
    FinalRowsAreFinal(c, ONE_RECORD, t);
    assert forall u: seq<Snapshot> :: Captured(c, ONE_RECORD, u, 0) == u;
    assert Captured(c, ONE_RECORD, [], 1) == [];
    assert Refused(c, ONE_RECORD, [], 0) == 0 && RefusedAt(c, ONE_RECORD, [], 0) == 1;
    assert Refused(c, ONE_RECORD, [], 1) == 1;
  }

  // ---- other runs in between ----

  /** A pass that stops, and the snapshots other runs of the source store before the next one. */
  datatype Cut = Cut(stop: nat, others: seq<Snapshot>)

  /** The stores between the passes; no run stores a key that is stored already. */
  ghost predicate Between(c: Reader, job: Job, cuts: seq<Cut>, stores: seq<Store>) {
    && |stores| == |cuts| + 1
    && (forall k :: 0 <= k < |cuts| ==> Follows(c, job, stores[k], cuts[k], stores[k + 1]))
  }

  ghost predicate Follows(c: Reader, job: Job, s: Store, cut: Cut, t: Store) {
    && cut.stop <= Total(job)
    && t == Partial(c, job, s, cut.stop).(snapshots := Partial(c, job, s, cut.stop).snapshots + cut.others)
    && DistinctKeys(t.snapshots)
  }

  function OtherKeys(cuts: seq<Cut>): set<Key> {
    if cuts == [] then {} else OtherKeys(cuts[..|cuts| - 1]) + Keys(cuts[|cuts| - 1].others)
  }

  lemma {:induction false} KeysJoin(a: seq<Snapshot>, b: seq<Snapshot>)
    ensures Keys(a + b) == Keys(a) + Keys(b)
    decreases |b|
  {
    if b == [] {
      assert a + b == a;
    } else {
      KeysJoin(a, b[..|b| - 1]);
      assert (a + b)[..|a + b| - 1] == a + b[..|b| - 1];
    }
  }

  lemma {:induction false} ValidKeysMonotone(c: Reader, job: Job, m: nat, n: nat)
    requires m <= n <= |job.records|
    ensures ValidKeys(c, job, m) <= ValidKeys(c, job, n)
    decreases n - m
  {
    if m == n {
    } else {
      ValidKeysMonotone(c, job, m, n - 1);
    }
  }

  lemma PartialKeys(c: Reader, job: Job, s: Store, n: nat)
    requires n <= Total(job)
    ensures var keys := Keys(Partial(c, job, s, n).snapshots);
            Keys(s.snapshots) <= keys <= Keys(s.snapshots) + ValidKeys(c, job, |job.records|)
  {
    PassKeys(c, job, s, Min(n, |job.records|));
    ValidKeysMonotone(c, job, Min(n, |job.records|), |job.records|);
  }

  lemma {:induction false} BetweenKeys(c: Reader, job: Job, cuts: seq<Cut>, stores: seq<Store>)
    requires Between(c, job, cuts, stores) && DistinctKeys(stores[0].snapshots)
    ensures var start, last := stores[0].snapshots, stores[|cuts|].snapshots;
            && DistinctKeys(last)
            && Keys(start) + OtherKeys(cuts) <= Keys(last)
            && Keys(last) <= Keys(start) + OtherKeys(cuts) + ValidKeys(c, job, |job.records|)
    decreases |cuts|
  {
    if cuts == [] {
    } else {
      var n := |cuts| - 1;
      var fewer, before := cuts[..n], stores[..n + 1];
      forall k | 0 <= k < n ensures Follows(c, job, before[k], fewer[k], before[k + 1]) {
        assert Follows(c, job, stores[k], cuts[k], stores[k + 1]);
      }
      BetweenKeys(c, job, fewer, before);
      assert Follows(c, job, stores[n], cuts[n], stores[n + 1]);
      PartialKeys(c, job, stores[n], cuts[n].stop);
      KeysJoin(Partial(c, job, stores[n], cuts[n].stop).snapshots, cuts[n].others);
    }
  }

  /** Whatever other runs of the source store between the passes, the last pass leaves the keys that were there, theirs,
      and those of the valid records, each once. */
  lemma ReplayAmongOtherRuns(c: Reader, job: Job, cuts: seq<Cut>, stores: seq<Store>)
    requires Between(c, job, cuts, stores) && DistinctKeys(stores[0].snapshots)
    ensures var t := Finish(c, job, stores[|cuts|]).store.snapshots;
            && DistinctKeys(t)
            && Keys(t) == Keys(stores[0].snapshots) + OtherKeys(cuts) + ValidKeys(c, job, |job.records|)
  {
    BetweenKeys(c, job, cuts, stores);
    PassKeys(c, job, stores[|cuts|], |job.records|);
    PassKeepsDistinct(c, job, stores[|cuts|], |job.records|);
  }
}
