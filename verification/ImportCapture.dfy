/** Capturing a batch record by record, being interrupted, and being replayed. */
module ImportCapture {
  import opened Collections
  import opened Documents
  import opened ImportContract

  type RunId = int

  /** What makes two snapshots the same: the source, the record's identifier and the digest of its payload. */
  datatype Key = Key(source: string, externalId: string, sha256: string)

  datatype Snapshot = Snapshot(run: RunId, key: Key, payload: Payload)

  datatype Quarantined = Quarantined(run: RunId, externalId: Option<string>, issue: Issue)

  datatype Tally = Tally(accepted: nat, quarantined: nat, duplicates: nat, missing: nat)

  const ZERO: Tally := Tally(0, 0, 0, 0)

  /** What validation finds: the first issue, and how many optional fields are missing. */
  datatype Judgement = Judgement(issue: Option<Issue>, missing: nat)

  /** How a record is judged, named and hashed. */
  datatype Reader = Reader(judge: Payload -> Judgement, name: (Payload, nat) -> string, digest: Payload -> string)

  /** `digest` stands for hashing canonical bytes and `decimal` for printing an index. */
  datatype Contract = Contract(
    rules: Rules, fields: seq<FieldSpec>, digest: Payload -> string, decimal: nat -> string, maxRecords: nat)

  function ReaderOf(k: Contract): Reader {
    Reader(p => Judgement(FirstIssue(k.rules, k.fields, p), Missing(k.fields, p)),
           (p: Payload, i: nat) => ExternalId(k, p, i), k.digest)
  }

  datatype Store = Store(snapshots: seq<Snapshot>, quarantine: seq<Quarantined>)

  datatype Progress = Progress(store: Store, seen: set<Key>, tally: Tally)

  predicate Valid(c: Reader, p: Payload) { c.judge(p).issue.None? }

  function ExternalId(k: Contract, p: Payload, index: nat): string {
    var j := Get(p, "external_id");
    if j.JText? && Strip(j.text) != "" then Strip(j.text) else "record:" + (k.decimal)(index)
  }

  function KeyOf(c: Reader, source: string, records: seq<Payload>, i: nat): Key
    requires i < |records|
  {
    Key(source, (c.name)(records[i], i), (c.digest)(records[i]))
  }

  function Keys(snapshots: seq<Snapshot>): set<Key> {
    if snapshots == [] then {} else Keys(snapshots[..|snapshots| - 1]) + {snapshots[|snapshots| - 1].key}
  }

  predicate Exists(snapshots: seq<Snapshot>, key: Key) {
    exists k :: 0 <= k < |snapshots| && snapshots[k].key == key
  }

  // ---- the first n records of a pass ----

  datatype Job = Job(run: RunId, source: string, records: seq<Payload>, parseErrors: seq<string>)

  function AsDuplicate(g: Progress): Progress {
    g.(tally := g.tally.(duplicates := g.tally.duplicates + 1))
  }

  function AsRefused(g: Progress, row: Quarantined): Progress {
    g.(store := g.store.(quarantine := g.store.quarantine + [row]),
       tally := g.tally.(quarantined := g.tally.quarantined + 1))
  }

  function AsAccepted(g: Progress, snapshot: Snapshot, missing: nat): Progress {
    Progress(g.store.(snapshots := g.store.snapshots + [snapshot]), g.seen + {snapshot.key},
             g.tally.(accepted := g.tally.accepted + 1, missing := g.tally.missing + missing))
  }

  function Step(c: Reader, job: Job, g: Progress, i: nat): Progress
    requires i < |job.records|
  {
    var p, key := job.records[i], KeyOf(c, job.source, job.records, i);
    if key in g.seen || Exists(g.store.snapshots, key) then AsDuplicate(g)
    else if Valid(c, p) then AsAccepted(g, Snapshot(job.run, key, p), c.judge(p).missing)
    else AsRefused(g, Quarantined(job.run, Some(key.externalId), c.judge(p).issue.value))
  }

  function Start(s: Store): Progress { Progress(s, {}, ZERO) }

  function Pass(c: Reader, job: Job, s: Store, n: nat): Progress
    requires n <= |job.records|
  {
    if n == 0 then Start(s) else Step(c, job, Pass(c, job, s, n - 1), n - 1)
  }

  /** The record is in order, field by field. */
  ghost predicate RecordKeeps(k: Contract, p: Payload) {
    forall i :: 0 <= i < |k.fields| ==> Keeps(k.rules, k.fields[i], Get(p, k.fields[i].name))
  }

  /** The identifier of a record is its own, stripped, and otherwise its position. */
  function NameOf(k: Contract, p: Payload, i: nat): string {
    if "external_id" in p && p["external_id"].JText? && Strip(p["external_id"].text) != ""
    then Strip(p["external_id"].text) else "record:" + (k.decimal)(i)
  }

  /** A record whose source, identifier and digest are stored already is a duplicate, whether it is in order or not; any
      other one is stored when it is in order, with its optional gaps counted, and quarantined for its first fault when
      it is not. */
  lemma CaptureMeans(k: Contract, job: Job, g: Progress, i: nat)
    requires i < |job.records|
    ensures var p := job.records[i]; var g' := Step(ReaderOf(k), job, g, i);
            var key := Key(job.source, NameOf(k, p, i), (k.digest)(p));
            if key in g.seen || exists j :: 0 <= j < |g.store.snapshots| && g.store.snapshots[j].key == key then
              g' == g.(tally := g.tally.(duplicates := g.tally.duplicates + 1))
            else if RecordKeeps(k, p) then
              && g'.store.snapshots == g.store.snapshots + [Snapshot(job.run, key, p)]
              && g'.store.quarantine == g.store.quarantine && g'.seen == g.seen + {key}
              && g'.tally == g.tally.(accepted := g.tally.accepted + 1,
                                      missing := g.tally.missing + Missing(k.fields, p))
            else
              && FirstIssue(k.rules, k.fields, p).Some?
              && g'.store.quarantine == g.store.quarantine +
                   [Quarantined(job.run, Some(key.externalId), FirstIssue(k.rules, k.fields, p).value)]
              && g'.store.snapshots == g.store.snapshots && g'.seen == g.seen
              && g'.tally == g.tally.(quarantined := g.tally.quarantined + 1)
  {
    var p := job.records[i];
    forall j | 0 <= j < |k.fields|
      ensures FieldOk(k.rules, k.fields[j], p) <==> Keeps(k.rules, k.fields[j], Get(p, k.fields[j].name))
    {
      FieldOkIff(k.rules, k.fields[j], p);
    }
  }

  lemma PassStep(c: Reader, job: Job, s: Store, i: nat, n: nat)
    requires i + 1 == n <= |job.records|
    ensures Pass(c, job, s, n) == Step(c, job, Pass(c, job, s, i), i)
  {
  }

  function ParseFailures(run: RunId, codes: seq<string>): seq<Quarantined> {
    if codes == [] then []
    else
      ParseFailures(run, codes[..|codes| - 1]) +
      [Quarantined(run, None, Issue(codes[|codes| - 1], "source.parse"))]
  }

  /** A pass that reaches the end also quarantines what could not be parsed. */
  function Finish(c: Reader, job: Job, s: Store): Progress {
    var g := Pass(c, job, s, |job.records|);
    g.(store := g.store.(quarantine := g.store.quarantine + ParseFailures(job.run, job.parseErrors)),
       tally := g.tally.(quarantined := g.tally.quarantined + |job.parseErrors|))
  }

  /** Everything a pass has to get through: its records, then what could not be parsed. */
  function Total(job: Job): nat { |job.records| + |job.parseErrors| }

  /** The store when a pass stops after n of these; all but the rows it wrote is lost. */
  function Partial(c: Reader, job: Job, s: Store, n: nat): Store
    requires n <= Total(job)
  {
    if n <= |job.records| then Pass(c, job, s, n).store
    else
      var t := Pass(c, job, s, |job.records|).store;
      t.(quarantine := t.quarantine + ParseFailures(job.run, job.parseErrors[..n - |job.records|]))
  }

  predicate Stops(job: Job, stops: seq<nat>) {
    forall k :: 0 <= k < |stops| ==> stops[k] <= Total(job)
  }

  /** The store after passes that stopped at the given points, one after the other. */
  function Interrupted(c: Reader, job: Job, s: Store, stops: seq<nat>): Store
    requires Stops(job, stops)
  {
    if stops == [] then s
    else Partial(c, job, Interrupted(c, job, s, stops[..|stops| - 1]), stops[|stops| - 1])
  }

  // ---- what a pass leaves ----

  ghost predicate DistinctKeys(snapshots: seq<Snapshot>) {
    forall i, j :: 0 <= i < j < |snapshots| ==> snapshots[i].key != snapshots[j].key
  }

  /** The keys of the valid records among the first n. */
  function ValidKeys(c: Reader, job: Job, n: nat): set<Key>
    requires n <= |job.records|
  {
    if n == 0 then {} else ValidKeys(c, job, n - 1) + OwnKey(c, job, n - 1)
  }

  lemma {:induction false} ValidKeysMembers(c: Reader, job: Job, n: nat, key: Key)
    requires n <= |job.records|
    ensures key in ValidKeys(c, job, n) <==>
            exists i :: 0 <= i < n && Valid(c, job.records[i]) && KeyOf(c, job.source, job.records, i) == key
  {
    if n == 0 {
    } else {
      ValidKeysMembers(c, job, n - 1, key);
    }
  }

  lemma {:induction false} KeysMembers(snapshots: seq<Snapshot>, key: Key)
    ensures key in Keys(snapshots) <==> Exists(snapshots, key)
  {
    if snapshots == [] {
    } else {
      var n := |snapshots| - 1;
      KeysMembers(snapshots[..n], key);
      if Exists(snapshots[..n], key) {
        var k :| 0 <= k < n && snapshots[..n][k].key == key;
        assert snapshots[k].key == key;
      }
    }
  }

  /** What a record adds to them. */
  function OwnKey(c: Reader, job: Job, i: nat): set<Key>
    requires i < |job.records|
  {
    if Valid(c, job.records[i]) then {KeyOf(c, job.source, job.records, i)} else {}
  }

  lemma KeysGrow(snapshots: seq<Snapshot>, s: Snapshot)
    ensures Keys(snapshots + [s]) == Keys(snapshots) + {s.key}
  {
    assert (snapshots + [s])[..|snapshots|] == snapshots;
  }

  /** The stored keys are exactly these, and include every key seen in this pass. */
  predicate Holding(g: Progress, keys: set<Key>) {
    Keys(g.store.snapshots) == keys && g.seen <= keys
  }

  lemma StepKeys(c: Reader, job: Job, g: Progress, i: nat, keys: set<Key>)
    requires i < |job.records| && Holding(g, keys)
    ensures Holding(Step(c, job, g, i), keys + OwnKey(c, job, i))
  {
    var key := KeyOf(c, job.source, job.records, i);
    KeysGrow(g.store.snapshots, Snapshot(job.run, key, job.records[i]));
    KeysMembers(g.store.snapshots, key);
  }

  lemma NextKeys(c: Reader, job: Job, s: Store, i: nat, n: nat)
    requires i + 1 == n <= |job.records|
    requires Holding(Pass(c, job, s, i), Keys(s.snapshots) + ValidKeys(c, job, i))
    ensures Holding(Pass(c, job, s, n), Keys(s.snapshots) + ValidKeys(c, job, n))
  {
    var before := Keys(s.snapshots) + ValidKeys(c, job, i);
    PassStep(c, job, s, i, n);
    StepKeys(c, job, Pass(c, job, s, i), i, before);
    assert before + OwnKey(c, job, i) == Keys(s.snapshots) + ValidKeys(c, job, n);
  }

  /** The keys after n records: those that were there, and those of the valid records. */
  lemma {:induction false} PassKeys(c: Reader, job: Job, s: Store, n: nat)
    requires n <= |job.records|
    ensures Holding(Pass(c, job, s, n), Keys(s.snapshots) + ValidKeys(c, job, n))
    decreases n
  {
    if n == 0 {
    } else {
      PassKeys(c, job, s, n - 1);
      NextKeys(c, job, s, n - 1, n);
    }
  }

  lemma {:induction false} PassKeepsDistinct(c: Reader, job: Job, s: Store, n: nat)
    requires n <= |job.records| && DistinctKeys(s.snapshots)
    ensures DistinctKeys(Pass(c, job, s, n).store.snapshots)
  {
    if n == 0 {
    } else {
      PassKeepsDistinct(c, job, s, n - 1);
    }
  }

  // ---- the counters ----

  lemma {:induction false} FailuresCount(run: RunId, codes: seq<string>)
    ensures |ParseFailures(run, codes)| == |codes|
  {
    if codes == [] {
    } else {
      FailuresCount(run, codes[..|codes| - 1]);
    }
  }

  lemma {:induction false} PassCounts(c: Reader, job: Job, s: Store, n: nat)
    requires n <= |job.records|
    ensures var g := Pass(c, job, s, n);
            && g.tally.accepted + g.tally.quarantined + g.tally.duplicates == n
            && |g.store.snapshots| == |s.snapshots| + g.tally.accepted
            && |g.store.quarantine| == |s.quarantine| + g.tally.quarantined
  {
    if n == 0 {
    } else {
      PassCounts(c, job, s, n - 1);
    }
  }

  /** A completed pass accounts for every record and every parse error, and each count is a number of rows. */
  lemma TotalsAddUp(c: Reader, job: Job, s: Store)
    ensures var g := Finish(c, job, s);
            && g.tally.accepted + g.tally.quarantined + g.tally.duplicates == |job.records| + |job.parseErrors|
            && |g.store.snapshots| == |s.snapshots| + g.tally.accepted
            && |g.store.quarantine| == |s.quarantine| + g.tally.quarantined
  {
    PassCounts(c, job, s, |job.records|);
    FailuresCount(job.run, job.parseErrors);
  }

  // ---- missing fields against the quality report ----

  /** The payloads a run has captured, in order of capture. */
  function PayloadsOf(snapshots: seq<Snapshot>, run: RunId): seq<Payload> {
    if snapshots == [] then []
    else
      PayloadsOf(snapshots[..|snapshots| - 1], run) +
      (if snapshots[|snapshots| - 1].run == run then [snapshots[|snapshots| - 1].payload] else [])
  }

  lemma PayloadsGrow(snapshots: seq<Snapshot>, s: Snapshot)
    ensures PayloadsOf(snapshots + [s], s.run) == PayloadsOf(snapshots, s.run) + [s.payload]
  {
    assert (snapshots + [s])[..|snapshots|] == snapshots;
  }

  /** What a judge finds missing over all payloads. */
  function Found(judge: Payload -> Judgement, payloads: seq<Payload>): nat {
    if payloads == [] then 0
    else Found(judge, payloads[..|payloads| - 1]) + judge(payloads[|payloads| - 1]).missing
  }

  lemma FoundGrows(judge: Payload -> Judgement, payloads: seq<Payload>, p: Payload)
    ensures Found(judge, payloads + [p]) == Found(judge, payloads) + judge(p).missing
  {
    assert (payloads + [p])[..|payloads|] == payloads;
  }

  lemma {:induction false} FoundIsMissing(k: Contract, payloads: seq<Payload>)
    ensures Found(ReaderOf(k).judge, payloads) == MissingInAll(k.fields, payloads)
  {
    if payloads == [] {
    } else {
      FoundIsMissing(k, payloads[..|payloads| - 1]);
    }
  }

  /** Beyond `before`, the run's snapshots lack what the pass has counted. */
  predicate Balanced(c: Reader, run: RunId, g: Progress, before: nat) {
    Found(c.judge, PayloadsOf(g.store.snapshots, run)) == before + g.tally.missing
  }

  lemma StepMissing(c: Reader, job: Job, g: Progress, i: nat, before: nat)
    requires i < |job.records| && Balanced(c, job.run, g, before)
    ensures Balanced(c, job.run, Step(c, job, g, i), before)
  {
    PayloadsGrow(g.store.snapshots, Snapshot(job.run, KeyOf(c, job.source, job.records, i), job.records[i]));
    FoundGrows(c.judge, PayloadsOf(g.store.snapshots, job.run), job.records[i]);
  }

  lemma NextBalances(c: Reader, job: Job, s: Store, i: nat, n: nat, before: nat)
    requires i + 1 == n <= |job.records| && Balanced(c, job.run, Pass(c, job, s, i), before)
    ensures Balanced(c, job.run, Pass(c, job, s, n), before)
  {
    var g := Pass(c, job, s, i);
    PassStep(c, job, s, i, n);
    StepMissing(c, job, g, i, before);
  }

  lemma {:induction false} PassBalances(c: Reader, job: Job, s: Store, n: nat, before: nat)
    requires n <= |job.records| && Balanced(c, job.run, Start(s), before)
    ensures Balanced(c, job.run, Pass(c, job, s, n), before)
    decreases n
  {
    if n == 0 {
    } else {
      PassBalances(c, job, s, n - 1, before);
      NextBalances(c, job, s, n - 1, n, before);
    }
  }

  lemma PassMissing(c: Reader, job: Job, s: Store, n: nat)
    requires n <= |job.records|
    ensures Balanced(c, job.run, Pass(c, job, s, n), Found(c.judge, PayloadsOf(s.snapshots, job.run)))
  {
    PassBalances(c, job, s, n, Found(c.judge, PayloadsOf(s.snapshots, job.run)));
  }

  /** A run's missing_fields is the report's total exactly when its earlier passes, if any, captured nothing with
      gaps. */
  lemma MissingMatchesReportIff(k: Contract, job: Job, s: Store, counts: map<string, nat>)
    requires Reports(k.fields, PayloadsOf(Finish(ReaderOf(k), job, s).store.snapshots, job.run), counts)
    ensures Finish(ReaderOf(k), job, s).tally.missing == Reported(k.fields, counts) <==>
            MissingInAll(k.fields, PayloadsOf(s.snapshots, job.run)) == 0
  {
    var c := ReaderOf(k);
    PassMissing(c, job, s, |job.records|);
    FoundIsMissing(k, PayloadsOf(s.snapshots, job.run));
    FoundIsMissing(k, PayloadsOf(Finish(c, job, s).store.snapshots, job.run));
    ReportAddsUp(k.fields, PayloadsOf(Finish(c, job, s).store.snapshots, job.run), counts);
  }

  /** In particular it matches for a single undisturbed pass of a new run. */
  lemma SinglePassMatchesReport(k: Contract, job: Job, s: Store, counts: map<string, nat>)
    requires forall i :: 0 <= i < |s.snapshots| ==> s.snapshots[i].run != job.run
    requires Reports(k.fields, PayloadsOf(Finish(ReaderOf(k), job, s).store.snapshots, job.run), counts)
    ensures Finish(ReaderOf(k), job, s).tally.missing == Reported(k.fields, counts)
  {
    NoPayloads(s.snapshots, job.run);
    MissingMatchesReportIff(k, job, s, counts);
  }

  lemma {:induction false} NoPayloads(snapshots: seq<Snapshot>, run: RunId)
    requires forall k :: 0 <= k < |snapshots| ==> snapshots[k].run != run
    ensures PayloadsOf(snapshots, run) == []
  {
    if snapshots == [] {
    } else {
      NoPayloads(snapshots[..|snapshots| - 1], run);
    }
  }

  function OptionalPrice(): FieldSpec {
    FieldSpec("price", false, NumberField, [], None, None, None, None, None, None, None)
  }

  function Example(rules: Rules): Contract {
    Contract(rules, [OptionalPrice()], p => "", n => "", 1)
  }

  const LISTING: Job := Job(1, "s", [map[]], [])

  const AFTER_ONE: seq<nat> := [1]

  const NOTHING: Store := Store([], [])

  /** The one record of the example, captured for run 1. */
  function ExampleSnapshot(c: Reader): Snapshot { Snapshot(1, KeyOf(c, "s", LISTING.records, 0), map[]) }

  lemma ExampleJudged(rules: Rules)
    ensures ReaderOf(Example(rules)).judge(map[]) == Judgement(None, 1)
  {
    var k := Example(rules);
    assert Missing(k.fields, map[]) == 1 by { assert k.fields[..0] == []; }
    assert FieldOk(rules, k.fields[0], map[]);
  }

  lemma ExampleCaptured(c: Reader)
    requires c.judge(map[]) == Judgement(None, 1)
    ensures Pass(c, LISTING, NOTHING, 1) == AsAccepted(Start(NOTHING), ExampleSnapshot(c), 1)
  {
    assert Pass(c, LISTING, NOTHING, 1) == Step(c, LISTING, Start(NOTHING), 0);
    assert Valid(c, map[]);
  }

  lemma ExampleReplayed(c: Reader, s: Store)
    requires s == Store([ExampleSnapshot(c)], [])
    ensures Pass(c, LISTING, s, 1) == AsDuplicate(Start(s))
  {
    assert Pass(c, LISTING, s, 1) == Step(c, LISTING, Start(s), 0);
    assert s.snapshots[0].key == KeyOf(c, "s", LISTING.records, 0);
  }

  lemma ExampleRuns(c: Reader)
    requires c.judge(map[]) == Judgement(None, 1)
    ensures var replayed := Finish(c, LISTING, Interrupted(c, LISTING, NOTHING, AFTER_ONE));
            && Finish(c, LISTING, NOTHING).tally == Tally(1, 0, 0, 1)
            && replayed.tally == Tally(0, 0, 1, 0)
            && Found(c.judge, PayloadsOf(replayed.store.snapshots, 1)) == 1
  {
    ExampleCaptured(c);
    var once := Pass(c, LISTING, NOTHING, 1).store;
    assert once == Store([ExampleSnapshot(c)], []);
    assert AFTER_ONE[..0] == [] && Interrupted(c, LISTING, NOTHING, AFTER_ONE) == once;
    ExampleReplayed(c, once);
    assert once.snapshots[..0] == [] && PayloadsOf(once.snapshots, 1) == [map[]];
  }

  /** One record without its optional price, interrupted once captured: the replay reports none missing, the report
      one. */
  lemma ReplayUndercounts(rules: Rules)
    ensures var k := Example(rules); var c := ReaderOf(k);
            var replayed := Finish(c, LISTING, Interrupted(c, LISTING, NOTHING, AFTER_ONE));
            && Finish(c, LISTING, NOTHING).tally == Tally(1, 0, 0, 1)
            && replayed.tally == Tally(0, 0, 1, 0)
            && MissingInAll(k.fields, PayloadsOf(replayed.store.snapshots, 1)) == 1
  {
    var k := Example(rules);
    var c := ReaderOf(k);
    ExampleJudged(rules);
    ExampleRuns(c);
    FoundIsMissing(k, PayloadsOf(Finish(c, LISTING, Interrupted(c, LISTING, NOTHING, AFTER_ONE)).store.snapshots, 1));
  }

  // ---- the service ----

  datatype RunState = Waiting | Running | Succeeded | Failed

  datatype Run = Run(source: string, state: RunState, total: nat, tally: Tally, error: Option<string>)

  /** What reading the raw batch back gives. */
  datatype Fetch =
    | Unavailable
    | Broken
    | Unreadable(code: string)
    | Loaded(records: seq<Payload>, parseErrors: seq<string>)

  /** How far the process gets: to the end, until a transient fault or its death, or until any other fault. */
  datatype Luck = Undisturbed | Stopped(n: nat) | Faulted(n: nat, code: string)

  datatype Outcome = Done | Raised(code: string) | Cut

  class ImportRunService {
    const contract: Contract
    var snapshots: seq<Snapshot>
    var quarantine: seq<Quarantined>
    var runs: map<RunId, Run>

    function St(): Store
      reads this
    {
      Store(snapshots, quarantine)
    }

    constructor (contract: Contract)
      ensures this.contract == contract && St() == Store([], []) && runs == map[]
    {
      this.contract := contract;
      snapshots, quarantine, runs := [], [], map[];
    }

    method SnapshotExists(key: Key) returns (found: bool)
      ensures found == Exists(snapshots, key)
    {
      var i := 0;
      while i < |snapshots|
        invariant 0 <= i <= |snapshots|
        invariant forall k :: 0 <= k < i ==> snapshots[k].key != key
      {
        if snapshots[i].key == key { return true; }
        i := i + 1;
      }
      found := false;
    }

    /** One record: a duplicate, a quarantine row or a snapshot. */
    method CaptureRecord(job: Job, i: nat, seen: set<Key>, tally: Tally) returns (seen': set<Key>, tally': Tally)
      requires i < |job.records|
      modifies this`snapshots, this`quarantine
      ensures Progress(St(), seen', tally') == Step(ReaderOf(contract), job, Progress(old(St()), seen, tally), i)
    {
      seen', tally' := seen, tally;
      var p := job.records[i];
      var key := KeyOf(ReaderOf(contract), job.source, job.records, i);
      var known := SnapshotExists(key);
      if key in seen || known {
        tally' := tally.(duplicates := tally.duplicates + 1);
        return;
      }
      var result := ValidateRecord(contract.rules, p, contract.fields);
      if !result.valid {
        quarantine := quarantine + [Quarantined(job.run, Some(key.externalId), result.issues[0])];
        tally' := tally.(quarantined := tally.quarantined + 1);
      } else {
        snapshots := snapshots + [Snapshot(job.run, key, p)];
        tally' := tally.(accepted := tally.accepted + 1, missing := tally.missing + result.missing);
        seen' := seen + {key};
      }
    }

    method CaptureRecords(job: Job, n: nat) returns (tally: Tally)
      requires n <= |job.records|
      modifies this`snapshots, this`quarantine
      ensures St() == Pass(ReaderOf(contract), job, old(St()), n).store &&
                tally == Pass(ReaderOf(contract), job, old(St()), n).tally
    {
      var seen: set<Key> := {};
      tally := ZERO;
      ghost var c, start := ReaderOf(contract), St();
      ghost var g := Start(start);
      var i := 0;
      while i < n
        invariant 0 <= i <= n
        invariant g == Pass(c, job, start, i) && g == Progress(St(), seen, tally)
      {
        seen, tally := CaptureRecord(job, i, seen, tally);
        g := Step(c, job, g, i);
        PassStep(c, job, start, i, i + 1);
        i := i + 1;
      }
    }

    method QuarantineParseErrors(run: RunId, codes: seq<string>)
      modifies this`quarantine
      ensures quarantine == old(quarantine) + ParseFailures(run, codes)
    {
      var i := 0;
      while i < |codes|
        invariant 0 <= i <= |codes|
        invariant quarantine == old(quarantine) + ParseFailures(run, codes[..i])
      {
        assert codes[..i + 1][..i] == codes[..i];
        quarantine := quarantine + [Quarantined(run, None, Issue(codes[i], "source.parse"))];
        i := i + 1;
      }
      assert codes[..|codes|] == codes;
    }

    /** As much of a pass as there is time for. */
    method CapturePartly(job: Job, n: nat)
      requires n <= Total(job)
      modifies this`snapshots, this`quarantine
      ensures St() == Partial(ReaderOf(contract), job, old(St()), n)
    {
      if n <= |job.records| {
        var lost := CaptureRecords(job, n);
      } else {
        var lost := CaptureRecords(job, |job.records|);
        QuarantineParseErrors(job.run, job.parseErrors[..n - |job.records|]);
      }
    }

    /** A finished run is left alone; an unfinished one is captured again from the first record. */
    method Process(id: RunId, fetch: Fetch, luck: Luck) returns (o: Outcome)
      requires id in runs
      requires !luck.Undisturbed? && fetch.Loaded? ==> luck.n <= |fetch.records| + |fetch.parseErrors|
      modifies this
      ensures runs.Keys == old(runs).Keys && forall k :: k in runs && k != id ==> runs[k] == old(runs)[k]
      ensures runs[id].source == old(runs)[id].source
      ensures old(runs)[id].state.Succeeded? || old(runs)[id].state.Failed? ==>
                o.Done? && runs == old(runs) && St() == old(St())
      ensures !(old(runs)[id].state.Succeeded? || old(runs)[id].state.Failed?) ==>
                Processed(contract, id, old(runs)[id], old(St()), fetch, luck, runs[id], St(), o)
    {
      var run := runs[id];
      if run.state.Succeeded? || run.state.Failed? { return Done; }
      run := run.(state := Running);
      runs := runs[id := run];
      if fetch.Unavailable? { return Raised("ingestion.raw_unavailable"); }
      if fetch.Broken? || fetch.Unreadable? {
        var code := if fetch.Broken? then "object.integrity_error" else fetch.code;
        runs := runs[id := run.(state := Failed, error := Some(code))];
        return Raised(code);
      }
      var job := Job(id, run.source, fetch.records, fetch.parseErrors);
      var total := |job.records| + |job.parseErrors|;
      if total > contract.maxRecords {
        runs := runs[id := run.(state := Failed, error := Some("file.records_exceeded"))];
        return Raised("file.records_exceeded");
      }
      if !luck.Undisturbed? {
        CapturePartly(job, luck.n);
        if luck.Stopped? { return Cut; }
        runs := runs[id := run.(state := Failed, error := Some(luck.code))];
        return Raised(luck.code);
      }
      var tally := CaptureRecords(job, |job.records|);
      QuarantineParseErrors(id, job.parseErrors);
      tally := tally.(quarantined := tally.quarantined + |job.parseErrors|);
      TotalsAddUp(ReaderOf(contract), job, old(St()));
      runs := runs[id := Run(run.source, Succeeded, total, tally, None)];
      o := Done;
    }
  }

  /** What processing an unfinished run does to it, to the rows and to its caller. */
  ghost predicate Processed(k: Contract, id: RunId, before: Run, s: Store, fetch: Fetch, luck: Luck, run: Run, t: Store,
                            o: Outcome)
  {
    match fetch
    case Unavailable => o == Raised("ingestion.raw_unavailable") && run.state.Running? && t == s
    case Broken => o == Raised("object.integrity_error") && run.state.Failed? && t == s
    case Unreadable(code) => o == Raised(code) && run.state.Failed? && t == s
    case Loaded(records, parseErrors) =>
      var job := Job(id, before.source, records, parseErrors);
      if |records| + |parseErrors| > k.maxRecords then
        o == Raised("file.records_exceeded") && run.state.Failed? && t == s
      else match luck
        case Stopped(n) => n <= Total(job) && o.Cut? && run.state.Running? && t == Partial(ReaderOf(k), job, s, n)
        case Faulted(n, code) =>
          n <= Total(job) && o == Raised(code) && run.state.Failed? && run.error == Some(code) &&
          t == Partial(ReaderOf(k), job, s, n)
        case Undisturbed =>
          var g := Finish(ReaderOf(k), job, s);
          && o.Done? && t == g.store
          && run == Run(before.source, Succeeded, |records| + |parseErrors|, g.tally, None)
          && run.total == run.tally.accepted + run.tally.quarantined + run.tally.duplicates
  }
}
