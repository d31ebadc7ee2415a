/** What every interleaving of puts, crashes, reconciliation passes and foreign writes keeps. */
module ObjectHistory {
  import opened Collections
  import opened ObjectModel

  predicate Holds(hash: Digest, blobs: map<Key, Blob>, k: Key, sha256: string, size: int, media: string) {
    k in blobs && blobs[k].sound && hash(blobs[k].body) == sha256 && |blobs[k].body| == size && blobs[k].media == media
  }

  /** Only available records point at bytes, and the bytes are there. */
  ghost predicate VersionOk(hash: Digest, blobs: map<Key, Blob>, k: Key, v: Version) {
    if v.state.Available? then
      v.providerRef == Some(k) && v.availableAt.Some? && Holds(hash, blobs, k, v.sha256, v.size, v.media)
    else v.providerRef.None? && v.availableAt.None?
  }

  predicate Recorded(vs: Versions, u: Upload) {
    u.key in vs.at && SameContent(vs.at[u.key], u.sha256, u.size, u.media)
  }

  /** The counters of a pass add up to the records it has finished with. */
  ghost predicate PassOk(p: Pass, finished: int) {
    && p.completed + p.failed + p.pending == finished
    && (p.maxAge.Some? ==> p.pending == 0)
    && Distinct(p.visited + p.rest)
  }

  lemma SkipKeepsDistinct(p: Pass)
    requires Distinct(p.visited + p.rest) && p.rest != []
    ensures Distinct(p.visited + p.rest[1..]) && Distinct((p.visited + [p.rest[0]]) + p.rest[1..])
  {
    var all, less := p.visited + p.rest, p.visited + p.rest[1..];
    assert (p.visited + [p.rest[0]]) + p.rest[1..] == all;
    forall i, j | 0 <= i < j < |less| ensures less[i] != less[j] {
      var x, y := if i < |p.visited| then i else i + 1, if j < |p.visited| then j else j + 1;
      assert less[i] == all[x] && less[j] == all[y];
    }
  }

  ghost predicate CallOk(hash: Digest, vs: Versions, blobs: map<Key, Blob>, c: Call) {
    match c
    case Creating(u, _) => Honest(hash, u)
    case Writing(u) => Honest(hash, u) && Recorded(vs, u)
    case Checking(u) => Honest(hash, u) && Recorded(vs, u)
    case Failing(u, _) => Honest(hash, u) && Recorded(vs, u)
    case Publishing(u) => Honest(hash, u) && Recorded(vs, u) && Holds(hash, blobs, u.key, u.sha256, u.size, u.media)
    case Scanning(p) => PassOk(p, |p.visited|)
    case Looking(p, k) => PassOk(p, |p.visited| - 1) && TurnOk(vs, p, k)
    case Marking(p, k, verdict) =>
      PassOk(p, |p.visited| - 1) && TurnOk(vs, p, k) &&
      (verdict.Complete? ==> Holds(hash, blobs, k, vs.at[k].sha256, vs.at[k].size, vs.at[k].media))
  }

  predicate TurnOk(vs: Versions, p: Pass, k: Key) {
    k in vs.at && p.visited != [] && p.visited[|p.visited| - 1] == k &&
    (p.maxAge.Some? ==> vs.at[k].createdAt < p.now - p.maxAge.value)
  }

  ghost predicate ReturnedOk(vs: Versions, ref: Ref) {
    ref.key in vs.at && vs.at[ref.key].state.Available? && RefOf(ref.key, vs.at[ref.key]) == ref
  }

  ghost predicate Inv(hash: Digest, s: Store) {
    && s.versions.Valid()
    && (forall k :: k in s.versions.at ==> VersionOk(hash, s.blobs, k, s.versions.at[k]))
    && (forall c :: c in s.calls ==> CallOk(hash, s.versions, s.blobs, s.calls[c]))
    && (forall ref :: ref in s.returned ==> ReturnedOk(s.versions, ref))
  }

  // ---- how records and bytes may change ----

  /** Content never changes, an available record is never written again, a failed one stays failed. */
  predicate Settles(v: Version, w: Version) {
    w == v ||
    (w.purpose == v.purpose && SameContent(v, w.sha256, w.size, w.media) && w.createdAt == v.createdAt &&
     ((v.state.Pending? && !w.state.Pending?) || (v.state.Failed? && w.state.Failed?)))
  }

  ghost predicate VersionsGrow(vs: Versions, ws: Versions) {
    forall k :: k in vs.at ==> k in ws.at && Settles(vs.at[k], ws.at[k])
  }

  ghost predicate BlobsGrow(bs: map<Key, Blob>, cs: map<Key, Blob>) {
    forall k :: k in bs ==> k in cs && cs[k] == bs[k]
  }

  ghost predicate Grows(s: Store, t: Store) {
    VersionsGrow(s.versions, t.versions) && BlobsGrow(s.blobs, t.blobs) && s.returned <= t.returned
  }

  lemma CreateGrows(vs: Versions, k: Key, purpose: string, sha256: string, size: int, media: string, now: int)
    requires vs.Valid()
    ensures var ws := CreatePending(vs, k, purpose, sha256, size, media, now).0; ws.Valid() && VersionsGrow(vs, ws)
  {
    PutValid(vs, k, Version(purpose, Pending, sha256, size, media, now, None, None, None));
  }

  lemma MarkAvailableGrows(vs: Versions, k: Key, now: int)
    requires vs.Valid()
    ensures var ws := MarkAvailable(vs, k, k, now).0; ws.Valid() && VersionsGrow(vs, ws)
  {
    if k in vs.at { PutValid(vs, k, vs.at[k].(state := Available, providerRef := Some(k), availableAt := Some(now))); }
  }

  lemma MarkFailedGrows(vs: Versions, k: Key, code: string)
    requires vs.Valid()
    ensures var ws := MarkFailed(vs, k, code).0; ws.Valid() && VersionsGrow(vs, ws)
  {
    if k in vs.at {
      PutValid(vs, k, vs.at[k].(state := Failed, failure := Some(code), providerRef := None, availableAt := None));
    }
  }

  lemma CallKeeps(hash: Digest, vs: Versions, ws: Versions, bs: map<Key, Blob>, cs: map<Key, Blob>, c: Call)
    requires VersionsGrow(vs, ws) && BlobsGrow(bs, cs) && CallOk(hash, vs, bs, c)
    ensures CallOk(hash, ws, cs, c)
  {
    match c
    case Creating(_, _) =>
    case Writing(u) => assert Settles(vs.at[u.key], ws.at[u.key]);
    case Checking(u) => assert Settles(vs.at[u.key], ws.at[u.key]);
    case Failing(u, _) => assert Settles(vs.at[u.key], ws.at[u.key]);
    case Publishing(u) => assert Settles(vs.at[u.key], ws.at[u.key]);
    case Scanning(_) =>
    case Looking(_, k) => assert Settles(vs.at[k], ws.at[k]);
    case Marking(_, k, _) => assert Settles(vs.at[k], ws.at[k]);
  }

  /** Everything but the records that change and the call that moves is carried over. */
  lemma GrowKeeps(hash: Digest, s: Store, t: Store, call: CallId)
    requires Inv(hash, s) && Grows(s, t) && t.versions.Valid()
    requires forall k :: k in t.versions.at && (k in s.versions.at ==> t.versions.at[k] != s.versions.at[k]) ==>
               VersionOk(hash, t.blobs, k, t.versions.at[k])
    requires forall c :: c in t.calls && c != call ==> c in s.calls && t.calls[c] == s.calls[c]
    requires call in t.calls ==> CallOk(hash, t.versions, t.blobs, t.calls[call])
    requires forall ref :: ref in t.returned - s.returned ==> ReturnedOk(t.versions, ref)
    ensures Inv(hash, t)
  {
    forall k | k in t.versions.at ensures VersionOk(hash, t.blobs, k, t.versions.at[k]) {
      if k in s.versions.at && t.versions.at[k] == s.versions.at[k] {
        assert VersionOk(hash, s.blobs, k, s.versions.at[k]);
      }
    }
    forall c | c in t.calls ensures CallOk(hash, t.versions, t.blobs, t.calls[c]) {
      if c != call { CallKeeps(hash, s.versions, t.versions, s.blobs, t.blobs, s.calls[c]); }
    }
    forall ref | ref in t.returned ensures ReturnedOk(t.versions, ref) {
      if ref in s.returned {
        assert ReturnedOk(s.versions, ref);
        assert Settles(s.versions.at[ref.key], t.versions.at[ref.key]);
      }
    }
  }

  // ---- each step ----

  lemma BeginPutStep(hash: Digest, s: Store, call: CallId, u: Upload, purpose: string)
    requires Inv(hash, s)
    ensures var t := BeginPut(hash, s, call, u, purpose); Inv(hash, t) && Grows(s, t)
  {
    GrowKeeps(hash, s, BeginPut(hash, s, call, u, purpose), call);
  }

  lemma CreateStepOk(hash: Digest, s: Store, call: CallId, u: Upload, purpose: string, now: int)
    requires Inv(hash, s) && Honest(hash, u)
    ensures var t := CreateStep(s, call, u, purpose, now); Inv(hash, t) && Grows(s, t)
  {
    CreateGrows(s.versions, u.key, purpose, u.sha256, u.size, u.media, now);
    GrowKeeps(hash, s, CreateStep(s, call, u, purpose, now), call);
  }

  lemma WriteStepOk(hash: Digest, s: Store, call: CallId, u: Upload, glitch: Option<Error>, landed: bool)
    requires Inv(hash, s) && Honest(hash, u) && Recorded(s.versions, u)
    ensures var t := WriteStep(hash, s, call, u, glitch, landed); Inv(hash, t) && Grows(s, t)
  {
    GrowKeeps(hash, s, WriteStep(hash, s, call, u, glitch, landed), call);
  }

  lemma CheckStepOk(hash: Digest, s: Store, call: CallId, u: Upload, glitch: Option<Error>)
    requires Inv(hash, s) && Honest(hash, u) && Recorded(s.versions, u)
    ensures var t := CheckStep(hash, s, call, u, glitch); Inv(hash, t) && Grows(s, t)
  {
    EndCall(hash, s, call);
    MoveCall(hash, s, call, Failing(u, Code(if glitch.Some? then glitch.value else NotFound)));
    MoveCall(hash, s, call, Failing(u, Code(IntegrityError)));
    MoveCall(hash, s, call, Failing(u, Code(NotFound)));
    if Holds(hash, s.blobs, u.key, u.sha256, u.size, u.media) { MoveCall(hash, s, call, Publishing(u)); }
  }

  lemma FailStepOk(hash: Digest, s: Store, call: CallId, u: Upload, code: string)
    requires Inv(hash, s)
    ensures var t := FailStep(s, call, u, code); Inv(hash, t) && Grows(s, t)
  {
    MarkFailedGrows(s.versions, u.key, code);
    GrowKeeps(hash, s, FailStep(s, call, u, code), call);
  }

  lemma PublishStepOk(hash: Digest, s: Store, call: CallId, u: Upload, now: int)
    requires Inv(hash, s) && Recorded(s.versions, u) && Holds(hash, s.blobs, u.key, u.sha256, u.size, u.media)
    ensures var t := PublishStep(s, call, u, now); Inv(hash, t) && Grows(s, t)
  {
    MarkAvailableGrows(s.versions, u.key, now);
    assert VersionOk(hash, s.blobs, u.key, s.versions.at[u.key]);
    GrowKeeps(hash, s, PublishStep(s, call, u, now), call);
  }

  lemma BeginReconcileStep(hash: Digest, s: Store, call: CallId, now: int, maxAge: Option<int>)
    requires Inv(hash, s)
    ensures var t := BeginReconcile(s, call, now, maxAge); Inv(hash, t) && Grows(s, t)
  {
    assert [] + s.versions.order == s.versions.order;
    GrowKeeps(hash, s, BeginReconcile(s, call, now, maxAge), call);
  }

  /** A step that moves one call and touches nothing else. */
  lemma MoveCall(hash: Digest, s: Store, call: CallId, c: Call)
    requires Inv(hash, s) && CallOk(hash, s.versions, s.blobs, c)
    ensures var t := s.(calls := s.calls[call := c]); Inv(hash, t) && Grows(s, t)
  {
    GrowKeeps(hash, s, s.(calls := s.calls[call := c]), call);
  }

  lemma EndCall(hash: Digest, s: Store, call: CallId)
    requires Inv(hash, s)
    ensures var t := s.(calls := s.calls - {call}); Inv(hash, t) && Grows(s, t)
  {
    GrowKeeps(hash, s, s.(calls := s.calls - {call}), call);
  }

  lemma ScanStepOk(hash: Digest, s: Store, call: CallId, p: Pass)
    requires Inv(hash, s) && PassOk(p, |p.visited|)
    ensures var t := ScanStep(s, call, p); Inv(hash, t) && Grows(s, t)
  {
    EndCall(hash, s, call);
    if p.rest != [] {
      var k, q := p.rest[0], p.(rest := p.rest[1..]);
      SkipKeepsDistinct(p);
      MoveCall(hash, s, call, Scanning(q));
      if k in s.versions.at && Eligible(s.versions.at[k], p.now, p.maxAge) {
        MoveCall(hash, s, call, Looking(q.(visited := q.visited + [k]), k));
      }
    }
  }

  lemma LookStepOk(hash: Digest, s: Store, call: CallId, p: Pass, k: Key, glitch: Option<Error>)
    requires Inv(hash, s) && PassOk(p, |p.visited| - 1) && TurnOk(s.versions, p, k)
    ensures var t := LookStep(hash, s, call, p, k, glitch); Inv(hash, t) && Grows(s, t)
  {
    var v := s.versions.at[k];
    assert VersionOk(hash, s.blobs, k, v);
    EndCall(hash, s, call);
    MoveCall(hash, s, call, Marking(p, k, Missing));
    MoveCall(hash, s, call, Marking(p, k, Conflict));
    if Holds(hash, s.blobs, k, v.sha256, v.size, v.media) {
      MoveCall(hash, s, call, Marking(p, k, Complete));
    }
  }

  /** Marking a record and moving on to the next one. */
  lemma MarkedOk(hash: Digest, s: Store, call: CallId, k: Key, vs: Versions, next: Pass)
    requires Inv(hash, s) && k in vs.at && vs.Valid() && VersionsGrow(s.versions, vs) && PassOk(next, |next.visited|)
    requires forall j :: j in vs.at && j != k ==> j in s.versions.at && vs.at[j] == s.versions.at[j]
    requires VersionOk(hash, s.blobs, k, vs.at[k])
    ensures var t := s.(versions := vs, calls := s.calls[call := Scanning(next)]); Inv(hash, t) && Grows(s, t)
  {
    GrowKeeps(hash, s, s.(versions := vs, calls := s.calls[call := Scanning(next)]), call);
  }

  lemma CompleteOk(hash: Digest, s: Store, call: CallId, p: Pass, k: Key)
    requires Inv(hash, s) && CallOk(hash, s.versions, s.blobs, Marking(p, k, Complete))
    ensures var t := MarkStep(s, call, p, k, Complete); Inv(hash, t) && Grows(s, t)
  {
    assert VersionOk(hash, s.blobs, k, s.versions.at[k]);
    MarkAvailableGrows(s.versions, k, p.now);
    if s.versions.at[k].state.Failed? {
      EndCall(hash, s, call);
    } else {
      MarkedOk(hash, s, call, k, MarkAvailable(s.versions, k, k, p.now).0, p.(completed := p.completed + 1));
    }
  }

  lemma FailOk(hash: Digest, s: Store, call: CallId, p: Pass, k: Key, code: string)
    requires Inv(hash, s) && PassOk(p, |p.visited| - 1) && TurnOk(s.versions, p, k)
    ensures var t := s.(versions := MarkFailed(s.versions, k, code).0,
              calls := s.calls[call := Scanning(p.(failed := p.failed + 1))]);
            Inv(hash, t) && Grows(s, t)
  {
    assert VersionOk(hash, s.blobs, k, s.versions.at[k]);
    MarkFailedGrows(s.versions, k, code);
    MarkedOk(hash, s, call, k, MarkFailed(s.versions, k, code).0, p.(failed := p.failed + 1));
  }

  lemma MarkStepOk(hash: Digest, s: Store, call: CallId, p: Pass, k: Key, verdict: Verdict)
    requires Inv(hash, s) && CallOk(hash, s.versions, s.blobs, Marking(p, k, verdict))
    ensures var t := MarkStep(s, call, p, k, verdict); Inv(hash, t) && Grows(s, t)
  {
    match verdict
    case Complete => CompleteOk(hash, s, call, p, k);
    case Missing =>
      FailOk(hash, s, call, p, k, "object.bytes_missing");
      if !Aged(s.versions.at[k], p) { MoveCall(hash, s, call, Scanning(p.(pending := p.pending + 1))); }
    case Conflict => FailOk(hash, s, call, p, k, "object.bytes_conflict");
  }

  lemma ContinueOk(hash: Digest, s: Store, call: CallId, now: int, glitch: Option<Error>, landed: bool)
    requires Inv(hash, s)
    ensures var t := Continue(hash, s, call, now, glitch, landed); Inv(hash, t) && Grows(s, t)
  {
    if call in s.calls {
      assert CallOk(hash, s.versions, s.blobs, s.calls[call]);
      match s.calls[call]
      case Creating(u, purpose) => CreateStepOk(hash, s, call, u, purpose, now);
      case Writing(u) => WriteStepOk(hash, s, call, u, glitch, landed);
      case Checking(u) => CheckStepOk(hash, s, call, u, glitch);
      case Failing(u, code) => FailStepOk(hash, s, call, u, code);
      case Publishing(u) => PublishStepOk(hash, s, call, u, now);
      case Scanning(p) => ScanStepOk(hash, s, call, p);
      case Looking(p, k) => LookStepOk(hash, s, call, p, k, glitch);
      case Marking(p, k, verdict) => MarkStepOk(hash, s, call, p, k, verdict);
    }
  }

  lemma StepOk(hash: Digest, s: Store, step: Step)
    requires Inv(hash, s)
    ensures var t := Apply(hash, s, step); Inv(hash, t) && Grows(s, t)
  {
    match step
    case DoPut(call, k, body, declared, purpose) =>
      BeginPutStep(hash, s, call, UploadOf(hash, k, body, declared), purpose);
    case DoReconcile(call, at, maxAge) => BeginReconcileStep(hash, s, call, at, maxAge);
    case DoContinue(call, now, glitch, landed) => ContinueOk(hash, s, call, now, glitch, landed);
    case DoCrash(call) => GrowKeeps(hash, s, Apply(hash, s, step), call);
    case DoForeignWrite(_, _) => GrowKeeps(hash, s, Apply(hash, s, step), 0);
  }

  lemma GrowsOn(s: Store, t: Store, u: Store)
    requires Grows(s, t) && Grows(t, u)
    ensures Grows(s, u)
  {
    forall k | k in s.versions.at ensures k in u.versions.at && Settles(s.versions.at[k], u.versions.at[k]) {
      assert Settles(s.versions.at[k], t.versions.at[k]) && Settles(t.versions.at[k], u.versions.at[k]);
    }
  }

  lemma {:induction false} RunOk(hash: Digest, s: Store, steps: seq<Step>)
    requires Inv(hash, s)
    ensures var t := Run(hash, s, steps); Inv(hash, t) && Grows(s, t)
    decreases |steps|
  {
    if steps == [] {
    } else {
      var t := Apply(hash, s, steps[0]);
      StepOk(hash, s, steps[0]);
      RunOk(hash, t, steps[1..]);
      GrowsOn(s, t, Run(hash, t, steps[1..]));
    }
  }

  lemma ReachableOk(hash: Digest, steps: seq<Step>)
    ensures Inv(hash, Run(hash, Empty(), steps))
  {
    RunOk(hash, Empty(), steps);
  }

  // ---- what a caller can rely on ----

  /** A reference once returned opens for ever, to the same bytes, while the provider answers. */
  lemma ReturnedRefsOpenForever(hash: Digest, steps: seq<Step>, more: seq<Step>, ref: Ref)
    requires ref in Run(hash, Empty(), steps).returned
    ensures var s := Run(hash, Empty(), steps); var t := Run(hash, s, more);
            && Open(hash, s, ref, None).Ok? && Open(hash, t, ref, None) == Open(hash, s, ref, None)
            && hash(Open(hash, s, ref, None).value) == ref.sha256 && |Open(hash, s, ref, None).value| == ref.size
  {
    var s := Run(hash, Empty(), steps);
    var t := Run(hash, s, more);
    ReachableOk(hash, steps);
    RunOk(hash, s, more);
    assert ReturnedOk(s.versions, ref) && ReturnedOk(t.versions, ref);
    assert VersionOk(hash, s.blobs, ref.key, s.versions.at[ref.key]);
    assert VersionOk(hash, t.blobs, ref.key, t.versions.at[ref.key]);
    assert t.blobs[ref.key] == s.blobs[ref.key];
  }

  /** All references ever returned for one version are the same reference. */
  lemma OneReferencePerVersion(hash: Digest, steps: seq<Step>, r: Ref, q: Ref)
    requires r in Run(hash, Empty(), steps).returned && q in Run(hash, Empty(), steps).returned && r.key == q.key
    ensures r == q
  {
    var s := Run(hash, Empty(), steps);
    ReachableOk(hash, steps);
    assert ReturnedOk(s.versions, r) && ReturnedOk(s.versions, q);
  }

  /** A version keeps its content along any run, and its state once settled. */
  lemma VersionsAreImmutable(hash: Digest, steps: seq<Step>, more: seq<Step>, k: Key)
    requires k in Run(hash, Empty(), steps).versions.at
    ensures var s := Run(hash, Empty(), steps); var t := Run(hash, s, more);
            k in t.versions.at &&
            var v, w := s.versions.at[k], t.versions.at[k];
            && SameContent(v, w.sha256, w.size, w.media) && w.createdAt == v.createdAt && w.purpose == v.purpose
            && (v.state.Available? ==> w == v) && (v.state.Failed? ==> w.state.Failed?)
  {
    ReachableOk(hash, steps);
    RunOk(hash, Run(hash, Empty(), steps), more);
    var s := Run(hash, Empty(), steps);
    assert Settles(s.versions.at[k], Run(hash, s, more).versions.at[k]);
  }

  /** A pass takes no record twice and accounts for each; with an age limit it leaves none pending. */
  lemma PassesAddUp(hash: Digest, steps: seq<Step>, call: CallId)
    requires var s := Run(hash, Empty(), steps); call in s.calls && s.calls[call].Scanning?
    ensures var p := Run(hash, Empty(), steps).calls[call].pass;
            && p.completed + p.failed + p.pending == |p.visited| && Distinct(p.visited)
            && (p.maxAge.Some? ==> p.pending == 0)
  {
    ReachableOk(hash, steps);
    var s := Run(hash, Empty(), steps);
    assert CallOk(hash, s.versions, s.blobs, s.calls[call]);
    var p := s.calls[call].pass;
    forall i, j | 0 <= i < j < |p.visited| ensures p.visited[i] != p.visited[j] {
      assert (p.visited + p.rest)[i] != (p.visited + p.rest)[j];
    }
  }

  /** A pass completes a record only when the provider holds its exact bytes. */
  lemma OnlyMatchesAreCompleted(hash: Digest, steps: seq<Step>, call: CallId, now: int)
    requires var s := Run(hash, Empty(), steps); call in s.calls && s.calls[call].Marking?
    ensures var s := Run(hash, Empty(), steps); var c := s.calls[call];
            c.key in s.versions.at &&
            var v := s.versions.at[c.key];
            (v.state.Pending? && Continue(hash, s, call, now, None, false).versions.at[c.key].state.Available? ==>
               c.verdict.Complete? && Holds(hash, s.blobs, c.key, v.sha256, v.size, v.media))
  {
    ReachableOk(hash, steps);
    var s := Run(hash, Empty(), steps);
    assert CallOk(hash, s.versions, s.blobs, s.calls[call]);
  }
}
