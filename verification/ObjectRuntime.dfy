/** The versioned-object service as it is written, and what its operations do when left alone. */
module ObjectRuntime {
  import opened Collections
  import opened ObjectModel
  import opened ObjectHistory

  // ---- a put that nothing interrupts ----

  datatype Weather = Weather(write: Option<Error>, landed: bool, check: Option<Error>)

  const FAIR: Weather := Weather(None, true, None)

  function PutAlone(hash: Digest, s: Store, call: CallId, u: Upload, purpose: string, now: int, w: Weather,
                    later: int)
    : Store
  {
    var begun := BeginPut(hash, s, call, u, purpose);
    var created := Continue(hash, begun, call, now, None, false);
    var written := Continue(hash, created, call, now, w.write, w.landed);
    var checked := Continue(hash, written, call, now, w.check, false);
    Continue(hash, checked, call, later, None, false)
  }

  /** What a look at the key says about an upload. */
  function Seen(hash: Digest, blobs: map<Key, Blob>, u: Upload, check: Option<Error>): Result<Key> {
    match Stat(hash, blobs, u.key, check)
    case Err(e) => Err(e)
    case Ok(info) => if InfoMatches(info, u.sha256, u.size, u.media) then Ok(u.key) else Err(IntegrityError)
  }

  /** The provider's part of a put: write if absent, then look. */
  function Transferred(hash: Digest, blobs: map<Key, Blob>, u: Upload, w: Weather): (map<Key, Blob>, Result<Key>) {
    var (bs, wrote) := PutIfAbsent(hash, blobs, u, w.write, w.landed);
    if wrote.Err? then (bs, wrote) else (bs, Seen(hash, bs, u, w.check))
  }

  /** What is left once the provider has done its part. */
  function Concluded(vs: Versions, u: Upload, moved: Result<Key>, later: int): (Versions, Result<Ref>) {
    match moved
    case Err(e) => (if e.VersionConflict? then vs else MarkFailed(vs, u.key, Code(e)).0, Err(e))
    case Ok(ref) =>
      var (ws, r) := MarkAvailable(vs, u.key, ref, later);
      (ws, if r.Ok? then Ok(RefOf(u.key, r.value)) else Err(r.error))
  }

  function PutEffect(hash: Digest, s: Store, u: Upload, purpose: string, now: int, w: Weather, later: int)
    : (Store, Result<Ref>)
  {
    match Precheck(hash, s.versions, u)
    case Err(e) => (s, Err(e))
    case Ok(Some(ref)) => (s.(returned := s.returned + {ref}), Ok(ref))
    case Ok(None) =>
      var vs := CreatePending(s.versions, u.key, purpose, u.sha256, u.size, u.media, now).0;
      var (bs, moved) := Transferred(hash, s.blobs, u, w);
      var (ws, r) := Concluded(vs, u, moved, later);
      (s.(versions := ws, blobs := bs, returned := if r.Ok? then s.returned + {r.value} else s.returned), r)
  }

  /** The two steps after the bytes are written: looking, then recording what was seen. */
  lemma CheckPhases(hash: Digest, s: Store, call: CallId, u: Upload, now: int, check: Option<Error>, later: int)
    requires call in s.calls && s.calls[call] == Checking(u)
    ensures var seen := Seen(hash, s.blobs, u, check);
            var (ws, r) := Concluded(s.versions, u, seen, later);
            Continue(hash, Continue(hash, s, call, now, check, false), call, later, None, false) ==
            s.(versions := ws, calls := s.calls - {call},
                returned := if r.Ok? then s.returned + {r.value} else s.returned)
  {
    var checked := Continue(hash, s, call, now, check, false);
    match Seen(hash, s.blobs, u, check) {
      case Ok(_) => assert checked.calls == s.calls[call := Publishing(u)];
      case Err(e) =>
        if e.VersionConflict? {
          assert checked.calls == s.calls - {call};
        } else {
          assert checked.calls == s.calls[call := Failing(u, Code(e))];
        }
    }
  }

  lemma TransferPhases(hash: Digest, s: Store, call: CallId, u: Upload, now: int, w: Weather, later: int)
    requires call in s.calls && s.calls[call] == Writing(u)
    ensures var written := Continue(hash, s, call, now, w.write, w.landed);
            var checked := Continue(hash, written, call, now, w.check, false);
            var (bs, moved) := Transferred(hash, s.blobs, u, w);
            var (ws, r) := Concluded(s.versions, u, moved, later);
            Continue(hash, checked, call, later, None, false) ==
            s.(versions := ws, blobs := bs, calls := s.calls - {call},
               returned := if r.Ok? then s.returned + {r.value} else s.returned)
  {
    var written := Continue(hash, s, call, now, w.write, w.landed);
    var (bs, wrote) := PutIfAbsent(hash, s.blobs, u, w.write, w.landed);
    if wrote.Ok? {
      assert written == s.(blobs := bs, calls := s.calls[call := Checking(u)]);
      CheckPhases(hash, written, call, u, now, w.check, later);
      assert written.calls - {call} == s.calls - {call};
    } else if wrote.error.VersionConflict? {
      assert written == s.(blobs := bs, calls := s.calls - {call});
    } else {
      assert written == s.(blobs := bs, calls := s.calls[call := Failing(u, Code(wrote.error))]);
      assert written.calls - {call} == s.calls - {call};
    }
  }

  /** Run without interruption, the steps of a put amount to one straight pass through the service. */
  lemma PutAloneIsPut(hash: Digest, s: Store, call: CallId, u: Upload, purpose: string, now: int, w: Weather,
                      later: int)
    requires call !in s.calls
    ensures PutAlone(hash, s, call, u, purpose, now, w, later) == PutEffect(hash, s, u, purpose, now, w, later).0
  {
    if Precheck(hash, s.versions, u) == Ok(None) {
      var begun := BeginPut(hash, s, call, u, purpose);
      var created := Continue(hash, begun, call, now, None, false);
      assert created.calls == s.calls[call := Writing(u)];
      assert created.calls - {call} == s.calls;
      TransferPhases(hash, created, call, u, now, w, later);
    }
  }

  lemma PutOk(hash: Digest, s: Store, call: CallId, u: Upload, purpose: string, now: int, w: Weather, later: int)
    requires Inv(hash, s) && call !in s.calls
    ensures var t := PutEffect(hash, s, u, purpose, now, w, later).0; Inv(hash, t) && Grows(s, t)
  {
    var begun := BeginPut(hash, s, call, u, purpose);
    var created := Continue(hash, begun, call, now, None, false);
    var written := Continue(hash, created, call, now, w.write, w.landed);
    var checked := Continue(hash, written, call, now, w.check, false);
    BeginPutStep(hash, s, call, u, purpose);
    ContinueOk(hash, begun, call, now, None, false);
    ContinueOk(hash, created, call, now, w.write, w.landed);
    ContinueOk(hash, written, call, now, w.check, false);
    ContinueOk(hash, checked, call, later, None, false);
    GrowsOn(s, begun, created);
    GrowsOn(s, created, written);
    GrowsOn(s, written, checked);
    GrowsOn(s, checked, PutAlone(hash, s, call, u, purpose, now, w, later));
    PutAloneIsPut(hash, s, call, u, purpose, now, w, later);
  }

  /** What a caller can check before a put: the bytes are as declared, and nothing else is there. */
  predicate Accepts(hash: Digest, s: Store, u: Upload) {
    && NormalType(u.media) && Honest(hash, u)
    && (u.key in s.versions.at ==> Recorded(s.versions, u) && !s.versions.at[u.key].state.Failed?)
    && (u.key in s.blobs ==> Holds(hash, s.blobs, u.key, u.sha256, u.size, u.media))
  }

  /** With a provider that answers, a put returns a reference to its content exactly when it is accepted. */
  lemma PutSucceedsIff(hash: Digest, s: Store, u: Upload, purpose: string, now: int, later: int)
    requires Inv(hash, s)
    ensures var (t, r) := PutEffect(hash, s, u, purpose, now, FAIR, later);
            && (r.Ok? <==> Accepts(hash, s, u))
            && (r.Ok? ==> r.value == Ref(u.key, u.sha256, u.size, u.media) && t.returned == s.returned + {r.value})
            && (r.Err? ==> t.returned == s.returned)
  {
    if u.key in s.versions.at { assert VersionOk(hash, s.blobs, u.key, s.versions.at[u.key]); }
  }

  /** Whatever the weather, a returned reference names the content that was put and opens. */
  lemma PutReturns(hash: Digest, s: Store, u: Upload, purpose: string, now: int, w: Weather, later: int)
    requires Inv(hash, s) && 0 !in s.calls
    ensures var (t, r) := PutEffect(hash, s, u, purpose, now, w, later);
            r.Ok? ==> r.value in t.returned && r.value == Ref(u.key, u.sha256, u.size, u.media) && Honest(hash, u) &&
                      Open(hash, t, r.value, None).Ok?
  {
    var (t, r) := PutEffect(hash, s, u, purpose, now, w, later);
    if r.Ok? {
      PutOk(hash, s, 0, u, purpose, now, w, later);
      assert r.value in t.returned;
      assert ReturnedOk(t.versions, r.value);
      assert VersionOk(hash, t.blobs, u.key, t.versions.at[u.key]);
    }
  }

  /** A put is refused before anything is written for a type that is not a plain one, bytes that are not as declared, or
      a record of other content or of a failed put. */
  predicate Refuses(hash: Digest, s: Store, u: Upload) {
    || ';' in u.media || '/' !in u.media
    || u.sha256 != hash(u.body) || u.size != |u.body|
    || (u.key in s.versions.at &&
        var v := s.versions.at[u.key];
        v.state.Failed? || v.sha256 != u.sha256 || v.size != u.size || v.media != u.media)
  }

  lemma RefusedIff(hash: Digest, s: Store, u: Upload)
    requires Inv(hash, s)
    ensures Precheck(hash, s.versions, u).Err? <==> Refuses(hash, s, u)
    ensures Precheck(hash, s.versions, u) == Ok(None) ==> u.key !in s.versions.at || s.versions.at[u.key].state.Pending?
  {
  }

  /** Whatever the weather, a put that is refused changes nothing; one that goes wrong later leaves its record failed
      with the code of the error, except that a conflict leaves it pending; and no other record changes. */
  lemma FailedPutLeaves(hash: Digest, s: Store, u: Upload, purpose: string, now: int, w: Weather, later: int)
    requires Inv(hash, s)
    ensures var (t, r) := PutEffect(hash, s, u, purpose, now, w, later);
            && t.calls == s.calls
            && (forall k :: k in s.versions.at && k != u.key ==>
                  k in t.versions.at && t.versions.at[k] == s.versions.at[k])
            && (Refuses(hash, s, u) ==> r.Err? && t == s)
            && (!Refuses(hash, s, u) && r.Err? ==>
                  && u.key in t.versions.at && t.returned == s.returned
                  && var v := t.versions.at[u.key];
                     && SameContent(v, u.sha256, u.size, u.media) && v.providerRef.None? && v.availableAt.None?
                     && (if r.error == VersionConflict then
                           v.state.Pending? && (u.key in s.versions.at ==> v == s.versions.at[u.key])
                         else v.state.Failed? && v.failure == Some(Code(r.error))))
            && (r.Ok? ==> u.key in t.versions.at && t.versions.at[u.key].state.Available?)
  {
    RefusedIff(hash, s, u);
    if u.key in s.versions.at { assert VersionOk(hash, s.blobs, u.key, s.versions.at[u.key]); }
  }

  // ---- a reconciliation pass that nothing interrupts ----

  predicate Resting(s: Store, call: CallId) {
    call !in s.calls ||
    match s.calls[call]
    case Scanning(p) => p.rest == []
    case Looking(_, k) => k !in s.versions.at
    case Marking(_, k, _) => k !in s.versions.at
    case _ => true
  }

  function Left(s: Store, call: CallId): nat {
    if call !in s.calls then 0
    else match s.calls[call]
      case Scanning(p) => 3 * |p.rest|
      case Looking(p, _) => 3 * |p.rest| + 2
      case Marking(p, _, _) => 3 * |p.rest| + 1
      case _ => 0
  }

  function Advance(hash: Digest, s: Store, call: CallId, glitch: Key -> Option<Error>): Store {
    var g := if call in s.calls && s.calls[call].Looking? then glitch(s.calls[call].key) else None;
    Continue(hash, s, call, 0, g, false)
  }

  /** Running a pass to its end. */
  function Settle(hash: Digest, s: Store, call: CallId, glitch: Key -> Option<Error>): Store
    decreases Left(s, call)
  {
    if Resting(s, call) then s else Settle(hash, Advance(hash, s, call, glitch), call, glitch)
  }

  predicate Decided(hash: Digest, blobs: map<Key, Blob>, k: Key, v: Version, w: Version, now: int,
                    maxAge: Option<int>)
  {
    if !(v.state.Pending? && (maxAge.Some? ==> v.createdAt < now - maxAge.value)) then w == v
    else if Holds(hash, blobs, k, v.sha256, v.size, v.media) then
      w == v.(state := Available, providerRef := Some(k), availableAt := Some(now))
    else if k in blobs then w.state.Failed? && w.failure == Some("object.bytes_conflict")
    else if maxAge.Some? then w.state.Failed? && w.failure == Some("object.bytes_missing")
    else w == v
  }

  function Healthy(): Key -> Option<Error> { (k: Key) => None }

  /** The store after the first record of a pass has been dealt with. */
  function Visited(hash: Digest, s: Store, call: CallId, glitch: Key -> Option<Error>): Store
    requires call in s.calls && s.calls[call].Scanning? && s.calls[call].pass.rest != []
  {
    var scanned := ScanStep(s, call, s.calls[call].pass);
    if scanned.calls[call].Scanning? then scanned
    else
      var looked := Advance(hash, scanned, call, glitch);
      if call !in looked.calls then looked else Advance(hash, looked, call, glitch)
  }

  /** The two steps that judge and mark one record of a pass. */
  lemma JudgeDecides(hash: Digest, s: Store, call: CallId, p: Pass, k: Key)
    requires k in s.versions.at && Eligible(s.versions.at[k], p.now, p.maxAge) && s.versions.at[k].providerRef.None?
    requires call in s.calls && s.calls[call] == Looking(p, k)
    ensures var t := Advance(hash, Advance(hash, s, call, Healthy()), call, Healthy());
            && t.blobs == s.blobs && t.versions.at.Keys == s.versions.at.Keys
            && call in t.calls && t.calls[call].Scanning? && t.calls[call].pass.rest == p.rest
            && t.calls[call].pass.visited == p.visited
            && t.calls[call].pass.now == p.now && t.calls[call].pass.maxAge == p.maxAge
            && Decided(hash, s.blobs, k, s.versions.at[k], t.versions.at[k], p.now, p.maxAge)
            && (forall j :: j in s.versions.at && j != k ==> t.versions.at[j] == s.versions.at[j])
  {
    var v := s.versions.at[k];
    var looked := Advance(hash, s, call, Healthy());
    var verdict := if Holds(hash, s.blobs, k, v.sha256, v.size, v.media) then Complete
                   else if k in s.blobs then Conflict else Missing;
    assert looked == s.(calls := s.calls[call := Marking(p, k, verdict)]);
  }

  lemma AdvanceOk(hash: Digest, s: Store, t: Store, call: CallId, glitch: Key -> Option<Error>)
    requires Inv(hash, t) && Grows(s, t)
    ensures var u := Advance(hash, t, call, glitch); Inv(hash, u) && Grows(s, u)
  {
    var g := if call in t.calls && t.calls[call].Looking? then glitch(t.calls[call].key) else None;
    ContinueOk(hash, t, call, 0, g, false);
    GrowsOn(s, t, Continue(hash, t, call, 0, g, false));
  }

  lemma VisitOk(hash: Digest, s: Store, call: CallId, glitch: Key -> Option<Error>)
    requires Inv(hash, s) && call in s.calls && s.calls[call].Scanning? && s.calls[call].pass.rest != []
    ensures var t := Visited(hash, s, call, glitch); Inv(hash, t) && Grows(s, t)
  {
    var scanned := ScanStep(s, call, s.calls[call].pass);
    assert CallOk(hash, s.versions, s.blobs, s.calls[call]);
    ScanStepOk(hash, s, call, s.calls[call].pass);
    AdvanceOk(hash, s, scanned, call, glitch);
    AdvanceOk(hash, s, Advance(hash, scanned, call, glitch), call, glitch);
  }

  lemma VisitDecides(hash: Digest, s: Store, call: CallId)
    requires Inv(hash, s) && call in s.calls && s.calls[call].Scanning? && s.calls[call].pass.rest != []
    ensures var p := s.calls[call].pass; var k := p.rest[0]; var t := Visited(hash, s, call, Healthy());
            && t.blobs == s.blobs && t.versions.at.Keys == s.versions.at.Keys
            && call in t.calls && t.calls[call].Scanning? && t.calls[call].pass.rest == p.rest[1..]
            && t.calls[call].pass.visited ==
               (if Due(s.versions, p.now, p.maxAge)(k) then p.visited + [k] else p.visited)
            && t.calls[call].pass.now == p.now && t.calls[call].pass.maxAge == p.maxAge
            && (k in s.versions.at ==> Decided(hash, s.blobs, k, s.versions.at[k], t.versions.at[k], p.now, p.maxAge))
            && (forall j :: j in s.versions.at && j != k ==> t.versions.at[j] == s.versions.at[j])
  {
    var p := s.calls[call].pass;
    var k := p.rest[0];
    if k in s.versions.at && Eligible(s.versions.at[k], p.now, p.maxAge) {
      assert VersionOk(hash, s.blobs, k, s.versions.at[k]);
      var q := p.(rest := p.rest[1..], visited := p.visited + [k]);
      assert ScanStep(s, call, p).calls[call] == Looking(q, k);
      JudgeDecides(hash, ScanStep(s, call, p), call, q, k);
    }
  }

  lemma SettleVisits(hash: Digest, s: Store, call: CallId, glitch: Key -> Option<Error>)
    requires Inv(hash, s) && call in s.calls && s.calls[call].Scanning? && s.calls[call].pass.rest != []
    ensures Settle(hash, s, call, glitch) == Settle(hash, Visited(hash, s, call, glitch), call, glitch)
  {
    var scanned := ScanStep(s, call, s.calls[call].pass);
    assert Advance(hash, s, call, glitch) == scanned;
    if !scanned.calls[call].Scanning? {
      var looked := Advance(hash, scanned, call, glitch);
      assert Settle(hash, scanned, call, glitch) == Settle(hash, looked, call, glitch);
      if call in looked.calls {
        assert looked.calls[call].Marking?;
        assert Settle(hash, looked, call, glitch) == Settle(hash, Advance(hash, looked, call, glitch), call, glitch);
      }
    }
  }

  /** A pass decides every record it still has to see, and no other. */
  lemma {:induction false} SettleDecides(hash: Digest, s: Store, call: CallId, k: Key)
    requires Inv(hash, s) && call in s.calls && s.calls[call].Scanning? && k in s.versions.at
    requires Distinct(s.calls[call].pass.rest)
    ensures var p := s.calls[call].pass; var t := Settle(hash, s, call, Healthy());
            && call in t.calls && t.calls[call].Scanning? && t.blobs == s.blobs && k in t.versions.at
            && (if k in p.rest then Decided(hash, s.blobs, k, s.versions.at[k], t.versions.at[k], p.now, p.maxAge)
                else t.versions.at[k] == s.versions.at[k])
    decreases |s.calls[call].pass.rest|
  {
    var p := s.calls[call].pass;
    if p.rest == [] {
    } else {
      var t := Visited(hash, s, call, Healthy());
      VisitOk(hash, s, call, Healthy());
      VisitDecides(hash, s, call);
      SettleVisits(hash, s, call, Healthy());
      assert k in t.versions.at.Keys;
      assert p.rest == [p.rest[0]] + p.rest[1..];
      SettleDecides(hash, t, call, k);
    }
  }

  /** One quiet pass: exact bytes are completed, wrong ones failed, missing ones failed once old enough. */
  lemma ReconcileDecides(hash: Digest, s: Store, call: CallId, now: int, maxAge: Option<int>, k: Key)
    requires Inv(hash, s) && call !in s.calls && k in s.versions.at
    ensures var t := Settle(hash, BeginReconcile(s, call, now, maxAge), call, Healthy());
            && t.blobs == s.blobs && k in t.versions.at
            && Decided(hash, s.blobs, k, s.versions.at[k], t.versions.at[k], now, maxAge)
            && (maxAge.Some? && s.versions.at[k].createdAt < now - maxAge.value ==> !t.versions.at[k].state.Pending?)
  {
    var b := BeginReconcile(s, call, now, maxAge);
    BeginReconcileStep(hash, s, call, now, maxAge);
    assert k in s.versions.order;
    SettleDecides(hash, b, call, k);
  }

  lemma AdvanceLeavesBytes(hash: Digest, s: Store, call: CallId, glitch: Key -> Option<Error>)
    requires call in s.calls ==> s.calls[call].Scanning? || s.calls[call].Looking? || s.calls[call].Marking?
    ensures var t := Advance(hash, s, call, glitch);
            && t.blobs == s.blobs && t.returned == s.returned
            && (call in t.calls ==> t.calls[call].Scanning? || t.calls[call].Looking? || t.calls[call].Marking?)
  {
  }

  lemma VisitLeavesBytes(hash: Digest, s: Store, call: CallId, glitch: Key -> Option<Error>)
    requires call in s.calls && s.calls[call].Scanning? && s.calls[call].pass.rest != []
    ensures var t := Visited(hash, s, call, glitch); t.blobs == s.blobs && t.returned == s.returned
  {
    var scanned := ScanStep(s, call, s.calls[call].pass);
    AdvanceLeavesBytes(hash, scanned, call, glitch);
    AdvanceLeavesBytes(hash, Advance(hash, scanned, call, glitch), call, glitch);
  }

  /** One turn of a pass that began at `before`. */
  lemma TurnKeeps(hash: Digest, before: Store, here: Store, glitch: Key -> Option<Error>)
    requires Inv(hash, here) && Grows(before, here) && here.calls.Keys == {0} && here.calls[0].Scanning? &&
               here.calls[0].pass.rest != []
    ensures var t := Visited(hash, here, 0, glitch);
            && Inv(hash, t) && Grows(before, t) && Inv(hash, t.(calls := map[]))
            && t.blobs == here.blobs && t.returned == here.returned
            && Settle(hash, here, 0, glitch) == Settle(hash, t, 0, glitch)
  {
    var t := Visited(hash, here, 0, glitch);
    assert 0 in here.calls.Keys;
    VisitOk(hash, here, 0, glitch);
    VisitLeavesBytes(hash, here, 0, glitch);
    SettleVisits(hash, here, 0, glitch);
    GrowsOn(before, here, t);
    CallsMayGo(hash, t);
  }

  lemma CallsMayGo(hash: Digest, s: Store)
    requires Inv(hash, s)
    ensures Inv(hash, s.(calls := map[]))
  {
  }

  /** The records a pass takes up. */
  function Due(vs: Versions, now: int, maxAge: Option<int>): Key -> bool {
    (k: Key) => k in vs.at && Eligible(vs.at[k], now, maxAge)
  }

  /** The counters of a quiet pass add up to the records that were due when it began. */
  lemma PassCountsDue(hash: Digest, s: Store, call: CallId, now: int, maxAge: Option<int>)
    requires Inv(hash, s) && call !in s.calls
    ensures var t := Settle(hash, BeginReconcile(s, call, now, maxAge), call, Healthy());
            && call in t.calls && t.calls[call].Scanning?
            && var p := t.calls[call].pass;
               p.completed + p.failed + p.pending == |Filter(s.versions.order, Due(s.versions, now, maxAge))|
  {
    BeginReconcileStep(hash, s, call, now, maxAge);
    SettleCounts(hash, BeginReconcile(s, call, now, maxAge), call);
  }

  lemma {:induction false} SettleCounts(hash: Digest, s: Store, call: CallId)
    requires Inv(hash, s) && call in s.calls && s.calls[call].Scanning? && Distinct(s.calls[call].pass.rest)
    ensures var p := s.calls[call].pass; var t := Settle(hash, s, call, Healthy());
            && call in t.calls && t.calls[call].Scanning?
            && var q := t.calls[call].pass;
               q.completed + q.failed + q.pending == |p.visited| + |Filter(p.rest, Due(s.versions, p.now, p.maxAge))|
    decreases |s.calls[call].pass.rest|
  {
    var p := s.calls[call].pass;
    assert CallOk(hash, s.versions, s.blobs, s.calls[call]);
    if p.rest == [] {
    } else {
      var t := Visited(hash, s, call, Healthy());
      VisitOk(hash, s, call, Healthy());
      VisitDecides(hash, s, call);
      SettleVisits(hash, s, call, Healthy());
      SettleCounts(hash, t, call);
      forall k | k in p.rest[1..] ensures Due(t.versions, p.now, p.maxAge)(k) == Due(s.versions, p.now, p.maxAge)(k) {
        assert k in t.versions.at.Keys <==> k in s.versions.at.Keys;
      }
      FilterAgree(p.rest[1..], Due(t.versions, p.now, p.maxAge), Due(s.versions, p.now, p.maxAge));
    }
  }

  // ---- the service ----

  datatype Tally = Tally(completed: nat, failed: nat, pending: nat)

  function TallyOf(p: Pass): Tally { Tally(p.completed, p.failed, p.pending) }

  class VersionedObjects {
    const hash: Digest
    var versions: Versions
    var blobs: map<Key, Blob>
    ghost var returned: set<Ref>

    ghost function St(): Store
      reads this
    {
      Store(versions, blobs, map[], returned)
    }

    ghost predicate Valid()
      reads this
    {
      Inv(hash, St())
    }

    constructor (hash: Digest)
      ensures Valid() && St() == Empty() && this.hash == hash
    {
      this.hash := hash;
      versions, blobs, returned := EmptyDict(), map[], {};
    }

    method MarkFailedRecord(k: Key, code: string) returns (r: Result<Version>)
      modifies this`versions
      ensures (versions, r) == MarkFailed(old(versions), k, code)
    {
      if k !in versions.at { return Err(NotFound); }
      var v := versions.at[k];
      if v.state.Available? { return Ok(v); }
      v := v.(state := Failed, failure := Some(code), providerRef := None, availableAt := None);
      versions := versions.Put(k, v);
      r := Ok(v);
    }

    method MarkAvailableRecord(k: Key, ref: Key, now: int) returns (r: Result<Version>)
      modifies this`versions
      ensures (versions, r) == MarkAvailable(old(versions), k, ref, now)
    {
      if k !in versions.at { return Err(NotFound); }
      var v := versions.at[k];
      if v.state.Available? {
        return if v.providerRef == Some(ref) then Ok(v) else Err(VersionConflict);
      }
      if v.state.Failed? { return Err(StateError); }
      v := v.(state := Available, providerRef := Some(ref), availableAt := Some(now));
      versions := versions.Put(k, v);
      r := Ok(v);
    }

    method CreatePendingRecord(k: Key, purpose: string, sha256: string, size: int, media: string, now: int)
      returns (r: Result<Version>)
      modifies this`versions
      ensures (versions, r) == CreatePending(old(versions), k, purpose, sha256, size, media, now)
    {
      if k in versions.at {
        return if SameContent(versions.at[k], sha256, size, media) then Ok(versions.at[k]) else Err(VersionConflict);
      }
      var v := Version(purpose, Pending, sha256, size, media, now, None, None, None);
      versions := versions.Put(k, v);
      r := Ok(v);
    }

    /** The provider steps of a put; an error here leaves the record to be failed or kept by the caller. */
    method Transfer(u: Upload, w: Weather) returns (r: Result<Key>)
      modifies this`blobs
      ensures (blobs, r) == Transferred(hash, old(blobs), u, w)
    {
      var (bs, wrote) := PutIfAbsent(hash, blobs, u, w.write, w.landed);
      blobs := bs;
      if wrote.Err? { return wrote; }
      match Stat(hash, blobs, u.key, w.check) {
        case Err(e) => return Err(e);
        case Ok(info) =>
          if !InfoMatches(info, u.sha256, u.size, u.media) { return Err(IntegrityError); }
      }
      r := wrote;
    }

    method Write(u: Upload, purpose: string, now: int, w: Weather, later: int) returns (r: Result<Ref>)
      modifies this
      ensures (St(), r) == PutEffect(hash, old(St()), u, purpose, now, w, later)
    {
      var found := Precheck(hash, versions, u);
      if found.Err? { return Err(found.error); }
      if found.value.Some? {
        returned := returned + {found.value.value};
        return Ok(found.value.value);
      }
      var created := CreatePendingRecord(u.key, purpose, u.sha256, u.size, u.media, now);
      var moved := Transfer(u, w);
      if moved.Err? {
        if !moved.error.VersionConflict? {
          var failed := MarkFailedRecord(u.key, Code(moved.error));
        }
        return Err(moved.error);
      }
      var published := MarkAvailableRecord(u.key, moved.value, later);
      if published.Err? { return Err(published.error); }
      returned := returned + {RefOf(u.key, published.value)};
      r := Ok(RefOf(u.key, published.value));
    }

    /** A reference that comes back opens at once, to bytes of the digest and size that were put. */
    method Put(k: Key, body: Bytes, declared: Declared, purpose: string, now: int, w: Weather, later: int)
      returns (r: Result<Ref>)
      requires Valid()
      modifies this
      ensures Valid() && Grows(old(St()), St())
      ensures (St(), r) == PutEffect(hash, old(St()), UploadOf(hash, k, body, declared), purpose, now, w, later)
      ensures r.Ok? ==> r.value in returned && Open(hash, St(), r.value, None).Ok?
      ensures r.Ok? ==> r.value.sha256 == hash(body) && r.value.size == |body|
      ensures w == FAIR ==> (r.Ok? <==> Accepts(hash, old(St()), UploadOf(hash, k, body, declared)))
    {
      var u := UploadOf(hash, k, body, declared);
      PutOk(hash, St(), 0, u, purpose, now, w, later);
      PutSucceedsIff(hash, St(), u, purpose, now, later);
      PutReturns(hash, St(), u, purpose, now, w, later);
      r := Write(u, purpose, now, w, later);
    }

    method OpenRef(ref: Ref, glitch: Option<Error>) returns (r: Result<Bytes>)
      requires Valid()
      ensures r == Open(hash, St(), ref, glitch)
      ensures r.Ok? ==> hash(r.value) == ref.sha256 && |r.value| == ref.size
      ensures ref in returned && glitch.None? ==> r.Ok?
    {
      if ref in returned { assert ReturnedOk(versions, ref); }
      if ref.key !in versions.at || !versions.at[ref.key].state.Available? { return Err(NotFound); }
      var v := versions.at[ref.key];
      assert VersionOk(hash, blobs, ref.key, v);
      if !SameContent(v, ref.sha256, ref.size, ref.media) { return Err(VersionConflict); }
      match Stat(hash, blobs, v.providerRef.value, glitch) {
        case Err(e) => return Err(e);
        case Ok(info) =>
          if !InfoMatches(info, ref.sha256, ref.size, ref.media) { return Err(IntegrityError); }
      }
      r := Ok(blobs[v.providerRef.value].body);
    }

    ghost function During(p: Pass): Store
      reads this
    {
      St().(calls := map[0 := Scanning(p)])
    }

    method Mark(k: Key, verdict: Verdict, now: int, maxAge: Option<int>, tally: Tally, ghost p: Pass)
      returns (r: Result<Tally>, ghost q: Pass)
      requires k in versions.at && p.now == now && p.maxAge == maxAge && tally == TallyOf(p)
      modifies this`versions
      ensures var t := MarkStep(old(St()).(calls := map[0 := Marking(p, k, verdict)]), 0, p, k, verdict);
              versions == t.versions &&
              if r.Ok? then t.calls == map[0 := Scanning(q)] && r.value == TallyOf(q) &&
                            q.rest == p.rest && q.now == now && q.maxAge == maxAge
              else 0 !in t.calls
    {
      q := p;
      match verdict {
        case Complete =>
          var marked := MarkAvailableRecord(k, k, now);
          if marked.Err? { return Err(marked.error), q; }
          r, q := Ok(tally.(completed := tally.completed + 1)), q.(completed := q.completed + 1);
        case Missing =>
          if maxAge.Some? && now - versions.at[k].createdAt >= maxAge.value {
            var failed := MarkFailedRecord(k, "object.bytes_missing");
            r, q := Ok(tally.(failed := tally.failed + 1)), q.(failed := q.failed + 1);
          } else {
            r, q := Ok(tally.(pending := tally.pending + 1)), q.(pending := q.pending + 1);
          }
        case Conflict =>
          var failed := MarkFailedRecord(k, "object.bytes_conflict");
          r, q := Ok(tally.(failed := tally.failed + 1)), q.(failed := q.failed + 1);
      }
    }

    /** One turn of a pass: the counters after it, or the error that ends the pass. */
    method Visit(k: Key, now: int, maxAge: Option<int>, glitch: Key -> Option<Error>, tally: Tally, ghost p: Pass)
      returns (r: Result<Tally>, ghost q: Pass)
      requires p.rest != [] && p.rest[0] == k && p.now == now && p.maxAge == maxAge
      requires tally == TallyOf(p)
      modifies this`versions
      ensures var t := Visited(hash, old(During(p)), 0, glitch);
              versions == t.versions &&
              if r.Ok? then t.calls == map[0 := Scanning(q)] && r.value == TallyOf(q) &&
                            q.rest == p.rest[1..] && q.now == now && q.maxAge == maxAge
              else t.calls == map[]
    {
      q := p.(rest := p.rest[1..]);
      if k !in versions.at || !Eligible(versions.at[k], now, maxAge) { return Ok(tally), q; }
      q := q.(visited := p.visited + [k]);
      var verdict := Judged(hash, blobs, k, versions.at[k], glitch(k));
      if verdict.Err? { return Err(verdict.error), q; }
      ghost var looked := St().(calls := map[0 := Marking(q, k, verdict.value)]);
      assert Advance(hash, ScanStep(During(p), 0, p), 0, glitch) == looked;
      r, q := Mark(k, verdict.value, now, maxAge, tally, q);
    }

    method RunPass(now: int, maxAge: Option<int>, glitch: Key -> Option<Error>) returns (r: Result<Tally>)
      requires Valid()
      modifies this`versions
      ensures Valid() && Grows(old(St()), St())
      ensures var t := Settle(hash, BeginReconcile(old(St()), 0, now, maxAge), 0, glitch);
              && versions == t.versions && (r.Ok? <==> 0 in t.calls)
              && (r.Ok? ==> t.calls[0].Scanning? && r.value == TallyOf(t.calls[0].pass))
      ensures r.Ok? && maxAge.Some? ==> r.value.pending == 0
    {
      var order := versions.order;
      var tally := Tally(0, 0, 0);
      ghost var start := BeginReconcile(St(), 0, now, maxAge);
      ghost var p := Pass(now, maxAge, order, 0, 0, 0, []);
      ghost var before := St();
      BeginReconcileStep(hash, St(), 0, now, maxAge);
      assert start == During(p);
      var i := 0;
      while i < |order|
        invariant 0 <= i <= |order| && p.rest == order[i..] && p.now == now && p.maxAge == maxAge
        invariant tally == TallyOf(p)
        invariant Inv(hash, During(p)) && Grows(before, During(p)) && Valid()
        invariant Settle(hash, start, 0, glitch) == Settle(hash, During(p), 0, glitch)
      {
        ghost var there := Visited(hash, During(p), 0, glitch);
        TurnKeeps(hash, before, During(p), glitch);
        var turn, q := Visit(order[i], now, maxAge, glitch, tally, p);
        assert St() == there.(calls := map[]);
        if turn.Err? { return Err(turn.error); }
        assert During(q) == there;
        p, tally := q, turn.value;
        i := i + 1;
      }
      assert CallOk(hash, versions, blobs, During(p).calls[0]);
      r := Ok(tally);
    }

    /** A pass against a provider that answers decides every record by what the provider holds. */
    method ReconcilePending(now: int, maxAge: Option<int>, glitch: Key -> Option<Error>) returns (r: Result<Tally>)
      requires Valid()
      modifies this`versions
      ensures Valid() && Grows(old(St()), St())
      ensures r.Ok? && maxAge.Some? ==> r.value.pending == 0
      ensures glitch == Healthy() ==>
                && r.Ok?
                && r.value.completed + r.value.failed + r.value.pending ==
                    |Filter(old(versions).order, Due(old(versions), now, maxAge))|
                && forall k :: k in old(versions).at ==>
                  k in versions.at && Decided(hash, blobs, k, old(versions).at[k], versions.at[k], now, maxAge)
    {
      ghost var before := St();
      r := RunPass(now, maxAge, glitch);
      if glitch == Healthy() {
        PassCountsDue(hash, before, 0, now, maxAge);
        forall k | k in before.versions.at
          ensures k in versions.at && Decided(hash, blobs, k, before.versions.at[k], versions.at[k], now, maxAge)
        {
          ReconcileDecides(hash, before, 0, now, maxAge, k);
        }
      }
    }
  }
}
