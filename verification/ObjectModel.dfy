/** Immutable object versions: metadata records, provider bytes, and the calls that coordinate them.

    A put and a reconciliation pass are program counters between their repository and provider
    calls; a crash forgets the counter and nothing else. `hash` stands for the digest function. */
module ObjectModel {
  import opened Collections
  import opened Documents

  type Bytes = seq<bv8>
  type Digest = Bytes -> string
  type CallId = int

  datatype Key = Key(objectId: int, versionId: int)

  datatype VersionState = Pending | Available | Failed

  datatype Version = Version(
    purpose: string, state: VersionState, sha256: string, size: int, media: string, createdAt: int,
    providerRef: Option<Key>, availableAt: Option<int>, failure: Option<string>)

  /** `sound` says whether the provider's own record of the bytes agrees with them. */
  datatype Blob = Blob(body: Bytes, media: string, sound: bool)

  datatype Info = Info(sha256: string, size: int, media: string)

  datatype Ref = Ref(key: Key, sha256: string, size: int, media: string)

  datatype Error = NotFound | IntegrityError | VersionConflict | StateError | OtherError(code: string)

  datatype Result<+T> = Ok(value: T) | Err(error: Error)

  function Code(e: Error): string {
    match e
    case NotFound => "object.not_found"
    case IntegrityError => "object.integrity_error"
    case VersionConflict => "object.version_conflict"
    case StateError => "object.invalid_state"
    case OtherError(code) => code
  }

  function RefOf(k: Key, v: Version): Ref { Ref(k, v.sha256, v.size, v.media) }

  predicate SameContent(v: Version, sha256: string, size: int, media: string) {
    v.sha256 == sha256 && v.size == size && v.media == media
  }

  // ---- the metadata repository ----

  type Versions = Dict<Key, Version>

  function CreatePending(vs: Versions, k: Key, purpose: string, sha256: string, size: int, media: string, now: int)
    : (Versions, Result<Version>)
  {
    if k in vs.at then
      (vs, if SameContent(vs.at[k], sha256, size, media) then Ok(vs.at[k]) else Err(VersionConflict))
    else
      var v := Version(purpose, Pending, sha256, size, media, now, None, None, None);
      (vs.Put(k, v), Ok(v))
  }

  function MarkAvailable(vs: Versions, k: Key, ref: Key, now: int): (Versions, Result<Version>) {
    if k !in vs.at then (vs, Err(NotFound))
    else
      var v := vs.at[k];
      if v.state.Available? then (vs, if v.providerRef == Some(ref) then Ok(v) else Err(VersionConflict))
      else if v.state.Failed? then (vs, Err(StateError))
      else
        var w := v.(state := Available, providerRef := Some(ref), availableAt := Some(now));
        (vs.Put(k, w), Ok(w))
  }

  function MarkFailed(vs: Versions, k: Key, code: string): (Versions, Result<Version>) {
    if k !in vs.at then (vs, Err(NotFound))
    else
      var v := vs.at[k];
      if v.state.Available? then (vs, Ok(v))
      else
        var w := v.(state := Failed, failure := Some(code), providerRef := None, availableAt := None);
        (vs.Put(k, w), Ok(w))
  }

  // ---- the provider ----

  function Stat(hash: Digest, blobs: map<Key, Blob>, k: Key, glitch: Option<Error>): Result<Info> {
    if glitch.Some? then Err(glitch.value)
    else if k !in blobs then Err(NotFound)
    else if !blobs[k].sound then Err(IntegrityError)
    else Ok(Info(hash(blobs[k].body), |blobs[k].body|, blobs[k].media))
  }

  predicate InfoMatches(info: Info, sha256: string, size: int, media: string) {
    info.sha256 == sha256 && info.size == size && info.media == media
  }

  /** Writing an absent key stores the bytes; an occupied key is compared and left alone. */
  function PutIfAbsent(hash: Digest, blobs: map<Key, Blob>, u: Upload, glitch: Option<Error>, landed: bool)
    : (map<Key, Blob>, Result<Key>)
  {
    var stored := if u.key in blobs then blobs else blobs[u.key := Blob(u.body, u.media, true)];
    if glitch.Some? then (if landed then stored else blobs, Err(glitch.value))
    else if u.key !in blobs then (stored, Ok(u.key))
    else match Stat(hash, blobs, u.key, None)
      case Err(e) => (blobs, Err(e))
      case Ok(info) =>
        (blobs, if InfoMatches(info, u.sha256, u.size, u.media) then Ok(u.key) else Err(VersionConflict))
  }

  // ---- calls in flight ----

  datatype Upload = Upload(key: Key, body: Bytes, sha256: string, size: int, media: string)

  datatype Verdict = Complete | Missing | Conflict

  datatype Pass = Pass(now: int, maxAge: Option<int>, rest: seq<Key>, completed: nat, failed: nat, pending: nat,
                       visited: seq<Key>)

  datatype Call =
    | Creating(u: Upload, purpose: string)
    | Writing(u: Upload)
    | Checking(u: Upload)
    | Failing(u: Upload, code: string)
    | Publishing(u: Upload)
    | Scanning(pass: Pass)
    | Looking(pass: Pass, key: Key)
    | Marking(pass: Pass, key: Key, verdict: Verdict)

  datatype Store = Store(versions: Versions, blobs: map<Key, Blob>, calls: map<CallId, Call>, returned: set<Ref>)

  function Empty(): Store { Store(EmptyDict(), map[], map[], {}) }

  datatype Declared = Declared(sha256: Option<string>, size: Option<int>, contentType: string)

  /** The digest and size a caller vouches for, taken from the bytes where it says nothing, with the digest in lower
      case and the media type stripped and in lower case. */
  function UploadOf(hash: Digest, k: Key, body: Bytes, d: Declared): Upload {
    Upload(k, body, Lower(if d.sha256.Some? && d.sha256.value != "" then d.sha256.value else hash(body)),
           if d.size.Some? then d.size.value else |body|, Lower(Strip(d.contentType)))
  }

  predicate NormalType(contentType: string) {
    ';' !in contentType && '/' in contentType
  }

  predicate Honest(hash: Digest, u: Upload) {
    u.sha256 == hash(u.body) && u.size == |u.body|
  }

  /** What a put finds before it writes anything: a reference, a refusal, or leave to go on. */
  function Precheck(hash: Digest, vs: Versions, u: Upload): Result<Option<Ref>> {
    if !NormalType(u.media) then Err(OtherError("ValueError"))
    else if u.key in vs.at && !SameContent(vs.at[u.key], u.sha256, u.size, u.media) then Err(VersionConflict)
    else if u.key in vs.at && !Honest(hash, u) then Err(VersionConflict)
    else if u.key in vs.at && vs.at[u.key].state.Available? then Ok(Some(RefOf(u.key, vs.at[u.key])))
    else if u.key in vs.at && vs.at[u.key].state.Failed? then Err(StateError)
    else if !Honest(hash, u) then Err(IntegrityError)
    else Ok(None)
  }

  function BeginPut(hash: Digest, s: Store, call: CallId, u: Upload, purpose: string): Store {
    if call in s.calls then s
    else match Precheck(hash, s.versions, u)
      case Err(_) => s
      case Ok(Some(ref)) => s.(returned := s.returned + {ref})
      case Ok(None) => s.(calls := s.calls[call := Creating(u, purpose)])
  }

  /** A failure is recorded unless it is a conflict, which says nothing about this version. */
  function AfterError(s: Store, call: CallId, u: Upload, e: Error): Store {
    s.(calls := if e.VersionConflict? then s.calls - {call} else s.calls[call := Failing(u, Code(e))])
  }

  function CreateStep(s: Store, call: CallId, u: Upload, purpose: string, now: int): Store {
    var (vs, r) := CreatePending(s.versions, u.key, purpose, u.sha256, u.size, u.media, now);
    s.(versions := vs, calls := if r.Ok? then s.calls[call := Writing(u)] else s.calls - {call})
  }

  function WriteStep(hash: Digest, s: Store, call: CallId, u: Upload, glitch: Option<Error>, landed: bool): Store {
    var (bs, r) := PutIfAbsent(hash, s.blobs, u, glitch, landed);
    var t := s.(blobs := bs);
    if r.Err? then AfterError(t, call, u, r.error) else t.(calls := t.calls[call := Checking(u)])
  }

  function CheckStep(hash: Digest, s: Store, call: CallId, u: Upload, glitch: Option<Error>): Store {
    match Stat(hash, s.blobs, u.key, glitch)
    case Err(e) => AfterError(s, call, u, e)
    case Ok(info) =>
      if InfoMatches(info, u.sha256, u.size, u.media) then s.(calls := s.calls[call := Publishing(u)])
      else AfterError(s, call, u, IntegrityError)
  }

  function FailStep(s: Store, call: CallId, u: Upload, code: string): Store {
    s.(versions := MarkFailed(s.versions, u.key, code).0, calls := s.calls - {call})
  }

  function PublishStep(s: Store, call: CallId, u: Upload, now: int): Store {
    var (vs, r) := MarkAvailable(s.versions, u.key, u.key, now);
    s.(versions := vs, calls := s.calls - {call},
       returned := if r.Ok? then s.returned + {RefOf(u.key, r.value)} else s.returned)
  }

  function BeginReconcile(s: Store, call: CallId, now: int, maxAge: Option<int>): Store {
    if call in s.calls then s
    else s.(calls := s.calls[call := Scanning(Pass(now, maxAge, s.versions.order, 0, 0, 0, []))])
  }

  /** Whether the pass takes a record up when its turn comes. */
  predicate Eligible(v: Version, now: int, maxAge: Option<int>) {
    v.state.Pending? && (maxAge.Some? ==> v.createdAt < now - maxAge.value)
  }

  function ScanStep(s: Store, call: CallId, p: Pass): Store {
    if p.rest == [] then s.(calls := s.calls - {call})
    else
      var k, q := p.rest[0], p.(rest := p.rest[1..]);
      if k in s.versions.at && Eligible(s.versions.at[k], p.now, p.maxAge) then
        s.(calls := s.calls[call := Looking(q.(visited := q.visited + [k]), k)])
      else s.(calls := s.calls[call := Scanning(q)])
  }

  /** Where a record's bytes are looked for. */
  function Target(v: Version, k: Key): Key { if v.providerRef.Some? then v.providerRef.value else k }

  /** The provider's answer about one record; anything unexpected ends the pass. */
  function Judged(hash: Digest, blobs: map<Key, Blob>, k: Key, v: Version, glitch: Option<Error>): Result<Verdict> {
    match Stat(hash, blobs, Target(v, k), glitch)
    case Ok(info) => Ok(if InfoMatches(info, v.sha256, v.size, v.media) then Complete else Conflict)
    case Err(e) =>
      if e.NotFound? then Ok(Missing)
      else if e.IntegrityError? || e.VersionConflict? then Ok(Conflict)
      else Err(e)
  }

  function LookStep(hash: Digest, s: Store, call: CallId, p: Pass, k: Key, glitch: Option<Error>): Store {
    if k !in s.versions.at then s
    else match Judged(hash, s.blobs, k, s.versions.at[k], glitch)
      case Ok(verdict) => s.(calls := s.calls[call := Marking(p, k, verdict)])
      case Err(_) => s.(calls := s.calls - {call})
  }

  predicate Aged(v: Version, p: Pass) {
    p.maxAge.Some? && p.now - v.createdAt >= p.maxAge.value
  }

  function MarkStep(s: Store, call: CallId, p: Pass, k: Key, verdict: Verdict): Store {
    if k !in s.versions.at then s
    else match verdict
      case Complete =>
        var (vs, r) := MarkAvailable(s.versions, k, k, p.now);
        s.(versions := vs,
           calls := if r.Ok? then s.calls[call := Scanning(p.(completed := p.completed + 1))] else s.calls - {call})
      case Missing =>
        if Aged(s.versions.at[k], p) then
          s.(versions := MarkFailed(s.versions, k, "object.bytes_missing").0,
             calls := s.calls[call := Scanning(p.(failed := p.failed + 1))])
        else s.(calls := s.calls[call := Scanning(p.(pending := p.pending + 1))])
      case Conflict =>
        s.(versions := MarkFailed(s.versions, k, "object.bytes_conflict").0,
           calls := s.calls[call := Scanning(p.(failed := p.failed + 1))])
  }

  /** Reading an exact version back. */
  function Open(hash: Digest, s: Store, ref: Ref, glitch: Option<Error>): Result<Bytes> {
    if ref.key !in s.versions.at || !s.versions.at[ref.key].state.Available? then Err(NotFound)
    else
      var v := s.versions.at[ref.key];
      if !SameContent(v, ref.sha256, ref.size, ref.media) then Err(VersionConflict)
      else if v.providerRef.None? then Err(IntegrityError)
      else match Stat(hash, s.blobs, v.providerRef.value, glitch)
        case Err(e) => Err(e)
        case Ok(info) =>
          if !InfoMatches(info, ref.sha256, ref.size, ref.media) then Err(IntegrityError)
          else if v.providerRef.value !in s.blobs then Err(NotFound)
          else Ok(s.blobs[v.providerRef.value].body)
  }

  // ---- runs ----

  datatype Step =
    | DoPut(call: CallId, key: Key, body: Bytes, declared: Declared, purpose: string)
    | DoReconcile(call: CallId, at: int, maxAge: Option<int>)
    | DoContinue(call: CallId, now: int, glitch: Option<Error>, landed: bool)
    | DoCrash(call: CallId)
    | DoForeignWrite(key: Key, blob: Blob)

  function Continue(hash: Digest, s: Store, call: CallId, now: int, glitch: Option<Error>, landed: bool): Store {
    if call !in s.calls then s
    else match s.calls[call]
      case Creating(u, purpose) => CreateStep(s, call, u, purpose, now)
      case Writing(u) => WriteStep(hash, s, call, u, glitch, landed)
      case Checking(u) => CheckStep(hash, s, call, u, glitch)
      case Failing(u, code) => FailStep(s, call, u, code)
      case Publishing(u) => PublishStep(s, call, u, now)
      case Scanning(p) => ScanStep(s, call, p)
      case Looking(p, k) => LookStep(hash, s, call, p, k, glitch)
      case Marking(p, k, verdict) => MarkStep(s, call, p, k, verdict)
  }

  function Apply(hash: Digest, s: Store, step: Step): Store {
    match step
    case DoPut(call, k, body, declared, purpose) => BeginPut(hash, s, call, UploadOf(hash, k, body, declared), purpose)
    case DoReconcile(call, at, maxAge) => BeginReconcile(s, call, at, maxAge)
    case DoContinue(call, now, glitch, landed) => Continue(hash, s, call, now, glitch, landed)
    case DoCrash(call) => s.(calls := s.calls - {call})
    case DoForeignWrite(k, blob) => if k in s.blobs then s else s.(blobs := s.blobs[k := blob])
  }

  function Run(hash: Digest, s: Store, steps: seq<Step>): Store
    decreases |steps|
  {
    if steps == [] then s else Run(hash, Apply(hash, s, steps[0]), steps[1..])
  }
}
