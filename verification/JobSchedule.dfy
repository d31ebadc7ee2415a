/** Scheduler ticks at one instant: how many fire, what they submit, and what stops them. */
module JobSchedule {
  import opened Collections
  import opened JobModel
  import opened JobInvariant

  /** Planned instants from `next` by `step` that are not after `now`. */
  function PlannedUntil(next: int, step: int, now: int): (n: nat)
    requires step > 0
    decreases now - next + 1
  {
    if next > now then 0 else 1 + PlannedUntil(next + step, step, now)
  }

  lemma {:induction false} PlannedBracket(next: int, step: int, now: int)
    requires step > 0 && next <= now
    ensures var n := PlannedUntil(next, step, now); 1 <= n && (n - 1) * step <= now - next < n * step
    decreases now - next
  {
    var n := PlannedUntil(next, step, now);
    if next + step <= now {
      PlannedBracket(next + step, step, now);
      assert (n - 1) * step == (n - 2) * step + step && n * step == (n - 1) * step + step;
    } else {
      assert PlannedUntil(next + step, step, now) == 0;
    }
  }

  lemma ProductGrows(a: int, b: int, step: int)
    requires a < b && 0 < step
    ensures a * step + step <= b * step
  {
    TimesSum(a, b - a, step);
    TimesSum(1, b - a - 1, step);
    TimesNonNegative(b - a - 1, step);
  }

  lemma TimesSum(x: int, y: int, z: int)
    ensures (x + y) * z == x * z + y * z
  {
  }

  lemma TimesNonNegative(x: int, z: int)
    requires 0 <= x && 0 <= z
    ensures 0 <= x * z
  {
  }

  lemma QuotientFromBracket(x: int, q: int, step: int)
    requires 0 < step && q * step <= x < q * step + step
    ensures x / step == q
  {
    var d, r := x / step, x % step;
    assert x == d * step + r;
    if d < q { ProductGrows(d, q, step); } else if q < d { ProductGrows(q, d, step); }
  }

  /** The number of planned instants is floor((now - next) / step) + 1 once the first is due. */
  lemma PlannedIsQuotient(next: int, step: int, now: int)
    requires step > 0 && next <= now
    ensures PlannedUntil(next, step, now) == (now - next) / step + 1
  {
    var n := PlannedUntil(next, step, now);
    PlannedBracket(next, step, now);
    assert n * step == (n - 1) * step + step;
    QuotientFromBracket(now - next, n - 1, step);
  }

  function Occurrences(c: Schedule, now: int): nat
    requires ValidKind(c.kind)
  {
    if !c.enabled || c.nextRunAt > now then 0
    else match c.kind
      case OneShot => 1
      case FixedInterval(seconds) => PlannedUntil(c.nextRunAt, Seconds(seconds), now)
  }

  lemma AdvancingUsesOne(c: Schedule, now: int)
    requires ValidKind(c.kind) && c.enabled && c.nextRunAt <= now
    ensures ValidKind(Advanced(c).kind)
    ensures Occurrences(c, now) == Occurrences(Advanced(c), now) + 1
  {
    if c.kind.FixedInterval? {
      var step := Seconds(c.kind.seconds);
      assert PlannedUntil(c.nextRunAt, step, now) == 1 + PlannedUntil(c.nextRunAt + step, step, now);
    }
  }

  ghost predicate KindsOk(s: State) {
    forall id :: id in s.schedules.at ==> ValidKind(s.schedules.at[id].kind)
  }

  predicate Refused(cfg: Config, s: State, id: Id) {
    ScheduleDue(s, id) && !Submittable(cfg, id, s.schedules.at[id])
  }

  /** Occurrences due before the first due schedule whose submission is refused. */
  ghost function Backlog(cfg: Config, s: State, order: seq<Id>): nat
    requires KindsOk(s) && forall id :: id in order ==> id in s.schedules.at
  {
    if order == [] || Refused(cfg, s, order[0]) then 0
    else
      assert forall id :: id in order[1..] ==> id in order;
      Occurrences(s.schedules.at[order[0]], s.now) + Backlog(cfg, s, order[1..])
  }

  predicate Blocked(cfg: Config, s: State, order: seq<Id>) {
    order != [] && (Refused(cfg, s, order[0]) || Blocked(cfg, s, order[1..]))
  }

  /** Whether a schedule's submissions are accepted does not depend on which occurrence is due. */
  lemma SubmittableIsStatic(cfg: Config, id: Id, c: Schedule, c': Schedule)
    requires c'.jobType == c.jobType && c'.target == c.target && c'.maxAttempts == c.maxAttempts
    ensures Submittable(cfg, id, c) == Submittable(cfg, id, c')
    ensures ScheduleIdentity(cfg, id, c, c.nextRunAt).Some? ==>
              ScheduleIdentity(cfg, id, c, c.nextRunAt).value.key == ScheduleKey(id, CanonicalSecond(c.nextRunAt))
  {
  }

  ghost predicate OnlyAdvanced(s: State, s': State, id: Id) {
    && id in s.schedules.at && s'.now == s.now
    && s'.schedules.at == s.schedules.at[id := Advanced(s.schedules.at[id])]
  }

  lemma {:induction false} BacklogElsewhere(cfg: Config, s: State, s': State, order: seq<Id>, id: Id)
    requires KindsOk(s) && KindsOk(s') && OnlyAdvanced(s, s', id) && id !in order
    requires forall j :: j in order ==> j in s.schedules.at
    ensures Backlog(cfg, s', order) == Backlog(cfg, s, order)
    ensures Blocked(cfg, s', order) == Blocked(cfg, s, order)
  {
    if order == [] {
    } else {
      assert order[0] in order;
      forall j | j in order[1..] ensures j in order {}
      BacklogElsewhere(cfg, s, s', order[1..], id);
    }
  }

  lemma {:induction false} FirstDueIsDue(s: State, order: seq<Id>)
    ensures FirstDue(s, order).Some? ==> FirstDue(s, order).value in order && ScheduleDue(s, FirstDue(s, order).value)
  {
    if order == [] {
    } else {
      FirstDueIsDue(s, order[1..]);
    }
  }

  /** Firing the first due schedule uses up exactly one occurrence of the backlog. */
  lemma {:induction false} BacklogDrops(cfg: Config, s: State, s': State, order: seq<Id>, id: Id)
    requires KindsOk(s) && KindsOk(s') && OnlyAdvanced(s, s', id) && Distinct(order)
    requires forall j :: j in order ==> j in s.schedules.at
    requires FirstDue(s, order) == Some(id) && Submittable(cfg, id, s.schedules.at[id])
    ensures Backlog(cfg, s, order) == Backlog(cfg, s', order) + 1
    ensures Blocked(cfg, s', order) == Blocked(cfg, s, order)
  {
    forall j | j in order[1..] ensures j in order && j != order[0] {}
    assert order[0] in order;
    if ScheduleDue(s, order[0]) {
      SubmittableIsStatic(cfg, id, s.schedules.at[id], s'.schedules.at[id]);
      AdvancingUsesOne(s.schedules.at[id], s.now);
      BacklogElsewhere(cfg, s, s', order[1..], id);
    } else {
      FirstDueIsDue(s, order[1..]);
      BacklogDrops(cfg, s, s', order[1..], id);
    }
  }

  lemma {:induction false} NoBacklog(cfg: Config, s: State, order: seq<Id>)
    requires KindsOk(s) && forall j :: j in order ==> j in s.schedules.at
    ensures FirstDue(s, order).Some? ==> FirstDue(s, order).value in order && ScheduleDue(s, FirstDue(s, order).value)
    ensures Backlog(cfg, s, order) == 0 <==>
              FirstDue(s, order).None? || Refused(cfg, s, FirstDue(s, order).value)
    ensures Backlog(cfg, s, order) == 0 ==> (Blocked(cfg, s, order) <==> FirstDue(s, order).Some?)
  {
    if order == [] {
    } else {
      assert order[0] in order;
      forall j | j in order[1..] ensures j in order {}
      NoBacklog(cfg, s, order[1..]);
    }
  }

  ghost function DueCount(cfg: Config, s: State): nat
    requires Inv(s)
  {
    assert forall id :: id in s.schedules.order ==> id in s.schedules.at;
    Backlog(cfg, s, s.schedules.order)
  }

  predicate Stuck(cfg: Config, s: State) { Blocked(cfg, s, s.schedules.order) }

  /** One tick: it fires while there is backlog and uses up one occurrence; with none left it
      returns 0, or raises if a due schedule is refused, and changes nothing either way. */
  lemma TickMeaning(cfg: Config, s: State, correlation: Id, newId: Id)
    requires Inv(s) && newId !in s.executions.at
    ensures Inv(Tick(cfg, s, correlation, newId))
    ensures Tick(cfg, s, correlation, newId).schedules.order == s.schedules.order
    ensures Stuck(cfg, Tick(cfg, s, correlation, newId)) == Stuck(cfg, s)
    ensures DueCount(cfg, s) > 0 ==>
              && TickReturns(cfg, s) == Ticked(1)
              && DueCount(cfg, Tick(cfg, s, correlation, newId)) == DueCount(cfg, s) - 1
    ensures DueCount(cfg, s) == 0 ==>
              && TickReturns(cfg, s) == (if Stuck(cfg, s) then TickRaised else Ticked(0))
              && Tick(cfg, s, correlation, newId) == s
  {
    TickInv(cfg, s, correlation, newId);
    var order := s.schedules.order;
    NoBacklog(cfg, s, order);
    if DueCount(cfg, s) > 0 {
      var id := FirstDue(s, order).value;
      BacklogDrops(cfg, s, Tick(cfg, s, correlation, newId), order, id);
    }
  }

  // ---- repeated ticks ----

  /** Identifiers a run of ticks may use: one per tick, none in use. */
  ghost predicate FreshIds(s: State, ids: seq<Id>) {
    Distinct(ids) && forall id :: id in ids ==> id !in s.executions.at
  }

  function Ticks(cfg: Config, s: State, ids: seq<Id>): State
    decreases |ids|
  {
    if ids == [] then s else Ticks(cfg, Tick(cfg, s, ids[0], ids[0]), ids[1..])
  }

  /** How many of those ticks returned 1. */
  function Fired(cfg: Config, s: State, ids: seq<Id>): nat
    decreases |ids|
  {
    if ids == [] then 0
    else (if TickReturns(cfg, s) == Ticked(1) then 1 else 0) + Fired(cfg, Tick(cfg, s, ids[0], ids[0]), ids[1..])
  }

  lemma TickIds(cfg: Config, s: State, ids: seq<Id>)
    requires ids != [] && FreshIds(s, ids)
    ensures FreshIds(Tick(cfg, s, ids[0], ids[0]), ids[1..])
  {
    var s' := Tick(cfg, s, ids[0], ids[0]);
    assert s'.executions.at.Keys <= s.executions.at.Keys + {ids[0]};
    forall id | id in ids[1..] ensures id !in s'.executions.at { assert id in ids && id != ids[0]; }
  }

  lemma {:induction false} TicksKeepStuck(cfg: Config, s: State, ids: seq<Id>)
    requires Inv(s) && FreshIds(s, ids)
    ensures Inv(Ticks(cfg, s, ids)) && Stuck(cfg, Ticks(cfg, s, ids)) == Stuck(cfg, s)
    decreases |ids|
  {
    if ids == [] {
    } else {
      assert ids[0] in ids;
      TickMeaning(cfg, s, ids[0], ids[0]);
      TickIds(cfg, s, ids);
      TicksKeepStuck(cfg, Tick(cfg, s, ids[0], ids[0]), ids[1..]);
    }
  }

  lemma {:induction false} TicksFire(cfg: Config, s: State, ids: seq<Id>)
    requires Inv(s) && FreshIds(s, ids)
    ensures Fired(cfg, s, ids) == Min(|ids|, DueCount(cfg, s))
    decreases |ids|
  {
    if ids == [] {
    } else {
      assert ids[0] in ids;
      TickMeaning(cfg, s, ids[0], ids[0]);
      TickIds(cfg, s, ids);
      TicksFire(cfg, Tick(cfg, s, ids[0], ids[0]), ids[1..]);
    }
  }

  lemma {:induction false} TicksLowerTheBacklog(cfg: Config, s: State, ids: seq<Id>)
    requires Inv(s) && FreshIds(s, ids) && Inv(Ticks(cfg, s, ids))
    ensures DueCount(cfg, Ticks(cfg, s, ids)) == Max(0, DueCount(cfg, s) - |ids|)
    decreases |ids|
  {
    if ids == [] {
    } else {
      assert ids[0] in ids;
      TickMeaning(cfg, s, ids[0], ids[0]);
      TickIds(cfg, s, ids);
      TicksLowerTheBacklog(cfg, Tick(cfg, s, ids[0], ids[0]), ids[1..]);
    }
  }

  /** Ticks repeated at one instant fire exactly min(ticks, backlog) times. */
  lemma TicksFireTheBacklog(cfg: Config, s: State, ids: seq<Id>)
    requires Inv(s) && FreshIds(s, ids)
    ensures Inv(Ticks(cfg, s, ids))
    ensures Fired(cfg, s, ids) == Min(|ids|, DueCount(cfg, s))
    ensures DueCount(cfg, Ticks(cfg, s, ids)) == DueCount(cfg, s) - Fired(cfg, s, ids)
    ensures Stuck(cfg, Ticks(cfg, s, ids)) == Stuck(cfg, s)
  {
    TicksKeepStuck(cfg, s, ids);
    TicksFire(cfg, s, ids);
    TicksLowerTheBacklog(cfg, s, ids);
  }

  /** Once the backlog is used up, a further tick returns 0 if and only if no due schedule is refused. */
  lemma TicksThenSettle(cfg: Config, s: State, ids: seq<Id>)
    requires Inv(s) && FreshIds(s, ids) && DueCount(cfg, s) <= |ids|
    ensures TickReturns(cfg, Ticks(cfg, s, ids)) == (if Stuck(cfg, s) then TickRaised else Ticked(0))
  {
    TicksFireTheBacklog(cfg, s, ids);
    var s' := Ticks(cfg, s, ids);
    NoBacklog(cfg, s', s'.schedules.order);
  }

  /** A registry without handlers and one due one-shot schedule: the tick raises, and so does every later one. */
  function Unregistered(): Config {
    Config(30, Some(map[]), (t: string) => Some(t), (t: string) => Some(t))
  }

  function OneShotDue(): State {
    AddSchedule(Initial(0), 1, Schedule("nobody", "t", OneShot, 0, 1, true, None))
  }

  lemma UnregisteredScheduleRaises(ids: seq<Id>)
    requires Distinct(ids)
    ensures TickReturns(Unregistered(), Ticks(Unregistered(), OneShotDue(), ids)) == TickRaised
  {
    var s := OneShotDue();
    ScheduleInv(Initial(0), 1, Schedule("nobody", "t", OneShot, 0, 1, true, None));
    assert s.schedules.order == [1];
    assert FirstDue(s, [1]) == Some(1);
    assert Refused(Unregistered(), s, 1) && Blocked(Unregistered(), s, [1]);
    TicksThenSettle(Unregistered(), s, ids);
  }

  // ---- what the ticks submit ----

  /** The identities submitted by the firing ticks, in order. */
  function Planned(cfg: Config, s: State, ids: seq<Id>): seq<Identity>
    decreases |ids|
  {
    if ids == [] then []
    else PlannedNow(cfg, s) + Planned(cfg, Tick(cfg, s, ids[0], ids[0]), ids[1..])
  }

  function PlannedNow(cfg: Config, s: State): seq<Identity> {
    match FirstDue(s, s.schedules.order)
    case None => []
    case Some(id) =>
      if id in s.schedules.at && Submittable(cfg, id, s.schedules.at[id])
      then [ScheduleIdentity(cfg, id, s.schedules.at[id], s.schedules.at[id].nextRunAt).value] else []
  }

  /** An identity a later tick can still plan: an enabled schedule, not before its next second. */
  ghost predicate Ahead(s: State, p: Identity) {
    p.key.ScheduleKey? && p.key.schedule in s.schedules.at &&
    var c := s.schedules.at[p.key.schedule];
    c.enabled && CanonicalSecond(c.nextRunAt) <= p.key.second
  }

  lemma TickKinds(cfg: Config, s: State, newId: Id)
    requires KindsOk(s)
    ensures KindsOk(Tick(cfg, s, newId, newId))
  {
  }

  lemma AheadMovesOn(cfg: Config, s: State, newId: Id, p: Identity)
    requires KindsOk(s) && newId !in s.executions.at
    requires Ahead(Tick(cfg, s, newId, newId), p)
    ensures Ahead(s, p) && p !in PlannedNow(cfg, s)
  {
    FirstDueIsDue(s, s.schedules.order);
    if PlannedNow(cfg, s) != [] {
      var id := FirstDue(s, s.schedules.order).value;
      var c := s.schedules.at[id];
      SubmittableIsStatic(cfg, id, c, c);
      assert ValidKind(c.kind);
    }
  }

  lemma PlannedNowAhead(cfg: Config, s: State)
    ensures |PlannedNow(cfg, s)| <= 1
    ensures forall p :: p in PlannedNow(cfg, s) ==> Ahead(s, p)
  {
    FirstDueIsDue(s, s.schedules.order);
    if PlannedNow(cfg, s) != [] {
      var id := FirstDue(s, s.schedules.order).value;
      SubmittableIsStatic(cfg, id, s.schedules.at[id], s.schedules.at[id]);
    }
  }

  lemma DistinctJoin<T>(a: seq<T>, b: seq<T>)
    requires |a| <= 1 && Distinct(b) && forall x :: x in b ==> x !in a
    ensures Distinct(a + b)
  {
    forall i, j | 0 <= i < j < |a + b| ensures (a + b)[i] != (a + b)[j] {
      if i < |a| { assert b[j - |a|] in b; } else { assert b[i - |a|] != b[j - |a|]; }
    }
  }

  lemma {:induction false} PlannedAhead(cfg: Config, s: State, ids: seq<Id>)
    requires KindsOk(s) && FreshIds(s, ids)
    ensures forall p :: p in Planned(cfg, s, ids) ==> Ahead(s, p)
    ensures Distinct(Planned(cfg, s, ids))
    ensures ids != [] ==> forall p :: p in Planned(cfg, Tick(cfg, s, ids[0], ids[0]), ids[1..]) ==>
        p !in PlannedNow(cfg, s)
    decreases |ids|
  {
    if ids == [] {
    } else {
      var newId := ids[0];
      assert newId in ids;
      var rest := Planned(cfg, Tick(cfg, s, newId, newId), ids[1..]);
      TickKinds(cfg, s, newId);
      TickIds(cfg, s, ids);
      PlannedAhead(cfg, Tick(cfg, s, newId, newId), ids[1..]);
      PlannedNowAhead(cfg, s);
      forall p | p in rest ensures Ahead(s, p) && p !in PlannedNow(cfg, s) {
        AheadMovesOn(cfg, s, newId, p);
      }
      DistinctJoin(PlannedNow(cfg, s), rest);
    }
  }

  /** The identities among these under which nothing is filed yet. */
  function Unfiled(s: State, planned: seq<Identity>): seq<Identity> {
    Filter(planned, (p: Identity) => p !in s.index)
  }

  lemma UnfiledJoin(s: State, s1: State, now: seq<Identity>, rest: seq<Identity>)
    requires |now| <= 1 && forall p :: p in rest ==> p !in now
    requires forall p :: p in s1.index <==> p in s.index || p in now
    ensures |Unfiled(s, now + rest)| == |Unfiled(s1, rest)| + (if now != [] && now[0] !in s.index then 1 else 0)
  {
    FilterAgree(rest, (p: Identity) => p !in s1.index, (p: Identity) => p !in s.index);
    if now == [] {
      assert now + rest == rest;
    } else {
      assert (now + rest)[0] == now[0] && (now + rest)[1..] == rest;
    }
  }

  /** The occurrences of a burst of ticks have pairwise different identities, although their keys are cut to whole
      seconds; each is filed; those filed before keep their executions, and exactly the others become new ones. */
  lemma {:induction false} TicksSubmit(cfg: Config, s: State, ids: seq<Id>)
    requires Inv(s) && FreshIds(s, ids)
    ensures var s', planned := Ticks(cfg, s, ids), Planned(cfg, s, ids);
            && |planned| == Fired(cfg, s, ids)
            && Distinct(planned)
            && (forall p :: p in planned ==> p in s'.index)
            && (forall p :: p in s.index ==> p in s'.index && s'.index[p] == s.index[p])
            && |s'.executions.at| == |s.executions.at| + |Unfiled(s, planned)|
    decreases |ids|
  {
    PlannedAhead(cfg, s, ids);
    if ids == [] {
    } else {
      assert ids[0] in ids;
      var s1 := Tick(cfg, s, ids[0], ids[0]);
      TickMeaning(cfg, s, ids[0], ids[0]);
      TickIds(cfg, s, ids);
      TicksSubmit(cfg, s1, ids[1..]);
      TickFiles(cfg, s, ids[0]);
      PlannedNowAhead(cfg, s);
      UnfiledJoin(s, s1, PlannedNow(cfg, s), Planned(cfg, s1, ids[1..]));
    }
  }

  lemma FileCounts(s: State, identity: Identity, c: SubmitJob, newId: Id)
    requires newId !in s.executions.at
    ensures var s' := File(s, identity, c, newId);
            && (forall p :: p in s.index ==> p in s'.index && s'.index[p] == s.index[p])
            && (forall p :: p in s'.index <==> p in s.index || p == identity)
            && |s'.executions.at| == |s.executions.at| + (if identity !in s.index then 1 else 0)
  {
    var s' := File(s, identity, c, newId);
    if identity !in s.index {
      assert s'.executions.at.Keys == s.executions.at.Keys + {newId};
      assert |s'.executions.at| == |s'.executions.at.Keys| && |s.executions.at| == |s.executions.at.Keys|;
    }
  }

  /** What one tick files. */
  lemma TickFiles(cfg: Config, s: State, newId: Id)
    requires newId !in s.executions.at
    ensures var s', now := Tick(cfg, s, newId, newId), PlannedNow(cfg, s);
            && |now| == (if TickReturns(cfg, s) == Ticked(1) then 1 else 0)
            && (forall p :: p in s.index ==> p in s'.index && s'.index[p] == s.index[p])
            && (forall p :: p in s'.index <==> p in s.index || p in now)
            && |s'.executions.at| == |s.executions.at| + (if now != [] && now[0] !in s.index then 1 else 0)
  {
    var now := PlannedNow(cfg, s);
    if now != [] {
      var c := s.schedules.at[FirstDue(s, s.schedules.order).value];
      FileCounts(s, now[0], Command(now[0], newId, c.maxAttempts), newId);
    }
  }
}
