/** Workers, untrusted deliveries, the reference handler's effect and the scheduler pass. */
module JobWorkers {
  import opened Collections
  import JobLimits
  import opened JobModel
  import opened JobInvariant
  import opened JobHistory
  import opened JobRows
  import opened JobEffects
  import opened JobSchedule
  import opened JobRuntime

  const REFERENCE: string := "foundation.reference"

  datatype Message = Message(id: Id, attempt: int, correlation: Id)

  /** The object identifier derived from an execution; the derivation is taken to be injective. */
  datatype ObjectId = ObjectId(execution: Id)

  datatype Effect = Effect(execution: Id, target: string, correlation: Id)

  /** The stored effect as the job result it is returned as. */
  function AsResult(effect: Effect, render: Effect -> string): string { render(effect) }

  /** One handler invocation in progress: the claim, and the handler's answer once it has one. */
  datatype Hand = Hand(claim: JobClaim, answer: Option<Outcome>)

  datatype World = World(rt: State, hands: map<Id, Hand>, runs: seq<RowKey>, effects: map<ObjectId, Effect>)

  datatype Setup = Setup(cfg: Config, registered: set<string>, render: Effect -> string)

  /** A worker thread takes a message, its handler answers, its outcome is recorded, or it dies;
      anything may be delivered at any time and any other caller may step in between. */
  datatype Event =
    | Deliver(thread: Id, message: Message, worker: string)
    | Handle(thread: Id, other: Outcome)
    | Finish(thread: Id)
    | Crash(thread: Id)
    | Elsewhere(step: Step)

  predicate Admitted(s: State, m: Message) {
    m.id in s.executions.at && s.executions.at[m.id].correlation == m.correlation
  }

  function RecordOnce(effects: map<ObjectId, Effect>, oid: ObjectId, effect: Effect): map<ObjectId, Effect> {
    if oid in effects then effects else effects[oid := effect]
  }

  function ReferenceEffect(id: Id, e: Execution): Effect {
    Effect(id, e.identity.target, e.correlation)
  }

  predicate Registered(u: Setup, s: State, id: Id) {
    id in s.executions.at && s.executions.at[id].identity.jobType in u.registered
  }

  /** A granted claim is taken up by its handler, or refused at once when there is none. */
  function TakenUp(u: Setup, w: World, thread: Id, m: Message, worker: string): map<Id, Hand> {
    if !Claimable(w.rt, m.id, m.attempt) then w.hands
    else w.hands[thread := Hand(JobClaim(m.id, m.attempt, worker),
           if Registered(u, w.rt, m.id) then None else Some(Permanent("job.handler_not_registered")))]
  }

  function DeliverTo(u: Setup, w: World, thread: Id, m: Message, worker: string): World {
    if thread in w.hands || !Admitted(w.rt, m) then w
    else
      w.(rt := Claim(u.cfg, w.rt, m.id, m.attempt, worker), hands := TakenUp(u, w, thread, m, worker),
         runs := if Claimable(w.rt, m.id, m.attempt) && Registered(u, w.rt, m.id)
                 then w.runs + [RowKey(m.id, m.attempt)] else w.runs)
  }

  /** The reference handler records its effect once and answers with it; others answer freely. */
  function HandleBy(u: Setup, w: World, thread: Id, other: Outcome): World {
    if thread !in w.hands || w.hands[thread].answer.Some? then w
    else
      var c := w.hands[thread].claim;
      if c.id !in w.rt.executions.at then w
      else
        var e := w.rt.executions.at[c.id];
        if e.identity.jobType == REFERENCE then
          var effects := RecordOnce(w.effects, ObjectId(c.id), ReferenceEffect(c.id, e));
          w.(effects := effects, hands := w.hands[thread := Hand(c,
               Some(Returned(AsResult(effects[ObjectId(c.id)], u.render))))])
        else
          w.(hands := w.hands[thread := Hand(c, Some(other))])
  }

  function FinishBy(w: World, thread: Id): World {
    if thread !in w.hands || w.hands[thread].answer.None? then w
    else
      w.(rt := Record(w.rt, w.hands[thread].claim, w.hands[thread].answer.value), hands := w.hands - {thread})
  }

  function Next(u: Setup, w: World, ev: Event): World {
    match ev
    case Deliver(thread, m, worker) => DeliverTo(u, w, thread, m, worker)
    case Handle(thread, other) => HandleBy(u, w, thread, other)
    case Finish(thread) => FinishBy(w, thread)
    case Crash(thread) => w.(hands := w.hands - {thread})
    case Elsewhere(step) =>
      if step.DoClaim? || step.DoRecord? then w else w.(rt := Apply(u.cfg, w.rt, step))
  }

  function Play(u: Setup, w: World, events: seq<Event>): World
    decreases |events|
  {
    if events == [] then w else Play(u, Next(u, w, events[0]), events[1..])
  }

  /** Every world event is at most one step of the runtime. */
  function AsStep(u: Setup, w: World, ev: Event): Option<Step> {
    match ev
    case Deliver(thread, m, worker) =>
      if thread in w.hands || !Admitted(w.rt, m) then None else Some(DoClaim(m.id, m.attempt, worker))
    case Finish(thread) =>
      if thread !in w.hands || w.hands[thread].answer.None? then None
      else Some(DoRecord(w.hands[thread].claim, w.hands[thread].answer.value))
    case Elsewhere(step) => if step.DoClaim? || step.DoRecord? then None else Some(step)
    case _ => None
  }

  lemma NextIsStep(u: Setup, w: World, ev: Event)
    ensures Next(u, w, ev).rt ==
            match AsStep(u, w, ev) { case None => w.rt case Some(step) => Apply(u.cfg, w.rt, step) }
  {
  }

  // ---- each attempt runs its handler at most once ----

  function RunCount(runs: seq<RowKey>, id: Id): nat {
    if runs == [] then 0 else RunCount(runs[..|runs| - 1], id) + if runs[|runs| - 1].id == id then 1 else 0
  }

  ghost predicate RunsOk(w: World) {
    && Distinct(w.runs)
    && (forall k :: k in w.runs ==> 1 <= k.attempt <= Count(w.rt, k.id))
    && (forall id :: RunCount(w.runs, id) <= Count(w.rt, id))
  }

  lemma CountNeverDrops(u: Setup, w: World, ev: Event, id: Id)
    requires Inv(w.rt)
    ensures Inv(Next(u, w, ev).rt)
    ensures Count(w.rt, id) <= Count(Next(u, w, ev).rt, id)
  {
    NextIsStep(u, w, ev);
    match AsStep(u, w, ev)
    case None =>
    case Some(step) => StepInv(u.cfg, w.rt, step); StepCount(u.cfg, w.rt, step, id);
  }

  /** A new entry in the log is the attempt just granted, which no earlier entry can be. */
  lemma LogGrows(u: Setup, w: World, ev: Event)
    requires Inv(w.rt) && RunsOk(w) && Next(u, w, ev).runs != w.runs
    ensures ev.Deliver? && var k := RowKey(ev.message.id, ev.message.attempt);
            && Next(u, w, ev).runs == w.runs + [k]
            && k.attempt == Count(w.rt, k.id) + 1 == Count(Next(u, w, ev).rt, k.id)
  {
    var m := ev.message;
    StepCount(u.cfg, w.rt, DoClaim(m.id, m.attempt, ev.worker), m.id);
    NextIsStep(u, w, ev);
  }

  lemma RunsAppend(w: World, w': World, k: RowKey)
    requires RunsOk(w) && w'.runs == w.runs + [k]
    requires forall id :: Count(w.rt, id) <= Count(w'.rt, id)
    requires k.attempt == Count(w.rt, k.id) + 1 == Count(w'.rt, k.id) && 0 <= Count(w.rt, k.id)
    ensures RunsOk(w')
  {
    assert w'.runs[..|w'.runs| - 1] == w.runs;
    assert k !in w.runs;
    forall id ensures RunCount(w'.runs, id) <= Count(w'.rt, id) {
      assert RunCount(w'.runs, id) == RunCount(w.runs, id) + if k.id == id then 1 else 0;
    }
    forall j | j in w'.runs ensures 1 <= j.attempt <= Count(w'.rt, j.id) {
      assert j in w.runs || j == k;
    }
  }

  lemma NextRuns(u: Setup, w: World, ev: Event)
    requires Inv(w.rt) && RunsOk(w)
    ensures RunsOk(Next(u, w, ev))
  {
    var w' := Next(u, w, ev);
    forall id ensures Count(w.rt, id) <= Count(w'.rt, id) { CountNeverDrops(u, w, ev, id); }
    if w'.runs != w.runs {
      LogGrows(u, w, ev);
      CountNat(w.rt, ev.message.id);
      RunsAppend(w, w', RowKey(ev.message.id, ev.message.attempt));
    }
  }

  lemma CountNat(s: State, id: Id)
    requires Inv(s)
    ensures 0 <= Count(s, id)
  {
    if id in s.executions.at { assert Local(s, id); }
  }

  /** However messages are lost, repeated, reordered or forged, and however many workers there are,
      no attempt of any execution invokes its handler twice, and no execution is handled more often
      than it may be attempted. */
  lemma {:induction false} HandlersRunOnce(u: Setup, w: World, events: seq<Event>)
    requires Inv(w.rt) && RunsOk(w)
    ensures var w' := Play(u, w, events);
            && Inv(w'.rt) && Distinct(w'.runs)
            && (forall id :: id in w'.rt.executions.at ==>
                  RunCount(w'.runs, id) <= w'.rt.executions.at[id].maxAttempts)
    decreases |events|
  {
    if events == [] {
      forall id | id in w.rt.executions.at ensures RunCount(w.runs, id) <= w.rt.executions.at[id].maxAttempts {
        assert Local(w.rt, id);
      }
    } else {
      NextRuns(u, w, events[0]);
      CountNeverDrops(u, w, events[0], 0);
      HandlersRunOnce(u, Next(u, w, events[0]), events[1..]);
    }
  }

  // ---- the reference handler's effect ----

  /** Effects are the ones their executions call for, answers carry the stored effect, and a
      reference execution that succeeded did so with its stored effect. */
  ghost predicate EffectsOk(u: Setup, w: World) {
    && (forall o :: o in w.effects ==> EffectOk(w, o))
    && (forall t :: t in w.hands ==> HandOk(u, w, w.hands[t]))
    && (forall id :: id in w.rt.executions.at ==> SuccessOk(u, w, id))
  }

  ghost predicate EffectOk(w: World, o: ObjectId)
    requires o in w.effects
  {
    o.execution in w.rt.executions.at &&
    var e := w.rt.executions.at[o.execution];
    w.effects[o] == Effect(o.execution, e.identity.target, e.correlation)
  }

  ghost predicate HandOk(u: Setup, w: World, h: Hand) {
    && h.claim.id in w.rt.executions.at
    && (w.rt.executions.at[h.claim.id].identity.jobType == REFERENCE && h.answer.Some? && h.answer.value.Returned? ==>
          ObjectId(h.claim.id) in w.effects &&
          h.answer.value.value == AsResult(w.effects[ObjectId(h.claim.id)], u.render))
  }

  ghost predicate SuccessOk(u: Setup, w: World, id: Id)
    requires id in w.rt.executions.at
  {
    w.rt.executions.at[id].state.Succeeded? && w.rt.executions.at[id].identity.jobType == REFERENCE ==>
      ObjectId(id) in w.effects &&
      w.rt.executions.at[id].result == Some(AsResult(w.effects[ObjectId(id)], u.render))
  }

  /** What a runtime step leaves alone, and how it can make an execution succeed. */
  lemma StepSuccess(cfg: Config, s: State, step: Step, id: Id)
    requires Inv(s) && id in Apply(cfg, s, step).executions.at
    ensures id in s.executions.at ==>
              var e, e' := s.executions.at[id], Apply(cfg, s, step).executions.at[id];
              e'.identity == e.identity && e'.correlation == e.correlation &&
              (e'.state.Succeeded? ==>
                 e' == e || (step.DoRecord? && step.claim.id == id && step.outcome.Returned? &&
                             e'.result == Some(step.outcome.value)))
    ensures id !in s.executions.at ==> !Apply(cfg, s, step).executions.at[id].state.Succeeded?
  {
    if id in s.executions.at {
      StepMoves(cfg, s, step, id);
      assert Local(s, id);
      MoveEvolves(cfg, s, step, id, Apply(cfg, s, step).executions.at[id]);
    } else {
      StepCreates(cfg, s, step, id);
    }
  }

  lemma StepKeepsIds(cfg: Config, s: State, step: Step)
    requires Inv(s)
    ensures s.executions.at.Keys <= Apply(cfg, s, step).executions.at.Keys
  {
    forall id | id in s.executions.at ensures id in Apply(cfg, s, step).executions.at {
      StepMoves(cfg, s, step, id);
    }
  }

  lemma HandleEffects(u: Setup, w: World, thread: Id, other: Outcome)
    requires EffectsOk(u, w)
    ensures EffectsOk(u, HandleBy(u, w, thread, other))
  {
    var w' := HandleBy(u, w, thread, other);
    forall t | t in w'.hands ensures HandOk(u, w', w'.hands[t]) {
      assert HandOk(u, w, w.hands[t]);
    }
    forall id | id in w'.rt.executions.at ensures SuccessOk(u, w', id) { assert SuccessOk(u, w, id); }
    forall o | o in w'.effects ensures EffectOk(w', o) { if o in w.effects { assert EffectOk(w, o); } }
  }

  /** A step of the runtime whose recorded answers come from hands keeps the effects in order. */
  lemma StepEffects(u: Setup, w: World, step: Step, hands: map<Id, Hand>)
    requires Inv(w.rt) && EffectsOk(u, w)
    requires step.DoRecord? ==> HandOk(u, w, Hand(step.claim, Some(step.outcome)))
    requires forall t :: t in hands ==>
               || (t in w.hands && hands[t] == w.hands[t])
               || (hands[t].claim.id in w.rt.executions.at
                   && (hands[t].answer.Some? ==> hands[t].answer.value.Permanent?))
    ensures EffectsOk(u, w.(rt := Apply(u.cfg, w.rt, step), hands := hands))
  {
    var w' := w.(rt := Apply(u.cfg, w.rt, step), hands := hands);
    StepKeepsIds(u.cfg, w.rt, step);
    forall o | o in w'.effects ensures EffectOk(w', o) {
      assert EffectOk(w, o);
      assert o.execution in w.rt.executions.at.Keys;
      StepSuccess(u.cfg, w.rt, step, o.execution);
    }
    forall t | t in w'.hands ensures HandOk(u, w', w'.hands[t]) {
      assert t in w.hands ==> HandOk(u, w, w.hands[t]);
      assert w'.hands[t].claim.id in w.rt.executions.at.Keys;
      StepSuccess(u.cfg, w.rt, step, w'.hands[t].claim.id);
    }
    forall id | id in w'.rt.executions.at ensures SuccessOk(u, w', id) {
      StepSuccess(u.cfg, w.rt, step, id);
      assert id in w.rt.executions.at ==> SuccessOk(u, w, id);
    }
  }

  lemma DeliverEffects(u: Setup, w: World, ev: Event)
    requires Inv(w.rt) && EffectsOk(u, w) && ev.Deliver?
    ensures EffectsOk(u, Next(u, w, ev))
  {
    var m := ev.message;
    if ev.thread !in w.hands && Admitted(w.rt, m) {
      var step := DoClaim(m.id, m.attempt, ev.worker);
      var hands := TakenUp(u, w, ev.thread, m, ev.worker);
      StepEffects(u, w, step, hands);
      RunsDoNotMatter(u, w.(rt := Apply(u.cfg, w.rt, step), hands := hands), Next(u, w, ev));
    }
  }

  lemma RunsDoNotMatter(u: Setup, w: World, w': World)
    requires EffectsOk(u, w) && w' == w.(runs := w'.runs)
    ensures EffectsOk(u, w')
  {
    forall o | o in w'.effects ensures EffectOk(w', o) { assert EffectOk(w, o); }
    forall t | t in w'.hands ensures HandOk(u, w', w'.hands[t]) { assert HandOk(u, w, w.hands[t]); }
    forall id | id in w'.rt.executions.at ensures SuccessOk(u, w', id) { assert SuccessOk(u, w, id); }
  }

  lemma FinishEffects(u: Setup, w: World, thread: Id)
    requires Inv(w.rt) && EffectsOk(u, w)
    ensures EffectsOk(u, FinishBy(w, thread))
  {
    if thread in w.hands && w.hands[thread].answer.Some? {
      var h := w.hands[thread];
      assert HandOk(u, w, h);
      var step := DoRecord(h.claim, h.answer.value);
      StepEffects(u, w, step, w.hands - {thread});
      assert FinishBy(w, thread) == w.(rt := Apply(u.cfg, w.rt, step), hands := w.hands - {thread});
    }
  }

  lemma CrashEffects(u: Setup, w: World, thread: Id)
    requires EffectsOk(u, w)
    ensures EffectsOk(u, w.(hands := w.hands - {thread}))
  {
    var w' := w.(hands := w.hands - {thread});
    forall o | o in w'.effects ensures EffectOk(w', o) { assert EffectOk(w, o); }
    forall t | t in w'.hands ensures HandOk(u, w', w'.hands[t]) { assert HandOk(u, w, w.hands[t]); }
    forall id | id in w'.rt.executions.at ensures SuccessOk(u, w', id) { assert SuccessOk(u, w, id); }
  }

  lemma NextEffects(u: Setup, w: World, ev: Event)
    requires Inv(w.rt) && EffectsOk(u, w)
    ensures EffectsOk(u, Next(u, w, ev))
  {
    match ev
    case Deliver(_, _, _) => DeliverEffects(u, w, ev);
    case Handle(thread, other) => HandleEffects(u, w, thread, other);
    case Finish(thread) => FinishEffects(u, w, thread);
    case Crash(thread) => CrashEffects(u, w, thread);
    case Elsewhere(step) => if !step.DoClaim? && !step.DoRecord? { StepEffects(u, w, step, w.hands); }
  }

  lemma {:induction false} EffectsAreFinal(u: Setup, w: World, events: seq<Event>, o: ObjectId)
    requires o in w.effects
    ensures o in Play(u, w, events).effects && Play(u, w, events).effects[o] == w.effects[o]
    decreases |events|
  {
    if events == [] {
    } else {
      EffectsAreFinal(u, Next(u, w, events[0]), events[1..], o);
    }
  }

  /** A runtime that has just started, with no deliveries and no effects. */
  function NewWorld(now: int): World { World(Initial(now), map[], [], map[]) }

  lemma NewWorldIsOk(u: Setup, now: int)
    ensures Inv(NewWorld(now).rt) && RunsOk(NewWorld(now)) && EffectsOk(u, NewWorld(now))
  {
    JobLimits.InitialInv(now);
  }

  /** In every world reached, each reference execution that succeeded left its one effect, and its
      result is that effect, whatever attempts were lost or retried on the way. */
  lemma {:induction false} OneEffectPerExecution(u: Setup, w: World, events: seq<Event>)
    requires Inv(w.rt) && EffectsOk(u, w)
    ensures EffectsOk(u, Play(u, w, events))
    decreases |events|
  {
    if events == [] {
    } else {
      CountNeverDrops(u, w, events[0], 0);
      NextEffects(u, w, events[0]);
      OneEffectPerExecution(u, Next(u, w, events[0]), events[1..]);
    }
  }

  // ---- the worker's own loop body ----

  datatype Processed = ProcessRaised | Processed(handled: bool)

  class InMemoryWorker {
    const runtime: InMemoryJobRuntime
    const registered: set<string>
    const workerId: string

    constructor (runtime: InMemoryJobRuntime, registered: set<string>, workerId: string)
      ensures this.runtime == runtime && this.registered == registered && this.workerId == workerId
    {
      this.runtime, this.registered, this.workerId := runtime, registered, workerId;
    }

    /** One delivery with nobody interleaving: `answer` is what the handler does if it is called. */
    method Process(m: Message, answer: Outcome) returns (r: Processed)
      requires runtime.Valid()
      modifies runtime
      ensures runtime.Valid()
      ensures runtime.St() == ProcessedState(runtime.cfg, old(runtime.St()), m, registered, workerId, answer)
      ensures r == ProcessReturns(runtime.cfg, old(runtime.St()), m, registered, workerId, answer)
    {
      var cfg := runtime.cfg;
      if m.id !in runtime.executions.at { return ProcessRaised; }
      if m.correlation != runtime.executions.at[m.id].correlation { return Processed(false); }
      var claim := runtime.Claim(m.id, m.attempt, workerId);
      if claim.None? { return Processed(false); }
      var outcome := answer;
      if runtime.executions.at[m.id].identity.jobType !in registered {
        outcome := Permanent("job.handler_not_registered");
      }
      var recorded := runtime.RecordOutcome(claim.value, outcome);
      r := if recorded.RecordRaised? then ProcessRaised else Processed(true);
    }
  }

  /** What processing one message amounts to: a claim step, and a record step if it was granted. */
  function ProcessedState(cfg: Config, s: State, m: Message, registered: set<string>, worker: string,
                          answer: Outcome): State
  {
    if !Admitted(s, m) then s
    else if !Claimable(s, m.id, m.attempt) then Claim(cfg, s, m.id, m.attempt, worker)
    else
      Record(Claim(cfg, s, m.id, m.attempt, worker), JobClaim(m.id, m.attempt, worker),
             Answered(s, m, registered, answer))
  }

  function Answered(s: State, m: Message, registered: set<string>, answer: Outcome): Outcome
    requires m.id in s.executions.at
  {
    if s.executions.at[m.id].identity.jobType in registered then answer else Permanent("job.handler_not_registered")
  }

  function ProcessReturns(cfg: Config, s: State, m: Message, registered: set<string>, worker: string,
                          answer: Outcome): Processed
  {
    if m.id !in s.executions.at then ProcessRaised
    else if !Admitted(s, m) || !Claimable(s, m.id, m.attempt) then Processed(false)
    else if Answered(s, m, registered, answer).Rejected? && cfg.leaseSeconds > 0 then ProcessRaised
    else Processed(true)
  }

  /** Processing a message with nobody interleaving is a delivery, a handling and a recording by one thread. */
  lemma ProcessIsPlayed(u: Setup, w: World, thread: Id, m: Message, worker: string, answer: Outcome)
    requires thread !in w.hands
    requires m.id in w.rt.executions.at ==> w.rt.executions.at[m.id].identity.jobType != REFERENCE
    ensures ProcessedState(u.cfg, w.rt, m, u.registered, worker, answer) ==
            FinishBy(HandleBy(u, DeliverTo(u, w, thread, m, worker), thread, answer), thread).rt
  {
    var w1 := DeliverTo(u, w, thread, m, worker);
    if Admitted(w.rt, m) && Claimable(w.rt, m.id, m.attempt) {
      var claim := JobClaim(m.id, m.attempt, worker);
      var w2 := HandleBy(u, w1, thread, answer);
      assert w1.rt.executions.at[m.id].identity == w.rt.executions.at[m.id].identity;
      assert w2.hands[thread] == Hand(claim, Some(Answered(w.rt, m, u.registered, answer)));
    }
  }

  lemma PlayThree(u: Setup, w: World, a: Event, b: Event, c: Event)
    ensures Play(u, w, [a, b, c]) == Next(u, Next(u, Next(u, w, a), b), c)
  {
    assert [a, b, c][1..] == [b, c] && [b, c][1..] == [c] && [c][1..] == [];
    assert Play(u, w, [a, b, c]) == Play(u, Next(u, w, a), [b, c]);
    assert Play(u, Next(u, w, a), [b, c]) == Play(u, Next(u, Next(u, w, a), b), [c]);
  }

  /** So the theorems about worlds hold of the worker's loop. */
  lemma ProcessIsThreeEvents(u: Setup, w: World, thread: Id, m: Message, worker: string, answer: Outcome)
    requires thread !in w.hands
    requires m.id in w.rt.executions.at ==> w.rt.executions.at[m.id].identity.jobType != REFERENCE
    ensures ProcessedState(u.cfg, w.rt, m, u.registered, worker, answer) ==
            Play(u, w, [Deliver(thread, m, worker), Handle(thread, answer), Finish(thread)]).rt
  {
    ProcessIsPlayed(u, w, thread, m, worker, answer);
    PlayThree(u, w, Deliver(thread, m, worker), Handle(thread, answer), Finish(thread));
  }

  /** A message for work that is unknown, of another correlation, or not to be claimed, reaches no handler; only the
      first of these raises. */
  lemma ProcessIgnores(cfg: Config, s: State, m: Message, registered: set<string>, worker: string, answer: Outcome)
    requires Inv(s)
    requires !(Startable(s, m.id, m.attempt) && s.executions.at[m.id].correlation == m.correlation)
    ensures ProcessReturns(cfg, s, m, registered, worker, answer) ==
            if m.id !in s.executions.at then ProcessRaised else Processed(false)
    ensures ProcessedState(cfg, s, m, registered, worker, answer) ==
            if m.id in s.executions.at && s.executions.at[m.id].correlation == m.correlation &&
               Expired(s.executions.at[m.id], s.now) && m.attempt == s.executions.at[m.id].attemptCount + 1
            then Abandon(s, m.id) else s
  {
    if !Startable(s, m.id, m.attempt) { ClaimRefused(cfg, s, m.id, m.attempt, worker); }
  }

  /** The state between the claim of a message and the recording of its outcome. */
  lemma ProcessClaims(cfg: Config, s: State, m: Message, registered: set<string>, worker: string, answer: Outcome)
    returns (s1: State, c: JobClaim)
    requires Inv(s) && cfg.leaseSeconds > 0
    requires Startable(s, m.id, m.attempt) && s.executions.at[m.id].correlation == m.correlation
    ensures c == JobClaim(m.id, m.attempt, worker) && Inv(s1) && HeldBy(s1, c) && s1.now == s.now
    ensures s1.executions.at[m.id].maxAttempts == s.executions.at[m.id].maxAttempts
    ensures ProcessedState(cfg, s, m, registered, worker, answer) == Record(s1, c, Answered(s, m, registered, answer))
  {
    s1, c := Claim(cfg, s, m.id, m.attempt, worker), JobClaim(m.id, m.attempt, worker);
    ClaimOpens(cfg, s, m.id, m.attempt, worker);
    ClaimInv(cfg, s, m.id, worker);
  }

  /** A job whose type has a handler ends as the handler answers: with its value as the result, or by its failure. */
  lemma ProcessRecordsTheAnswer(cfg: Config, s: State, m: Message, registered: set<string>, worker: string,
                                answer: Outcome)
    requires Inv(s) && cfg.leaseSeconds > 0
    requires Startable(s, m.id, m.attempt) && s.executions.at[m.id].correlation == m.correlation
    requires s.executions.at[m.id].identity.jobType in registered
    ensures ProcessReturns(cfg, s, m, registered, worker, answer) ==
            if answer.Rejected? then ProcessRaised else Processed(true)
    ensures var s' := ProcessedState(cfg, s, m, registered, worker, answer);
            && m.id in s'.executions.at
            && var e, e' := s.executions.at[m.id], s'.executions.at[m.id];
               match answer
               case Returned(v) => e'.state.Succeeded? && e'.result == Some(v)
               case Rejected => e'.state.Running? && e'.leaseUntil.None?
               case Transient(code, after) =>
                 e'.error == Some(code) && (if m.attempt < e.maxAttempts then e'.state.RetryWait? else e'.state.Failed?)
               case Permanent(code) => e'.state.Failed? && e'.error == Some(code)
               case Unclassified => e'.state.Failed? && e'.error == Some("job.unclassified_failure")
  {
    var s1, c := ProcessClaims(cfg, s, m, registered, worker, answer);
    match answer
    case Returned(v) => ReturnedSucceeds(s1, c, answer);
    case Rejected => RejectedWedges(s1, c, answer);
    case Transient(code, after) => TransientRetries(s1, c, answer);
    case Permanent(code) => PermanentFails(s1, c, answer);
    case Unclassified => PermanentFails(s1, c, answer);
  }

  /** A job whose type has no handler fails for good, whatever any handler would answer. */
  lemma ProcessWithoutHandler(cfg: Config, s: State, m: Message, registered: set<string>, worker: string,
                              answer: Outcome)
    requires Inv(s) && cfg.leaseSeconds > 0
    requires Startable(s, m.id, m.attempt) && s.executions.at[m.id].correlation == m.correlation
    requires s.executions.at[m.id].identity.jobType !in registered
    ensures ProcessReturns(cfg, s, m, registered, worker, answer) == Processed(true)
    ensures var s' := ProcessedState(cfg, s, m, registered, worker, answer);
            && m.id in s'.executions.at && s'.executions.at[m.id].state.Failed?
            && s'.executions.at[m.id].error == Some("job.handler_not_registered")
            && s'.executions.at[m.id].attemptCount == m.attempt
  {
    var s1, c := ProcessClaims(cfg, s, m, registered, worker, answer);
    PermanentFails(s1, c, Permanent("job.handler_not_registered"));
  }

  /** Delivering the same message again changes nothing but an expired lease: the handler runs once. */
  lemma RedeliveryIsHarmless(cfg: Config, s: State, m: Message, registered: set<string>, worker: string,
                             answer: Outcome, steps: seq<Step>, answer': Outcome, worker': string)
    requires Inv(s) && Claimable(s, m.id, m.attempt) && Admitted(s, m)
    ensures var s1 := Run(cfg, ProcessedState(cfg, s, m, registered, worker, answer), steps);
            && !Claimable(s1, m.id, m.attempt)
            && ProcessedState(cfg, s1, m, registered, worker', answer') == s1
  {
    var claimed := Claim(cfg, s, m.id, m.attempt, worker);
    StepInv(cfg, s, DoClaim(m.id, m.attempt, worker));
    var s0 := ProcessedState(cfg, s, m, registered, worker, answer);
    StepInv(cfg, claimed, DoRecord(JobClaim(m.id, m.attempt, worker), Answered(s, m, registered, answer)));
    StepCount(cfg, claimed, DoRecord(JobClaim(m.id, m.attempt, worker), Answered(s, m, registered, answer)), m.id);
    RunCountGrows(cfg, s0, steps, m.id);
  }

  lemma {:induction false} RunCountGrows(cfg: Config, s: State, steps: seq<Step>, id: Id)
    requires Inv(s)
    ensures Count(s, id) <= Count(Run(cfg, s, steps), id)
    decreases |steps|
  {
    if steps == [] {
    } else {
      StepInv(cfg, s, steps[0]);
      StepCount(cfg, s, steps[0], id);
      RunCountGrows(cfg, Apply(cfg, s, steps[0]), steps[1..], id);
    }
  }

  // ---- the scheduler pass ----

  datatype Pass = PassRaised | Pass(reclaimed: nat, reaped: nat, scheduled: nat, published: nat, failed: nat)

  lemma {:induction false} AbandonAllSchedules(s: State, ids: seq<Id>)
    ensures AbandonAll(s, ids).schedules == s.schedules && AbandonAll(s, ids).now == s.now
    decreases |ids|
  {
    if ids == [] {
    } else {
      AbandonAllSchedules(if ids[0] in s.executions.at then Abandon(s, ids[0]) else s, ids[1..]);
    }
  }

  lemma BacklogOfReaped(cfg: Config, s: State, s': State, order: seq<Id>)
    requires KindsOk(s) && s'.schedules == s.schedules && s'.now == s.now
    requires forall id :: id in order ==> id in s.schedules.at
    ensures Backlog(cfg, s', order) == Backlog(cfg, s, order) && Blocked(cfg, s', order) == Blocked(cfg, s, order)
  {
    if order != [] {
      forall j | j in order[1..] ensures j in order {}
      BacklogOfReaped(cfg, s, s', order[1..]);
    }
  }

  lemma {:induction false} TicksIdle(cfg: Config, s: State, ids: seq<Id>)
    requires Inv(s) && FreshIds(s, ids) && DueCount(cfg, s) == 0
    ensures Ticks(cfg, s, ids) == s
    decreases |ids|
  {
    if ids == [] {
    } else {
      assert ids[0] in ids;
      TickMeaning(cfg, s, ids[0], ids[0]);
      TickIds(cfg, s, ids);
      TicksIdle(cfg, s, ids[1..]);
    }
  }

  /** Fires at most `limit` ticks, stopping at the first that finds nothing due. */
  method DrainDue(runtime: InMemoryJobRuntime, limit: nat, ids: seq<Id>) returns (r: TickResult)
    requires runtime.Valid() && |ids| == limit && FreshIds(runtime.St(), ids)
    modifies runtime
    ensures runtime.Valid()
    ensures runtime.St() == Ticks(runtime.cfg, old(runtime.St()), ids)
    ensures r == if DueCount(runtime.cfg, old(runtime.St())) < limit && Stuck(runtime.cfg, old(runtime.St()))
                 then TickRaised else Ticked(Min(limit, DueCount(runtime.cfg, old(runtime.St()))))
  {
    var scheduled := 0;
    while scheduled < limit
      invariant 0 <= scheduled <= limit && runtime.Valid()
      invariant FreshIds(runtime.St(), ids[scheduled..])
      invariant Ticks(runtime.cfg, runtime.St(), ids[scheduled..]) == Ticks(runtime.cfg, old(runtime.St()), ids)
      invariant DueCount(runtime.cfg, runtime.St()) == DueCount(runtime.cfg, old(runtime.St())) - scheduled
      invariant Stuck(runtime.cfg, runtime.St()) == Stuck(runtime.cfg, old(runtime.St()))
    {
      var newId := ids[scheduled];
      assert newId in ids[scheduled..] && ids[scheduled..][1..] == ids[scheduled + 1..];
      TickMeaning(runtime.cfg, runtime.St(), newId, newId);
      TickIds(runtime.cfg, runtime.St(), ids[scheduled..]);
      if DueCount(runtime.cfg, runtime.St()) == 0 { TicksIdle(runtime.cfg, runtime.St(), ids[scheduled..]); }
      var claimed := runtime.ScheduleTick(newId, newId);
      if claimed.TickRaised? { return TickRaised; }
      if claimed.count == 0 { break; }
      scheduled := scheduled + claimed.count;
    }
    r := Ticked(scheduled);
  }

  /** The pass: reap, then fire due schedules, then relay.  It reports min(limit, due) firings, and raises exactly for a
      bad limit or when it reaches a due schedule whose submission is refused, in which case it does not relay. */
  method SchedulerOnce(runtime: InMemoryJobRuntime, limit: int, accepting: set<RowKey>, ids: seq<Id>)
    returns (r: Pass)
    requires runtime.Valid() && |ids| == Max(0, limit) && FreshIds(runtime.St(), ids)
    modifies runtime
    ensures runtime.Valid()
    ensures r.PassRaised? <==>
              (!(1 <= limit <= 1000) ||
               (DueCount(runtime.cfg, old(runtime.St())) < limit && Stuck(runtime.cfg, old(runtime.St()))))
    ensures r.Pass? ==>
              && r.scheduled == Min(limit, DueCount(runtime.cfg, old(runtime.St())))
              && r.reaped == |Slice(ExpiredLeases(old(runtime.St())), limit)| && r.reclaimed == 0
              && runtime.St() == Relay(Ticks(runtime.cfg, Reap(old(runtime.St()), limit), ids), limit, accepting)
    ensures !(1 <= limit <= 1000) ==> runtime.St() == old(runtime.St())
    ensures 1 <= limit <= 1000 && r.PassRaised? ==>
              && runtime.St() == Ticks(runtime.cfg, Reap(old(runtime.St()), limit), ids)
              && RowsSame(old(runtime.St()), runtime.St())
  {
    if !(1 <= limit <= 1000) { return PassRaised; }
    ghost var s := runtime.St();
    ReapAddsRows(s, limit);
    var reaped := runtime.ReapExpired(limit);
    ReapPending(runtime.cfg, s, limit, ids);
    TicksAddRows(runtime.cfg, runtime.St(), ids);
    var ticked := DrainDue(runtime, limit, ids);
    if ticked.TickRaised? { return PassRaised; }
    var raised, published, failed, sent := runtime.RelayDue(limit, accepting);
    r := Pass(0, reaped, ticked.count, published, failed);
  }

  /** Ticks only add outbox rows. */
  lemma {:induction false} TicksAddRows(cfg: Config, s: State, ids: seq<Id>)
    requires Inv(s) && FreshIds(s, ids)
    ensures RowsSame(s, Ticks(cfg, s, ids))
    decreases |ids|
  {
    if ids == [] {
    } else {
      assert ids[0] in ids;
      TickAddsOneRow(cfg, s, ids[0], ids[0]);
      TickInv(cfg, s, ids[0], ids[0]);
      TickIds(cfg, s, ids);
      TicksAddRows(cfg, Tick(cfg, s, ids[0], ids[0]), ids[1..]);
    }
  }

  /** While a refused schedule is due and the backlog before it is below the limit, a pass raises before it relays: no
      row that was there is published or even looked at, and the pass leaves the schedule refused. */
  lemma StuckPassRelaysNothing(cfg: Config, s: State, limit: int, ids: seq<Id>)
    requires Inv(s) && 1 <= limit <= 1000 && |ids| == limit && FreshIds(s, ids)
    requires Stuck(cfg, s) && DueCount(cfg, s) < limit
    ensures var s' := Ticks(cfg, Reap(s, limit), ids);
            RowsSame(s, s') && Inv(s') && Stuck(cfg, s') && DueCount(cfg, s') == 0
  {
    StuckReap(cfg, s, limit, ids);
    TicksAddRows(cfg, Reap(s, limit), ids);
    TicksFireTheBacklog(cfg, Reap(s, limit), ids);
  }

  lemma StuckReap(cfg: Config, s: State, limit: int, ids: seq<Id>)
    requires Inv(s) && 1 <= limit <= 1000 && |ids| == limit && FreshIds(s, ids) && Stuck(cfg, s)
    ensures var s' := Reap(s, limit);
            Inv(s') && RowsSame(s, s') && FreshIds(s', ids) && Stuck(cfg, s') && DueCount(cfg, s') == DueCount(cfg, s)
  {
    ReapInv(s, limit);
    ReapAddsRows(s, limit);
    ReapPending(cfg, s, limit, ids);
  }

  lemma ReapPending(cfg: Config, s: State, limit: int, ids: seq<Id>)
    requires Inv(s) && Inv(Reap(s, limit)) && FreshIds(s, ids)
    ensures DueCount(cfg, Reap(s, limit)) == DueCount(cfg, s) && Stuck(cfg, Reap(s, limit)) == Stuck(cfg, s)
    ensures FreshIds(Reap(s, limit), ids)
  {
    var batch := Slice(ExpiredLeases(s), limit);
    AbandonAllSchedules(s, batch);
    AbandonAllKeys(s, batch);
    BacklogOfReaped(cfg, s, Reap(s, limit), s.schedules.order);
    forall id | id in ids ensures id !in Reap(s, limit).executions.at {
      assert id !in s.executions.at.Keys;
    }
  }
}
