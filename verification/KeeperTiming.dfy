/**
 The keeper against the box's grace timer. The box arms its timer when a wish reaches it; the gate counts
 from when it saw `ready` or wrote a renewal. `visible` bounds how late a session sees `ready`, `delivery`
 how long a written renewal takes to reach the box.
 */
module KeeperTiming {
  import opened Options
  import opened ModelGate
  import GpuLease

  datatype Keeper = Keeper(
    gate: Gate,
    inside: set<nat>,        // the POSTs between `in_flight += 1` and their `finally`
    lastTick: real,
    pending: Option<real>,   // when the renewal still on its way was written
    armedAt: real)           // when the box last armed its timer

  datatype Event =
    | PostBegins(request: nat)
    | PostEnds(request: nat)
    | Pass(seconds: real)
    | Tick
    | Delivered
    | SeenReady(mode: string, armed: real)  // a session's wait ends with `ready`; the box armed at `armed`

  function Later(a: real, b: real): real { if a < b then b else a }

  function Step(k: Keeper, e: Event): Keeper {
    match e
    case PostBegins(r) =>
      if r in k.inside then k
      else k.(inside := k.inside + {r}, gate := k.gate.(inFlight := k.gate.inFlight + 1, lastSeen := k.gate.now))
    case PostEnds(r) =>
      if r !in k.inside || k.gate.inFlight == 0 then k
      else k.(inside := k.inside - {r}, gate := k.gate.(inFlight := k.gate.inFlight - 1))
    case Pass(seconds) => k.(gate := k.gate.(now := k.gate.now + seconds))
    case Tick =>
      k.(gate := AfterTick(k.gate), lastTick := k.gate.now,
      pending := if Decide(k.gate) == RenewNow then Some(k.gate.now) else k.pending)
    case Delivered => if k.pending.Some? then k.(pending := None, armedAt := k.gate.now) else k
    case SeenReady(mode, armed) =>
      k.(gate := k.gate.(mode := mode, lastRenew := k.gate.now), armedAt := Later(k.armedAt, armed))
  }

  function Run(k: Keeper, es: seq<Event>): Keeper {
    if es == [] then k else Step(Run(k, es[..|es| - 1]), es[|es| - 1])
  }

  function AtStart(now: real): Keeper { Keeper(Gate("", 0.0, now, 0, now), {}, now, None, now) }

  /** A renewal that a tick wrote is on its way until it is delivered, and arms the box's timer just then. */
  lemma RenewalArmsWhenDelivered(k: Keeper)
    requires Decide(k.gate) == RenewNow
    ensures var written := Step(k, Tick);
            var later := Step(written, Delivered);
            && written.pending == Some(k.gate.now) && written.armedAt == k.armedAt
            && later.pending == None && later.armedAt == k.gate.now && Step(later, Delivered) == later
  {
  }

  // ----- Who is inside -----

  /** The counter is the number of requests inside, so a tick gives the card back only over an empty door. */
  lemma {:induction false} InFlightCountsTheInside(now: real, es: seq<Event>)
    ensures Run(AtStart(now), es).gate.inFlight == |Run(AtStart(now), es).inside|
  {
    if es != [] {
      InFlightCountsTheInside(now, es[..|es| - 1]);
      StepKeepsTheCount(Run(AtStart(now), es[..|es| - 1]), es[|es| - 1]);
    }
  }

  lemma StepKeepsTheCount(k: Keeper, e: Event)
    requires k.gate.inFlight == |k.inside|
    ensures Step(k, e).gate.inFlight == |Step(k, e).inside|
  {
  }

  /** When the last request came in; the gate's start counts as one. */
  function LastArrival(start: real, es: seq<Event>): real {
    if es == [] then start
    else
      var front, last := es[..|es| - 1], es[|es| - 1];
      var before := Run(AtStart(start), front);
      if last.PostBegins? && last.request !in before.inside then before.gate.now else LastArrival(start, front)
  }

  lemma {:induction false} LastSeenIsTheLastArrival(start: real, es: seq<Event>)
    ensures Run(AtStart(start), es).gate.lastSeen == LastArrival(start, es)
  {
    if es != [] {
      LastSeenIsTheLastArrival(start, es[..|es| - 1]);
    }
  }

  /** A tick gives the card back exactly when a mode is held, no request is inside and the last arrived 300 s ago. */
  lemma GivesBackOnlyWhenIdle(now: real, es: seq<Event>)
    ensures var k := Run(AtStart(now), es);
            Decide(k.gate) == GiveBack <==>
              k.gate.mode != "" && k.inside == {} && k.gate.now - LastArrival(now, es) >= 300.0
  {
    InFlightCountsTheInside(now, es);
    LastSeenIsTheLastArrival(now, es);
  }

  // ----- A working session keeps its window -----

  /** What the environment promises about one event: ticks at most 30 s apart and each finding somebody at work,
      renewals delivered in time, a `ready` seen in time. */
  predicate Prompt(k: Keeper, e: Event, visible: real, delivery: real) {
    match e
    case Pass(seconds) =>
      0.0 <= seconds && k.gate.now + seconds <= k.lastTick + TICK_S
      && (k.pending.Some? ==> k.gate.now + seconds <= k.pending.value + delivery)
    case Tick => Busy(k.gate)
    case SeenReady(mode, armed) => mode != "" && k.gate.now - visible <= armed <= k.gate.now
    case _ => true
  }

  ghost predicate PromptRun(k: Keeper, es: seq<Event>, visible: real, delivery: real) {
    forall i :: 0 <= i < |es| ==> Prompt(Run(k, es[..i]), es[i], visible, delivery)
  }

  ghost predicate OnTime(k: Keeper, visible: real, delivery: real) {
    var now := k.gate.now;
    && k.lastTick <= now <= k.lastTick + TICK_S
    && (k.pending.Some? ==> k.pending.value <= now <= k.pending.value + delivery && k.gate.mode != "")
    && (k.gate.mode != "" ==>
          && k.gate.lastRenew <= now && k.lastTick < k.gate.lastRenew + RENEW_AFTER_S
          && (k.pending.None? ==> k.gate.lastRenew - visible <= k.armedAt)
          && (k.pending.Some? ==> k.pending.value <= k.gate.lastRenew && k.pending.value - 330.0 - visible < k.armedAt))
  }

  lemma StepIsOnTime(k: Keeper, e: Event, visible: real, delivery: real)
    requires 0.0 <= visible && 0.0 <= delivery && visible + delivery <= 270.0
    requires OnTime(k, visible, delivery) && Prompt(k, e, visible, delivery)
    ensures OnTime(Step(k, e), visible, delivery)
    ensures Decide(k.gate) == RenewNow ==> 300.0 <= k.gate.now - k.gate.lastRenew < 330.0
  {
  }

  lemma {:induction false} EveryPromptRunIsOnTime(now: real, es: seq<Event>, visible: real, delivery: real)
    requires 0.0 <= visible && 0.0 <= delivery && visible + delivery <= 270.0
    requires PromptRun(AtStart(now), es, visible, delivery)
    ensures OnTime(Run(AtStart(now), es), visible, delivery)
  {
    if es != [] {
      var front := es[..|es| - 1];
      forall i | 0 <= i < |front| ensures Prompt(Run(AtStart(now), front[..i]), front[i], visible, delivery) {
        assert front[..i] == es[..i];
      }
      EveryPromptRunIsOnTime(now, front, visible, delivery);
      StepIsOnTime(Run(AtStart(now), front), es[|es| - 1], visible, delivery);
    }
  }

  lemma GraceOfTheGatesWindow()
    ensures LEASE_TTL_S == 900 && GpuLease.ExpiryWake(900) == 600
  {
    assert GpuLease.RenewAfter(900) == 300;
  }

  /** While every tick finds the gate busy, renewals are under 330 s apart and the box's timer, armed for the
      grace of a 900 s window, has not fired. */
  lemma {:induction false} WorkingSessionKeepsItsWindow(now: real, es: seq<Event>, visible: real, delivery: real)
    requires 0.0 <= visible && 0.0 <= delivery && visible + delivery <= 270.0
    requires PromptRun(AtStart(now), es, visible, delivery)
    ensures var k := Run(AtStart(now), es);
            k.gate.mode != "" ==>
              && k.gate.now - k.gate.lastRenew < 330.0
              && k.gate.now < k.armedAt + GpuLease.ExpiryWake(LEASE_TTL_S) as real
  {
    EveryPromptRunIsOnTime(now, es, visible, delivery);
    GraceOfTheGatesWindow();
  }
}
