/**
 How much delay a working session can take: 270 s between the box and the gate, all told, and not a moment more.
 Beyond it there is a run, prompt in every way that was promised, at whose end the box's timer has fired.
 */
module KeeperBound {
  import opened Options
  import opened ModelGate
  import opened KeeperTiming
  import GpuLease

  /** The box's timer has not fired on a held mode. */
  predicate StillArmed(k: Keeper) {
    k.gate.mode != "" ==> k.gate.now < k.armedAt + GpuLease.ExpiryWake(LEASE_TTL_S) as real
  }

  // ----- Putting runs together -----

  lemma {:induction false} RunConcat(k: Keeper, a: seq<Event>, b: seq<Event>)
    ensures Run(k, a + b) == Run(Run(k, a), b)
  {
    if b == [] {
      assert a + b == a;
    } else {
      var front, last := b[..|b| - 1], b[|b| - 1];
      RunConcat(k, a, front);
      assert (a + b)[..|a + b| - 1] == a + front && (a + b)[|a + b| - 1] == last;
    }
  }

  /** `PromptRun`, event by event. */
  predicate AllPrompt(k: Keeper, es: seq<Event>, visible: real, delivery: real) {
    es == [] ||
    (AllPrompt(k, es[..|es| - 1], visible, delivery) && Prompt(Run(k, es[..|es| - 1]), es[|es| - 1], visible, delivery))
  }

  lemma {:induction false} AllPromptIsPromptRun(k: Keeper, es: seq<Event>, visible: real, delivery: real)
    requires AllPrompt(k, es, visible, delivery)
    ensures PromptRun(k, es, visible, delivery)
  {
    if es != [] {
      var front := es[..|es| - 1];
      AllPromptIsPromptRun(k, front, visible, delivery);
      forall i | 0 <= i < |es|
        ensures Prompt(Run(k, es[..i]), es[i], visible, delivery)
      {
        if i < |front| {
          assert front[..i] == es[..i];
        }
      }
    }
  }

  lemma {:induction false} PromptConcat(k: Keeper, a: seq<Event>, b: seq<Event>, visible: real, delivery: real)
    requires AllPrompt(k, a, visible, delivery) && AllPrompt(Run(k, a), b, visible, delivery)
    ensures AllPrompt(k, a + b, visible, delivery)
  {
    if b == [] {
      assert a + b == a;
    } else {
      var front, last := b[..|b| - 1], b[|b| - 1];
      PromptConcat(k, a, front, visible, delivery);
      RunConcat(k, a, front);
      assert (a + b)[..|a + b| - 1] == a + front && (a + b)[|a + b| - 1] == last;
    }
  }

  lemma PromptOne(k: Keeper, e: Event, visible: real, delivery: real)
    requires Prompt(k, e, visible, delivery)
    ensures Reaches(k, [e], Step(k, e), visible, delivery)
  {
    var es := [e];
    assert es[..|es| - 1] == [];
    assert AllPrompt(k, [], visible, delivery) && Run(k, []) == k;
  }

  predicate Reaches(k: Keeper, es: seq<Event>, m: Keeper, visible: real, delivery: real) {
    AllPrompt(k, es, visible, delivery) && Run(k, es) == m
  }

  /** Two runs one after the other, both prompt. */
  lemma Then(k: Keeper, a: seq<Event>, m: Keeper, b: seq<Event>, n: Keeper, visible: real, delivery: real)
    requires Reaches(k, a, m, visible, delivery) && Reaches(m, b, n, visible, delivery)
    ensures Reaches(k, a + b, n, visible, delivery)
  {
    PromptConcat(k, a, b, visible, delivery);
    RunConcat(k, a, b);
  }

  lemma TwoEvents(k: Keeper, a: Event, b: Event, visible: real, delivery: real)
    requires Prompt(k, a, visible, delivery) && Prompt(Step(k, a), b, visible, delivery)
    ensures Reaches(k, [a] + [b], Step(Step(k, a), b), visible, delivery)
  {
    PromptOne(k, a, visible, delivery);
    PromptOne(Step(k, a), b, visible, delivery);
    Then(k, [a], Step(k, a), [b], Step(Step(k, a), b), visible, delivery);
  }

  // ----- Ticks that find nothing to do -----

  function After(k: Keeper, seconds: real): Keeper {
    k.(gate := k.gate.(now := k.gate.now + seconds), lastTick := k.gate.now + seconds)
  }

  /** At work, just ticked, no renewal due for `seconds`, and none promised sooner. */
  predicate Calm(k: Keeper, seconds: real, delivery: real) {
    && k.gate.inFlight > 0 && k.lastTick == k.gate.now
    && (k.gate.mode != "" ==> k.gate.now + seconds - k.gate.lastRenew < RENEW_AFTER_S)
    && (k.pending.Some? ==> k.gate.now + seconds <= k.pending.value + delivery)
  }

  lemma OneBeat(k: Keeper, pause: real, visible: real, delivery: real)
    requires 0.0 <= pause <= TICK_S && Calm(k, pause, delivery)
    ensures Reaches(k, [Pass(pause)] + [Tick], After(k, pause), visible, delivery)
  {
    TwoEvents(k, Pass(pause), Tick, visible, delivery);
  }

  function Times(n: nat, pause: real): real { if n == 0 then 0.0 else Times(n - 1, pause) + pause }

  lemma {:induction false} TimesIsProduct(n: nat, pause: real)
    ensures Times(n, pause) == n as real * pause
  {
    if n > 0 {
      TimesIsProduct(n - 1, pause);
    }
  }

  /** `n` times: wait `pause`, tick. */
  lemma {:induction false} ManyBeats(k: Keeper, pause: real, n: nat, visible: real, delivery: real)
    returns (es: seq<Event>)
    requires 0.0 <= pause <= TICK_S && Calm(k, Times(n, pause), delivery)
    ensures Reaches(k, es, After(k, Times(n, pause)), visible, delivery)
  {
    if n == 0 {
      es := [];
    } else {
      var m := After(k, Times(n - 1, pause));
      var front := ManyBeats(k, pause, n - 1, visible, delivery);
      OneBeat(m, pause, visible, delivery);
      es := front + ([Pass(pause)] + [Tick]);
      Then(k, front, m, [Pass(pause)] + [Tick], After(m, pause), visible, delivery);
    }
  }

  // ----- The run -----

  /** At work since 0, the timer armed then, the mode's renewal clock at `renewed`, just ticked. */
  function Held(renewed: real, now: real, pending: Option<real>): Keeper {
    Keeper(Gate("coding", renewed, 0.0, 1, now), {0}, now, pending, 0.0)
  }

  function AtWork(now: real): Keeper { Keeper(Gate("", 0.0, 0.0, 1, now), {0}, now, None, 0.0) }

  lemma HeldBeats(renewed: real, now: real, pending: Option<real>, pause: real, n: nat, total: real,
                  visible: real, delivery: real) returns (es: seq<Event>)
    requires 0.0 <= pause <= TICK_S && total == n as real * pause && now + total - renewed < 300.0
    requires pending.Some? ==> now + total <= pending.value + delivery
    ensures Reaches(Held(renewed, now, pending), es, Held(renewed, now + total, pending), visible, delivery)
  {
    TimesIsProduct(n, pause);
    es := ManyBeats(Held(renewed, now, pending), pause, n, visible, delivery);
  }

  /** A session at work sees `ready` after `seen` seconds. */
  lemma Opening(seen: real, visible: real, delivery: real) returns (es: seq<Event>)
    requires 0.0 <= seen <= 300.0 && seen <= visible
    ensures Reaches(AtStart(0.0), es, Held(seen, seen, None), visible, delivery)
  {
    PromptOne(AtStart(0.0), PostBegins(0), visible, delivery);
    assert Step(AtStart(0.0), PostBegins(0)) == AtWork(0.0);
    TimesIsProduct(10, seen / 10.0);
    var beats := ManyBeats(AtWork(0.0), seen / 10.0, 10, visible, delivery);
    Then(AtStart(0.0), [PostBegins(0)], AtWork(0.0), beats, AtWork(seen), visible, delivery);
    ReadySeen(seen, visible, delivery);
    es := [PostBegins(0)] + beats + [SeenReady("coding", 0.0)];
    Then(AtStart(0.0), [PostBegins(0)] + beats, AtWork(seen), [SeenReady("coding", 0.0)],
         Held(seen, seen, None), visible, delivery);
  }

  lemma ReadySeen(seen: real, visible: real, delivery: real)
    requires 0.0 <= seen <= visible
    ensures Reaches(AtWork(seen), [SeenReady("coding", 0.0)], Held(seen, seen, None), visible, delivery)
  {
    PromptOne(AtWork(seen), SeenReady("coding", 0.0), visible, delivery);
  }

  /** The tick at which the renewal is due. */
  lemma RenewalBeat(renewed: real, now: real, visible: real, delivery: real)
    requires now + 30.0 - renewed >= 300.0 && 0.0 <= delivery
    ensures Reaches(Held(renewed, now, None), [Pass(30.0)] + [Tick], Held(now + 30.0, now + 30.0, Some(now + 30.0)),
                    visible, delivery)
  {
    TwoEvents(Held(renewed, now, None), Pass(30.0), Tick, visible, delivery);
  }

  /** Ticks up to `slack` short of 300 s later: the renewal is not due yet. */
  lemma UntilAlmostDue(seen: real, slack: real, visible: real, delivery: real) returns (es: seq<Event>)
    requires 0.0 <= seen <= 300.0 && seen <= visible && 0.0 < slack <= 30.0
    ensures Reaches(AtStart(0.0), es, Held(seen, seen + 300.0 - slack, None), visible, delivery)
  {
    var k, m := Held(seen, seen, None), Held(seen, seen + (30.0 - slack), None);
    var n := Held(seen, seen + 300.0 - slack, None);
    var a := Opening(seen, visible, delivery);
    var b := HeldBeats(seen, seen, None, 30.0 - slack, 1, 30.0 - slack, visible, delivery);
    var c := HeldBeats(seen, seen + (30.0 - slack), None, 30.0, 9, 270.0, visible, delivery);
    es := a + b + c;
    Then(AtStart(0.0), a, k, b, m, visible, delivery);
    Then(AtStart(0.0), a + b, m, c, n, visible, delivery);
  }

  /** Then it is written, `slack` short of 330 s later, and is on its way for `sent` seconds. */
  lemma LateRun(seen: real, slack: real, sent: real, visible: real, delivery: real) returns (es: seq<Event>)
    requires 0.0 <= seen <= 300.0 && seen <= visible && 0.0 < slack <= 30.0
    requires 0.0 <= sent < 300.0 && sent <= delivery
    ensures var written := seen + 330.0 - slack;
            Reaches(AtStart(0.0), es, Held(written, written + sent, Some(written)), visible, delivery)
  {
    var due, written := seen + 300.0 - slack, seen + 330.0 - slack;
    var a := UntilAlmostDue(seen, slack, visible, delivery);
    RenewalBeat(seen, due, visible, delivery);
    var b := [Pass(30.0)] + [Tick];
    var c := HeldBeats(written, written, Some(written), sent / 10.0, 10, sent, visible, delivery);
    es := a + b + c;
    Then(AtStart(0.0), a, Held(seen, due, None), b, Held(written, written, Some(written)), visible, delivery);
    Then(AtStart(0.0), a + b, Held(written, written, Some(written)), c, Held(written, written + sent, Some(written)),
         visible, delivery);
  }

  /** Over 270 s in all, a prompt run on which the timer has fired. */
  lemma TooLateFires(visible: real, delivery: real) returns (es: seq<Event>)
    requires 0.0 <= visible && 0.0 <= delivery && visible + delivery > 270.0
    ensures PromptRun(AtStart(0.0), es, visible, delivery) && !StillArmed(Run(AtStart(0.0), es))
  {
    var over := (visible + delivery - 270.0) / 2.0;
    var slack := if over < 15.0 then over else 15.0;
    var seen := if visible < 270.0 + slack then visible else 270.0 + slack;
    var sent := 270.0 + slack - seen;
    es := LateRun(seen, slack, sent, visible, delivery);
    AllPromptIsPromptRun(AtStart(0.0), es, visible, delivery);
    GraceOfTheGatesWindow();
  }

  /** A working session keeps its window on every prompt run if and only if the two delays make 270 s at most. */
  lemma KeptExactlyWithin270(visible: real, delivery: real)
    requires 0.0 <= visible && 0.0 <= delivery
    ensures (forall now, es :: PromptRun(AtStart(now), es, visible, delivery) ==> StillArmed(Run(AtStart(now), es)))
            <==> visible + delivery <= 270.0
  {
    if visible + delivery <= 270.0 {
      forall now, es | PromptRun(AtStart(now), es, visible, delivery)
        ensures StillArmed(Run(AtStart(now), es))
      {
        WorkingSessionKeepsItsWindow(now, es, visible, delivery);
      }
    } else {
      var es := TooLateFires(visible, delivery);
    }
  }
}
