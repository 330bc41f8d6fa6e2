/**
 Whole runs of the lease: hands, brokers, the policy proxy, deploys and the clock in any order.
 A run is a sequence of events; every lemma about `Run` speaks of every state a run reaches.
 */
module LeaseRuns {
  import opened Options
  import opened GpuLease
  import opened PolicyProxy

  datatype Event =
    | ByHand(holder: string, model: ModelArg, ttl: int, weights: bool)
    | GiveBack
    | Ask(wanted: Option<Preset>, weights: bool)
    | Pass(seconds: real)
    | Redeploy(unitChanged: bool, recorded: Option<Preset>)
    | RestartProxy

  function Step(d: Door, e: Event): Door {
    match e
    case ByHand(holder, model, ttl, weights) => d.(box := Acquire(d.box, holder, model, ttl, weights))
    case GiveBack => d.(box := Release(d.box))
    case Ask(wanted, weights) => AfterPost(d, wanted, weights)
    case Pass(seconds) => d.(box := Wait(d.box, seconds))
    case Redeploy(unitChanged, recorded) => d.(box := Deploy(d.box, unitChanged, recorded))
    case RestartProxy => d.(renewedAt := 0.0)
  }

  function Run(d: Door, es: seq<Event>): Door {
    if es == [] then d else Step(Run(d, es[..|es| - 1]), es[|es| - 1])
  }

  /** The installed box: no lease, everything up, voice on the GPU. */
  function Household(now: real, household: Preset, envAlias: Preset): Door {
    Door(State(None, None, LEASED_UNITS, Gpu, now, household, envAlias), 0.0)
  }

  /** The first `k` events of a run are the first `k` of the run without its last event. */
  lemma PrefixOfPrefix(es: seq<Event>, k: nat)
    requires k < |es|
    ensures es[..|es| - 1][..k] == es[..k] && (k < |es| - 1 ==> es[..|es| - 1][k] == es[k])
  {
  }

  // ----- The environment follows the mode -----

  /** The three moves after which the environment is not the prescribed one: a direct step between
      `Exclusive` and a named mode (except out of `Foundry`), and a deploy inside an exclusive window. */
  predicate Hazard(d: Door, e: Event) {
    match e
    case ByHand(holder, model, _, weights) =>
      Judge(d.box, holder, model, weights) == Taken
      && (if model.Named? then Standing(d.box) == Some(Exclusive) else Standing(d.box) == Some(Under(Extended)))
    case Redeploy(_, _) => Standing(d.box) == Some(Exclusive)
    case Ask(Some(w), weights) =>
      // no exclusive window written by `acquire` lists a preset; a file that did would be switched here
      w in Policy(d.box) && Standing(d.box) == Some(Exclusive) && weights
      && d.box.lease.value.holder == AUTO_HOLDER && d.box.now - d.renewedAt >= AUTO_RENEW_EVERY_SEC
    case _ => false
  }

  lemma AcquireKeepsAgreement(s: State, holder: string, model: ModelArg, ttl: int, weights: bool)
    requires Agrees(s)
    ensures Agrees(Acquire(s, holder, model, ttl, weights))
            <==> !Hazard(Door(s, 0.0), ByHand(holder, model, ttl, weights))
  {
    var t := Acquire(s, holder, model, ttl, weights);
    if Judge(s, holder, model, weights) == Taken {
      var want := WantedMode(model);
      assert Standing(t) == Some(want);
      if model.Named? && Standing(s) == Some(Exclusive) {
        assert Llama !in t.running && Llama in LEASED_UNITS - KeptDown(Standing(t));
      }
    }
  }

  lemma ReleaseRestoresHousehold(s: State)
    requires Agrees(s)
    ensures Release(s).lease == None && Release(s).timer == None
    ensures Release(s).running == LEASED_UNITS && Release(s).device == Gpu
  {
  }

  /** Exactly the hazards break the agreement, whatever the event. */
  lemma StepKeepsAgreement(d: Door, e: Event)
    requires Agrees(d.box)
    ensures Agrees(Step(d, e).box) <==> !Hazard(d, e)
  {
    match e
    case ByHand(holder, model, ttl, weights) =>
      AcquireKeepsAgreement(d.box, holder, model, ttl, weights);
    case GiveBack =>
      ReleaseRestoresHousehold(d.box);
    case Pass(seconds) =>
      ReleaseRestoresHousehold(d.box.(now := d.box.now + seconds));
    case Ask(wanted, weights) =>
      AskKeepsAgreement(d, wanted, weights);
    case Redeploy(unitChanged, recorded) =>
      DeployKeepsAgreement(d.box, unitChanged, recorded);
    case RestartProxy =>
  }

  lemma AskKeepsAgreement(d: Door, wanted: Option<Preset>, weights: bool)
    requires Agrees(d.box)
    ensures Agrees(AfterPost(d, wanted, weights).box) <==> !Hazard(d, Ask(wanted, weights))
  {
    AcquireKeepsAgreement(d.box, AUTO_HOLDER, Named(Extended), AUTO_LEASE_SEC, weights);
  }

  lemma DeployKeepsAgreement(s: State, unitChanged: bool, recorded: Option<Preset>)
    requires Agrees(s)
    ensures Agrees(Deploy(s, unitChanged, recorded)) <==> Standing(s) != Some(Exclusive)
  {
    assert Standing(s) == Some(Exclusive) ==> Embed in Deploy(s, unitChanged, recorded).running;
  }

  ghost predicate HazardFree(d: Door, es: seq<Event>) {
    forall k :: 0 <= k < |es| ==> !Hazard(Run(d, es[..k]), es[k])
  }

  /** Every hazard-free run keeps the prescribed environment, and the household's whenever no lease stands. */
  lemma {:induction false} EveryRunAgrees(d: Door, es: seq<Event>)
    requires Agrees(d.box)
    requires HazardFree(d, es)
    ensures Agrees(Run(d, es).box)
    ensures Run(d, es).box.lease.None? ==> Run(d, es).box.running == LEASED_UNITS && Run(d, es).box.device == Gpu
  {
    if es != [] {
      var n := |es| - 1;
      forall k | 0 <= k < n ensures !Hazard(Run(d, es[..n][..k]), es[..n][k]) {
        PrefixOfPrefix(es, k);
      }
      EveryRunAgrees(d, es[..n]);
      StepKeepsAgreement(Run(d, es[..n]), es[n]);
    }
  }

  /** Why the hazards are hazards: voice stays on the CPU after `erweitert`, then exclusive, then release. */
  lemma ExclusiveAfterExtendedStrandsVoice(d: Door, holder: string, ttl: int)
    requires d.box.lease.None? && Agrees(d.box)
    ensures var es := [ByHand(holder, Named(Extended), ttl, true), ByHand(holder, Absent, ttl, true), GiveBack];
            Run(d, es).box.lease.None? && Run(d, es).box.device == Cpu && !HazardFree(d, es)
  {
    var a := ByHand(holder, Named(Extended), ttl, true);
    var b := ByHand(holder, Absent, ttl, true);
    var es := [a, b, GiveBack];
    assert es[..2] == [a, b] && [a, b][..1] == [a] && es[..1] == [a] && [a][..0] == [];
    assert Run(d, [a]) == Step(d, a);
    assert Run(d, [a, b]) == Step(Step(d, a), b);
    assert Run(d, es) == Step(Run(d, [a, b]), GiveBack);
    assert Hazard(Run(d, es[..1]), es[1]);
  }

  /** And nothing comes back up: exclusive, then `foundry`, then release leaves every unit down with no lease. Under
      an alias that keeps `foundry` from being taken the release finds the exclusive window. */
  lemma NamedAfterExclusiveStrandsEverything(d: Door, holder: string, ttl: int)
    requires d.box.lease.None? && Agrees(d.box)
    ensures var es := [ByHand(holder, Absent, ttl, true), ByHand(holder, Named(Foundry), ttl, true), GiveBack];
            && Run(d, es).box.lease.None?
            && Run(d, es).box.running == (if d.box.envAlias == "gemma-4-e4b" then {} else LEASED_UNITS)
            && (HazardFree(d, es) <==> d.box.envAlias != "gemma-4-e4b")
  {
    var a := ByHand(holder, Absent, ttl, true);
    var b := ByHand(holder, Named(Foundry), ttl, true);
    var es := [a, b, GiveBack];
    assert es[..0] == [] && es[..1] == [a] && es[..2] == [a, b] && [a, b][..1] == [a] && [a][..0] == [];
    assert Run(d, [a]) == Step(d, a);
    assert Run(d, [a, b]) == Step(Step(d, a), b);
    assert Run(d, es) == Step(Run(d, [a, b]), GiveBack);
    EmptiedThenFoundry(d, holder, ttl);
    if d.box.envAlias == "gemma-4-e4b" {
      assert Hazard(Run(d, es[..1]), es[1]);
    } else {
      forall k | 0 <= k < |es|
        ensures !Hazard(Run(d, es[..k]), es[k])
      {
        assert k == 0 || k == 1 || k == 2;
      }
    }
  }

  lemma EmptiedThenFoundry(d: Door, holder: string, ttl: int)
    requires d.box.lease.None? && Agrees(d.box)
    ensures var a, b := ByHand(holder, Absent, ttl, true), ByHand(holder, Named(Foundry), ttl, true);
            var one := Step(d, a);
            var two := Step(one, b);
            && !Hazard(d, a) && one.box.running == {} && (Hazard(one, b) <==> d.box.envAlias == "gemma-4-e4b")
            && two.box.running == {}
            && Standing(two.box) == Some(if d.box.envAlias == "gemma-4-e4b" then Under(Foundry) else Exclusive)
  {
    FoundryNeedsTheDefaultAlias(Foundry, d.box.envAlias);
  }

  const ALL_SIX := {WhisperBatch, WakewordTrainer, Whisper, Tts, Embed, Llama}

  /** The environments, unit by unit: after every run without hazards, who runs and where the voice stack is. */
  lemma EnvironmentByMode(d: Door, es: seq<Event>)
    requires Agrees(d.box) && HazardFree(d, es)
    ensures var s := Run(d, es).box;
            match Standing(s)
            case Some(Exclusive) => s.running == {} && s.device == Gpu
            case Some(Under(name)) =>
              if name == Foundry then s.running == ALL_SIX && s.device == Gpu
              else s.running == {Whisper, Tts, Llama} && s.device == Cpu
            case None => s.running == ALL_SIX && s.device == Gpu
  {
    EveryRunAgrees(d, es);
  }

  // ----- What an acquire writes -----

  /** An acquire that goes through leaves a window of the caller's, armed from now. A window newly taken names the
      preset the requested name promises, under the mode it stands for today; a renewal leaves mode, set and alias. */
  lemma AcquiredWindow(s: State, holder: string, model: ModelArg, ttl: int, weights: bool)
    requires ExitCode(Judge(s, holder, model, weights)) == 0
    ensures var t := Acquire(s, holder, model, ttl, weights);
            && t.lease.Some? && t.lease.value.holder == holder
            && t.lease.value.until == s.now + ttl as real && t.lease.value.lastRenewedAt == s.now
            && t.timer == Some(s.now + ExpiryWake(ttl) as real)
    ensures Judge(s, holder, model, weights) == Taken ==>
              var r := Acquire(s, holder, model, ttl, weights).lease.value;
              && r.since == s.now
              && r.ready == model.Named?
              && r.mode == (if model == Absent then Exclusive else if model == Named(Foundry) then Under(Foundry)
                            else Under(Extended))
              && r.alias == (match model
                             case Named(Coding) => "qwen3.8-27b"
                             case Named(Thinking) => "qwen3.6-35b-a3b"
                             case Named(Foundry) => "gemma-4-12b"
                             case _ => "")
    ensures Judge(s, holder, model, weights) == Renewal ==>
              var before, r := Migrated(s.lease.value), Acquire(s, holder, model, ttl, weights).lease.value;
              && r.mode == before.mode && r.alias == before.alias && r.allowed == before.allowed
              && r.since == before.since && r.ready
  {
  }

  // ----- One window, at most one change of hands -----

  function Holder(s: State): Option<string> {
    if s.lease.Some? then Some(s.lease.value.holder) else None
  }

  /** An acquire against a window that neither the caller nor the router holds changes nothing at all. */
  lemma StrangersLeaveTheBoxAlone(s: State, holder: string, model: ModelArg, ttl: int, weights: bool)
    requires Holder(s) != None && Holder(s) != Some(holder) && Holder(s) != Some(AUTO_HOLDER)
    ensures Acquire(s, holder, model, ttl, weights) == s
  {
  }

  /** A window is open throughout: a lease stands before every event and after the last. */
  ghost predicate Open(d: Door, es: seq<Event>) {
    forall k :: 0 <= k <= |es| ==> Run(d, es[..k]).box.lease.Some?
  }

  /** How often the card changes hands. */
  function Changes(d: Door, es: seq<Event>): nat {
    if es == [] then 0 else
      var before := Run(d, es[..|es| - 1]);
      Changes(d, es[..|es| - 1]) + (if Holder(Step(before, es[|es| - 1]).box) != Holder(before.box) then 1 else 0)
  }

  lemma {:induction false} HolderChangesAtMostOnce(d: Door, es: seq<Event>)
    requires Open(d, es)
    ensures Changes(d, es) <= 1
    ensures Changes(d, es) == 0 ==> Holder(Run(d, es).box) == Holder(d.box)
    ensures Changes(d, es) == 1 ==> Holder(d.box) == Some(AUTO_HOLDER) && Holder(Run(d, es).box) != Some(AUTO_HOLDER)
  {
    if es != [] {
      var n := |es| - 1;
      forall k | 0 <= k <= n ensures Run(d, es[..n][..k]).box.lease.Some? {
        assert es[..n][..k] == es[..k];
      }
      HolderChangesAtMostOnce(d, es[..n]);
      assert es[..n + 1] == es;
      assert Run(d, es[..n]).box.lease.Some? && Run(d, es[..n + 1]).box.lease.Some?;
      OnlyTheRouterIsTakenOver(Run(d, es[..n]), es[n]);
    }
  }

  lemma OnlyTheRouterIsTakenOver(d: Door, e: Event)
    requires d.box.lease.Some? && Step(d, e).box.lease.Some?
    ensures Holder(Step(d, e).box) == Holder(d.box)
            || (Holder(d.box) == Some(AUTO_HOLDER) && Holder(Step(d, e).box) != Some(AUTO_HOLDER))
  {
  }

  // ----- What the proxy forwards -----

  /** A lease allows what its mode allows, all of it in the preset table; an exclusive one nothing, and names
      nothing. */
  ghost predicate ModeSound(s: State) {
    s.lease.Some? ==>
      var r := s.lease.value;
      && (r.mode == Exclusive ==> r.allowed == [] && r.alias == "")
      && (r.mode.Under? ==> r.ready && r.mode.name == CanonicalMode(r.mode.name)
                            && r.allowed == AllowedPresets(r.mode.name, s.envAlias)
                            && Listed(r.mode.name, s.envAlias))
  }

  /** And names only a preset of its own set. */
  ghost predicate PolicySound(s: State) {
    ModeSound(s) && (s.lease.Some? ==> s.lease.value.alias == "" || s.lease.value.alias in s.lease.value.allowed)
  }

  lemma AcquireKeepsPolicySound(s: State, holder: string, model: ModelArg, ttl: int, weights: bool)
    ensures ModeSound(s) ==> ModeSound(Acquire(s, holder, model, ttl, weights))
    ensures PolicySound(s) ==> PolicySound(Acquire(s, holder, model, ttl, weights))
  {
    if model.Named? {
      assert PromisedAlias(model.name) == "" || PromisedAlias(model.name) in AllowedPresets(model.name, s.envAlias);
    }
  }

  lemma StepKeepsModeSound(d: Door, e: Event)
    requires ModeSound(d.box)
    ensures ModeSound(Step(d, e).box)
  {
    match e
    case ByHand(holder, model, ttl, weights) =>
      AcquireKeepsPolicySound(d.box, holder, model, ttl, weights);
    case Ask(wanted, weights) =>
      AcquireKeepsPolicySound(d.box, AUTO_HOLDER, Named(Extended), AUTO_LEASE_SEC, weights);
    case _ =>
  }

  /** Every step keeps it, whatever the event and whoever acquires. */
  lemma StepKeepsPolicySound(d: Door, e: Event)
    requires PolicySound(d.box)
    ensures PolicySound(Step(d, e).box)
  {
    match e
    case ByHand(holder, model, ttl, weights) =>
      AcquireKeepsPolicySound(d.box, holder, model, ttl, weights);
    case Ask(Some(wanted), weights) =>
      StepKeepsModeSound(d, e);
      ForwardedHere(d, wanted, weights);
    case _ =>
  }

  lemma {:induction false} EveryRunIsModeSound(d: Door, es: seq<Event>)
    requires ModeSound(d.box)
    ensures ModeSound(Run(d, es).box)
  {
    if es != [] {
      var n := |es| - 1;
      EveryRunIsModeSound(d, es[..n]);
      StepKeepsModeSound(Run(d, es[..n]), es[n]);
    }
  }

  lemma {:induction false} EveryRunIsPolicySound(d: Door, es: seq<Event>)
    requires PolicySound(d.box)
    ensures PolicySound(Run(d, es).box)
  {
    if es != [] {
      var n := |es| - 1;
      EveryRunIsPolicySound(d, es[..n]);
      StepKeepsPolicySound(Run(d, es[..n]), es[n]);
    }
  }

  /** A request in plain words, whatever state the box is in. With no lease the household's own preset is forwarded and
      nothing changes; another takes the `erweitert` window, if the table has it and its weights are there, and is
      refused with nothing changed otherwise. With a lease the lease's set decides. A request that names no preset is
      forwarded and changes nothing. */
  lemma RequestsInPlainWords(d: Door, w: Preset, weights: bool)
    ensures var after, reply := AfterPost(d, Some(w), weights), ReplyTo(d.box, Some(w), weights);
            match d.box.lease
            case None =>
              && (w == d.box.household ==> reply == Forwarded && after == d)
              && (w != d.box.household ==>
                    && (reply == Forwarded <==>
                          w in [d.box.envAlias, "gemma-4-12b", "qwen3.6-35b-a3b", "qwen3.8-27b"] && weights)
                    && (reply == Forwarded ==>
                          Holder(after.box) == Some("router") && Standing(after.box) == Some(Under(Extended)))
                    && (reply == Refused ==> after.box == d.box))
            case Some(r) => (reply == Forwarded <==> w in r.allowed) && (reply == Refused ==> after.box == d.box)
    ensures ReplyTo(d.box, None, weights) == Forwarded && AfterPost(d, None, weights) == d
  {
  }

  /** And by mode, in every run, whoever acquires. */
  lemma RequestsByMode(d: Door, es: seq<Event>, w: Preset, weights: bool)
    requires ModeSound(d.box)
    ensures var s := Run(d, es).box;
            var forwarded := ReplyTo(s, Some(w), weights) == Forwarded;
            match Standing(s)
            case None => true
            case Some(Exclusive) => !forwarded
            case Some(Under(name)) =>
              && (name == Foundry ==> (forwarded <==> w in ["gemma-4-e4b", "gemma-4-12b"]))
              && (name != Foundry ==>
                    (forwarded <==> w in [d.box.envAlias, "gemma-4-12b", "qwen3.6-35b-a3b", "qwen3.8-27b"]))
  {
    EveryRunIsModeSound(d, es);
    TableStays(d, es);
  }

  /** A preset table without the default alias has no `foundry` window: in no run does one stand, and an acquire for
      one leaves everything as it was, though the name is known. */
  lemma FoundryIsNeverTaken(d: Door, es: seq<Event>, holder: string, ttl: int, weights: bool)
    requires ModeSound(d.box) && d.box.envAlias != "gemma-4-e4b"
    ensures var s := Run(d, es).box;
            && Standing(s) != Some(Under(Foundry))
            && Acquire(s, holder, Named(Foundry), ttl, weights) == s
            && ExitCode(Judge(s, holder, Named(Foundry), weights)) == 1
  {
    EveryRunIsModeSound(d, es);
    TableStays(d, es);
    FoundryNeedsTheDefaultAlias(Foundry, d.box.envAlias);
  }

  lemma {:induction false} TableStays(d: Door, es: seq<Event>)
    ensures Run(d, es).box.envAlias == d.box.envAlias
  {
    if es != [] {
      TableStays(d, es[..|es| - 1]);
    }
  }

  /** In every run, whoever acquires: a request is served exactly when its preset is allowed in the state it leaves;
      the lease then names it; and an exclusive window forwards none. */
  lemma {:induction false} ForwardedPresetsAreAllowed(d: Door, es: seq<Event>, wanted: Preset, weights: bool)
    requires ModeSound(d.box)
    ensures var before := Run(d, es);
            var after := AfterPost(before, Some(wanted), weights);
            && (wanted in Policy(after.box) <==> Serves(before.box, wanted, weights))
            && (Serves(before.box, wanted, weights) && after.box.lease.Some? ==> after.box.lease.value.alias == wanted)
            && (Standing(before.box) == Some(Exclusive) ==> !Serves(before.box, wanted, weights) && after == before)
  {
    EveryRunIsModeSound(d, es);
    ForwardedHere(Run(d, es), wanted, weights);
  }

  lemma ForwardedHere(before: Door, wanted: Preset, weights: bool)
    requires ModeSound(before.box)
    ensures var after := AfterPost(before, Some(wanted), weights);
            && (wanted in Policy(after.box) <==> Serves(before.box, wanted, weights))
            && (Serves(before.box, wanted, weights) && after.box.lease.Some? ==> after.box.lease.value.alias == wanted)
            && (!Serves(before.box, wanted, weights) ==> after.box == before.box)
            && (Standing(before.box) == Some(Exclusive) ==> !Serves(before.box, wanted, weights) && after == before)
  {
  }

  // ----- When the automatic window ends -----

  /** When the proxy last forwarded a request that named a preset. */
  function LastServed(d: Door, es: seq<Event>): Option<real> {
    if es == [] then None else
      var before := Run(d, es[..|es| - 1]);
      match es[|es| - 1]
      case Ask(Some(w), weights) =>
        if Serves(before.box, w, weights) then Some(before.box.now) else LastServed(d, es[..|es| - 1])
      case _ => LastServed(d, es[..|es| - 1])
  }

  predicate TimeRunsForward(es: seq<Event>) {
    forall k :: 0 <= k < |es| && es[k].Pass? ==> es[k].seconds >= 0.0
  }

  /** The last acquire that went through, a first take, switch or renewal: when, for how long, and whether the
      proxy made it. */
  datatype Arming = Arming(at: real, ttl: int, byProxy: bool)

  predicate GoesThrough(s: State, holder: string, model: ModelArg, weights: bool) {
    ExitCode(Judge(s, holder, model, weights)) == 0
  }

  /** Whether a request for `w` makes the proxy acquire. */
  predicate Acquires(d: Door, w: Preset) {
    if w in Policy(d.box) then
      d.box.now - d.renewedAt >= AUTO_RENEW_EVERY_SEC && d.box.lease.Some? && d.box.lease.value.holder == AUTO_HOLDER
    else d.box.lease.None? && w in PresetNames(d.box.envAlias)
  }

  function Armed(d: Door, last: Option<Arming>, e: Event): Option<Arming> {
    match e
    case ByHand(holder, model, ttl, weights) =>
      if GoesThrough(d.box, holder, model, weights) then Some(Arming(d.box.now, ttl, false)) else last
    case Ask(Some(w), weights) =>
      if Acquires(d, w) && GoesThrough(d.box, AUTO_HOLDER, Named(Extended), weights)
      then Some(Arming(d.box.now, AUTO_LEASE_SEC, true)) else last
    case _ => last
  }

  function LastArming(d: Door, es: seq<Event>): Option<Arming> {
    if es == [] then None else Armed(Run(d, es[..|es| - 1]), LastArming(d, es[..|es| - 1]), es[|es| - 1])
  }

  /** The timer of a window is the last arming's; the proxy's own is `erweitert`, held as `router`. */
  ghost predicate TimerIs(s: State, last: Option<Arming>) {
    s.lease.Some? ==>
      && last.Some? && s.timer == Some(last.value.at + ExpiryWake(last.value.ttl) as real)
      && s.lease.value.until == last.value.at + last.value.ttl as real
      && (last.value.byProxy ==>
            && last.value.ttl == AUTO_LEASE_SEC && s.lease.value.holder == AUTO_HOLDER
            && s.lease.value.mode == Under(Extended) && s.lease.value.ready)
  }

  /** While the last arming is the proxy's, it was less than a minute before the last request served. */
  ghost predicate RouterClock(d: Door, served: Option<real>, last: Option<Arming>) {
    && 0.0 <= d.box.now && TimerIs(d.box, last) && (last.Some? ==> last.value.at <= d.box.now)
    && (d.box.lease.Some? && last.value.byProxy ==>
          && served.Some? && served.value - 60.0 < last.value.at <= served.value <= d.box.now
          && d.box.now < last.value.at + 1800.0
          && 0.0 <= last.value.at && d.renewedAt <= last.value.at)
  }

  lemma AutoWindowArithmetic()
    ensures AUTO_LEASE_SEC == 2700 && ExpiryWake(AUTO_LEASE_SEC) == 1800
  {
    ExpiryWakeIsTheIdleTime(AUTO_IDLE_SEC);
  }

  /** Every window's timer counts from its last arming. Armed by the proxy, it fires more than 29 and at most 30
      minutes after the last request served. */
  lemma {:induction false} RouterWindowExpiry(d: Door, es: seq<Event>)
    requires d.box.lease.None? && 0.0 <= d.box.now && TimeRunsForward(es)
    ensures var s, served, last := Run(d, es).box, LastServed(d, es), LastArming(d, es);
            s.lease.Some? ==>
              && last.Some? && s.timer == Some(last.value.at + ExpiryWake(last.value.ttl) as real)
              && (last.value.byProxy ==>
                    && Holder(s) == Some(AUTO_HOLDER) && served.Some?
                    && served.value + 1740.0 < s.timer.value <= served.value + 1800.0)
  {
    EveryRunKeepsTheClock(d, es);
    AutoWindowArithmetic();
  }

  lemma {:induction false} EveryRunKeepsTheClock(d: Door, es: seq<Event>)
    requires d.box.lease.None? && 0.0 <= d.box.now && TimeRunsForward(es)
    ensures RouterClock(Run(d, es), LastServed(d, es), LastArming(d, es))
  {
    if es != [] {
      var n := |es| - 1;
      EveryRunKeepsTheClock(d, es[..n]);
      RouterClockStep(Run(d, es[..n]), LastServed(d, es[..n]), LastArming(d, es[..n]), es[n]);
    }
  }

  lemma {:induction false} RouterClockStep(d: Door, served: Option<real>, last: Option<Arming>, e: Event)
    requires RouterClock(d, served, last)
    requires e.Pass? ==> e.seconds >= 0.0
    ensures RouterClock(Step(d, e),
                        if e.Ask? && e.wanted.Some? && Serves(d.box, e.wanted.value, e.weights)
                         then Some(d.box.now) else served,
                        Armed(d, last, e))
  {
    AutoWindowArithmetic();
    match e
    case ByHand(holder, model, ttl, weights) => RouterClockByHand(d, served, last, holder, model, ttl, weights);
    case Ask(Some(wanted), weights) => RouterClockAsked(d, served, last, wanted, weights);
    case _ =>
  }

  lemma RouterClockByHand(d: Door, served: Option<real>, last: Option<Arming>, holder: string, model: ModelArg,
                          ttl: int, weights: bool)
    requires RouterClock(d, served, last)
    ensures var e := ByHand(holder, model, ttl, weights);
            RouterClock(Step(d, e), served, Armed(d, last, e))
  {
  }

  lemma RouterClockAsked(d: Door, served: Option<real>, last: Option<Arming>, wanted: Preset, weights: bool)
    requires RouterClock(d, served, last)
    ensures RouterClock(AfterPost(d, Some(wanted), weights),
                        if Serves(d.box, wanted, weights) then Some(d.box.now) else served,
                        Armed(d, last, Ask(Some(wanted), weights)))
  {
    AutoWindowArithmetic();
  }

  /** Hands that leave the name `router` to the proxy. */
  predicate NamedHandsOnly(es: seq<Event>) {
    forall k :: 0 <= k < |es| && es[k].ByHand? ==> es[k].holder != AUTO_HOLDER
  }

  /** The holder of a window is `router` only by the proxy's hand, when hands leave it the name. */
  lemma {:induction false} NamedHandsLeaveTheProxyTheClock(d: Door, es: seq<Event>)
    requires d.box.lease.None? && NamedHandsOnly(es)
    ensures Holder(Run(d, es).box) == Some(AUTO_HOLDER) ==> LastArming(d, es).Some? && LastArming(d, es).value.byProxy
  {
    if es != [] {
      var n := |es| - 1;
      NamedHandsLeaveTheProxyTheClock(d, es[..n]);
      RouterHoldsByProxy(Run(d, es[..n]), LastArming(d, es[..n]), es[n]);
    }
  }

  lemma RouterHoldsByProxy(d: Door, last: Option<Arming>, e: Event)
    requires Holder(d.box) == Some(AUTO_HOLDER) ==> last.Some? && last.value.byProxy
    requires e.ByHand? ==> e.holder != AUTO_HOLDER
    ensures var now := Armed(d, last, e);
            Holder(Step(d, e).box) == Some(AUTO_HOLDER) ==> now.Some? && now.value.byProxy
  {
  }

  /** So while `router` keeps the window and hands leave it the name, the window ends half an hour after the last
      request served, a minute at most before. */
  lemma {:induction false} RouterKeepsTheHalfHour(d: Door, es: seq<Event>)
    requires d.box.lease.None? && 0.0 <= d.box.now && TimeRunsForward(es) && NamedHandsOnly(es)
    ensures var s, served := Run(d, es).box, LastServed(d, es);
            Holder(s) == Some(AUTO_HOLDER) ==>
              s.timer.Some? && served.Some? && served.value + 1740.0 < s.timer.value <= served.value + 1800.0
  {
    RouterWindowExpiry(d, es);
    NamedHandsLeaveTheProxyTheClock(d, es);
  }

  /** A hand that acquires as `router` within a minute of the proxy sets the clock by its own duration; the request
      served next does not move it back, and the half hour holds exactly when the hand's duration happens to give it. */
  lemma HandMovesTheRoutersClock(d: Door, w: Preset, ttl: int)
    requires d.box.lease.None? && w in PresetNames(d.box.envAlias) && d.box.now - d.renewedAt < AUTO_RENEW_EVERY_SEC
    ensures var es := [ByHand(AUTO_HOLDER, Named(Extended), ttl, true), Ask(Some(w), true)];
            var s := Run(d, es).box;
            && Holder(s) == Some(AUTO_HOLDER) && LastServed(d, es) == Some(d.box.now)
            && s.timer == Some(d.box.now + ExpiryWake(ttl) as real)
            && (d.box.now + 1740.0 < s.timer.value <= d.box.now + 1800.0 <==> 1740 < ExpiryWake(ttl) <= 1800)
  {
    var a, b := ByHand(AUTO_HOLDER, Named(Extended), ttl, true), Ask(Some(w), true);
    HandThenAsk(d, w, ttl);
    OneMore(d, [], a);
    OneMore(d, [a], b);
    assert [] + [a] == [a] && [a] + [b] == [a, b];
  }

  lemma HandThenAsk(d: Door, w: Preset, ttl: int)
    requires d.box.lease.None? && w in PresetNames(d.box.envAlias) && d.box.now - d.renewedAt < AUTO_RENEW_EVERY_SEC
    ensures var held := Step(d, ByHand(AUTO_HOLDER, Named(Extended), ttl, true));
            var s := Step(held, Ask(Some(w), true)).box;
            && held.box.now == d.box.now && Serves(held.box, w, true) && Holder(s) == Some(AUTO_HOLDER)
            && s.timer == Some(d.box.now + ExpiryWake(ttl) as real)
  {
  }

  lemma OneMore(d: Door, es: seq<Event>, e: Event)
    ensures Run(d, es + [e]) == Step(Run(d, es), e)
    ensures e.Ask? && e.wanted.Some? && Serves(Run(d, es).box, e.wanted.value, e.weights) ==>
              LastServed(d, es + [e]) == Some(Run(d, es).box.now)
  {
    assert (es + [e])[..|es|] == es && (es + [e])[|es|] == e;
  }

  /** No window without an armed timer, no timer without a window, and none armed past the deadline. */
  ghost predicate OnTheTimer(s: State) {
    && (s.lease.Some? <==> s.timer.Some?)
    && (s.lease.Some? ==> s.timer.value <= s.lease.value.until
                          && s.timer.value <= s.lease.value.lastRenewedAt + (2 * s.lease.value.renewAfter) as real)
  }

  lemma {:induction false} EveryWindowIsOnTheTimer(d: Door, es: seq<Event>)
    requires OnTheTimer(d.box)
    ensures OnTheTimer(Run(d, es).box)
  {
    if es != [] {
      EveryWindowIsOnTheTimer(d, es[..|es| - 1]);
      StepKeepsTheTimer(Run(d, es[..|es| - 1]), es[|es| - 1]);
    }
  }

  lemma StepKeepsTheTimer(d: Door, e: Event)
    requires OnTheTimer(d.box)
    ensures OnTheTimer(Step(d, e).box)
  {
    match e
    case ByHand(holder, model, ttl, weights) => AcquireKeepsTheTimer(d.box, holder, model, ttl, weights);
    case Ask(wanted, weights) => AcquireKeepsTheTimer(d.box, AUTO_HOLDER, Named(Extended), AUTO_LEASE_SEC, weights);
    case _ =>
  }

  lemma AcquireKeepsTheTimer(s: State, holder: string, model: ModelArg, ttl: int, weights: bool)
    requires OnTheTimer(s)
    ensures OnTheTimer(Acquire(s, holder, model, ttl, weights))
  {
    ExpiryWakeWithinDeadline(ttl);
  }

  /** And it does end: left alone for as long as it was armed, a window is gone and the house is back; the
      automatic one after half an hour. */
  lemma {:induction false} SilenceGivesTheCardBack(d: Door, es: seq<Event>, silence: real)
    requires d.box.lease.None? && 0.0 <= d.box.now && Agrees(d.box)
    requires TimeRunsForward(es) && HazardFree(d, es)
    requires var last := LastArming(d, es);
             last.Some? && silence >= (if last.value.byProxy then 1800 else ExpiryWake(last.value.ttl)) as real
    ensures var after := Step(Run(d, es), Pass(silence)).box;
            after.lease.None? && after.running == LEASED_UNITS && after.device == Gpu
  {
    EveryRunKeepsTheClock(d, es);
    AutoWindowArithmetic();
    EveryRunAgrees(d, es);
    ReleaseRestoresHousehold(Run(d, es).box.(now := Run(d, es).box.now + silence));
  }

  /** The installed box is where every run can start. */
  lemma HouseholdStarts(now: real, household: Preset, envAlias: Preset)
    ensures var d := Household(now, household, envAlias);
            && Agrees(d.box) && PolicySound(d.box) && OnTheTimer(d.box)
            && d.box.lease.None? && (now >= 0.0 ==> RouterClock(d, None, None))
  {
  }
}
