/**
 The GPU lease of the box: one lease record, one expiry timer and the household
 environment (the systemd units and the device the voice stack runs on).

 `Box` follows the script step by step; `Judge`, `Acquire`, `Release` and `Deploy` say
 what each verb means for the whole state, and the lemmas at the end are about those.
 Every verb is one atomic step. Names are kept after `strip()`.
 */
module GpuLease {
  import opened Options

  type Preset = string

  datatype SystemdUnit = WhisperBatch | WakewordTrainer | Whisper | Tts | Embed | Llama
  datatype Device = Gpu | Cpu

  const GPU_UNITS: set<SystemdUnit> := {WhisperBatch, WakewordTrainer}
  const VOICE_UNITS: set<SystemdUnit> := {Whisper, Tts}
  const LEASED_UNITS: set<SystemdUnit> := GPU_UNITS + VOICE_UNITS + {Embed, Llama}

  /** The mode names a caller may send; the last two are retired names of `Extended`. */
  datatype ModeName = Foundry | Extended | Thinking | Coding

  /** The `--model` argument: absent, a known name, or any other text. */
  datatype ModelArg = Absent | Named(name: ModeName) | Unknown(text: string)

  /** The `mode` field of a lease file. */
  datatype Mode = Exclusive | Under(name: ModeName)

  datatype Profile = Profile(presets: seq<Preset>, alias: Preset, voice: Device, stopGpuUnits: bool, stopEmbed: bool)

  const FOUNDRY_PRESET: Preset := "gemma-4-12b"
  const THINKING_PRESET: Preset := "qwen3.6-35b-a3b"
  const CODING_PRESET: Preset := "qwen3.8-27b"

  const FOUNDRY_PROFILE := Profile(["gemma-4-e4b", FOUNDRY_PRESET], FOUNDRY_PRESET, Gpu, false, false)
  const EXTENDED_PROFILE := Profile([], "", Cpu, true, true)

  const AUTO_HOLDER := "router"
  const AUTO_IDLE_SEC: int := 30 * 60
  const AUTO_LEASE_SEC: int := AUTO_IDLE_SEC * 3 / 2
  const LEASE_GRACE_FACTOR: int := 2

  function CanonicalMode(name: ModeName): ModeName {
    if name == Thinking || name == Coding then Extended else name
  }

  function ProfileOf(name: ModeName): Profile {
    if CanonicalMode(name) == Foundry then FOUNDRY_PROFILE else EXTENDED_PROFILE
  }

  /** The keys of `preset_profiles()`; a household alias equal to one of the others is one key. */
  function PresetNames(household: Preset): seq<Preset> {
    if household in [FOUNDRY_PRESET, THINKING_PRESET, CODING_PRESET]
    then [FOUNDRY_PRESET, THINKING_PRESET, CODING_PRESET]
    else [household, FOUNDRY_PRESET, THINKING_PRESET, CODING_PRESET]
  }

  function AllowedPresets(name: ModeName, household: Preset): seq<Preset> {
    var presets := ProfileOf(name).presets;
    if presets != [] then presets else PresetNames(household)
  }

  /** The table holds the household's alias and the three presets of the other profiles, each once. */
  lemma TableHasEachOnce(household: Preset)
    ensures forall p :: p in PresetNames(household) <==>
              p in [household, "gemma-4-12b", "qwen3.6-35b-a3b", "qwen3.8-27b"]
    ensures var names := PresetNames(household); forall i, j :: 0 <= i < j < |names| ==> names[i] != names[j]
  {
  }

  /** Whether the look-up of a mode's presets in the table goes through. */
  predicate Listed(name: ModeName, household: Preset) {
    forall p :: p in AllowedPresets(name, household) ==> p in PresetNames(household)
  }

  /** `foundry` names two presets of its own; one of them is the household's default alias. */
  lemma FoundryNeedsTheDefaultAlias(name: ModeName, household: Preset)
    ensures Listed(name, household) <==> name != Foundry || household == "gemma-4-e4b"
  {
    if name == Foundry {
      assert FOUNDRY_PROFILE.presets[0] in AllowedPresets(name, household);
    }
  }

  /** The preset the requested name promises its holder; empty where the client picks. */
  function PromisedAlias(name: ModeName): Preset {
    match name
    case Thinking => THINKING_PRESET
    case Coding => CODING_PRESET
    case _ => ProfileOf(name).alias
  }

  // ----- The expiry arithmetic -----

  function Max(a: int, b: int): int { if a < b then b else a }
  function Min(a: int, b: int): int { if a < b then a else b }

  function RenewAfter(ttl: int): int { Max(ttl / 3, 60) }

  function ExpiryWake(ttl: int): int { Min(LEASE_GRACE_FACTOR * RenewAfter(ttl), ttl) }

  /** The timer never wakes past the deadline, and is exactly two missed renewals once the window holds them. */
  lemma ExpiryWakeWithinDeadline(ttl: int)
    ensures ExpiryWake(ttl) <= ttl
    ensures ExpiryWake(ttl) == 2 * RenewAfter(ttl) <==> 120 <= ttl
  {
    if 180 <= ttl {
      assert ttl / 3 * 3 <= ttl;
    }
  }

  /** A window of one and a half idle times fires after the idle time, to the second when it is even. */
  lemma ExpiryWakeIsTheIdleTime(idle: int)
    requires 120 <= idle
    ensures ExpiryWake(idle * 3 / 2) == idle - idle % 2
  {
    var half := idle / 2;
    assert idle * 3 / 2 == 3 * half + (if idle % 2 == 0 then 0 else 1);
    assert idle * 3 / 2 / 3 == half;
  }

  /** Below two minutes of idle time the sixty-second floor makes the timer fire late. */
  lemma ExpiryWakeBelowTwoMinutes(idle: int)
    requires 0 < idle < 120
    ensures ExpiryWake(idle * 3 / 2) <= idle <==> idle == 1
  {
    var ttl := idle * 3 / 2;
    assert RenewAfter(ttl) == 60;
  }

  // ----- The state -----

  datatype Record = Record(
    holder: string,
    since: real,
    until: real,
    lastRenewedAt: real,
    renewAfter: int,
    mode: Mode,
    alias: Preset,
    allowed: seq<Preset>,
    ready: bool)

  datatype State = State(
    lease: Option<Record>,         // the lease file
    timer: Option<real>,           // when the armed expiry timer fires
    running: set<SystemdUnit>,
    device: Device,                // the voice-device file
    now: real,
    household: Preset,             // the recorded household preset
    envAlias: Preset)              // the household preset in the script's own preset table

  /** `read_lease`: a retired mode name on disk reads as the mode it became. */
  function Migrated(r: Record): Record {
    if r.mode.Under? then r.(mode := Under(CanonicalMode(r.mode.name))) else r
  }

  function ReadLease(s: State): Option<Record> {
    if s.lease.Some? then Some(Migrated(s.lease.value)) else None
  }

  function Standing(s: State): Option<Mode> {
    if s.lease.Some? then Some(Migrated(s.lease.value).mode) else None
  }

  // ----- What a mode prescribes -----

  /** The units a standing mode keeps down. */
  function KeptDown(m: Option<Mode>): set<SystemdUnit> {
    match m
    case None => {}
    case Some(Exclusive) => LEASED_UNITS
    case Some(Under(name)) => if CanonicalMode(name) == Extended then GPU_UNITS + {Embed} else {}
  }

  function VoiceOn(m: Option<Mode>): Device {
    if m.Some? && m.value.Under? && CanonicalMode(m.value.name) == Extended then Cpu else Gpu
  }

  /** The environment is exactly the one the standing mode prescribes; with no lease, the household's. */
  ghost predicate Agrees(s: State) {
    && s.running == LEASED_UNITS - KeptDown(Standing(s))
    && s.device == VoiceOn(Standing(s))
  }

  // ----- acquire -----

  datatype Verdict = Taken | Renewal | HeldByOther | UnknownMode | NotListed | NoWeights

  /** What an acquire comes to, decided before anything is written. */
  function Judge(s: State, holder: string, model: ModelArg, weights: bool): Verdict {
    var current := ReadLease(s);
    if current.Some? && current.value.holder != holder && current.value.holder != AUTO_HOLDER then HeldByOther
    else if model.Unknown? then UnknownMode
    else if model.Named? && current.Some? && current.value.ready
         && current.value.mode == Under(CanonicalMode(model.name)) then Renewal
    else if model.Named? && !Listed(model.name, s.envAlias) then NotListed
    else if model.Named? && !weights then NoWeights
    else Taken
  }

  /** An exception that nobody catches, as `NotListed` is, ends the script with 1. */
  function ExitCode(v: Verdict): int {
    match v
    case Taken | Renewal => 0
    case UnknownMode => 2
    case HeldByOther | NotListed | NoWeights => 1
  }

  function WantedMode(model: ModelArg): Mode
    requires !model.Unknown?
  {
    if model.Named? then Under(CanonicalMode(model.name)) else Exclusive
  }

  /** The record of a fresh window; `ready` once the mode's environment is set. */
  function FreshRecord(s: State, holder: string, model: ModelArg, ttl: int): Record
    requires !model.Unknown?
  {
    Record(holder, s.now, s.now + ttl as real, s.now, RenewAfter(ttl), WantedMode(model),
           if model.Named? then PromisedAlias(model.name) else "",
           if model.Named? then AllowedPresets(model.name, s.envAlias) else [],
           model.Named?)
  }

  function Renewed(s: State, r: Record, holder: string, ttl: int): Record {
    r.(holder := holder, until := s.now + ttl as real, lastRenewedAt := s.now, renewAfter := RenewAfter(ttl))
  }

  /** Only a named mode on the way out is undone: leaving `Exclusive` puts nothing back. */
  function Left(s: State): Option<Mode> {
    if s.lease.Some? && s.lease.value.mode.Under? then Standing(s) else None
  }

  /** Whether `set_voice_device` runs, which also restarts (so starts) both voice units. */
  predicate VoiceMoves(left: Option<Mode>, want: Mode) {
    want.Under? && (VoiceOn(Some(want)) == Cpu || VoiceOn(left) == Cpu)
  }

  /** Down goes what the wanted mode keeps down; back comes what only the left mode did. */
  function UnitsAfter(running: set<SystemdUnit>, left: Option<Mode>, want: Mode): set<SystemdUnit> {
    running - KeptDown(Some(want))
    + (if want.Under? then KeptDown(left) - KeptDown(Some(want)) else {})
    + (if VoiceMoves(left, want) then VOICE_UNITS else {})
  }

  function Acquire(s: State, holder: string, model: ModelArg, ttl: int, weights: bool): State {
    match Judge(s, holder, model, weights)
    case HeldByOther | UnknownMode | NotListed | NoWeights => s
    case Renewal =>
      s.(lease := Some(Renewed(s, ReadLease(s).value, holder, ttl)), timer := Some(s.now + ExpiryWake(ttl) as real))
    case Taken =>
      var want := WantedMode(model);
      s.(lease := Some(FreshRecord(s, holder, model, ttl)),
      timer := Some(s.now + ExpiryWake(ttl) as real),
      running := UnitsAfter(s.running, Left(s), want),
      device := if VoiceMoves(Left(s), want) then VoiceOn(Some(want)) else s.device)
  }

  // ----- release, deploy -----

  function Release(s: State): State {
    var m := Standing(s);
    var cpu := VoiceOn(m) == Cpu;
    s.(lease := None, timer := None,
    running := s.running + (if m.None? then LEASED_UNITS else KeptDown(m)) + (if cpu then VOICE_UNITS else {}),
    device := if cpu then Gpu else s.device)
  }

  /** A deploy of the llama template: the embeddings server is started, then stopped again where the
      standing mode has no room for it; the router is restarted when its unit changed; the household preset
      is recorded anew, unless that could not be written. */
  function Deploy(s: State, unitChanged: bool, recorded: Option<Preset>): State {
    var up := s.running + {Embed} + (if unitChanged then {Llama} else {});
    s.(running := if Standing(s) == Some(Under(Extended)) then up - {Embed} else up,
    household := if recorded.Some? then recorded.value else s.household)
  }

  /** Time passes; an expiry timer that comes due runs `release`. */
  function Wait(s: State, d: real): State {
    var later := s.(now := s.now + d);
    if s.timer.Some? && s.timer.value <= later.now then Release(later) else later
  }

  // ----- The script itself -----

  class Box {
    var household: Preset
    const envAlias: Preset
    var lease: Option<Record>
    var timer: Option<real>
    var running: set<SystemdUnit>
    var device: Device
    var now: real

    constructor (household: Preset, envAlias: Preset, now: real)
      ensures Now() == State(None, None, LEASED_UNITS, Gpu, now, household, envAlias)
    {
      this.household, this.envAlias, this.now := household, envAlias, now;
      lease, timer, running, device := None, None, LEASED_UNITS, Gpu;
    }

    function Now(): State
      reads this
    {
      State(lease, timer, running, device, now, household, envAlias)
    }

    method Stop(units: set<SystemdUnit>)
      modifies this`running
      ensures running == old(running) - units
    {
      running := running - units;
    }

    method Start(units: set<SystemdUnit>)
      modifies this`running
      ensures running == old(running) + units
    {
      running := running + units;
    }

    method SetVoiceDevice(d: Device)
      modifies this`device, this`running
      ensures device == d && running == old(running) + VOICE_UNITS
    {
      device := d;
      Start(VOICE_UNITS);
    }

    method ScheduleExpiry(seconds: int)
      modifies this`timer
      ensures timer == Some(now + ExpiryWake(seconds) as real)
    {
      CancelExpiry();
      timer := Some(now + ExpiryWake(seconds) as real);
    }

    method CancelExpiry()
      modifies this`timer
      ensures timer == None
    {
      timer := None;
    }

    /** The mode switch proper; `left` is the named mode whose window this one replaces. */
    method SetEnvironment(left: Option<Mode>, name: ModeName)
      requires left.Some? ==> left.value.Under?
      modifies this`device, this`running
      ensures running == UnitsAfter(old(running), left, Under(CanonicalMode(name)))
      ensures device == if VoiceMoves(left, Under(CanonicalMode(name)))
                        then VoiceOn(Some(Under(CanonicalMode(name)))) else old(device)
    {
      var profile := ProfileOf(name);
      var undo := if left.Some? then Some(ProfileOf(left.value.name)) else None;
      if profile.stopGpuUnits {
        Stop(GPU_UNITS);
      } else if undo.Some? && undo.value.stopGpuUnits {
        Start(GPU_UNITS);
      }
      if profile.stopEmbed {
        Stop({Embed});
      } else if undo.Some? && undo.value.stopEmbed {
        Start({Embed});
      }
      if profile.voice == Cpu {
        SetVoiceDevice(Cpu);
      } else if undo.Some? && undo.value.voice == Cpu {
        SetVoiceDevice(Gpu);
      }
    }

    /** `weights` says whether every preset of the mode is on the box. */
    method LeaseAcquire(holder: string, model: ModelArg, duration: int, weights: bool) returns (rc: int)
      modifies this
      ensures Now() == Acquire(old(Now()), holder, model, duration, weights)
      ensures rc == ExitCode(Judge(old(Now()), holder, model, weights))
    {
      var current := ReadLease(Now());
      ghost var verdict := Judge(Now(), holder, model, weights);
      if current.Some? && current.value.holder != holder && current.value.holder != AUTO_HOLDER {
        assert verdict == HeldByOther;
        return 1;
      }
      if model.Unknown? {
        assert verdict == UnknownMode;
        return 2;
      }
      if model.Named? && current.Some? && current.value.ready
         && current.value.mode == Under(CanonicalMode(model.name)) {
        assert verdict == Renewal;
        lease := Some(current.value.(holder := holder, until := now + duration as real,
                      lastRenewedAt := now, renewAfter := RenewAfter(duration)));
        ScheduleExpiry(duration);
        return 0;
      }
      if model.Named? && !Listed(model.name, envAlias) {
        assert verdict == NotListed;
        return 1;
      }
      if model.Named? && !weights {
        assert verdict == NoWeights;
        return 1;
      }
      assert verdict == Taken;
      lease := Some(Record(holder, now, now + duration as real, now, RenewAfter(duration),
                           if model.Named? then Under(CanonicalMode(model.name)) else Exclusive,
                           if model.Named? then PromisedAlias(model.name) else "",
                           if model.Named? then AllowedPresets(model.name, envAlias) else [],
                           false));
      ScheduleExpiry(duration);
      if model.Absent? {
        Stop(LEASED_UNITS);
        return 0;
      }
      SetEnvironment(if current.Some? && current.value.mode.Under? then Some(current.value.mode) else None, model.name);
      lease := Some(lease.value.(ready := true));
      rc := 0;
    }

    /** `warm` says whether the household preset answers in time; the lease goes either way. */
    method LeaseRelease(warm: bool) returns (rc: int)
      modifies this
      ensures Now() == Release(old(Now()))
      ensures rc == if warm then 0 else 1
    {
      var current := ReadLease(Now());
      CancelExpiry();
      if current.Some? && current.value.mode.Under? {
        var profile := ProfileOf(current.value.mode.name);
        if profile.stopGpuUnits {
          Start(GPU_UNITS);
        }
        if profile.stopEmbed {
          Start({Embed});
        }
        if profile.voice == Cpu {
          SetVoiceDevice(Gpu);
        }
      } else {
        Start(LEASED_UNITS);
      }
      lease := None;
      rc := if warm then 0 else 1;
    }

    method RunDeploy(unitChanged: bool, recorded: Option<Preset>)
      modifies this
      ensures Now() == Deploy(old(Now()), unitChanged, recorded)
    {
      var current := ReadLease(Now());
      if unitChanged {
        Start({Llama});
      }
      Start({Embed});
      if current.Some? && current.value.mode.Under? && ProfileOf(current.value.mode.name).stopEmbed {
        Stop({Embed});
      }
      if recorded.Some? {
        household := recorded.value;
      }
    }
  }
}
