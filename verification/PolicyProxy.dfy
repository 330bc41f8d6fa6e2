/**
 The policy proxy in front of the router: it forwards what the standing lease allows, takes or
 renews the automatic window itself, and notes in the lease which preset it served.
 `do_POST` is one atomic step over the box and the proxy's own renewal clock.
 */
module PolicyProxy {
  import opened Options
  import opened GpuLease

  const AUTO_RENEW_EVERY_SEC: real := 60.0

  /** The box as one proxy sees it, with the `renewed` clock of that proxy. */
  datatype Door = Door(box: State, renewedAt: real)

  datatype Reply = Forwarded | Refused

  function Policy(s: State): seq<Preset> {
    if s.lease.Some? then s.lease.value.allowed else [s.household]
  }

  /** `auto_acquire`: the renewal clock moves whether or not the acquire went through. */
  function AutoAcquire(d: Door, weights: bool): Door {
    Door(Acquire(d.box, AUTO_HOLDER, Named(Extended), AUTO_LEASE_SEC, weights), d.box.now)
  }

  function Noted(s: State, preset: Preset): State {
    if s.lease.Some? && s.lease.value.alias != preset
    then s.(lease := Some(Migrated(s.lease.value).(alias := preset))) else s
  }

  function AfterRenewal(d: Door, weights: bool): Door {
    if d.box.now - d.renewedAt >= AUTO_RENEW_EVERY_SEC && d.box.lease.Some? && d.box.lease.value.holder == AUTO_HOLDER
    then AutoAcquire(d, weights) else d
  }

  /** Whether a request naming `wanted` gets through: allowed as it stands, or takeable out of the household. */
  predicate Serves(s: State, wanted: Preset, weights: bool) {
    wanted in Policy(s) || (s.lease.None? && wanted in PresetNames(s.envAlias) && weights)
  }

  /** What a request is answered. */
  function ReplyTo(s: State, wanted: Option<Preset>, weights: bool): Reply {
    if wanted.None? || Serves(s, wanted.value, weights) then Forwarded else Refused
  }

  /** The door after one POST naming `wanted` (`None` for a request that names no model). */
  function AfterPost(d: Door, wanted: Option<Preset>, weights: bool): Door {
    if wanted.None? then d
    else if wanted.value in Policy(d.box) then
      var kept := AfterRenewal(d, weights);
      kept.(box := Noted(kept.box, wanted.value))
    else if d.box.lease.None? && wanted.value in PresetNames(d.box.envAlias) then
      var taken := AutoAcquire(d, weights);
      if weights then taken.(box := Noted(taken.box, wanted.value)) else taken
    else d
  }

  class Proxy {
    const box: Box
    var renewedAt: real

    constructor (box: Box)
      ensures this.box == box && renewedAt == 0.0
    {
      this.box, renewedAt := box, 0.0;
    }

    function View(): Door
      reads this, box
    {
      Door(box.Now(), renewedAt)
    }

    method TakeExtended(weights: bool) returns (ok: bool)
      modifies this, box
      ensures View() == AutoAcquire(old(View()), weights)
      ensures ok <==> ExitCode(Judge(old(box.Now()), AUTO_HOLDER, Named(Extended), weights)) == 0
    {
      var rc := box.LeaseAcquire(AUTO_HOLDER, Named(Extended), AUTO_LEASE_SEC, weights);
      renewedAt := box.now;
      ok := rc == 0;
    }

    method ModeFollows(wanted: Preset, weights: bool) returns (ok: bool)
      modifies this, box
      ensures ok <==> wanted in PresetNames(box.envAlias)
                      && (if old(box.lease).Some? then wanted in Policy(old(box.Now())) else weights)
      ensures View() == if old(box.lease).None? && wanted in PresetNames(box.envAlias)
                        then AutoAcquire(old(View()), weights) else old(View())
    {
      if wanted !in PresetNames(box.envAlias) {
        return false;
      }
      if box.lease.Some? {
        return wanted in Policy(box.Now());
      }
      ok := TakeExtended(weights);
    }

    method RenewIfOurs(weights: bool)
      modifies this, box
      ensures View() == AfterRenewal(old(View()), weights)
    {
      if box.now - renewedAt < AUTO_RENEW_EVERY_SEC {
        return;
      }
      if box.lease.None? || box.lease.value.holder != AUTO_HOLDER {
        return;
      }
      var _ := TakeExtended(weights);
    }

    method NotePreset(preset: Preset)
      modifies box
      ensures box.Now() == Noted(old(box.Now()), preset)
    {
      var lease := ReadLease(box.Now());
      if lease.Some? && lease.value.alias != preset {
        box.lease := Some(lease.value.(alias := preset));
      }
    }

    method DoPost(wanted: Option<Preset>, weights: bool) returns (reply: Reply)
      modifies this, box
      ensures View() == AfterPost(old(View()), wanted, weights)
      ensures reply == ReplyTo(old(box.Now()), wanted, weights)
    {
      if wanted.None? {
        return Forwarded;
      }
      var allowed := Policy(box.Now());
      if wanted.value !in allowed {
        var ok := ModeFollows(wanted.value, weights);
        if !ok {
          return Refused;
        }
      }
      RenewIfOurs(weights);
      NotePreset(wanted.value);
      reply := Forwarded;
    }
  }
}
