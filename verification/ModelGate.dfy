/**
 The pod's half of the bridge: class `Lease` of the model gate. It writes wishes, waits for their answer,
 and its keeper renews while somebody works and gives the card back when nobody has for a while.
 The clock is a field; what others write to the status file while a wait sleeps is a list of views.
 */
module ModelGate {
  import opened Options
  import opened LeaseExchange

  const LEASE_TTL_S: int := 900
  const RENEW_AFTER_S: real := 300.0
  const IDLE_RELEASE_S: real := 300.0
  const TICK_S: real := 30.0
  const WAIT_DEADLINE_S: real := 240.0

  /** The answer to `correlation`, if that is the one on the volume. */
  function StatusFor(status: Option<Status>, correlation: string): Option<Status> {
    if status.Some? && status.value.id == correlation then status else None
  }

  predicate Settles(answer: Option<Status>) {
    answer.Some? && answer.value.state in [Ready, Held, Error]
  }

  /** The status file as a waiting session finds it, and when it looks. */
  datatype View = View(at: real, status: Option<Status>)

  /** The look at which a wait that began at `started` ends with an answer. */
  function AnswerIn(views: seq<View>, correlation: string, started: real): (v: Option<View>)
    ensures v.Some? ==> v.value.status.Some?
  {
    if views == [] || views[0].at - started >= WAIT_DEADLINE_S then None
    else if Settles(StatusFor(views[0].status, correlation)) then Some(views[0])
    else AnswerIn(views[1..], correlation, started)
  }

  /** A look at which the file holds the waiter's own answer, in a state that ends the wait. */
  predicate Settling(v: View, correlation: string) {
    v.status.Some? && v.status.value.id == correlation && v.status.value.state in [State.Ready, Held, Error]
  }

  /** The first such look, every look up to it less than 240 s after the start. */
  ghost predicate FirstSettling(views: seq<View>, correlation: string, started: real, k: nat) {
    && k < |views| && Settling(views[k], correlation)
    && forall j :: 0 <= j <= k ==> views[j].at - started < 240.0 && (j < k ==> !Settling(views[j], correlation))
  }

  /** A wait ends with an answer exactly when one to its own wish is there at a look before the deadline, and then with
      the first. */
  lemma {:induction false} AnswersAreOnesOwn(views: seq<View>, correlation: string, started: real)
    ensures AnswerIn(views, correlation, started).Some? <==>
            exists k: nat :: FirstSettling(views, correlation, started, k)
    ensures forall k: nat :: FirstSettling(views, correlation, started, k) ==>
              AnswerIn(views, correlation, started) == Some(views[k])
  {
    if views != [] {
      var rest := views[1..];
      AnswersAreOnesOwn(rest, correlation, started);
      assert Settling(views[0], correlation) <==> Settles(StatusFor(views[0].status, correlation));
      if views[0].at - started < 240.0 && !Settling(views[0], correlation) {
        forall k: nat | FirstSettling(rest, correlation, started, k)
          ensures FirstSettling(views, correlation, started, k + 1)
        {
          assert forall j :: 1 <= j <= k + 1 ==> views[j] == rest[j - 1];
        }
        forall k: nat | FirstSettling(views, correlation, started, k)
          ensures k > 0 && FirstSettling(rest, correlation, started, k - 1)
        {
          assert forall j :: 0 <= j <= k - 1 ==> rest[j] == views[j + 1];
        }
      } else if views[0].at - started < 240.0 {
        assert FirstSettling(views, correlation, started, 0);
      }
    }
  }

  // ----- The keeper's decision -----

  datatype Gate = Gate(mode: string, lastRenew: real, lastSeen: real, inFlight: nat, now: real)

  datatype Decision = Nothing | Keep | RenewNow | GiveBack

  predicate Busy(g: Gate) { g.inFlight > 0 || g.now - g.lastSeen < IDLE_RELEASE_S }

  function Decide(g: Gate): Decision {
    if g.mode == "" then Nothing
    else if !Busy(g) then GiveBack
    else if g.now - g.lastRenew >= RENEW_AFTER_S then RenewNow
    else Keep
  }

  function AfterTick(g: Gate): Gate {
    match Decide(g)
    case Nothing | Keep => g
    case RenewNow => g.(lastRenew := g.now)
    case GiveBack => g.(mode := "")
  }

  /** The wish a tick writes. */
  function TickWish(g: Gate, correlation: string): Option<Wish> {
    match Decide(g)
    case Nothing | Keep => None
    case RenewNow => Some(Wish(correlation, AcquireOp, g.mode))
    case GiveBack => Some(Wish(correlation, ReleaseOp, g.mode))
  }

  class Lease {
    var mode: string
    var lastRenew: real
    var lastSeen: real
    var inFlight: nat
    var now: real
    var request: Option<Wish>  // the request file

    constructor (now: real)
      ensures View() == Gate("", 0.0, now, 0, now) && request == None
    {
      mode, lastRenew, lastSeen, inFlight, this.now, request := "", 0.0, now, 0, now, None;
    }

    function View(): Gate
      reads this
    {
      Gate(mode, lastRenew, lastSeen, inFlight, now)
    }

    /** `correlation` is the fresh id the call drew; a failed write is an exception. */
    method Write(correlation: string, op: Op, mode: string, how: Writing) returns (ok: bool)
      modifies this`request
      ensures request == FileAfter(old(request), Wish(correlation, op, mode), how) && ok == OnFile(how)
    {
      match how {
        case Written | ModeFailed => request := Some(Wish(correlation, op, mode));
        case NotBegun =>
        case Torn => request := None;
      }
      ok := OnFile(how);
    }

    /** A session's wait; `views` is what it finds each time it looks, the clock moving with them. A wish that could
        not be written is not waited for. */
    method Acquire(wanted: string, correlation: string, how: Writing, views: seq<View>) returns (answer: Option<Status>)
      modifies this
      ensures request == FileAfter(old(request), Wish(correlation, AcquireOp, wanted), how)
      ensures lastSeen == old(lastSeen) && inFlight == old(inFlight)
      ensures var v := if OnFile(how) then AnswerIn(views, correlation, old(now)) else None;
              && answer == (if v.Some? then v.value.status else None)
              && (if v.Some? && v.value.status.value.state == Ready
                  then mode == wanted && lastRenew == v.value.at
                  else mode == old(mode) && lastRenew == old(lastRenew))
    {
      var ok := Write(correlation, AcquireOp, wanted, how);
      if !ok {
        return None;
      }
      var started := now;
      var i := 0;
      assert views[0..] == views;
      while i < |views| && views[i].at - started < WAIT_DEADLINE_S
        invariant 0 <= i <= |views|
        invariant AnswerIn(views[i..], correlation, started) == AnswerIn(views, correlation, started)
        invariant mode == old(mode) && lastRenew == old(lastRenew) && lastSeen == old(lastSeen)
        invariant inFlight == old(inFlight) && request == Some(Wish(correlation, AcquireOp, wanted))
      {
        now := views[i].at;
        var record := StatusFor(views[i].status, correlation);
        assert views[i..][1..] == views[i + 1..];
        if record.Some? && record.value.state in [Ready, Held, Error] {
          if record.value.state == Ready {
            mode := wanted;
            lastRenew := now;
          }
          return record;
        }
        i := i + 1;
      }
      answer := None;
    }

    /** The clock moves before the wish is written, and stays moved when it cannot be. */
    method Renew(correlation: string, how: Writing)
      modifies this`lastRenew, this`request
      ensures lastRenew == now
      ensures request == if mode != "" then FileAfter(old(request), Wish(correlation, AcquireOp, mode), how)
                         else old(request)
    {
      lastRenew := now;
      if mode != "" {
        var _ := Write(correlation, AcquireOp, mode, how);
      }
    }

    /** The mode is dropped before the give-back is written: it is on the volume exactly when the write succeeds. */
    method Release(correlation: string, how: Writing)
      requires request.Some? ==> request.value.id != correlation
      modifies this`mode, this`request
      ensures mode == ""
      ensures request == if old(mode) != "" then FileAfter(old(request), Wish(correlation, ReleaseOp, old(mode)), how)
                         else old(request)
      ensures old(mode) != "" ==> (request == Some(Wish(correlation, ReleaseOp, old(mode))) <==> OnFile(how))
    {
      var held := mode;
      mode := "";
      if held != "" {
        var _ := Write(correlation, ReleaseOp, held, how);
      }
    }

    /** One turn of the keeper, which goes on when the write fails. It drops the mode only with nothing in flight and
        nobody seen for 300 s; the give-back is then on the volume exactly when its write succeeds. */
    method Tick(correlation: string, how: Writing)
      requires request.Some? ==> request.value.id != correlation
      modifies this
      ensures View() == AfterTick(old(View()))
      ensures request == (var w := TickWish(old(View()), correlation);
                          if w.Some? then FileAfter(old(request), w.value, how) else old(request))
      ensures mode != old(mode) ==> old(inFlight) == 0 && old(now) - old(lastSeen) >= IDLE_RELEASE_S
      ensures mode != old(mode) ==> (request == Some(Wish(correlation, ReleaseOp, old(mode))) <==> OnFile(how))
    {
      if mode == "" {
        return;
      }
      var busy := inFlight > 0 || now - lastSeen < IDLE_RELEASE_S;
      var due := now - lastRenew >= RENEW_AFTER_S;
      if busy {
        if due {
          Renew(correlation, how);
        }
        return;
      }
      Release(correlation, how);
    }

    /** A POST arriving at the door: seen, then counted in. */
    method PostBegins()
      modifies this`lastSeen, this`inFlight
      ensures lastSeen == now && inFlight == old(inFlight) + 1
    {
      lastSeen := now;
      inFlight := inFlight + 1;
    }

    /** The `finally` of the same POST. */
    method PostEnds()
      requires inFlight > 0
      modifies this`inFlight
      ensures inFlight == old(inFlight) - 1
    {
      inFlight := inFlight - 1;
    }
  }
}
