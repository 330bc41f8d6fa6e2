/**
 The wake-word training queue and the one companion that works it. `Queue` is the table with the trainer's three
 updates; `Companion` is a round of its polling loop; `Step` interleaves those with residents queueing runs,
 stop signals, kills and restarts.
 */
module Trainer {
  import opened Options

  datatype Status = Queued | Running | Done | Failed

  datatype Row = Row(id: nat, uid: string, status: Status)

  // ----- The table -----

  /** Ids are handed out in increasing order and rows are never deleted. */
  ghost predicate Ordered(rows: seq<Row>) { forall i, j :: 0 <= i < j < |rows| ==> rows[i].id < rows[j].id }

  /** `ORDER BY id LIMIT 1` over the queued rows. */
  function OldestQueued(rows: seq<Row>): (i: nat)
    ensures i <= |rows| && forall j :: 0 <= j < i ==> rows[j].status != Queued
    ensures i < |rows| ==> rows[i].status == Queued
  {
    if rows == [] || rows[0].status == Queued then 0
    else
      var i := 1 + OldestQueued(rows[1..]);
      assert forall j :: 1 <= j < i ==> rows[j] == rows[1..][j - 1];
      i
  }

  function Taken(rows: seq<Row>): seq<Row> {
    var i := OldestQueued(rows);
    if i < |rows| then rows[i := rows[i].(status := Running)] else rows
  }

  function Settled(rows: seq<Row>, id: nat, status: Status): (r: seq<Row>)
    ensures |r| == |rows|
  {
    seq(|rows|, i requires 0 <= i < |rows| => if rows[i].id == id then rows[i].(status := status) else rows[i])
  }

  function Reaped(rows: seq<Row>): (r: seq<Row>)
    ensures |r| == |rows|
  {
    seq(|rows|, i requires 0 <= i < |rows| => if rows[i].status == Running then rows[i].(status := Failed) else rows[i])
  }

  /** A reap fails every running row and touches no other. */
  lemma ReapFailsTheRunning(rows: seq<Row>, i: nat)
    requires i < |rows|
    ensures Reaped(rows)[i] == if rows[i].status == Running then Row(rows[i].id, rows[i].uid, Failed) else rows[i]
  {
  }

  /** `available` is false when the database is missing or answers with an operational error. */
  class Queue {
    var rows: seq<Row>

    constructor ()
      ensures rows == []
    {
      rows := [];
    }

    method ClaimQueuedRun(available: bool) returns (id: Option<nat>)
      modifies this
      ensures rows == if available then Taken(old(rows)) else old(rows)
      ensures var i := OldestQueued(old(rows));
        id == if available && i < |old(rows)| then Some(old(rows)[i].id) else None
    {
      var i := OldestQueued(rows);
      if !available || i == |rows| {
        return None;
      }
      id := Some(rows[i].id);
      rows := rows[i := rows[i].(status := Running)];
    }

    method FinishRun(id: nat, ok: bool, available: bool)
      modifies this
      ensures rows == if available then Settled(old(rows), id, if ok then Done else Failed) else old(rows)
    {
      if available {
        rows := Settled(rows, id, if ok then Done else Failed);
      }
    }

    method FailOrphanedRuns(available: bool)
      modifies this
      ensures rows == if available then Reaped(old(rows)) else old(rows)
    {
      if available {
        rows := Reaped(rows);
      }
    }
  }

  // ----- The companion -----

  datatype Place =
    | Down(clean: bool)   // not running: after a stop it carried out, or killed
    | AtCheck             // about to look at the stop flag
    | AtClaim             // past it, about to claim
    | Busy(id: nat)       // working the run it claimed

  datatype World = World(rows: seq<Row>, stopping: bool, place: Place, claimed: seq<nat>)

  /** How a claimed run ends: the model is built, an exception, or a stop noticed. */
  datatype End = Built | Broke | Stopped

  datatype Event =
    | Enqueue(id: nat, uid: string)
    | Start(available: bool)             // a restart, and the reap it begins with
    | Signal
    | Check
    | Claim(available: bool)
    | Finish(end: End, available: bool)
    | Kill

  function Step(w: World, e: Event): World {
    match e
    case Enqueue(id, uid) =>
      if forall i :: 0 <= i < |w.rows| ==> w.rows[i].id < id then w.(rows := w.rows + [Row(id, uid, Queued)]) else w
    case Start(available) =>
      if w.place.Down?
      then w.(rows := if available then Reaped(w.rows) else w.rows, stopping := false, place := AtCheck)
      else w
    case Signal => if w.place.Down? then w else w.(stopping := true)
    case Check =>
      if w.place != AtCheck then w else w.(place := if w.stopping then Down(true) else AtClaim)
    case Claim(available) =>
      if w.place != AtClaim then w
      else
        var i := OldestQueued(w.rows);
        if available && i < |w.rows| then
          w.(rows := Taken(w.rows), place := Busy(w.rows[i].id), claimed := w.claimed + [w.rows[i].id])
        else w.(place := AtCheck)
    case Finish(end, available) =>
      if !w.place.Busy? || (end == Stopped && !w.stopping) then w
      else
        w.(rows := if available then Settled(w.rows, w.place.id, if end == Built then Done else Failed) else w.rows,
           place := if end == Stopped then Down(true) else AtCheck)
    case Kill => w.(place := Down(false))
  }

  function Run(w: World, events: seq<Event>): World
    decreases |events|
  {
    if events == [] then w else Run(Step(w, events[0]), events[1..])
  }

  lemma {:induction false} RunConcat(w: World, a: seq<Event>, b: seq<Event>)
    ensures Run(w, a + b) == Run(Run(w, a), b)
    decreases |a|
  {
    if a == [] {
      assert a + b == b;
    } else {
      assert (a + b)[1..] == a[1..] + b;
      RunConcat(Step(w, a[0]), a[1..], b);
    }
  }

  const START := World([], false, Down(true), [])

  // ----- One round of `main` -----

  /** A step of provisioning or training: a command, or work on files; a stop signal may arrive in the middle. */
  datatype Job = Job(command: bool, fails: bool, signalled: bool)

  /** How the jobs end, and whether a stop has been asked for by then: only a command notices it, at both its ends. */
  function Work(stopping: bool, jobs: seq<Job>): (End, bool)
    decreases |jobs|
  {
    if jobs == [] then (Built, stopping)
    else
      var now := stopping || jobs[0].signalled;
      if jobs[0].command && stopping then (Stopped, stopping)
      else if jobs[0].command && now then (Stopped, now)
      else if jobs[0].fails then (Broke, now)
      else Work(now, jobs[1..])
  }

  class Companion {
    var queue: Queue
    var stopping: bool
    var up: bool
    ghost var place: Place
    ghost var claimed: seq<nat>

    constructor (queue: Queue)
      ensures this.queue == queue && !stopping && up && place == AtCheck && claimed == []
    {
      this.queue, stopping, up, place, claimed := queue, false, true, AtCheck, [];
    }

    ghost function Now(): World
      reads this, queue
    {
      World(queue.rows, stopping, place, claimed)
    }

    method Perform(jobs: seq<Job>) returns (end: End)
      modifies this`stopping
      ensures (end, stopping) == Work(old(stopping), jobs)
    {
      var i := 0;
      while i < |jobs|
        invariant i <= |jobs| && Work(stopping, jobs[i..]) == Work(old(stopping), jobs)
      {
        assert jobs[i..][0] == jobs[i] && jobs[i..][1..] == jobs[i + 1..];
        if jobs[i].command && stopping {
          return Stopped;
        }
        stopping := stopping || jobs[i].signalled;
        if jobs[i].command && stopping {
          return Stopped;
        }
        if jobs[i].fails {
          return Broke;
        }
        i := i + 1;
      }
      end := Built;
    }

    /** The first half of a round: past the stop flag, take a run. */
    method Poll(claims: bool, signalled: bool) returns (id: Option<nat>)
      requires up && place == AtCheck && !stopping
      modifies this`stopping, this`place, this`claimed, queue
      ensures Now() == Run(old(Now()), Polling(claims, signalled))
      ensures place == if id.Some? then Busy(id.value) else AtCheck
    {
      OpenRound(Now(), signalled, claims);
      stopping := signalled;
      id := queue.ClaimQueuedRun(claims);
      if id.Some? {
        place := Busy(id.value);
        claimed := claimed + [id.value];
      }
    }

    /** The second half: work the run, and write down how it ended. */
    method WorkRun(id: nat, jobs: seq<Job>, writes: bool)
      requires up && place == Busy(id)
      modifies this`stopping, this`place, this`up, queue
      ensures Now() == Run(old(Now()), Working(old(stopping), jobs, writes))
      ensures up == !place.Down? && (up ==> place == AtCheck)
    {
      var end := Perform(jobs);
      WorkIsHonest(old(stopping), jobs);
      CloseRound(old(Now()), jobs, writes);
      queue.FinishRun(id, end == Built, writes);
      up := end != Stopped;
      place := if end == Stopped then Down(true) else AtCheck;
    }

    /** The loop body, from one look at the stop flag to the next or out of the loop. */
    method Round(claims: bool, signalled: bool, jobs: seq<Job>, writes: bool) returns (ghost events: seq<Event>)
      requires up && place == AtCheck
      modifies this`stopping, this`place, this`up, this`claimed, queue
      ensures Now() == Run(old(Now()), events)
      ensures up == !place.Down? && (up ==> place == AtCheck)
      ensures events == [Check] || events == Polling(claims, signalled)
        || exists stop :: events == Polling(claims, signalled) + Working(stop, jobs, writes)
    {
      if stopping {
        RunOne(Now(), Check);
        up, place := false, Down(true);
        return [Check];
      }
      events := Polling(claims, signalled);
      var id := Poll(claims, signalled);
      if id.Some? {
        RunConcat(old(Now()), events, Working(stopping, jobs, writes));
        events := events + Working(stopping, jobs, writes);
        WorkRun(id.value, jobs, writes);
      }
    }
  }

  /** What the first half of a round comes to. */
  function Polling(claims: bool, signalled: bool): seq<Event> {
    [Check] + if signalled then [Signal, Claim(claims)] else [Claim(claims)]
  }

  /** What the second half comes to. */
  function Working(stopping: bool, jobs: seq<Job>, writes: bool): seq<Event> {
    var (end, stopped) := Work(stopping, jobs);
    if stopped && !stopping then [Signal, Finish(end, writes)] else [Finish(end, writes)]
  }

  /** A stop is never reported without one, and one asked for is not forgotten. */
  lemma {:induction false} WorkIsHonest(stopping: bool, jobs: seq<Job>)
    ensures stopping ==> Work(stopping, jobs).1
    ensures Work(stopping, jobs).0 == Stopped ==> Work(stopping, jobs).1
    decreases |jobs|
  {
    if jobs != [] {
      WorkIsHonest(stopping || jobs[0].signalled, jobs[1..]);
    }
  }

  /** A stop has been asked for by the time job `i` ends. */
  ghost predicate StopBy(stopping: bool, jobs: seq<Job>, i: nat) {
    stopping || exists j :: 0 <= j <= i && j < |jobs| && jobs[j].signalled
  }

  /** Job `i` did not fail, nor end as a command with a stop asked for. */
  ghost predicate WentThrough(stopping: bool, jobs: seq<Job>, i: nat)
    requires i < |jobs|
  {
    !jobs[i].fails && (jobs[i].command ==> !StopBy(stopping, jobs, i))
  }

  ghost predicate AllWentThrough(stopping: bool, jobs: seq<Job>) {
    forall i :: 0 <= i < |jobs| ==> WentThrough(stopping, jobs, i)
  }

  lemma FirstAndRest(stopping: bool, jobs: seq<Job>)
    requires jobs != []
    ensures AllWentThrough(stopping, jobs) <==>
            WentThrough(stopping, jobs, 0) && AllWentThrough(stopping || jobs[0].signalled, jobs[1..])
  {
    var rest, now := jobs[1..], stopping || jobs[0].signalled;
    forall i | 0 <= i < |rest|
      ensures rest[i] == jobs[i + 1] && (WentThrough(now, rest, i) <==> WentThrough(stopping, jobs, i + 1))
    {
      StopLater(stopping, jobs, i);
    }
    if WentThrough(stopping, jobs, 0) && AllWentThrough(now, rest) {
      forall i | 0 <= i < |jobs|
        ensures WentThrough(stopping, jobs, i)
      {
        assert i > 0 ==> WentThrough(now, rest, i - 1);
      }
    }
  }

  /** A model is built exactly when every job went through. */
  lemma {:induction false} BuiltMeansAllWentThrough(stopping: bool, jobs: seq<Job>)
    ensures Work(stopping, jobs).0 == Built <==> AllWentThrough(stopping, jobs)
    decreases |jobs|
  {
    if jobs != [] {
      FirstAndRest(stopping, jobs);
      BuiltMeansAllWentThrough(stopping || jobs[0].signalled, jobs[1..]);
    }
  }

  lemma StopLater(stopping: bool, jobs: seq<Job>, i: nat)
    requires jobs != [] && i < |jobs| - 1
    ensures StopBy(stopping || jobs[0].signalled, jobs[1..], i) <==> StopBy(stopping, jobs, i + 1)
  {
    var rest := jobs[1..];
    assert forall j :: 0 <= j < |rest| ==> rest[j] == jobs[j + 1];
    if StopBy(stopping, jobs, i + 1) && !stopping && !jobs[0].signalled {
      var j :| 0 <= j <= i + 1 && j < |jobs| && jobs[j].signalled;
      assert rest[j - 1].signalled;
    }
  }

  lemma OpenRound(w: World, signalled: bool, claims: bool)
    requires w.place == AtCheck && !w.stopping
    ensures Run(w, Polling(claims, signalled)) == Step(w.(place := AtClaim, stopping := signalled), Claim(claims))
  {
    var c := Step(w, Check);
    var rest := if signalled then [Signal, Claim(claims)] else [Claim(claims)];
    assert Polling(claims, signalled)[1..] == rest;
    RunOne(if signalled then Step(c, Signal) else c, Claim(claims));
    if signalled {
      assert rest[1..] == [Claim(claims)];
    }
  }

  lemma RunOne(w: World, e: Event)
    ensures Run(w, [e]) == Step(w, e)
  {
    assert [e][1..] == [];
  }

  lemma CloseRound(w: World, jobs: seq<Job>, writes: bool)
    requires w.place.Busy?
    ensures var (end, stopped) := Work(w.stopping, jobs);
      Run(w, Working(w.stopping, jobs, writes)) == Step(w.(stopping := stopped), Finish(end, writes))
  {
    var (end, stopped) := Work(w.stopping, jobs);
    WorkIsHonest(w.stopping, jobs);
    if stopped && !w.stopping {
      assert [Signal, Finish(end, writes)][1..] == [Finish(end, writes)];
      RunOne(Step(w, Signal), Finish(end, writes));
    } else {
      RunOne(w, Finish(end, writes));
    }
  }
}
