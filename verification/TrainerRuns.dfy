/** What the training queue keeps over every run of the companion, its restarts and the residents. */
module TrainerRuns {
  import opened Trainer

  // ----- Every run, database errors included -----

  ghost predicate Increasing(ids: seq<nat>) { forall i, j :: 0 <= i < j < |ids| ==> ids[i] < ids[j] }

  ghost predicate HasRow(rows: seq<Row>, id: nat) { exists i :: 0 <= i < |rows| && rows[i].id == id }

  ghost predicate AllBelow(ids: seq<nat>, id: nat) { forall c :: c in ids ==> c < id }

  /** A row has left `queued` exactly when it was claimed; a queued one comes after everything claimed. */
  ghost predicate InOrder(r: Row, claimed: seq<nat>) {
    (r.status != Queued <==> r.id in claimed) && (r.status == Queued ==> AllBelow(claimed, r.id))
  }

  /** Runs are claimed in the order of their ids, each once, and the run in hand is running. */
  ghost predicate ClaimedInOrder(w: World) {
    && Ordered(w.rows) && Increasing(w.claimed)
    && (forall c :: c in w.claimed ==> HasRow(w.rows, c))
    && (forall i :: 0 <= i < |w.rows| ==> InOrder(w.rows[i], w.claimed))
    && (w.place.Busy? ==> w.place.id in w.claimed)
    && (forall i :: 0 <= i < |w.rows| && w.place == Busy(w.rows[i].id) ==> w.rows[i].status == Running)
  }

  lemma StepKeepsOrder(w: World, e: Event)
    requires ClaimedInOrder(w)
    ensures ClaimedInOrder(Step(w, e))
  {
    match e
    case Enqueue(id, uid) => EnqueueKeepsOrder(w, id, uid);
    case Start(available) => if w.place.Down? { SameClaims(w, Step(w, e)); }
    case Signal =>
    case Check =>
    case Claim(available) => if Step(w, e).place.Busy? && w.place == AtClaim { ClaimKeepsOrder(w); }
    case Finish(end, available) => if !Step(w, e).place.Busy? { SameClaims(w, Step(w, e)); }
    case Kill =>
  }

  /** Rows that keep their ids, and with them whether they are still queued. */
  lemma SameClaims(w: World, after: World)
    requires ClaimedInOrder(w) && after.claimed == w.claimed && !after.place.Busy?
    requires |after.rows| == |w.rows|
    requires forall i :: 0 <= i < |w.rows| ==>
      after.rows[i].id == w.rows[i].id && (after.rows[i].status == Queued <==> w.rows[i].status == Queued)
    ensures ClaimedInOrder(after)
  {
    RowsStay(w.rows, after.rows, w.claimed);
    forall i | 0 <= i < |after.rows|
      ensures InOrder(after.rows[i], after.claimed)
    {
      assert InOrder(w.rows[i], w.claimed);
    }
  }

  lemma RowsStay(rows: seq<Row>, after: seq<Row>, claimed: seq<nat>)
    requires |rows| <= |after| && forall i :: 0 <= i < |rows| ==> after[i].id == rows[i].id
    requires forall c :: c in claimed ==> HasRow(rows, c)
    ensures forall c :: c in claimed ==> HasRow(after, c)
  {
    forall c | c in claimed
      ensures HasRow(after, c)
    {
      var i :| 0 <= i < |rows| && rows[i].id == c;
      assert after[i].id == c;
    }
  }

  /** An id above every row's is above everything claimed. */
  lemma NewIdIsLast(rows: seq<Row>, claimed: seq<nat>, id: nat)
    requires forall i :: 0 <= i < |rows| ==> rows[i].id < id
    requires forall c :: c in claimed ==> HasRow(rows, c)
    ensures AllBelow(claimed, id)
  {
    forall c | c in claimed
      ensures c < id
    {
      var i :| 0 <= i < |rows| && rows[i].id == c;
    }
  }

  lemma EnqueueKeepsOrder(w: World, id: nat, uid: string)
    requires ClaimedInOrder(w)
    ensures ClaimedInOrder(Step(w, Enqueue(id, uid)))
  {
    var after := Step(w, Enqueue(id, uid));
    if after != w {
      NewIdIsLast(w.rows, w.claimed, id);
      RowsStay(w.rows, after.rows, w.claimed);
      forall i | 0 <= i < |after.rows|
        ensures InOrder(after.rows[i], after.claimed)
      {
        assert i < |w.rows| ==> InOrder(w.rows[i], w.claimed);
      }
    }
  }

  lemma ClaimKeepsOrder(w: World)
    requires ClaimedInOrder(w) && w.place == AtClaim && OldestQueued(w.rows) < |w.rows|
    ensures ClaimedInOrder(Step(w, Claim(true)))
  {
    var k, after := OldestQueued(w.rows), Step(w, Claim(true));
    var id := w.rows[k].id;
    assert after.claimed == w.claimed + [id] && after.rows[k].id == id;
    assert HasRow(after.rows, id);
    assert InOrder(w.rows[k], w.claimed);
    assert AllBelow(w.claimed, id);
    RowsStay(w.rows, after.rows, w.claimed);
    AppendIncreases(w.claimed, id);
    forall i | 0 <= i < |after.rows|
      ensures InOrder(after.rows[i], after.claimed) && (after.rows[i].id == id ==> i == k)
    {
      assert InOrder(w.rows[i], w.claimed);
      ClaimOne(w, k, i);
    }
  }

  lemma AppendIncreases(ids: seq<nat>, id: nat)
    requires Increasing(ids) && AllBelow(ids, id)
    ensures Increasing(ids + [id])
  {
    assert forall i :: 0 <= i < |ids| ==> ids[i] in ids;
  }

  lemma ClaimOne(w: World, k: nat, i: nat)
    requires Ordered(w.rows) && k == OldestQueued(w.rows) && k < |w.rows| && i < |w.rows|
    requires InOrder(w.rows[i], w.claimed) && InOrder(w.rows[k], w.claimed)
    ensures InOrder(Taken(w.rows)[i], w.claimed + [w.rows[k].id])
  {
  }

  /** Over every run from the empty table, whatever fails: claims strictly increase, so no run is taken twice. */
  lemma {:induction false} EveryRunClaimsInOrder(w: World, events: seq<Event>)
    requires ClaimedInOrder(w)
    ensures ClaimedInOrder(Run(w, events))
    decreases |events|
  {
    if events != [] {
      StepKeepsOrder(w, events[0]);
      EveryRunClaimsInOrder(Step(w, events[0]), events[1..]);
    }
  }

  predicate Later(s: Status, t: Status) {
    s == t || s == Queued || (s == Running && t != Queued)
  }

  /** Rows are only added at the end, and each moves queued, running, then done or failed, never back. */
  ghost predicate Moved(before: seq<Row>, after: seq<Row>) {
    && |before| <= |after|
    && forall i :: 0 <= i < |before| ==>
      && after[i].id == before[i].id && after[i].uid == before[i].uid
      && Later(before[i].status, after[i].status)
  }

  lemma MovedTwice(a: seq<Row>, b: seq<Row>, c: seq<Row>)
    requires Moved(a, b) && Moved(b, c)
    ensures Moved(a, c)
  {
  }

  lemma StepMovesForward(w: World, e: Event)
    requires ClaimedInOrder(w)
    ensures Moved(w.rows, Step(w, e).rows)
  {
    match e
    case Enqueue(id, uid) =>
    case Start(available) => ReapedMoved(w.rows);
    case Signal =>
    case Check =>
    case Claim(available) => TakenMoved(w.rows);
    case Finish(end, available) =>
      if w.place.Busy? {
        SettledMoved(w.rows, w.place.id, if end == Built then Done else Failed);
      }
    case Kill =>
  }

  lemma ReapedMoved(rows: seq<Row>)
    ensures Moved(rows, Reaped(rows)) && Moved(rows, rows)
  {
  }

  lemma TakenMoved(rows: seq<Row>)
    ensures Moved(rows, Taken(rows)) && Moved(rows, rows)
  {
  }

  lemma SettledMoved(rows: seq<Row>, id: nat, status: Status)
    requires status == Done || status == Failed
    requires forall i :: 0 <= i < |rows| && rows[i].id == id ==> rows[i].status == Running
    ensures Moved(rows, Settled(rows, id, status)) && Moved(rows, rows)
  {
  }

  lemma {:induction false} EveryRunMovesForward(w: World, events: seq<Event>)
    requires ClaimedInOrder(w)
    ensures Moved(w.rows, Run(w, events).rows)
    decreases |events|
  {
    if events != [] {
      var next := Step(w, events[0]);
      StepKeepsOrder(w, events[0]);
      StepMovesForward(w, events[0]);
      EveryRunMovesForward(next, events[1..]);
      MovedTwice(w.rows, next.rows, Run(w, events).rows);
    }
  }

  /** The row of the run in hand ends `done` exactly when the model was built, and no other row changes. */
  lemma FinishSaysHowItEnded(w: World, end: End, available: bool, i: nat)
    requires ClaimedInOrder(w) && w.place.Busy? && (end == Stopped ==> w.stopping) && i < |w.rows|
    ensures var after := Step(w, Finish(end, available)).rows[i];
      && (w.rows[i].id != w.place.id || !available ==> after == w.rows[i])
      && (w.rows[i].id == w.place.id && available ==>
            after.status in [Done, Failed] && (after.status == Done <==> end == Built))
  {
  }

  /** A restart begins at the check with no stop asked for, every row that was running failed and no other touched. */
  lemma RestartBeginsFresh(w: World, available: bool, i: nat)
    requires w.place.Down? && i < |w.rows|
    ensures var t := Step(w, Start(available));
            && t.place == AtCheck && !t.stopping && t.claimed == w.claimed && |t.rows| == |w.rows|
            && t.rows[i] == if available && w.rows[i].status == Running then w.rows[i].(status := Failed) else w.rows[i]
  {
    if available {
      ReapFailsTheRunning(w.rows, i);
    }
  }

  // ----- One run at a time, and what it takes -----

  ghost predicate NoneRunning(rows: seq<Row>) { forall i :: 0 <= i < |rows| ==> rows[i].status != Running }

  ghost predicate AtMostOneRunning(rows: seq<Row>) {
    forall i, j :: 0 <= i < j < |rows| ==> rows[i].status != Running || rows[j].status != Running
  }

  /** Nothing runs but the run in hand; a companion that was killed may leave one row behind. */
  ghost predicate Tidy(w: World) {
    && AtMostOneRunning(w.rows)
    && (w.place != Down(false) ==> forall i :: 0 <= i < |w.rows| && w.rows[i].status == Running
                                        ==> w.place == Busy(w.rows[i].id))
  }

  /** A status write that is lost when it matters. */
  ghost predicate LosesAWrite(w: World, e: Event) {
    || (e.Finish? && w.place.Busy? && (e.end == Stopped ==> w.stopping) && !e.available)
    || (e.Start? && w.place.Down? && !NoneRunning(w.rows) && !e.available)
  }

  /** Exactly the lost writes leave a row running that nobody works on. */
  lemma StaysTidyUnlessAWriteIsLost(w: World, e: Event)
    requires ClaimedInOrder(w) && Tidy(w)
    ensures Tidy(Step(w, e)) <==> !LosesAWrite(w, e)
  {
    match e
    case Enqueue(id, uid) =>
    case Start(available) =>
    case Signal =>
    case Check =>
    case Claim(available) => ClaimStaysTidy(w, available);
    case Finish(end, available) => FinishStaysTidy(w, end, available);
    case Kill =>
  }

  lemma ClaimStaysTidy(w: World, available: bool)
    requires ClaimedInOrder(w) && Tidy(w)
    ensures Tidy(Step(w, Claim(available)))
  {
    var after := Step(w, Claim(available));
    if after.place.Busy? && w.place == AtClaim {
      var k := OldestQueued(w.rows);
      assert forall i :: 0 <= i < |w.rows| && i != k ==> after.rows[i] == w.rows[i] && w.rows[i].status != Running;
    }
  }

  lemma FinishStaysTidy(w: World, end: End, available: bool)
    requires ClaimedInOrder(w) && Tidy(w)
    ensures Tidy(Step(w, Finish(end, available))) <==> !LosesAWrite(w, Finish(end, available))
  {
    var after := Step(w, Finish(end, available));
    if LosesAWrite(w, Finish(end, available)) {
      var i :| 0 <= i < |w.rows| && w.rows[i].id == w.place.id;
      assert after.rows[i].status == Running;
    } else if after != w {
      assert forall i :: 0 <= i < |w.rows| ==> after.rows[i].status != Running;
    }
  }

  ghost predicate NoWriteIsLost(w: World, events: seq<Event>)
    decreases |events|
  {
    events == [] || (!LosesAWrite(w, events[0]) && NoWriteIsLost(Step(w, events[0]), events[1..]))
  }

  /** With no status write lost, one row at most is running, and none after a stop carried out or a restart's reap. */
  lemma {:induction false} OneRunAtATime(w: World, events: seq<Event>)
    requires ClaimedInOrder(w) && Tidy(w) && NoWriteIsLost(w, events)
    ensures var after := Run(w, events);
      && AtMostOneRunning(after.rows)
      && (after.place == Down(true) || after.place == AtCheck || after.place == AtClaim ==> NoneRunning(after.rows))
    decreases |events|
  {
    if events != [] {
      StepKeepsOrder(w, events[0]);
      StaysTidyUnlessAWriteIsLost(w, events[0]);
      OneRunAtATime(Step(w, events[0]), events[1..]);
    }
  }

  lemma StartIsTidy()
    ensures ClaimedInOrder(START) && Tidy(START)
  {
  }

  /** A finish the database refuses: the row it leaves is still running when the next one is claimed. */
  lemma LostFinishLeavesTwoRunning()
    ensures var events := [Enqueue(1, "a"), Enqueue(2, "b"), Start(true), Check,
                           Claim(true), Finish(Built, false), Check, Claim(true)];
      !AtMostOneRunning(Run(START, events).rows)
  {
    var rows := [Row(1, "a", Queued), Row(2, "b", Queued)];
    var a := [Enqueue(1, "a"), Enqueue(2, "b"), Start(true), Check];
    var b := [Claim(true), Finish(Built, false), Check, Claim(true)];
    FirstFour(a);
    SecondFour(b);
    RunConcat(START, a, b);
    assert a + b == [Enqueue(1, "a"), Enqueue(2, "b"), Start(true), Check,
                     Claim(true), Finish(Built, false), Check, Claim(true)];
    var last := Run(START, a + b).rows;
    assert last[0].status == Running && last[1].status == Running;
  }

  lemma FirstFour(a: seq<Event>)
    requires a == [Enqueue(1, "a"), Enqueue(2, "b"), Start(true), Check]
    ensures Run(START, a) == World([Row(1, "a", Queued), Row(2, "b", Queued)], false, AtClaim, [])
  {
    var _ := RunFour(START, a);
    var two := Step(Step(START, a[0]), a[1]);
    assert two.rows == [Row(1, "a", Queued), Row(2, "b", Queued)];
    assert Reaped(two.rows) == two.rows;
  }

  lemma SecondFour(b: seq<Event>)
    requires b == [Claim(true), Finish(Built, false), Check, Claim(true)]
    ensures Run(World([Row(1, "a", Queued), Row(2, "b", Queued)], false, AtClaim, []), b)
         == World([Row(1, "a", Running), Row(2, "b", Running)], false, Busy(2), [1, 2])
  {
    var w := World([Row(1, "a", Queued), Row(2, "b", Queued)], false, AtClaim, []);
    var _ := RunFour(w, b);
    var one := Step(w, b[0]);
    assert one == World([Row(1, "a", Running), Row(2, "b", Queued)], false, Busy(1), [1]);
    var three := Step(Step(one, b[1]), b[2]);
    assert three.rows == one.rows && three.rows[1].status == Queued && OldestQueued(three.rows) == 1;
    assert Taken(three.rows) == [Row(1, "a", Running), Row(2, "b", Running)];
    assert [1] + [2] == [1, 2];
  }

  lemma RunFour(w: World, es: seq<Event>) returns (after: World)
    requires |es| == 4
    ensures after == Run(w, es) == Step(Step(Step(Step(w, es[0]), es[1]), es[2]), es[3])
  {
    after := Run(w, es);
    var one, two, three := es[1..], es[2..], es[3..];
    assert one[1..] == two && two[1..] == three;
    var second := Step(Step(w, es[0]), one[0]);
    calc {
      after;
      Run(Step(w, es[0]), one);
      Run(second, two);
      Run(Step(second, two[0]), three);
      { RunOne(Step(second, two[0]), es[3]); assert three == [es[3]]; }
      Step(Step(second, two[0]), es[3]);
    }
  }
}
