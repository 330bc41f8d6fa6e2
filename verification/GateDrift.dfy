/**
 The mode the gate holds against the mode the broker last answered `ready` for. They are meant to be the same once
 nobody waits; these are the steps at which they part.
 */
module GateDrift {
  import opened Options
  import opened LeaseExchange
  import opened ModelGate
  import opened GateProtocol

  /** The wish last answered `ready`. */
  function LastReady(answers: seq<(string, State)>): Option<string> {
    if answers == [] then None
    else if answers[|answers| - 1].1 == Ready then Some(answers[|answers| - 1].0)
    else LastReady(answers[..|answers| - 1])
  }

  lemma LastReadyAppend(answers: seq<(string, State)>, id: string, state: State)
    ensures LastReady(answers + [(id, state)]) == if state == Ready then Some(id) else LastReady(answers)
  {
    assert (answers + [(id, state)])[..|answers|] == answers;
  }

  lemma {:induction false} LastReadyWasGiven(answers: seq<(string, State)>)
    requires LastReady(answers).Some?
    ensures (LastReady(answers).value, Ready) in answers
  {
    var last := answers[|answers| - 1];
    if last.1 == Ready {
      assert last == (LastReady(answers).value, Ready);
    } else {
      LastReadyWasGiven(answers[..|answers| - 1]);
    }
  }

  predicate NobodyWaits(w: World, id: string) {
    forall k :: k in w.gate.sessions ==> !(w.gate.sessions[k].Waiting? && w.gate.sessions[k].id == id)
  }

  /** The gate holds one mode, the last `ready` the API gave was for another, and no session is about to learn of it. */
  ghost predicate Drifted(w: World) { w.gate.mode != "" && Elsewhere(w, w.gate.mode) }

  /** The last `ready` was for another mode than `mode`, and nobody waits for it. */
  ghost predicate Elsewhere(w: World, mode: string) {
    && LastReady(w.past.outcomes).Some?
    && var id := LastReady(w.past.outcomes).value;
       id in w.wishes && w.wishes[id].mode != mode && NobodyWaits(w, id)
  }

  predicate WaitsAlone(w: World, k: nat) {
    k in w.gate.sessions && w.gate.sessions[k].Waiting?
    && forall j :: j in w.gate.sessions && j != k ==>
         !(w.gate.sessions[j].Waiting? && w.gate.sessions[j].id == w.gate.sessions[k].id)
  }

  /** The API gives `ready` for another mode, and no session waits for it, whether or not that answer gets on file; or
      the one session that waits for such a `ready` gives up, or reads a later answer to the same wish that is not
      `ready`; or a session takes its mode when the last `ready` was for another, with nobody waiting. */
  ghost predicate Drifts(w: World, e: Event) {
    match e
    case BrokerAnswers(results, how) =>
      && w.gate.mode != "" && Finishes(w, e) && Handled(w.hand.running.value, results).state == Ready
      && w.hand.running.value.mode != w.gate.mode && NobodyWaits(w, w.hand.running.value.id)
    case TimeOut(k) =>
      w.gate.mode != "" && WaitsAlone(w, k) && LastReady(w.past.outcomes) == Some(w.gate.sessions[k].id)
      && w.gate.sessions[k].mode != w.gate.mode
    case Look(k) =>
      && k in w.gate.sessions && w.gate.sessions[k].Waiting? && Settles(StatusFor(w.status, w.gate.sessions[k].id))
      && if w.status.value.state == Ready then w.gate.sessions[k].mode != "" && Elsewhere(w, w.gate.sessions[k].mode)
         else w.gate.mode != "" && WaitsAlone(w, k) && LastReady(w.past.outcomes) == Some(w.gate.sessions[k].id)
              && w.gate.sessions[k].mode != w.gate.mode
    case _ => false
  }

  lemma ExactlyTheseDrift(w: World, e: Event)
    requires Sound(w) && !Drifted(w)
    ensures Drifted(Step(w, e)) <==> Drifts(w, e)
  {
    if Finishes(w, e) {
      AnswerDrifts(w, e);
    } else {
      OutcomesStay(w, e);
      match e
      case Look(k) => LookDrifts(w, k);
      case TimeOut(k) => TimeOutDrifts(w, k);
      case Start(k, mode, id, how) =>
        if LastReady(w.past.outcomes).Some? {
          LastReadyWasGiven(w.past.outcomes);
          StartKeepsWaiting(w, k, mode, id, how, LastReady(w.past.outcomes).value);
        }
      case _ =>
    }
  }

  lemma StartKeepsWaiting(w: World, k: nat, mode: string, id: string, how: Writing, other: string)
    requires other in w.wishes
    ensures NobodyWaits(Step(w, Start(k, mode, id, how)), other) <==> NobodyWaits(w, other)
  {
    var after := Step(w, Start(k, mode, id, how));
    assert forall j :: j in w.gate.sessions ==>
        j in after.gate.sessions && after.gate.sessions[j] == w.gate.sessions[j];
    assert forall j :: j in after.gate.sessions && j !in w.gate.sessions ==> after.gate.sessions[j].id != other;
  }

  /** Session `k` done waiting, the others as they were. */
  lemma OneLessWaits(w: World, after: World, k: nat, other: string)
    requires k in w.gate.sessions && after.gate.sessions.Keys == w.gate.sessions.Keys && after.gate.sessions[k].Over?
    requires forall j :: j in w.gate.sessions && j != k ==> after.gate.sessions[j] == w.gate.sessions[j]
    ensures NobodyWaits(after, other) <==>
            forall j :: j in w.gate.sessions && j != k ==>
              !(w.gate.sessions[j].Waiting? && w.gate.sessions[j].id == other)
  {
    forall j | j in after.gate.sessions
      ensures j == k || after.gate.sessions[j] == w.gate.sessions[j]
    {
      assert j in after.gate.sessions.Keys;
    }
    if NobodyWaits(after, other) {
      forall j | j in w.gate.sessions && j != k
        ensures !(w.gate.sessions[j].Waiting? && w.gate.sessions[j].id == other)
      {
        assert j in after.gate.sessions.Keys;
      }
    }
  }

  lemma AnswerDrifts(w: World, e: Event)
    requires Sound(w) && !Drifted(w) && Finishes(w, e)
    ensures Drifted(Step(w, e)) <==> Drifts(w, e)
  {
    var answer := Handled(w.hand.running.value, e.results);
    LastReadyAppend(w.past.outcomes, answer.id, answer.state);
    BrokerLeaves(w, e);
    OutcomesStay(w, e);
  }

  lemma LookDrifts(w: World, k: nat)
    requires Sound(w) && !Drifted(w)
    ensures Drifted(Step(w, Look(k))) <==> Drifts(w, Look(k))
  {
    var after := Step(w, Look(k));
    if after != w && LastReady(w.past.outcomes).Some? {
      LookTakesOwnMode(w, k);
      OneLessWaits(w, after, k, LastReady(w.past.outcomes).value);
      OwnModeIsWritten(w, k);
    }
  }

  lemma OwnModeIsWritten(w: World, k: nat)
    requires SessionsSound(w) && k in w.gate.sessions
    ensures var s := w.gate.sessions[k]; s.id in w.wishes && w.wishes[s.id] == Wish(s.id, AcquireOp, s.mode)
  {
    assert SessionSound(w, w.gate.sessions[k]);
  }

  lemma TimeOutDrifts(w: World, k: nat)
    requires Sound(w) && !Drifted(w)
    ensures Drifted(Step(w, TimeOut(k))) <==> Drifts(w, TimeOut(k))
  {
    if Step(w, TimeOut(k)) != w && LastReady(w.past.outcomes).Some? {
      OneLessWaits(w, Step(w, TimeOut(k)), k, LastReady(w.past.outcomes).value);
      OwnModeIsWritten(w, k);
    }
  }

  // ----- The renewal that comes too late -----

  /** A renewal of the keeper's: a wish for a mode that no session wrote. */
  predicate Renewal(w: World, v: Option<Wish>) {
    v.Some? && v.value.op == AcquireOp && forall k :: k in w.gate.sessions ==> w.gate.sessions[k].id != v.value.id
  }

  /** A renewal for another mode than the one held is still to be served. */
  ghost predicate Stale(w: World) {
    w.gate.mode != "" &&
    ((Renewal(w, w.request) && !Answered(w, w.request.value.id) && w.request.value.mode != w.gate.mode)
     || (Renewal(w, w.hand.running) && w.hand.running.value.mode != w.gate.mode))
  }

  /** A session looks, and takes its mode while a renewal for another is still unread, or already in hand behind a
      status file that could not be written; or a broker is started on an answered renewal for another mode than the
      one held, its answer passed over unread. */
  ghost predicate GoesStale(w: World, e: Event) {
    match e
    case Look(k) =>
      && k in w.gate.sessions && w.gate.sessions[k].Waiting?
      && var s := w.gate.sessions[k];
         && w.status == Some(Status(s.id, Ready, s.mode)) && s.mode != ""
         && ((Renewal(w, w.request) && !Answered(w, w.request.value.id) && w.request.value.mode != s.mode)
             || (Renewal(w, w.hand.running) && w.hand.running.value.mode != s.mode))
    case BrokerWakes(readable, _) =>
      && Wakes(w, readable) && w.gate.mode != "" && Renewal(w, w.request) && w.request.value.mode != w.gate.mode
      && (w.request.value.id in w.past.unread || AnsweredId(w.status) == w.request.value.id)
    case _ => false
  }

  lemma ExactlyTheseGoStale(w: World, e: Event)
    requires Sound(w) && !Stale(w)
    ensures Stale(Step(w, e)) <==> GoesStale(w, e)
  {
    match e
    case Look(k) => LookAtRenewal(w, k);
    case Start(k, mode, id, how) => StartIsNoRenewal(w, k, mode, id, how);
    case BrokerWakes(readable, how) => if Wakes(w, readable) { WakesOnUnanswered(w, readable); }
    case BrokerAnswers(results, how) => if w.request.Some? { AnsweredOnlyGrows(w, e); }
    case TimeOut(k) =>
      RenewalStays(w, Step(w, e), w.request);
      RenewalStays(w, Step(w, e), w.hand.running);
    case _ =>
  }

  lemma StartIsNoRenewal(w: World, k: nat, mode: string, id: string, how: Writing)
    requires Sound(w)
    ensures var after := Step(w, Start(k, mode, id, how));
            && (after.request.Some? && after.request != w.request ==> !Renewal(after, after.request))
            && (Renewal(after, w.hand.running) <==> Renewal(w, w.hand.running))
            && (Renewal(after, w.request) ==> Renewal(w, w.request))
  {
    var after := Step(w, Start(k, mode, id, how));
    if after != w {
      assert OnFile(how) ==> after.gate.sessions[k].id == id;
      assert forall j :: j in w.gate.sessions ==> after.gate.sessions[j] == w.gate.sessions[j];
    }
  }

  lemma RenewalStays(w: World, after: World, v: Option<Wish>)
    requires forall j :: j in w.gate.sessions <==> j in after.gate.sessions
    requires forall j :: j in w.gate.sessions ==> after.gate.sessions[j].id == w.gate.sessions[j].id
    ensures Renewal(after, v) <==> Renewal(w, v)
  {
  }

  lemma LookAtRenewal(w: World, k: nat)
    requires Sound(w) && !Stale(w)
    ensures Stale(Step(w, Look(k))) <==> GoesStale(w, Look(k))
  {
    var after := Step(w, Look(k));
    if after != w {
      RenewalStays(w, after, w.request);
      RenewalStays(w, after, w.hand.running);
      LookTakesOwnMode(w, k);
    }
  }

  lemma LookTakesOwnMode(w: World, k: nat)
    requires FilesSound(w) && SessionsSound(w) && Step(w, Look(k)) != w
    ensures var after := Step(w, Look(k));
            && after.past == w.past && after.request == w.request && after.hand == w.hand && after.wishes == w.wishes
            && after.gate.mode == (if w.status.value.state == Ready then w.gate.sessions[k].mode else w.gate.mode)
            && w.status == Some(Status(w.gate.sessions[k].id, w.status.value.state, w.gate.sessions[k].mode))
            && after.gate.sessions
               == w.gate.sessions[k := Over(w.gate.sessions[k].id, w.gate.sessions[k].mode, w.status)]
  {
    assert SessionSound(w, w.gate.sessions[k]);
  }

  lemma AnsweredOnlyGrows(w: World, e: Event)
    requires w.request.Some?
    ensures Answered(w, w.request.value.id) ==> Answered(Step(w, e), w.request.value.id)
  {
    if Answered(w, w.request.value.id) {
      AnsweredStays(w, e, w.request.value.id);
    }
  }

  const READY_AT_ONCE := [Answer(200, Some(State.Ready))]
  const SERVE := [BrokerWakes(true, Written), BrokerCalls, BrokerAnswers(READY_AT_ONCE, Written)]

  /** A stale renewal in hand, once the API says `ready`, leaves the gate with a mode the box no longer stands in. */
  lemma StaleRenewalDrifts(w: World, how: Writing)
    requires Sound(w) && Renewal(w, w.hand.running) && w.hand.called
    requires w.gate.mode != "" && w.hand.running.value.mode != w.gate.mode
    requires w.hand.running.value.mode != ""
    ensures Drifted(Step(w, BrokerAnswers(READY_AT_ONCE, how)))
  {
    var answer := Handled(w.hand.running.value, READY_AT_ONCE);
    assert answer.state == Ready;
    LastReadyAppend(w.past.outcomes, answer.id, answer.state);
    OutcomesStay(w, BrokerAnswers(READY_AT_ONCE, how));
  }

  // ----- And it happens -----

  /** Nothing is on its way. */
  ghost predicate Quiet(w: World) {
    && w.hand.running.None? && (w.request.Some? ==> Answered(w, w.request.value.id))
    && forall k :: k in w.gate.sessions ==> w.gate.sessions[k].Over?
  }

  function Served(w: World, id: string, mode: string): World {
    w.(status := Some(Status(id, Ready, mode)), hand := IDLE,
    past := w.past.(answers := w.past.answers + [(id, Ready)], outcomes := w.past.outcomes + [(id, Ready)],
    stood := if id in w.past.stood then w.past.stood else w.past.stood[id := |w.past.changes| + 1],
    woken := w.past.woken + {id}, changes := w.past.changes + [id]))
  }

  lemma ServedAtOnce(w: World)
    requires w.hand.running.None? && Runs(w.request, w.status)
    requires w.request.value.op == AcquireOp && w.request.value.mode != ""
    ensures Step(Step(Step(w, BrokerWakes(true, Written)), BrokerCalls), BrokerAnswers(READY_AT_ONCE, Written))
         == Served(w, w.request.value.id, w.request.value.mode)
  {
    assert Handled(w.request.value, READY_AT_ONCE).state == Ready;
  }

  /** The gate holds `held`; nothing is on its way. Then a session's wish for another mode is answered, the keeper
      renews, the session looks, and the broker serves the renewal: the gate ends holding the session's mode, all
      quiet, and the last `ready` was for `held`. */
  lemma LateLookDrifts(w: World, k: nat, mode: string, b: string, c: string)
    requires Sound(w) && Quiet(w) && w.gate.mode != "" && mode != "" && mode != w.gate.mode && k !in w.gate.sessions
    requires Fresh(w, b) && Fresh(w, c) && b != c
    ensures var after := RunOn(w, [Start(k, mode, b, Written)] + SERVE + [RenewWish(c, Written), Look(k)] + SERVE);
            Quiet(after) && Drifted(after) && after.gate.mode == mode && LastReady(after.past.outcomes) == Some(c)
  {
    var start, between := [Start(k, mode, b, Written)], [RenewWish(c, Written), Look(k)];
    var one := Step(w, Start(k, mode, b, Written));
    var two := Served(one, b, mode);
    var four := Step(Step(two, RenewWish(c, Written)), Look(k));
    OneMore(w, [], Start(k, mode, b, Written));
    assert [] + start == start;
    RunConcat(w, start, SERVE);
    SessionAsks(w, k, mode, b);
    RunOfServe(one);
    RunConcat(w, start + SERVE, between);
    RunOfTwo(two, RenewWish(c, Written), Look(k));
    RenewedThenSeen(w, k, mode, b, c);
    RunConcat(w, start + SERVE + between, SERVE);
    RunOfServe(four);
    QuietAndDrifted(w, k, mode, b, c);
  }

  lemma RunOfServe(w: World)
    requires w.hand.running.None? && Runs(w.request, w.status)
    requires w.request.value.op == AcquireOp && w.request.value.mode != ""
    ensures RunOn(w, SERVE)
         == Served(w, w.request.value.id, w.request.value.mode)
  {
    ServedAtOnce(w);
    RunOfTwo(w, BrokerWakes(true, Written), BrokerCalls);
    OneMore(w, [BrokerWakes(true, Written), BrokerCalls], BrokerAnswers(READY_AT_ONCE, Written));
    assert [BrokerWakes(true, Written), BrokerCalls] + [BrokerAnswers(READY_AT_ONCE, Written)] == SERVE;
  }

  lemma SessionAsks(w: World, k: nat, mode: string, b: string)
    requires Sound(w) && w.hand.running.None? && k !in w.gate.sessions && Fresh(w, b)
    ensures var one := Step(w, Start(k, mode, b, Written));
            && one.hand.running.None? && one.request == Some(Wish(b, AcquireOp, mode)) && Runs(one.request, one.status)
            && one.gate.sessions == w.gate.sessions[k := Waiting(b, mode)]
            && one.wishes == w.wishes[b := Wish(b, AcquireOp, mode)]
            && one.gate.mode == w.gate.mode && one.past.answers == w.past.answers
  {
  }

  /** The world when the session has looked. */
  lemma RenewedThenSeen(w: World, k: nat, mode: string, b: string, c: string)
    requires Sound(w) && w.hand.running.None? && w.gate.mode != "" && k !in w.gate.sessions
    requires Fresh(w, b) && Fresh(w, c) && b != c
    ensures var two := Served(Step(w, Start(k, mode, b, Written)), b, mode);
            var four := Step(Step(two, RenewWish(c, Written)), Look(k));
            && four.hand.running.None?
            && four.request == Some(Wish(c, AcquireOp, w.gate.mode)) && Runs(four.request, four.status)
            && four.gate.sessions == w.gate.sessions[k := Over(b, mode, Some(Status(b, Ready, mode)))]
            && four.gate.mode == mode
            && c in four.wishes && four.wishes[c] == Wish(c, AcquireOp, w.gate.mode)
  {
    SessionAsks(w, k, mode, b);
    var two := Served(Step(w, Start(k, mode, b, Written)), b, mode);
    assert two.status == Some(Status(b, Ready, mode)) && two.gate.sessions[k] == Waiting(b, mode);
    var three := Step(two, RenewWish(c, Written));
    assert three.request == Some(Wish(c, AcquireOp, w.gate.mode));
    assert three.gate.sessions == two.gate.sessions && three.status == two.status;
    assert three.gate.sessions[k := Over(b, mode, three.status)] == w.gate.sessions[k := Over(b, mode, three.status)];
  }

  lemma QuietAndDrifted(w: World, k: nat, mode: string, b: string, c: string)
    requires Sound(w) && Quiet(w) && w.gate.mode != "" && mode != "" && mode != w.gate.mode && k !in w.gate.sessions
    requires Fresh(w, b) && Fresh(w, c) && b != c
    ensures var two := Served(Step(w, Start(k, mode, b, Written)), b, mode);
            var four := Step(Step(two, RenewWish(c, Written)), Look(k));
            var after := Served(four, c, w.gate.mode);
            Quiet(after) && Drifted(after) && after.gate.mode == mode && LastReady(after.past.outcomes) == Some(c)
  {
    RenewedThenSeen(w, k, mode, b, c);
    var four := Step(Step(Served(Step(w, Start(k, mode, b, Written)), b, mode), RenewWish(c, Written)), Look(k));
    LastReadyAppend(four.past.outcomes, c, Ready);
    var after := Served(four, c, w.gate.mode);
    assert after.past.answers[|four.past.answers|].0 == c;
  }

  /** From the empty files: one session takes `held`, and the run above follows. */
  lemma GateCanDrift(held: string, mode: string, a: string, b: string, c: string)
    requires held != "" && mode != "" && held != mode && a != "" && b != "" && c != ""
    requires a != b && a != c && b != c
    ensures var after := Run([Start(0, held, a, Written)] + SERVE + [Look(0)]
                             + ([Start(1, mode, b, Written)] + SERVE + [RenewWish(c, Written), Look(1)] + SERVE));
            Quiet(after) && Drifted(after) && after.gate.mode == mode && LastReady(after.past.outcomes) == Some(c)
  {
    var first := [Start(0, held, a, Written)] + SERVE + [Look(0)];
    var later := [Start(1, mode, b, Written)] + SERVE + [RenewWish(c, Written), Look(1)] + SERVE;
    RunConcat(Initial(), first, later);
    FirstTake(held, a);
    EveryRunIsSound(first);
    LateLookDrifts(Run(first), 1, mode, b, c);
  }

  lemma FirstTake(held: string, a: string)
    requires held != "" && a != ""
    ensures var w := Run([Start(0, held, a, Written)]
                         + SERVE
                         + [Look(0)]);
            && Quiet(w) && w.gate.mode == held && w.gate.sessions.Keys == {0} && w.wishes.Keys == {a}
  {
    OneMore(Initial(), [], Start(0, held, a, Written));
    assert [] + [Start(0, held, a, Written)] == [Start(0, held, a, Written)];
    EveryRunIsSound([]);
    SessionAsks(Initial(), 0, held, a);
    var one := Step(Initial(), Start(0, held, a, Written));
    RunConcat(Initial(), [Start(0, held, a, Written)], SERVE);
    RunOfServe(one);
    OneMore(Initial(), [Start(0, held, a, Written)] + SERVE, Look(0));
    FirstLook(one, held, a);
  }

  lemma FirstLook(one: World, held: string, a: string)
    requires one.hand.running.None? && one.request == Some(Wish(a, AcquireOp, held))
    requires one.gate.sessions == map[0 := Waiting(a, held)]
    requires one.wishes == map[a := Wish(a, AcquireOp, held)]
    ensures var w := Step(Served(one, a, held), Look(0));
            Quiet(w) && w.gate.mode == held && w.gate.sessions.Keys == {0} && w.wishes.Keys == {a}
  {
    var two := Served(one, a, held);
    assert two.gate.sessions[0] == Waiting(a, held) && two.status == Some(Status(a, Ready, held));
    assert Step(two, Look(0)).past.answers[|one.past.answers|].0 == a;
  }
}
