/**
 Sessions, the keeper and the broker over the two single-slot files, in any interleaving.
 A wish can be overwritten before the broker reads it, every write can fail, the status file can be unreadable when the
 broker looks for an answer, and the broker can die before it answers and be started again. `wishes`, `past` and
 `grant` record the history; no step depends on them, except that an id is
 drawn only once. The broker unit is a oneshot: one run at a time.
 */
module GateProtocol {
  import opened Options
  import opened LeaseExchange
  import opened ModelGate

  datatype Session = Waiting(id: string, mode: string) | Over(id: string, mode: string, answer: Option<Status>)

  /** What the gate keeps in memory; `grant` is the wish whose `ready` set the mode. */
  datatype Side = Side(mode: string, sessions: map<nat, Session>, grant: string)

  /** The wish a broker run is handling, and whether it has asked the API for the change. */
  datatype Hand = Hand(running: Option<Wish>, called: bool)

  datatype History = History(
    answers: seq<(string, State)>,   // every final answer that got on file
    outcomes: seq<(string, State)>,  // every final answer, on file or not
    stood: map<string, nat>,         // how many changes had been asked for when a wish's first answer got on file
    woken: set<string>,              // the wishes a broker run was started on
    changes: seq<string>,            // by wish, every change the API was asked for
    spared: set<string>,             // the wishes a run ended on without an answer on file, the change not asked for
    struck: set<string>,             // and with the change asked for
    unread: set<string>)             // the wishes a run was started on over an answer on file that could not be read

  datatype World = World(
    request: Option<Wish>,
    status: Option<Status>,
    wishes: map<string, Wish>,       // every wish ever written
    gate: Side,
    hand: Hand,
    past: History)

  datatype Event =
    | Start(session: nat, mode: string, id: string, how: Writing)
    | Look(session: nat)
    | TimeOut(session: nat)
    | RenewWish(id: string, how: Writing)
    | ReleaseWish(id: string, how: Writing)
    | GateRestarts
    | BrokerWakes(readable: bool, how: Writing)
    | BrokerCalls
    | BrokerAnswers(results: seq<Answer>, how: Writing)
    | BrokerDies

  const IDLE := Hand(None, false)

  function Initial(): World {
    World(None, None, map[], Side("", map[], ""), IDLE, History([], [], map[], {}, [], {}, {}, {}))
  }

  predicate Fresh(w: World, id: string) { id != "" && id !in w.wishes }

  function WishWritten(w: World, wish: Wish, how: Writing): World {
    w.(request := FileAfter(w.request, wish, how),
       wishes := if OnFile(how) then w.wishes[wish.id := wish] else w.wishes)
  }

  /** A session waits inside its POST, so while one does the keeper finds the gate busy. */
  predicate NobodyWaiting(w: World) { forall k :: k in w.gate.sessions ==> w.gate.sessions[k].Over? }

  /** A run on `id` ended and no answer got on file. */
  function EndedUnanswered(past: History, id: string, called: bool): History {
    if called then past.(struck := past.struck + {id}) else past.(spared := past.spared + {id})
  }

  function Given(past: History, answer: Status, called: bool, how: Writing): History {
    var told := past.(outcomes := past.outcomes + [(answer.id, answer.state)]);
    if OnFile(how) then
      told.(answers := past.answers + [(answer.id, answer.state)], 
                stood := if answer.id in past.stood then past.stood else past.stood[answer.id := |past.changes|])
    else EndedUnanswered(told, answer.id, called)
  }

  /** What a session has when the gate goes down under it. */
  function HungUp(s: Session): Session { if s.Waiting? then Over(s.id, s.mode, None) else s }

  /** One atomic step; an event whose moment it is not leaves the world as it is. */
  function Step(w: World, e: Event): World {
    match e
    case Start(k, mode, id, how) =>
      if Fresh(w, id) && k !in w.gate.sessions then
        var written := WishWritten(w, Wish(id, AcquireOp, mode), how);
        if OnFile(how) then written.(gate := w.gate.(sessions := w.gate.sessions[k := Waiting(id, mode)])) else written
      else w
    case Look(k) =>
      if k in w.gate.sessions && w.gate.sessions[k].Waiting? && Settles(StatusFor(w.status, w.gate.sessions[k].id)) then
        var s := w.gate.sessions[k];
        var sessions := w.gate.sessions[k := Over(s.id, s.mode, w.status)];
        w.(gate := if w.status.value.state == Ready then Side(s.mode, sessions, s.id)
                   else w.gate.(sessions := sessions))
      else w
    case TimeOut(k) =>
      if k in w.gate.sessions && w.gate.sessions[k].Waiting? then
        var s := w.gate.sessions[k];
        w.(gate := w.gate.(sessions := w.gate.sessions[k := Over(s.id, s.mode, None)]))
      else w
    case RenewWish(id, how) =>
      if Fresh(w, id) && w.gate.mode != "" then WishWritten(w, Wish(id, AcquireOp, w.gate.mode), how) else w
    case ReleaseWish(id, how) =>
      if Fresh(w, id) && w.gate.mode != "" && NobodyWaiting(w)
      then WishWritten(w, Wish(id, ReleaseOp, w.gate.mode), how).(gate := w.gate.(mode := "")) else w
    case GateRestarts =>
      w.(gate := Side("", map k | k in w.gate.sessions :: HungUp(w.gate.sessions[k]), ""))
    case BrokerWakes(readable, how) =>
      if Wakes(w, readable) then
        var v := w.request.value;
        var unread := if AnsweredId(w.status) == v.id then w.past.unread + {v.id} else w.past.unread;
        w.(hand := Hand(Some(v), false), past := w.past.(woken := w.past.woken + {v.id}, unread := unread),
        status := FileAfter(w.status, Status(v.id, Preparing, v.mode), how))
      else w
    case BrokerCalls =>
      if w.hand.running.Some? && !w.hand.called && Changes(w.hand.running.value)
      then w.(hand := w.hand.(called := true), past := w.past.(changes := w.past.changes + [w.hand.running.value.id]))
      else w
    case BrokerAnswers(results, how) =>
      if Finishes(w, e) then
        var answer := Handled(w.hand.running.value, results);
        w.(hand := IDLE, status := FileAfter(w.status, answer, how), past := Given(w.past, answer, w.hand.called, how))
      else w
    case BrokerDies =>
      if w.hand.running.Some?
      then w.(hand := IDLE, past := EndedUnanswered(w.past, w.hand.running.value.id, w.hand.called)) else w
  }

  /** A broker that is woken finds a wish and, as far as it can see, no answer to it. */
  predicate Wakes(w: World, readable: bool) { w.hand.running.None? && Runs(w.request, Seen(w.status, readable)) }

  /** The broker comes to its final answer. */
  predicate Finishes(w: World, e: Event) {
    e.BrokerAnswers? && w.hand.running.Some? && (w.hand.called || !Changes(w.hand.running.value))
  }

  function Run(es: seq<Event>): World { RunOn(Initial(), es) }

  function RunOn(w: World, es: seq<Event>): World {
    if es == [] then w else Step(RunOn(w, es[..|es| - 1]), es[|es| - 1])
  }

  // ----- What every step keeps -----

  /** A final answer to the wish got on file. */
  predicate Answered(w: World, id: string) { exists i :: 0 <= i < |w.past.answers| && w.past.answers[i].0 == id }

  /** What the files and the running broker hold are wishes as they were written. */
  ghost predicate FilesSound(w: World) {
    && (forall id :: id in w.wishes ==> w.wishes[id].id == id && id != "")
    && (w.request.Some? ==> w.request.value.id in w.wishes && w.wishes[w.request.value.id] == w.request.value)
    && (w.hand.running.Some?
        ==> w.hand.running.value.id in w.wishes && w.wishes[w.hand.running.value.id] == w.hand.running.value)
    && (w.status.Some? ==> w.status.value.id in w.wishes && w.status.value.mode == w.wishes[w.status.value.id].mode
                           && (w.status.value.state == Ready ==> w.wishes[w.status.value.id].op == AcquireOp)
                           && (w.status.value.state != Preparing
                               ==> (w.status.value.id, w.status.value.state) in w.past.answers))
  }

  /** A wish whose answer was never passed over unread is answered once; it is then neither running nor up for another
      run. */
  ghost predicate AnsweredOnce(w: World) {
    && (forall i, j :: 0 <= i < j < |w.past.answers| ==>
          w.past.answers[i].0 != w.past.answers[j].0 || w.past.answers[i].0 in w.past.unread)
    && (forall i :: 0 <= i < |w.past.answers| ==> Settled(w, w.past.answers[i].0))
  }

  ghost predicate Settled(w: World, id: string) {
    && id in w.wishes
    && (id !in w.past.unread ==>
          && (w.hand.running.Some? ==> w.hand.running.value.id != id && (w.request.Some? ==> w.request.value.id != id))
          && (w.request.Some? && w.request.value.id == id ==> AnsweredId(w.status) == id))
  }

  /** Every session waits for a wish of its own, and every answer it ends with is that wish's. */
  ghost predicate SessionsSound(w: World) {
    forall k :: k in w.gate.sessions ==> SessionSound(w, w.gate.sessions[k])
  }

  ghost predicate SessionSound(w: World, s: Session) {
    && s.id in w.wishes && w.wishes[s.id] == Wish(s.id, AcquireOp, s.mode)
    && (s.Over? && s.answer.Some? ==>
          && s.answer.value.id == s.id && s.answer.value.mode == s.mode
          && (s.id, s.answer.value.state) in w.past.answers)
  }

  /** The gate holds a mode only on the strength of a `ready` for a wish for that very mode. */
  ghost predicate GrantSound(w: World) {
    w.gate.mode != "" ==>
      && w.gate.grant in w.wishes && w.wishes[w.gate.grant] == Wish(w.gate.grant, AcquireOp, w.gate.mode)
      && (w.gate.grant, Ready) in w.past.answers
  }

  ghost predicate InHand(w: World) {
    && (w.hand.called ==> w.hand.running.Some? && w.hand.running.value.id in w.past.changes)
    && (w.hand.running.Some? ==> w.hand.running.value.id in w.past.woken)
    && (w.status.Some? ==> w.status.value.id in w.past.woken)
    && (forall id :: id in w.past.woken ==> id in w.wishes)
    && (forall id :: id in w.past.changes ==> id in w.wishes && Changes(w.wishes[id]))
  }

  /** A change was asked for by a run that got its answer on file, that is not over, or that ended without. */
  ghost predicate HistorySound(w: World) {
    && (forall id :: id in w.past.woken ==> StartedOn(w, id))
    && (forall id :: id in w.past.spared ==> id in w.past.woken)
    && (forall id :: id in w.past.struck ==> id in w.past.changes)
    && (forall id :: id in w.past.changes ==> id in w.past.woken && Accounted(w, id))
    && (forall id :: id in w.past.unread || id in w.past.stood ==> Answered(w, id))
  }

  /** On an answered wish a run was started, and its change was asked for. */
  ghost predicate AskedFor(w: World) {
    forall i :: 0 <= i < |w.past.answers| ==> Asked(w, w.past.answers[i].0)
  }

  predicate Asked(w: World, id: string) {
    id in w.past.woken && (id in w.wishes && Changes(w.wishes[id]) ==> id in w.past.changes)
  }

  ghost predicate CallsSound(w: World) { InHand(w) && HistorySound(w) && AskedFor(w) }

  /** What became of the runs that were started on a wish. */
  ghost predicate StartedOn(w: World, id: string) {
    || Answered(w, id) || id in w.past.spared || id in w.past.struck
    || (w.hand.running.Some? && w.hand.running.value.id == id)
  }

  ghost predicate Accounted(w: World, id: string) {
    Answered(w, id) || id in w.past.struck || (w.hand.called && w.hand.running.Some? && w.hand.running.value.id == id)
  }

  /** A final answer in the status file is the last one that got there. */
  ghost predicate StatusIsLast(w: World) {
    w.status.Some? && w.status.value.state != Preparing ==>
      w.past.answers != [] && w.past.answers[|w.past.answers| - 1] == (w.status.value.id, w.status.value.state)
  }

  ghost predicate OutcomesSound(w: World) { forall o :: o in w.past.outcomes ==> o.0 in w.wishes }

  ghost predicate Sound(w: World) {
    && FilesSound(w) && AnsweredOnce(w) && SessionsSound(w) && GrantSound(w) && CallsSound(w) && StatusIsLast(w)
    && OutcomesSound(w)
  }

  /** The run in hand ends without an answer on file: the broker dies, or its last write fails. */
  predicate EndsUnanswered(w: World, e: Event) {
    w.hand.running.Some? && (e.BrokerDies? || (Finishes(w, e) && !OnFile(e.how)))
  }

  /** The run in hand gets its answer on file. */
  predicate Gives(w: World, e: Event) { Finishes(w, e) && OnFile(e.how) }

  predicate AtTheGate(e: Event) {
    e.Start? || e.Look? || e.TimeOut? || e.RenewWish? || e.ReleaseWish? || e.GateRestarts?
  }

  /** What a step at the gate leaves to the broker, and the other way round. */
  lemma GateLeaves(w: World, e: Event)
    requires AtTheGate(e)
    ensures var t := Step(w, e); t.status == w.status && t.hand == w.hand && t.past == w.past
  {
  }

  lemma BrokerLeaves(w: World, e: Event)
    requires !AtTheGate(e)
    ensures var t := Step(w, e); t.request == w.request && t.wishes == w.wishes && t.gate == w.gate
  {
  }

  lemma StepKeepsFiles(w: World, e: Event)
    requires FilesSound(w)
    ensures FilesSound(Step(w, e))
  {
    if AtTheGate(e) {
      GateKeepsFiles(w, e);
    } else {
      BrokerKeepsFiles(w, e);
    }
  }

  lemma GateKeepsFiles(w: World, e: Event)
    requires FilesSound(w) && AtTheGate(e)
    ensures FilesSound(Step(w, e))
  {
    match e
    case Start(k, mode, id, how) => WritingKeepsFiles(w, Wish(id, AcquireOp, mode), how);
    case RenewWish(id, how) => WritingKeepsFiles(w, Wish(id, AcquireOp, w.gate.mode), how);
    case ReleaseWish(id, how) => WritingKeepsFiles(w, Wish(id, ReleaseOp, w.gate.mode), how);
    case _ =>
  }

  lemma WritingKeepsFiles(w: World, v: Wish, how: Writing)
    requires FilesSound(w)
    ensures Fresh(w, v.id) ==> FilesSound(WishWritten(w, v, how))
  {
  }

  lemma BrokerKeepsFiles(w: World, e: Event)
    requires FilesSound(w) && !AtTheGate(e)
    ensures FilesSound(Step(w, e))
  {
    if Gives(w, e) {
      HandledIsAnswered(w.hand.running.value, e.results);
      var t := Step(w, e);
      assert t.past.answers[|w.past.answers|] == (t.status.value.id, t.status.value.state);
    }
  }

  lemma StepKeepsAnsweredOnce(w: World, e: Event)
    requires FilesSound(w) && AnsweredOnce(w)
    ensures AnsweredOnce(Step(w, e))
  {
    var after := Step(w, e);
    forall i | 0 <= i < |after.past.answers|
      ensures Settled(after, after.past.answers[i].0)
    {
      if i < |w.past.answers| {
        AnswersGrow(w, e);
        SettledStays(w, e, i);
      } else {
        GivenIsSettled(w, e);
      }
    }
    AnswersDiffer(w, e);
  }

  lemma AnswersGrow(w: World, e: Event)
    ensures Step(w, e).past.answers == if Gives(w, e) then w.past.answers
            + [(w.hand.running.value.id, Handled(w.hand.running.value, e.results).state)]
                                  else w.past.answers
  {
  }

  lemma SettledStays(w: World, e: Event, i: nat)
    requires FilesSound(w) && AnsweredOnce(w) && i < |w.past.answers|
    ensures Settled(Step(w, e), w.past.answers[i].0)
  {
    assert Settled(w, w.past.answers[i].0);
    if AtTheGate(e) {
      GateLeaves(w, e);
    } else {
      BrokerLeaves(w, e);
      BrokerKeepsSettled(w, e, w.past.answers[i].0);
    }
  }

  lemma BrokerKeepsSettled(w: World, e: Event, id: string)
    requires !AtTheGate(e) && Settled(w, id)
    ensures Settled(Step(w, e), id)
  {
  }

  lemma GivenIsSettled(w: World, e: Event)
    requires FilesSound(w) && Gives(w, e)
    ensures Settled(Step(w, e), w.hand.running.value.id)
  {
    HandledIsAnswered(w.hand.running.value, e.results);
  }

  lemma AnswersDiffer(w: World, e: Event)
    requires AnsweredOnce(w)
    ensures var after := Step(w, e).past;
            forall i, j :: 0 <= i < j < |after.answers| ==>
              after.answers[i].0 != after.answers[j].0 || after.answers[i].0 in after.unread
  {
    AnswersGrow(w, e);
    if Gives(w, e) {
      assert forall i :: 0 <= i < |w.past.answers| ==> Settled(w, w.past.answers[i].0);
    }
  }

  /** Wishes and answers once given stay. */
  lemma HistoryGrows(w: World, e: Event)
    ensures forall id :: id in w.wishes ==> id in Step(w, e).wishes && Step(w, e).wishes[id] == w.wishes[id]
    ensures w.past.answers <= Step(w, e).past.answers
  {
  }

  lemma SessionStaysSound(w: World, after: World, s: Session)
    requires SessionSound(w, s) && w.past.answers <= after.past.answers
    requires forall id :: id in w.wishes ==> id in after.wishes && after.wishes[id] == w.wishes[id]
    ensures SessionSound(after, s)
  {
    assert forall a :: a in w.past.answers ==> a in after.past.answers;
  }

  lemma StepKeepsSessions(w: World, e: Event)
    requires FilesSound(w) && SessionsSound(w)
    ensures SessionsSound(Step(w, e))
  {
    var after := Step(w, e);
    HistoryGrows(w, e);
    forall k | k in after.gate.sessions
      ensures SessionSound(after, after.gate.sessions[k])
    {
      if k in w.gate.sessions && after.gate.sessions[k] == w.gate.sessions[k] {
        SessionStaysSound(w, after, w.gate.sessions[k]);
      } else {
        ChangedSessionIsSound(w, e, k);
      }
    }
  }

  lemma ChangedSessionIsSound(w: World, e: Event, k: nat)
    requires FilesSound(w) && SessionsSound(w)
    requires k in Step(w, e).gate.sessions
    requires k in w.gate.sessions ==> Step(w, e).gate.sessions[k] != w.gate.sessions[k]
    ensures SessionSound(Step(w, e), Step(w, e).gate.sessions[k])
  {
    if !AtTheGate(e) {
      BrokerLeaves(w, e);
    } else if e.GateRestarts? {
      assert SessionSound(w, w.gate.sessions[k]);
    } else {
      OnlyOneSessionChanges(w, e, k);
      if e.Look? {
        LookedIsSound(w, k);
      } else if k in w.gate.sessions {
        assert SessionSound(w, w.gate.sessions[k]);
      }
    }
  }

  lemma OnlyOneSessionChanges(w: World, e: Event, k: nat)
    requires k in Step(w, e).gate.sessions
    requires k in w.gate.sessions ==> Step(w, e).gate.sessions[k] != w.gate.sessions[k]
    requires !e.GateRestarts?
    ensures (e.Start? || e.Look? || e.TimeOut?) && e.session == k && (!e.Start? ==> k in w.gate.sessions)
  {
  }

  lemma LookedIsSound(w: World, k: nat)
    requires FilesSound(w) && SessionsSound(w) && k in w.gate.sessions
    ensures SessionSound(Step(w, Look(k)), Step(w, Look(k)).gate.sessions[k])
  {
    assert SessionSound(w, w.gate.sessions[k]);
  }

  lemma StepKeepsGrant(w: World, e: Event)
    requires FilesSound(w) && SessionsSound(w) && GrantSound(w)
    ensures GrantSound(Step(w, e))
  {
    if AtTheGate(e) {
      GateKeepsGrant(w, e);
    } else {
      BrokerLeaves(w, e);
      AnswersGrow(w, e);
    }
  }

  lemma GateKeepsGrant(w: World, e: Event)
    requires FilesSound(w) && SessionsSound(w) && GrantSound(w) && AtTheGate(e)
    ensures GrantSound(Step(w, e))
  {
    if e.Look? && e.session in w.gate.sessions {
      assert SessionSound(w, w.gate.sessions[e.session]);
    }
  }

  lemma AnsweredStays(w: World, e: Event, id: string)
    requires Answered(w, id)
    ensures Answered(Step(w, e), id)
  {
    var i :| 0 <= i < |w.past.answers| && w.past.answers[i].0 == id;
    assert Step(w, e).past.answers[i] == w.past.answers[i];
  }

  lemma StepKeepsInHand(w: World, e: Event)
    requires FilesSound(w) && InHand(w)
    ensures InHand(Step(w, e))
  {
    if AtTheGate(e) {
      GateLeaves(w, e);
      HistoryGrows(w, e);
    } else {
      BrokerKeepsInHand(w, e);
    }
  }

  lemma BrokerKeepsInHand(w: World, e: Event)
    requires FilesSound(w) && InHand(w) && !AtTheGate(e)
    ensures InHand(Step(w, e))
  {
    match e
    case BrokerWakes(readable, how) =>
    case BrokerCalls =>
    case BrokerAnswers(results, how) =>
    case BrokerDies =>
    case _ =>
  }

  lemma StepKeepsCalls(w: World, e: Event)
    requires FilesSound(w) && AnsweredOnce(w) && CallsSound(w)
    ensures CallsSound(Step(w, e))
  {
    StepKeepsInHand(w, e);
    if AtTheGate(e) {
      GateLeaves(w, e);
      HistoryGrows(w, e);
      SameHistory(w, Step(w, e));
    } else {
      BrokerKeepsHistory(w, e);
      BrokerKeepsAsked(w, e);
    }
  }

  lemma SameHistory(w: World, t: World)
    requires AnsweredOnce(w) && HistorySound(w) && AskedFor(w)
    requires t.hand == w.hand && t.past == w.past
    requires forall id :: id in w.wishes ==> id in t.wishes && t.wishes[id] == w.wishes[id]
    ensures HistorySound(t) && AskedFor(t)
  {
    forall id | id in t.past.woken
      ensures StartedOn(t, id)
    {
      assert StartedOn(w, id);
    }
    forall id | id in t.past.changes
      ensures id in t.past.woken && Accounted(t, id)
    {
      assert Accounted(w, id);
    }
    forall i | 0 <= i < |t.past.answers|
      ensures Asked(t, t.past.answers[i].0)
    {
      assert Asked(w, w.past.answers[i].0) && Settled(w, w.past.answers[i].0);
    }
  }

  lemma BrokerKeepsHistory(w: World, e: Event)
    requires FilesSound(w) && CallsSound(w) && !AtTheGate(e)
    ensures HistorySound(Step(w, e))
  {
    var after := Step(w, e);
    forall id | id in after.past.woken
      ensures StartedOn(after, id)
    {
      if id in w.past.woken {
        StartedOnStays(w, e, id);
      }
    }
    forall id | id in after.past.changes
      ensures id in after.past.woken && Accounted(after, id)
    {
      if id in w.past.changes {
        AccountedStays(w, e, id);
      }
    }
    forall id | id in after.past.unread || id in after.past.stood
      ensures Answered(after, id)
    {
      PassedOverIsAnswered(w, e, id);
    }
  }

  lemma PassedOverIsAnswered(w: World, e: Event, id: string)
    requires FilesSound(w) && HistorySound(w) && (id in Step(w, e).past.unread || id in Step(w, e).past.stood)
    ensures Answered(Step(w, e), id)
  {
    if id in w.past.unread || id in w.past.stood {
      AnsweredStays(w, e, id);
    } else if Gives(w, e) {
      assert Step(w, e).past.answers[|w.past.answers|].0 == id;
    } else {
      FinalIsAnswered(w);
      AnsweredStays(w, e, id);
    }
  }

  lemma BrokerKeepsAsked(w: World, e: Event)
    requires FilesSound(w) && InHand(w) && AskedFor(w) && !AtTheGate(e)
    ensures AskedFor(Step(w, e))
  {
    var after := Step(w, e);
    BrokerLeaves(w, e);
    AnswersGrow(w, e);
    forall i | 0 <= i < |after.past.answers|
      ensures Asked(after, after.past.answers[i].0)
    {
      if i < |w.past.answers| {
        assert Asked(w, w.past.answers[i].0);
      }
    }
  }

  lemma StartedOnStays(w: World, e: Event, id: string)
    requires StartedOn(w, id)
    ensures StartedOn(Step(w, e), id)
  {
    if Answered(w, id) {
      AnsweredStays(w, e, id);
    } else if Gives(w, e) && w.hand.running.value.id == id {
      assert Step(w, e).past.answers[|w.past.answers|].0 == id;
    }
  }

  lemma AccountedStays(w: World, e: Event, id: string)
    requires Accounted(w, id)
    requires w.hand.called ==> w.hand.running.Some?
    ensures Accounted(Step(w, e), id)
  {
    if Answered(w, id) {
      AnsweredStays(w, e, id);
    } else if Gives(w, e) && w.hand.called && w.hand.running.value.id == id {
      assert Step(w, e).past.answers[|w.past.answers|].0 == id;
    }
  }

  lemma StepKeepsStatusLast(w: World, e: Event)
    requires StatusIsLast(w)
    ensures StatusIsLast(Step(w, e))
  {
    if AtTheGate(e) {
      GateLeaves(w, e);
    }
  }

  lemma OutcomesStay(w: World, e: Event)
    ensures Step(w, e).past.outcomes
         == if Finishes(w, e)
             then w.past.outcomes + [(w.hand.running.value.id, Handled(w.hand.running.value, e.results).state)]
            else w.past.outcomes
  {
  }

  lemma StepKeepsOutcomes(w: World, e: Event)
    requires FilesSound(w) && OutcomesSound(w)
    ensures OutcomesSound(Step(w, e))
  {
    OutcomesStay(w, e);
    HistoryGrows(w, e);
  }

  lemma StepKeepsSound(w: World, e: Event)
    requires Sound(w)
    ensures Sound(Step(w, e))
  {
    StepKeepsFiles(w, e);
    StepKeepsAnsweredOnce(w, e);
    StepKeepsSessions(w, e);
    StepKeepsGrant(w, e);
    StepKeepsCalls(w, e);
    StepKeepsStatusLast(w, e);
    StepKeepsOutcomes(w, e);
  }

  lemma {:induction false} EveryRunIsSound(es: seq<Event>)
    ensures Sound(Run(es))
  {
    if es != [] {
      EveryRunIsSound(es[..|es| - 1]);
      StepKeepsSound(Run(es[..|es| - 1]), es[|es| - 1]);
    }
  }

  // ----- The properties -----

  /** A waiter never reads somebody else's answer: the id and the mode are its own wish's. */
  lemma AnswersBelongToTheirWaiter(es: seq<Event>, k: nat)
    requires k in Run(es).gate.sessions && Run(es).gate.sessions[k].Over? && Run(es).gate.sessions[k].answer.Some?
    ensures var s := Run(es).gate.sessions[k];
            && s.answer.value.id == s.id && s.answer.value.mode == s.mode
            && s.id in Run(es).wishes && Run(es).wishes[s.id] == Wish(s.id, AcquireOp, s.mode)
            && (s.id, s.answer.value.state) in Run(es).past.answers
  {
    EveryRunIsSound(es);
  }

  /** A held mode was granted: the broker answered `ready` to a wish of this pod for exactly that mode. */
  lemma ModeOnlyAfterReady(es: seq<Event>)
    requires Run(es).gate.mode != ""
    ensures exists id :: id in Run(es).wishes && Run(es).wishes[id] == Wish(id, AcquireOp, Run(es).gate.mode)
                         && (id, Ready) in Run(es).past.answers
  {
    EveryRunIsSound(es);
    assert Run(es).gate.grant in Run(es).wishes;
  }

  /** However often the path unit fires, a write fails or the broker dies, no wish gets two final answers on file, but
      one that a broker was started on over an answer it could not read. */
  lemma NoWishIsAnsweredTwice(es: seq<Event>, i: nat, j: nat)
    requires i < j < |Run(es).past.answers| && Run(es).past.answers[i].0 == Run(es).past.answers[j].0
    ensures Run(es).past.answers[i].0 in Run(es).past.unread
  {
    EveryRunIsSound(es);
  }

  /** And once its answer is on file, waking the broker again changes nothing until a new wish is written, as long as
      the status file can be read each time; the first time it cannot, the broker is started on the wish again. */
  lemma AnsweredWishIsLeftAlone(es: seq<Event>, readable: bool, how: Writing)
    requires Run(es).request.Some? && Answered(Run(es), Run(es).request.value.id)
    requires Run(es).request.value.id !in Run(es).past.unread
    ensures Step(Run(es), BrokerWakes(readable, how)) == Run(es) <==> readable
    ensures !readable ==> Step(Run(es), BrokerWakes(readable, how)).hand == Hand(Run(es).request, false)
  {
    EveryRunIsSound(es);
  }

  // ----- The steps are the two programs' -----

  /** The three steps of a broker, nothing coming between, are one run of it: the same status file, the same change. */
  lemma BrokerStepsAreARun(w: World, readable: bool, before: Writing, results: seq<Answer>, after: Writing)
    requires w.hand == IDLE
    ensures var t := Step(Step(Step(w, BrokerWakes(readable, before)), BrokerCalls), BrokerAnswers(results, after));
            if Runs(w.request, Seen(w.status, readable)) then
              && t.hand == IDLE && t.status == StatusAfterRun(w.status, w.request.value, results, before, after)
              && |t.past.changes| == |w.past.changes| + (if Calls(w.request.value, results) == [] then 0 else 1)
            else t == w
  {
    if Wakes(w, readable) {
      var a := Step(w, BrokerWakes(readable, before));
      assert a.hand == Hand(w.request, false);
      EveryWishAsksOnce(w.request.value, results);
    }
  }

  /** A turn of the keeper is the step its decision asks for: the same wish in the request file, the same mode. */
  lemma KeeperStepsAreTicks(w: World, g: Gate, id: string, how: Writing)
    requires Fresh(w, id) && g.mode == w.gate.mode && (Decide(g) == GiveBack ==> NobodyWaiting(w))
    ensures Decide(g) == RenewNow ==>
              var t := Step(w, RenewWish(id, how));
              && t.request == FileAfter(w.request, TickWish(g, id).value, how)
              && t.gate == w.gate && AfterTick(g).mode == g.mode
    ensures Decide(g) == GiveBack ==>
              var t := Step(w, ReleaseWish(id, how));
              && t.request == FileAfter(w.request, TickWish(g, id).value, how)
              && t.gate.mode == AfterTick(g).mode && t.gate.sessions == w.gate.sessions
  {
  }

  /** A session that starts and looks is one wait of the gate: it waits if its wish is on file, and at each look ends
      with what such a wait finds there, taking the mode on `ready`. */
  lemma SessionStepsAreAWait(w: World, k: nat, mode: string, id: string, how: Writing, status: Option<Status>)
    requires Fresh(w, id) && k !in w.gate.sessions
    ensures var a := Step(w, Start(k, mode, id, how));
            && a.request == FileAfter(w.request, Wish(id, AcquireOp, mode), how)
            && (k in a.gate.sessions <==> OnFile(how)) && (OnFile(how) ==> a.gate.sessions[k] == Waiting(id, mode))
            && (OnFile(how) ==>
                  var found := AnswerIn([View(0.0, status)], id, 0.0);
                  var b := Step(a.(status := status), Look(k));
                  if found.None? then b == a.(status := status)
                  else
                    && b.gate.sessions[k] == Over(id, mode, found.value.status)
                    && b.gate.mode == if found.value.status.value.state == Ready then mode else w.gate.mode)
  {
  }

  // ----- Facts about answers and runs -----

  /** A wish a broker is started on is unanswered, unless an answer to it is or was passed over unread. */
  lemma WakesOnUnanswered(w: World, readable: bool)
    requires FilesSound(w) && AnsweredOnce(w) && HistorySound(w) && Wakes(w, readable)
    ensures var id := w.request.value.id;
            Answered(w, id) <==> id in w.past.unread || AnsweredId(w.status) == id
  {
    if AnsweredId(w.status) == w.request.value.id {
      FinalIsAnswered(w);
    }
  }

  /** And so is one in hand. */
  lemma InHandIsUnanswered(w: World)
    requires AnsweredOnce(w) && HistorySound(w) && w.hand.running.Some?
    ensures Answered(w, w.hand.running.value.id) <==> w.hand.running.value.id in w.past.unread
  {
  }

  lemma FinalIsAnswered(w: World)
    requires FilesSound(w) && w.status.Some? && w.status.value.state != Preparing
    ensures Answered(w, w.status.value.id)
  {
    var s := w.status.value;
    var i :| 0 <= i < |w.past.answers| && w.past.answers[i] == (s.id, s.state);
    assert w.past.answers[i].0 == s.id;
  }

  /** An answer that gets on file answers the wish in hand and no other. */
  lemma GivenAnswers(w: World, e: Event, id: string)
    requires !Answered(w, id)
    ensures Answered(Step(w, e), id) <==> Gives(w, e) && w.hand.running.value.id == id
  {
    AnswersGrow(w, e);
    var t := Step(w, e);
    if Gives(w, e) {
      assert t.past.answers[|w.past.answers|].0 == w.hand.running.value.id;
    }
    assert forall i :: 0 <= i < |w.past.answers| ==> t.past.answers[i] == w.past.answers[i];
  }

  lemma OneMore(w: World, es: seq<Event>, e: Event)
    ensures RunOn(w, es + [e]) == Step(RunOn(w, es), e)
  {
    assert (es + [e])[..|es|] == es;
  }

  lemma RunOfTwo(w: World, a: Event, b: Event)
    ensures RunOn(w, [a, b]) == Step(Step(w, a), b)
  {
    OneMore(w, [], a);
    OneMore(w, [a], b);
    assert [] + [a] == [a] && [a] + [b] == [a, b];
  }

  lemma {:induction false} RunConcat(w: World, es: seq<Event>, more: seq<Event>)
    ensures RunOn(w, es + more) == RunOn(RunOn(w, es), more)
  {
    if more == [] {
      assert es + more == es;
    } else {
      var front, last := more[..|more| - 1], more[|more| - 1];
      RunConcat(w, es, front);
      OneMore(w, es + front, last);
      assert es + front + [last] == es + more;
    }
  }

  lemma RunOfFive(w: World, a: Event, b: Event, c: Event, d: Event, e: Event)
    ensures RunOn(w, [a, b, c, d, e]) == Step(Step(Step(Step(Step(w, a), b), c), d), e)
  {
    RunOfTwo(w, a, b);
    RunConcat(w, [a, b], [c, d]);
    RunOfTwo(RunOn(w, [a, b]), c, d);
    assert [a, b] + [c, d] == [a, b, c, d] && [a, b, c, d] + [e] == [a, b, c, d, e];
    OneMore(w, [a, b, c, d], e);
  }
}
