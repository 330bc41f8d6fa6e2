/**
 When the card is given back behind a gate's back, and when it is not given back at all. The keeper gives back only
 while nobody is inside, and a session waits inside its POST: so between the `ready` that set the held mode and now the
 API was asked for no give-back. A give-back whose wish could not be written is never asked for.
 */
module GiveBacks {
  import opened Options
  import opened LeaseExchange
  import opened ModelGate
  import opened GateProtocol

  predicate IsGiveBack(v: Option<Wish>) { v.Some? && v.value.op == ReleaseOp }

  /** A give-back is the wish on the volume, or in hand. */
  predicate OnItsWay(w: World) { IsGiveBack(w.hand.running) || IsGiveBack(w.request) }

  /** A session waits for the wish and its answer is there. */
  ghost predicate AnswerWaits(w: World, k: nat) {
    k in w.gate.sessions && w.gate.sessions[k].Waiting? && Answered(w, w.gate.sessions[k].id)
  }

  /** Since the answer to `id` got on file the API was asked for no give-back. */
  ghost predicate ClearSince(w: World, id: string) {
    && id in w.past.stood
    && forall i :: w.past.stood[id] <= i < |w.past.changes| ==> NoGiveBack(w, w.past.changes[i])
  }

  predicate NoGiveBack(w: World, id: string) { id in w.wishes && w.wishes[id].op != ReleaseOp }

  /** A give-back on its way means no mode is held and no session is about to take one. */
  ghost predicate GivesBackAlone(w: World) {
    && (OnItsWay(w) ==> w.gate.mode == "" && forall k :: !AnswerWaits(w, k))
    && (IsGiveBack(w.request) ==> NobodyWaiting(w))
  }

  /** Nothing was given back since the `ready` behind the held mode, nor since one that a session is about to read. */
  ghost predicate NothingGivenBack(w: World) {
    && (w.gate.mode != "" ==> ClearSince(w, w.gate.grant))
    && (forall k :: AnswerWaits(w, k) ==> ClearSince(w, w.gate.sessions[k].id))
  }

  lemma StepKeepsGivesBackAlone(w: World, e: Event)
    requires Sound(w) && GivesBackAlone(w)
    ensures GivesBackAlone(Step(w, e))
  {
    if AtTheGate(e) {
      GateGivesBackAlone(w, e);
    } else {
      BrokerGivesBackAlone(w, e);
    }
  }

  lemma GateGivesBackAlone(w: World, e: Event)
    requires Sound(w) && GivesBackAlone(w) && AtTheGate(e)
    ensures GivesBackAlone(Step(w, e))
  {
    GateLeaves(w, e);
    match e
    case Start(k, mode, id, how) => StartGivesBackAlone(w, k, mode, id, how);
    case Look(k) => LookGivesBackAlone(w, k);
    case TimeOut(k) => TimeOutGivesBackAlone(w, k);
    case RenewWish(id, how) =>
    case ReleaseWish(id, how) =>
    case GateRestarts => assert NobodyWaiting(Step(w, e));
  }

  lemma FreshIsUnanswered(w: World, id: string)
    requires AnsweredOnce(w) && Fresh(w, id)
    ensures !Answered(w, id)
  {
    forall i | 0 <= i < |w.past.answers|
      ensures w.past.answers[i].0 != id
    {
      assert Settled(w, w.past.answers[i].0);
    }
  }

  lemma StartGivesBackAlone(w: World, k: nat, mode: string, id: string, how: Writing)
    requires Sound(w) && GivesBackAlone(w)
    ensures GivesBackAlone(Step(w, Start(k, mode, id, how)))
  {
    var after := Step(w, Start(k, mode, id, how));
    if after != w {
      FreshIsUnanswered(w, id);
      assert after.past == w.past && after.hand == w.hand;
      assert forall j :: AnswerWaits(after, j) ==> AnswerWaits(w, j);
    }
  }

  lemma LookGivesBackAlone(w: World, k: nat)
    requires Sound(w) && GivesBackAlone(w)
    ensures GivesBackAlone(Step(w, Look(k)))
  {
    var after := Step(w, Look(k));
    if after != w {
      LookedWasAnswered(w, k);
      assert forall j :: AnswerWaits(after, j) ==> AnswerWaits(w, j);
    }
  }

  lemma LookedWasAnswered(w: World, k: nat)
    requires FilesSound(w) && Step(w, Look(k)) != w
    ensures AnswerWaits(w, k)
  {
    FinalIsAnswered(w);
  }

  lemma TimeOutGivesBackAlone(w: World, k: nat)
    requires Sound(w) && GivesBackAlone(w)
    ensures GivesBackAlone(Step(w, TimeOut(k)))
  {
    var after := Step(w, TimeOut(k));
    assert forall j :: AnswerWaits(after, j) ==> AnswerWaits(w, j);
  }

  lemma BrokerGivesBackAlone(w: World, e: Event)
    requires Sound(w) && GivesBackAlone(w) && !AtTheGate(e)
    ensures GivesBackAlone(Step(w, e))
  {
    var after := Step(w, e);
    BrokerLeaves(w, e);
    AnswersGrow(w, e);
    if Gives(w, e) {
      GivenWhileGivingBack(w, e);
    } else {
      SameAnswersWait(w, after);
      assert OnItsWay(after) ==> OnItsWay(w);
    }
  }

  lemma SameAnswersWait(w: World, after: World)
    requires after.past.answers == w.past.answers && after.gate == w.gate
    ensures forall k :: AnswerWaits(after, k) <==> AnswerWaits(w, k)
    ensures forall id :: Answered(after, id) <==> Answered(w, id)
  {
  }

  /** An answer that gets on file while a give-back is on the volume is no waiting session's: nobody waits. */
  lemma GivenWhileGivingBack(w: World, e: Event)
    requires Sound(w) && GivesBackAlone(w) && Gives(w, e)
    ensures GivesBackAlone(Step(w, e))
  {
    var after := Step(w, e);
    BrokerLeaves(w, e);
    assert after.hand == IDLE;
  }

  lemma StepKeepsNothingGivenBack(w: World, e: Event)
    requires Sound(w) && GivesBackAlone(w) && NothingGivenBack(w)
    ensures NothingGivenBack(Step(w, e))
  {
    var after := Step(w, e);
    if AtTheGate(e) {
      GateLeaves(w, e);
      HistoryGrows(w, e);
      GateGivesNothingBack(w, e);
    } else {
      BrokerLeaves(w, e);
      if after.gate.mode != "" {
        BrokerKeepsClear(w, e, w.gate.grant);
      }
      forall k | AnswerWaits(after, k)
        ensures ClearSince(after, after.gate.sessions[k].id)
      {
        WaitingKeepsClear(w, e, k);
      }
    }
  }

  lemma GateKeepsClear(w: World, after: World, id: string)
    requires ClearSince(w, id) && after.past == w.past
    requires forall v :: v in w.wishes ==> v in after.wishes && after.wishes[v] == w.wishes[v]
    ensures ClearSince(after, id)
  {
    forall i | after.past.stood[id] <= i < |after.past.changes|
      ensures NoGiveBack(after, after.past.changes[i])
    {
      assert NoGiveBack(w, w.past.changes[i]);
    }
  }

  lemma GateGivesNothingBack(w: World, e: Event)
    requires Sound(w) && NothingGivenBack(w) && AtTheGate(e)
    ensures NothingGivenBack(Step(w, e))
  {
    var after := Step(w, e);
    GateLeaves(w, e);
    HistoryGrows(w, e);
    if after.gate.mode != "" {
      GrantIsOldOrLooked(w, e);
      GateKeepsClear(w, after, after.gate.grant);
    }
    forall k | AnswerWaits(after, k)
      ensures ClearSince(after, after.gate.sessions[k].id)
    {
      WaitedBefore(w, e, k);
      GateKeepsClear(w, after, after.gate.sessions[k].id);
    }
  }

  lemma GrantIsOldOrLooked(w: World, e: Event)
    requires Sound(w) && NothingGivenBack(w) && AtTheGate(e) && Step(w, e).gate.mode != ""
    ensures ClearSince(w, Step(w, e).gate.grant)
  {
    if e.Look? && Step(w, e) != w && w.status.value.state == Ready {
      LookedWasAnswered(w, e.session);
    }
  }

  /** A session that waits for an answer on file waited for it before. */
  lemma WaitedBefore(w: World, e: Event, k: nat)
    requires Sound(w) && AtTheGate(e) && AnswerWaits(Step(w, e), k)
    ensures AnswerWaits(w, k) && Step(w, e).gate.sessions[k] == w.gate.sessions[k]
  {
    GateLeaves(w, e);
    if e.Start? && Fresh(w, e.id) {
      FreshIsUnanswered(w, e.id);
    }
  }

  /** A call for a give-back comes only when no mode is held and no answer waits. */
  lemma BrokerKeepsClear(w: World, e: Event, id: string)
    requires Sound(w) && !AtTheGate(e) && ClearSince(w, id)
    requires e.BrokerCalls? && Step(w, e) != w ==> !IsGiveBack(w.hand.running)
    ensures ClearSince(Step(w, e), id)
  {
    var after := Step(w, e);
    BrokerLeaves(w, e);
    forall i | after.past.stood[id] <= i < |after.past.changes|
      ensures NoGiveBack(after, after.past.changes[i])
    {
      if i < |w.past.changes| && w.past.stood[id] <= i {
        assert NoGiveBack(w, w.past.changes[i]);
      }
    }
  }

  lemma WaitingKeepsClear(w: World, e: Event, k: nat)
    requires Sound(w) && GivesBackAlone(w) && NothingGivenBack(w) && !AtTheGate(e) && AnswerWaits(Step(w, e), k)
    ensures ClearSince(Step(w, e), Step(w, e).gate.sessions[k].id)
  {
    var after, id := Step(w, e), Step(w, e).gate.sessions[k].id;
    BrokerLeaves(w, e);
    if Answered(w, id) {
      assert AnswerWaits(w, k);
      BrokerKeepsClear(w, e, id);
    } else {
      AnswersGrow(w, e);
      NewlyAnswered(w, e, id);
    }
  }

  lemma NewlyAnswered(w: World, e: Event, id: string)
    requires HistorySound(w) && !Answered(w, id) && Answered(Step(w, e), id)
    ensures ClearSince(Step(w, e), id)
  {
    GivenAnswers(w, e, id);
  }

  lemma {:induction false} EveryRunGivesBackAlone(es: seq<Event>)
    ensures GivesBackAlone(Run(es)) && NothingGivenBack(Run(es))
  {
    if es != [] {
      var front, last := es[..|es| - 1], es[|es| - 1];
      EveryRunGivesBackAlone(front);
      EveryRunIsSound(front);
      StepKeepsGivesBackAlone(Run(front), last);
      StepKeepsNothingGivenBack(Run(front), last);
    }
  }

  /** In every run, while a mode is held no give-back is on its way, and none was asked for since the `ready` that set
      the mode. */
  lemma HeldModeWasNotGivenBack(es: seq<Event>)
    requires Run(es).gate.mode != ""
    ensures var w := Run(es);
            && !OnItsWay(w) && ClearSince(w, w.gate.grant)
            && (w.gate.grant, Ready) in w.past.answers && w.gate.grant in w.wishes
            && w.wishes[w.gate.grant].mode == w.gate.mode
  {
    EveryRunIsSound(es);
    EveryRunGivesBackAlone(es);
  }

  // ----- The give-back that nobody asks for -----

  /** No mode, nobody waiting, no give-back on its way. */
  ghost predicate Silent(w: World) { w.gate.mode == "" && NobodyWaiting(w) && !OnItsWay(w) }

  lemma StepStaysSilent(w: World, e: Event)
    requires Sound(w) && Silent(w) && !e.Start?
    ensures Silent(Step(w, e)) && Step(w, e).wishes == w.wishes && w.past.changes <= Step(w, e).past.changes
    ensures forall i :: |w.past.changes| <= i < |Step(w, e).past.changes| ==> NoGiveBack(w, Step(w, e).past.changes[i])
  {
    if AtTheGate(e) {
      assert e.GateRestarts? || Step(w, e) == w;
    } else {
      BrokerLeaves(w, e);
    }
  }

  lemma {:induction false} RunStaysSilent(w: World, es: seq<Event>)
    requires Sound(w) && Silent(w) && forall e :: e in es ==> !e.Start?
    ensures var after := RunOn(w, es);
            && Sound(after) && Silent(after) && after.wishes == w.wishes && w.past.changes <= after.past.changes
            && forall i :: |w.past.changes| <= i < |after.past.changes| ==> NoGiveBack(w, after.past.changes[i])
  {
    if es != [] {
      var front, last := es[..|es| - 1], es[|es| - 1];
      RunStaysSilent(w, front);
      StepKeepsSound(RunOn(w, front), last);
      StepStaysSilent(RunOn(w, front), last);
    }
  }

  /** The keeper drops the mode before it writes the give-back, and does not try again: when that write fails, then
      until a new session comes the API is asked for no give-back, and only the box's timer ends the window. */
  lemma UnwrittenGiveBackIsNeverAsked(es: seq<Event>, id: string, how: Writing, more: seq<Event>)
    requires Run(es).gate.mode != "" && NobodyWaiting(Run(es)) && Fresh(Run(es), id) && !OnFile(how)
    requires forall e :: e in more ==> !e.Start?
    ensures var w := Run(es);
            var after := RunOn(Step(w, ReleaseWish(id, how)), more);
            && after.gate.mode == "" && after.wishes == w.wishes
            && forall i :: |w.past.changes| <= i < |after.past.changes| ==> NoGiveBack(w, after.past.changes[i])
  {
    EveryRunIsSound(es);
    EveryRunGivesBackAlone(es);
    StepKeepsSound(Run(es), ReleaseWish(id, how));
    RunStaysSilent(Step(Run(es), ReleaseWish(id, how)), more);
  }

  /** A gate that goes down while it holds a mode forgets it without a word: again the API is asked for no give-back
      until a new session comes. */
  lemma RestartedGateNeverAsks(es: seq<Event>, more: seq<Event>)
    requires Run(es).gate.mode != "" && forall e :: e in more ==> !e.Start?
    ensures var w := Run(es);
            var after := RunOn(Step(w, GateRestarts), more);
            && after.gate.mode == "" && after.wishes == w.wishes
            && forall i :: |w.past.changes| <= i < |after.past.changes| ==> NoGiveBack(w, after.past.changes[i])
  {
    EveryRunIsSound(es);
    EveryRunGivesBackAlone(es);
    StepKeepsSound(Run(es), GateRestarts);
    RunStaysSilent(Step(Run(es), GateRestarts), more);
  }
}
