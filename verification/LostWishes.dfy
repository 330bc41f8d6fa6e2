/** What a single slot costs: the wishes that are never answered, how they come about, and that all others can be. */
module LostWishes {
  import opened Options
  import opened LeaseExchange
  import opened ModelGate
  import opened GateProtocol

  /** A wish that is no longer on the volume, not in work and not answered. */
  ghost predicate Lost(w: World, id: string) {
    && id in w.wishes && !Answered(w, id)
    && (w.request.None? || w.request.value.id != id)
    && (w.hand.running.None? || w.hand.running.value.id != id)
  }

  /** The event replaces the wish on the volume, or wipes it with a write that tears. */
  predicate Replaces(w: World, e: Event) {
    match e
    case Start(k, _, id, how) => Fresh(w, id) && k !in w.gate.sessions && how != NotBegun
    case RenewWish(id, how) => Fresh(w, id) && w.gate.mode != "" && how != NotBegun
    case ReleaseWish(id, how) => Fresh(w, id) && w.gate.mode != "" && NobodyWaiting(w) && how != NotBegun
    case _ => false
  }

  /** The two ways a wish is lost: replaced or wiped while no broker has it in hand, or so while one had it in hand,
      and then that run ends without an answer on file. */
  ghost predicate Loses(w: World, e: Event, id: string) {
    if w.hand.running.Some? && w.hand.running.value.id == id then
      EndsUnanswered(w, e) && !(w.request.Some? && w.request.value.id == id) && !Answered(w, id)
    else
      Replaces(w, e) && w.request.Some? && w.request.value.id == id && !Answered(w, id)
  }

  lemma ExactlyTheseLose(w: World, e: Event, id: string)
    requires Sound(w)
    ensures Lost(Step(w, e), id) <==> Lost(w, id) || Loses(w, e, id)
  {
    if Answered(w, id) {
      AnsweredStays(w, e, id);
    } else {
      GivenAnswers(w, e, id);
      if AtTheGate(e) {
        GateLoses(w, e, id);
      } else {
        BrokerLoses(w, e, id);
      }
    }
  }

  lemma GateLoses(w: World, e: Event, id: string)
    requires FilesSound(w) && AtTheGate(e) && !Answered(w, id) && !Answered(Step(w, e), id)
    ensures Lost(Step(w, e), id) <==> Lost(w, id) || Loses(w, e, id)
  {
  }

  lemma BrokerLoses(w: World, e: Event, id: string)
    requires FilesSound(w) && !AtTheGate(e) && !Answered(w, id)
    requires Answered(Step(w, e), id) <==> Gives(w, e) && w.hand.running.value.id == id
    ensures Lost(Step(w, e), id) <==> Lost(w, id) || Loses(w, e, id)
  {
  }

  const ANSWERS := BrokerAnswers([], Written)
  const SERVED := [BrokerCalls, ANSWERS, BrokerWakes(true, Written), BrokerCalls, ANSWERS]

  /** In every run a written wish can still be answered, by the run in hand and one more whose writes succeed, exactly
      when it is not lost. */
  lemma AnswerableMeansNotLost(es: seq<Event>, id: string)
    requires id in Run(es).wishes
    ensures Answered(RunOn(Run(es), SERVED), id) <==> !Lost(Run(es), id)
  {
    EveryRunIsSound(es);
    var w := Run(es);
    RunOfFive(w, BrokerCalls, ANSWERS, BrokerWakes(true, Written), BrokerCalls, ANSWERS);
    var two := Step(Step(w, BrokerCalls), ANSWERS);
    StepKeepsSound(w, BrokerCalls);
    StepKeepsSound(Step(w, BrokerCalls), ANSWERS);
    FirstServed(w, id);
    SecondServed(two, id);
  }

  lemma FirstServed(w: World, id: string)
    requires Sound(w) && id in w.wishes
    ensures var two := Step(Step(w, BrokerCalls), ANSWERS);
            two.hand.running.None? && id in two.wishes && (Lost(two, id) <==> Lost(w, id))
  {
    ExactlyTheseLose(w, BrokerCalls, id);
    StepKeepsSound(w, BrokerCalls);
    ExactlyTheseLose(Step(w, BrokerCalls), ANSWERS, id);
  }

  lemma SecondServed(w: World, id: string)
    requires Sound(w) && w.hand.running.None? && id in w.wishes
    ensures Answered(Step(Step(Step(w, BrokerWakes(true, Written)), BrokerCalls), ANSWERS), id) <==> !Lost(w, id)
  {
    var a := Step(w, BrokerWakes(true, Written));
    var b := Step(a, BrokerCalls);
    if Answered(w, id) {
      AnsweredStays(w, BrokerWakes(true, Written), id);
      AnsweredStays(a, BrokerCalls, id);
      AnsweredStays(b, ANSWERS, id);
    } else {
      assert a.past.answers == w.past.answers && b.past.answers == w.past.answers && !Answered(b, id);
      GivenAnswers(b, ANSWERS, id);
      if !Lost(w, id) {
        NotYetAnswered(w, id);
      }
    }
  }

  lemma NotYetAnswered(w: World, id: string)
    requires Sound(w) && w.request.Some? && w.request.value.id == id && !Answered(w, id)
    ensures Runs(w.request, w.status)
  {
    if w.status.Some? && w.status.value.state != Preparing {
      FinalIsAnswered(w);
    }
  }

  /** The session of a lost wish: still waiting, or over with nothing. */
  ghost predicate WaitsInVain(w: World, id: string, k: nat) {
    && k in w.gate.sessions && w.gate.sessions[k].id == id
    && (w.gate.sessions[k].Over? ==> w.gate.sessions[k].answer.None?)
  }

  lemma StepKeepsWaitingInVain(w: World, e: Event, id: string, k: nat)
    requires FilesSound(w) && !Answered(w, id) && WaitsInVain(w, id, k)
    ensures WaitsInVain(Step(w, e), id, k)
  {
    if e.Look? && Settles(StatusFor(w.status, id)) {
      NotSettled(w, id);
    }
  }

  lemma NotSettled(w: World, id: string)
    requires FilesSound(w) && !Answered(w, id)
    ensures !Settles(StatusFor(w.status, id))
  {
    if w.status.Some? && w.status.value.state != Preparing {
      FinalIsAnswered(w);
    }
  }

  /** A wish once lost is never answered; a session that waits for it can only time out. */
  lemma {:induction false} LostStaysLost(es: seq<Event>, more: seq<Event>, id: string, k: nat)
    requires Lost(Run(es), id)
    ensures Lost(Run(es + more), id)
    ensures WaitsInVain(Run(es), id, k) ==> WaitsInVain(Run(es + more), id, k)
  {
    if more == [] {
      assert es + more == es;
    } else {
      var front, last := more[..|more| - 1], more[|more| - 1];
      LostStaysLost(es, front, id, k);
      OneMore(Initial(), es + front, last);
      assert es + front + [last] == es + more;
      EveryRunIsSound(es + front);
      ExactlyTheseLose(Run(es + front), last, id);
      if WaitsInVain(Run(es), id, k) {
        StepKeepsWaitingInVain(Run(es + front), last, id, k);
      }
    }
  }

  /** Whatever run it happens in: from the event that loses a wish on, the wish stays unanswered and its session,
      if a session wrote it, gets nothing. */
  lemma OverwrittenWishesAreNeverAnswered(es: seq<Event>, e: Event, more: seq<Event>, id: string, k: nat)
    requires Loses(Run(es), e, id)
    ensures var after := Run(es + [e] + more);
            && !Answered(after, id)
            && (k in Run(es).gate.sessions && Run(es).gate.sessions[k].id == id ==>
                  k in after.gate.sessions && (after.gate.sessions[k].Over? ==> after.gate.sessions[k].answer.None?))
  {
    EveryRunIsSound(es);
    var w := Run(es);
    OneMore(Initial(), es, e);
    ExactlyTheseLose(w, e, id);
    LostStaysLost(es + [e], more, id, k);
    assert !Answered(w, id);
    if k in w.gate.sessions && w.gate.sessions[k].id == id {
      StepKeepsWaitingInVain(w, e, id, k);
    }
  }

  /** And a wish does get overwritten: two sessions in a row, the broker asleep. */
  lemma TwoSessionsLoseAWish(id1: string, id2: string, mode1: string, mode2: string)
    requires id1 != "" && id2 != "" && id1 != id2
    ensures var w := Run([Start(0, mode1, id1, Written), Start(1, mode2, id2, Written)]);
            Lost(w, id1) && WaitsInVain(w, id1, 0)
  {
    var a, b := Start(0, mode1, id1, Written), Start(1, mode2, id2, Written);
    OneMore(Initial(), [], a);
    OneMore(Initial(), [a], b);
    assert [] + [a] == [a] && [a] + [b] == [a, b];
  }
}
