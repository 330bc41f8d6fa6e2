/**
 How often the broker asks the API for the change of one wish, and answers it. `broker_run` leaves an id alone once its
 answer is on file. A run that ends without getting it there, because the broker dies or its last write fails, leaves
 the wish to be run again; so does a status file that cannot be read when the broker is woken.
 */
module BrokerRepeats {
  import opened Options
  import opened LeaseExchange
  import opened GateProtocol

  /** When a broker is about to be started, runs on the wish before are exactly those that ended without an answer on
      file and those whose answer is passed over unread; its change was asked for exactly by those that ended so after
      asking, and by those that answered. A status file that says `preparing` for the wish means there was one; one
      that does not may have lost the write that would have said so. */
  lemma StartedBeforeMeansUnanswered(es: seq<Event>, readable: bool)
    requires Wakes(Run(es), readable)
    ensures var w := Run(es);
            var id := w.request.value.id;
            var passedOver := id in w.past.unread || AnsweredId(w.status) == id;
            && (passedOver ==> !readable || id in w.past.unread)
            && (id in w.past.woken <==> id in w.past.struck || id in w.past.spared || passedOver)
            && (id in w.past.changes <==> id in w.past.struck || (passedOver && Changes(w.request.value)))
            && (w.status == Some(Status(id, Preparing, w.request.value.mode)) ==> id in w.past.woken)
  {
    EveryRunIsSound(es);
    var w := Run(es);
    var id := w.request.value.id;
    WakesOnUnanswered(w, readable);
    assert id in w.past.woken ==> StartedOn(w, id);
    AnsweredWasAsked(w, id);
  }

  /** An answered wish was run on, its change asked for if it is one for a change; no other change is in the books. */
  lemma AnsweredWasAsked(w: World, id: string)
    requires Sound(w) && id in w.wishes
    ensures Answered(w, id) ==> id in w.past.woken && (Changes(w.wishes[id]) ==> id in w.past.changes)
    ensures id in w.past.changes ==> Changes(w.wishes[id]) && Accounted(w, id)
  {
    if Answered(w, id) {
      assert Asked(w, id);
    }
  }

  // ----- Runs in which something never happens -----

  predicate At(bad: (World, Event) -> bool, es: seq<Event>, i: nat)
    requires i < |es|
  {
    bad(Run(es[..i]), es[i])
  }

  ghost predicate Never(bad: (World, Event) -> bool, es: seq<Event>) { forall i :: 0 <= i < |es| ==> !At(bad, es, i) }

  lemma NeverFront(bad: (World, Event) -> bool, es: seq<Event>)
    requires es != []
    ensures Never(bad, es) <==> Never(bad, es[..|es| - 1]) && !bad(Run(es[..|es| - 1]), es[|es| - 1])
  {
    var front := es[..|es| - 1];
    assert At(bad, es, |es| - 1) == bad(Run(front), es[|es| - 1]);
    forall i | 0 <= i < |front| ensures At(bad, front, i) == At(bad, es, i) {
      assert front[..i] == es[..i];
    }
  }

  predicate NoRepeat(ids: seq<string>) { forall i, j :: 0 <= i < j < |ids| ==> ids[i] != ids[j] }

  lemma OneMoreId(ids: seq<string>, id: string)
    ensures NoRepeat(ids + [id]) <==> NoRepeat(ids) && id !in ids
  {
    var more := ids + [id];
    assert forall i :: 0 <= i < |ids| ==> more[i] == ids[i];
    if NoRepeat(more) {
      assert forall i, j :: 0 <= i < j < |ids| ==> more[i] != more[j];
      assert forall i :: 0 <= i < |ids| ==> more[i] != more[|ids|];
    }
  }

  // ----- One change per wish -----

  /** The broker is about to ask for a change that was asked for by a run which ended without an answer on file, or by
      one whose answer was passed over unread. */
  predicate Repeats(w: World, e: Event) {
    e.BrokerCalls? && w.hand.running.Some? && !w.hand.called && Changes(w.hand.running.value)
    && (w.hand.running.value.id in w.past.struck || w.hand.running.value.id in w.past.unread)
  }

  lemma StepRepeatsExactly(w: World, e: Event)
    requires Sound(w)
    ensures NoRepeat(Step(w, e).past.changes) <==> NoRepeat(w.past.changes) && !Repeats(w, e)
  {
    if e.BrokerCalls? && Step(w, e) != w {
      var id := w.hand.running.value.id;
      OneMoreId(w.past.changes, id);
      InHandIsUnanswered(w);
      AnsweredWasAsked(w, id);
    }
  }

  /** In every run the API is asked for the change of each wish at most once if and only if no broker asks on a wish
      that a run asked for before and ended on without an answer on file, or whose answer was passed over unread. */
  lemma {:induction false} OneChangePerWish(es: seq<Event>)
    ensures NoRepeat(Run(es).past.changes) <==> Never(Repeats, es)
  {
    if es != [] {
      var front, last := es[..|es| - 1], es[|es| - 1];
      OneChangePerWish(front);
      NeverFront(Repeats, es);
      EveryRunIsSound(front);
      StepRepeatsExactly(Run(front), last);
    }
  }

  // ----- One answer per wish -----

  function Ids(answers: seq<(string, State)>): (ids: seq<string>)
    ensures |ids| == |answers| && forall i :: 0 <= i < |ids| ==> ids[i] == answers[i].0
  {
    seq(|answers|, i requires 0 <= i < |answers| => answers[i].0)
  }

  /** A run on a wish whose answer was passed over unread gets its own on file. */
  predicate AnswersAgain(w: World, e: Event) { Gives(w, e) && w.hand.running.value.id in w.past.unread }

  lemma StepAnswersAgainExactly(w: World, e: Event)
    requires Sound(w)
    ensures NoRepeat(Ids(Step(w, e).past.answers)) <==> NoRepeat(Ids(w.past.answers)) && !AnswersAgain(w, e)
  {
    AnswersGrow(w, e);
    if Gives(w, e) {
      var id := w.hand.running.value.id;
      InHandIsUnanswered(w);
      OneMoreId(Ids(w.past.answers), id);
      assert Ids(Step(w, e).past.answers) == Ids(w.past.answers) + [id];
      AnsweredIds(w, id);
    }
  }

  lemma AnsweredIds(w: World, id: string)
    ensures Answered(w, id) <==> id in Ids(w.past.answers)
  {
    if Answered(w, id) {
      var i :| 0 <= i < |w.past.answers| && w.past.answers[i].0 == id;
      assert Ids(w.past.answers)[i] == id;
    }
  }

  /** In every run each wish gets at most one final answer on file if and only if no run that was started over an
      unread answer gets its own there. */
  lemma {:induction false} OneAnswerPerWish(es: seq<Event>)
    ensures NoRepeat(Ids(Run(es).past.answers)) <==> Never(AnswersAgain, es)
  {
    if es != [] {
      var front, last := es[..|es| - 1], es[|es| - 1];
      OneAnswerPerWish(front);
      NeverFront(AnswersAgain, es);
      EveryRunIsSound(front);
      StepAnswersAgainExactly(Run(front), last);
    }
  }

  // ----- And it happens -----

  /** An answer that cannot be read when the broker is woken is given again, its change asked for again. */
  lemma UnreadAnswerIsGivenAgain(w: World, before: Writing, results: seq<Answer>, after: Writing)
    requires Sound(w) && w.hand.running.None? && w.request.Some? && AnsweredId(w.status) == w.request.value.id
    requires Changes(w.request.value) && OnFile(after)
    ensures var id := w.request.value.id;
            var t := Step(Step(Step(w, BrokerWakes(false, before)), BrokerCalls), BrokerAnswers(results, after));
            && id in w.past.changes && t.past.changes == w.past.changes + [id]
            && id in Ids(w.past.answers) && Ids(t.past.answers) == Ids(w.past.answers) + [id]
  {
    StartedOverAnswer(w, before);
    AnsweredAfter(Step(Step(w, BrokerWakes(false, before)), BrokerCalls), w.request.value, results, after);
    FinalIsAnswered(w);
    AnsweredWasAsked(w, w.request.value.id);
    AnsweredIds(w, w.request.value.id);
  }

  lemma StartedOverAnswer(w: World, before: Writing)
    requires w.hand.running.None? && w.request.Some? && w.request.value.id != "" && Changes(w.request.value)
    ensures var b := Step(Step(w, BrokerWakes(false, before)), BrokerCalls);
            && b.hand == Hand(w.request, true) && b.past.answers == w.past.answers
            && b.past.changes == w.past.changes + [w.request.value.id]
  {
  }

  lemma AnsweredAfter(b: World, v: Wish, results: seq<Answer>, how: Writing)
    requires b.hand == Hand(Some(v), true) && OnFile(how)
    ensures var t := Step(b, BrokerAnswers(results, how));
            t.past.changes == b.past.changes && Ids(t.past.answers) == Ids(b.past.answers) + [v.id]
  {
    AnswersGrow(b, BrokerAnswers(results, how));
  }

  /** And any wish that asks for a change can be struck so, by a death or by a last write that fails: a second take, or
      the second DELETE. */
  lemma UnansweredRunRepeatsItsChange(w: World, before: Writing, end: Event, again: Writing)
    requires w.hand.running.None? && Runs(w.request, w.status) && Changes(w.request.value)
    requires end.BrokerDies? || (end.BrokerAnswers? && !OnFile(end.how))
    ensures var id := w.request.value.id;
            RunOn(w, [BrokerWakes(true, before), BrokerCalls, end, BrokerWakes(true, again), BrokerCalls]).past.changes
            == w.past.changes + [id] + [id]
  {
    var b := Step(Step(w, BrokerWakes(true, before)), BrokerCalls);
    StartedAndAsked(w, before);
    EndsWithoutAnswer(b, w.request.value, end);
    StartedAndAsked(Step(b, end), again);
    RunOfFive(w, BrokerWakes(true, before), BrokerCalls, end, BrokerWakes(true, again), BrokerCalls);
  }

  lemma StartedAndAsked(w: World, how: Writing)
    requires w.hand.running.None? && Runs(w.request, w.status) && Changes(w.request.value)
    ensures var b := Step(Step(w, BrokerWakes(true, how)), BrokerCalls);
            && b.request == w.request && b.hand == Hand(w.request, true) && Runs(b.request, b.status)
            && b.past.changes == w.past.changes + [w.request.value.id]
  {
  }

  lemma EndsWithoutAnswer(b: World, v: Wish, end: Event)
    requires b.hand == Hand(Some(v), true) && b.request == Some(v) && Runs(b.request, b.status)
    requires end.BrokerDies? || (end.BrokerAnswers? && !OnFile(end.how))
    ensures var c := Step(b, end);
            c.hand == IDLE && c.request == b.request && Runs(c.request, c.status) && c.past.changes == b.past.changes
  {
  }
}
