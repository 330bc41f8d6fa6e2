/**
 The two single-slot files a PI WEB pod and its host exchange lease wishes over, and the host half:
 `broker_run` takes one wish, drives the lease API and writes one answer.
 What the API answers is up to the environment: a list of answers, as many as arrive before the deadline.
 */
module LeaseExchange {
  import opened Options

  datatype Op = AcquireOp | ReleaseOp | OtherOp

  /** `request.json`; an empty id is no wish. */
  datatype Wish = Wish(id: string, op: Op, mode: string)

  /** The `state` words the API and the broker use; any other text is `Other`. */
  datatype State = Preparing | Ready | Held | Released | Error | Gone | Other(text: string)

  /** `status.json`. */
  datatype Status = Status(id: string, state: State, mode: string)

  /** One HTTP answer: its code (0 for silence) and the `state` of its body, if any. */
  datatype Answer = Answer(code: int, state: Option<State>)

  datatype Call = Post(mode: string) | Get | Delete

  // ----- The API's answers -----

  function AcquireOutcome(a: Answer): State {
    if a.code == 200 then if a.state.Some? then a.state.value else Ready
    else if a.code == 202 then Preparing
    else if a.code == 409 then Held
    else Error
  }

  function PollOutcome(a: Answer): State {
    if a.code == 200 then if a.state.Some? then a.state.value else Other("") else Error
  }

  /** Polling on from `outcome`: ready, or the window gone again, or the deadline. */
  function PolledAcquire(outcome: State, polls: seq<Answer>): State
    decreases |polls|
  {
    if outcome == Ready then Ready
    else if polls == [] then Error
    else if PollOutcome(polls[0]) == Gone then Error
    else PolledAcquire(PollOutcome(polls[0]), polls[1..])
  }

  function AcquireResult(first: Answer, polls: seq<Answer>): State {
    var outcome := AcquireOutcome(first);
    if outcome == Held || outcome == Error then outcome else PolledAcquire(outcome, polls)
  }

  function PolledRelease(polls: seq<Answer>): State {
    if polls == [] then Error
    else if polls[0].code == 200 && polls[0].state == Some(Gone) then Released
    else PolledRelease(polls[1..])
  }

  function ReleaseResult(first: Answer, polls: seq<Answer>): State {
    if first.code == 409 then Held else PolledRelease(polls)
  }

  /** A poll that says ready, none before it having said the window is gone. */
  ghost predicate ReadyAt(polls: seq<Answer>, k: nat) {
    && k < |polls| && polls[k] == Answer(200, Some(State.Ready))
    && forall j :: 0 <= j < k ==> polls[j] != Answer(200, Some(Gone))
  }

  lemma {:induction false} PolledReadyMeansReady(outcome: State, polls: seq<Answer>)
    ensures PolledAcquire(outcome, polls) == Ready <==> outcome == Ready || exists k: nat :: ReadyAt(polls, k)
    ensures PolledAcquire(outcome, polls) == Ready || PolledAcquire(outcome, polls) == Error
    decreases |polls|
  {
    if outcome != Ready && polls != [] {
      var next := PollOutcome(polls[0]);
      PolledReadyMeansReady(next, polls[1..]);
      if next != Gone && PolledAcquire(next, polls[1..]) == Ready {
        if next == Ready {
          assert ReadyAt(polls, 0);
        } else {
          var k: nat :| ReadyAt(polls[1..], k);
          assert forall j :: 1 <= j < k + 1 ==> polls[j] == polls[1..][j - 1];
          assert ReadyAt(polls, k + 1);
        }
      }
      forall k: nat | ReadyAt(polls, k)
        ensures next == Ready || (next != Gone && exists i: nat :: ReadyAt(polls[1..], i))
      {
        if k > 0 {
          assert forall j :: 0 <= j < k - 1 ==> polls[1..][j] == polls[j + 1];
          assert ReadyAt(polls[1..], k - 1);
        }
      }
    }
  }

  /** The take was neither granted nor refused: the box is still switching. */
  predicate Switching(first: Answer) {
    || first.code == 202
    || (first.code == 200 && first.state.Some? && first.state.value !in [State.Ready, Held, Error])
  }

  /** A wish for a mode is answered `ready` exactly when the API said so with 200, to the take itself, with or without
      naming the state, or to a later poll of a box still switching, with no word in between that the window is gone.
      It is `held` exactly when the take was answered 409 or 200 `held`, and an error in every other case. */
  lemma ReadyMeansTheWindowStands(first: Answer, polls: seq<Answer>)
    ensures AcquireResult(first, polls) == Ready <==>
            || (first.code == 200 && first.state in [None, Some(State.Ready)])
            || (Switching(first) && exists k: nat :: ReadyAt(polls, k))
    ensures AcquireResult(first, polls) == Held <==> first.code == 409 || first == Answer(200, Some(Held))
    ensures AcquireResult(first, polls) == Error <==>
            || first.code !in [200, 202, 409] || first == Answer(200, Some(Error))
            || (Switching(first) && forall k: nat :: !ReadyAt(polls, k))
  {
    PolledReadyMeansReady(AcquireOutcome(first), polls);
  }

  lemma {:induction false} ReleasedMeansGone(first: Answer, polls: seq<Answer>)
    ensures ReleaseResult(first, polls) == Released <==>
            first.code != 409 && Answer(200, Some(Gone)) in polls
    ensures ReleaseResult(first, polls) == Held <==> first.code == 409
    ensures ReleaseResult(first, polls) == Error <==> first.code != 409 && Answer(200, Some(Gone)) !in polls
    decreases |polls|
  {
    if polls != [] && first.code != 409 {
      ReleasedMeansGone(first, polls[1..]);
    }
  }

  // ----- One run of the broker -----

  function FirstAnswer(answers: seq<Answer>): Answer { if answers == [] then Answer(0, None) else answers[0] }

  function LaterAnswers(answers: seq<Answer>): seq<Answer> { if answers == [] then [] else answers[1..] }

  /** What a wish comes to. */
  function Handled(w: Wish, answers: seq<Answer>): Status {
    var first, polls := FirstAnswer(answers), LaterAnswers(answers);
    Status(w.id,
           if w.op == ReleaseOp then ReleaseResult(first, polls)
           else if w.op == AcquireOp && w.mode != "" then AcquireResult(first, polls)
           else Error,
           w.mode)
  }

  /** The id of a finished answer. */
  function AnsweredId(s: Option<Status>): string {
    if s.Some? && s.value.state != Preparing then s.value.id else ""
  }

  /** What a look at the status file finds; one that cannot be read reads as none. */
  function Seen(status: Option<Status>, readable: bool): Option<Status> { if readable then status else None }

  predicate Runs(request: Option<Wish>, status: Option<Status>) {
    request.Some? && request.value.id != "" && AnsweredId(status) != request.value.id
  }

  // ----- The calls -----

  /** How many polls are made on from `outcome`. */
  function AcquirePolls(outcome: State, polls: seq<Answer>): nat
    decreases |polls|
  {
    if outcome == Ready || polls == [] then 0
    else if PollOutcome(polls[0]) == Gone then 1
    else 1 + AcquirePolls(PollOutcome(polls[0]), polls[1..])
  }

  function ReleasePolls(polls: seq<Answer>): nat {
    if polls == [] then 0
    else if polls[0].code == 200 && polls[0].state == Some(Gone) then 1
    else 1 + ReleasePolls(polls[1..])
  }

  function Gets(n: nat): (calls: seq<Call>)
    ensures |calls| == n
  {
    seq(n, _ => Get)
  }

  function AcquireCalls(mode: string, first: Answer, polls: seq<Answer>): seq<Call> {
    var outcome := AcquireOutcome(first);
    [Post(mode)] + Gets(if outcome == Held || outcome == Error then 0 else AcquirePolls(outcome, polls))
  }

  function ReleaseCalls(first: Answer, polls: seq<Answer>): seq<Call> {
    [Delete] + Gets(if first.code == 409 then 0 else ReleasePolls(polls))
  }

  /** The calls a wish makes, in order. */
  function Calls(w: Wish, answers: seq<Answer>): seq<Call> {
    var first, polls := FirstAnswer(answers), LaterAnswers(answers);
    if w.op == ReleaseOp then ReleaseCalls(first, polls)
    else if w.op == AcquireOp && w.mode != "" then AcquireCalls(w.mode, first, polls)
    else []
  }

  /** A wish that asks the API for a change. */
  predicate Changes(w: Wish) { w.op == ReleaseOp || (w.op == AcquireOp && w.mode != "") }

  /** One call that asks for the change, then only questions. */
  predicate OneChange(w: Wish, calls: seq<Call>) {
    var gets := forall i :: 1 <= i < |calls| ==> calls[i] == Get;
    if Changes(w) then calls != [] && calls[0] == (if w.op == ReleaseOp then Delete else Post(w.mode)) && gets
    else calls == []
  }

  lemma EveryWishAsksOnce(w: Wish, answers: seq<Answer>)
    ensures OneChange(w, Calls(w, answers))
  {
  }

  class Broker {
    var request: Option<Wish>
    var status: Option<Status>
    var calls: seq<Call>

    constructor (request: Option<Wish>, status: Option<Status>)
      ensures this.request == request && this.status == status && calls == []
    {
      this.request, this.status, calls := request, status, [];
    }

    method AcquireWindow(w: Wish, answers: seq<Answer>) returns (state: State)
      modifies this`calls
      ensures state == AcquireResult(FirstAnswer(answers), LaterAnswers(answers))
      ensures calls == old(calls) + AcquireCalls(w.mode, FirstAnswer(answers), LaterAnswers(answers))
    {
      calls := calls + [Post(w.mode)];
      assert calls == old(calls) + ([Post(w.mode)] + Gets(0));
      var outcome := AcquireOutcome(FirstAnswer(answers));
      if outcome == Held || outcome == Error {
        return outcome;
      }
      var polls := LaterAnswers(answers);
      ghost var whole, made, count: nat := PolledAcquire(outcome, polls), AcquirePolls(outcome, polls), 0;
      while outcome != Ready && polls != []
        invariant PolledAcquire(outcome, polls) == whole && count + AcquirePolls(outcome, polls) == made
        invariant calls == old(calls) + ([Post(w.mode)] + Gets(count))
        decreases |polls|
      {
        OneMoreGet(old(calls), Post(w.mode), count);
        calls := calls + [Get];
        count := count + 1;
        outcome := PollOutcome(polls[0]);
        polls := polls[1..];
        if outcome == Gone {
          return Error;
        }
      }
      state := if outcome == Ready then Ready else Error;
    }

    /** One DELETE, however long the box takes; everything after it only asks. */
    method ReleaseWindow(answers: seq<Answer>) returns (state: State)
      modifies this`calls
      ensures state == ReleaseResult(FirstAnswer(answers), LaterAnswers(answers))
      ensures calls == old(calls) + ReleaseCalls(FirstAnswer(answers), LaterAnswers(answers))
    {
      calls := calls + [Delete];
      assert calls == old(calls) + ([Delete] + Gets(0));
      if FirstAnswer(answers).code == 409 {
        return Held;
      }
      var polls := LaterAnswers(answers);
      ghost var whole, made, count: nat := PolledRelease(polls), ReleasePolls(polls), 0;
      while polls != []
        invariant PolledRelease(polls) == whole && count + ReleasePolls(polls) == made
        invariant calls == old(calls) + ([Delete] + Gets(count))
        decreases |polls|
      {
        OneMoreGet(old(calls), Delete, count);
        calls := calls + [Get];
        count := count + 1;
        if polls[0].code == 200 && polls[0].state == Some(Gone) {
          return Released;
        }
        polls := polls[1..];
      }
      state := Error;
    }

    /** One wish, one answer; an id whose answer is on file is left alone, unless the status file cannot be read. It is
        written before and after the calls; a write that fails is logged and no more. */
    method Run(readable: bool, answers: seq<Answer>, before: Writing, after: Writing)
      modifies this
      ensures request == old(request)
      ensures Runs(old(request), Seen(old(status), readable)) ==>
                && status == StatusAfterRun(old(status), request.value, answers, before, after)
                && calls == old(calls) + Calls(request.value, answers)
      ensures !Runs(old(request), Seen(old(status), readable)) ==> status == old(status) && calls == old(calls)
    {
      if request.None? || request.value.id == "" {
        return;
      }
      var w := request.value;
      var answered := AnsweredId(Seen(status, readable));
      if answered == w.id {
        return;
      }
      assert calls == calls + [];
      WriteStatus(Status(w.id, Preparing, w.mode), before);
      var state := Error;
      if w.op == ReleaseOp {
        state := ReleaseWindow(answers);
      } else if w.op == AcquireOp && w.mode != "" {
        state := AcquireWindow(w, answers);
      }
      WriteStatus(Status(w.id, state, w.mode), after);
    }

    method WriteStatus(s: Status, how: Writing)
      modifies this`status
      ensures status == FileAfter(old(status), s, how)
    {
      match how {
        case Written | ModeFailed => status := Some(s);
        case NotBegun =>
        case Torn => status := None;
      }
    }

    /** The path unit firing twice on an unanswered wish: the second run makes its calls again unless the first answer
        is on file and can be read; then it makes none and changes nothing. */
    method RunTwice(answers: seq<Answer>, before: Writing, after: Writing,
                    readable: bool, more: seq<Answer>, again: Writing, last: Writing)
      modifies this
      ensures request == old(request)
      ensures Runs(old(request), old(status)) && OnFile(after) && readable ==>
                && status == Some(Handled(request.value, answers))
                && calls == old(calls) + Calls(request.value, answers)
      ensures Runs(old(request), old(status)) && !(OnFile(after) && readable) ==>
                && status == StatusAfterRun(StatusAfterRun(old(status), request.value, answers, before, after),
                                            request.value, more, again, last)
                && calls == old(calls) + Calls(request.value, answers) + Calls(request.value, more)
      ensures !Runs(old(request), old(status)) && readable ==> status == old(status) && calls == old(calls)
    {
      if Runs(request, status) {
        HandledIsAnswered(request.value, answers);
        RunsAgainUnlessSeen(request.value, status, answers, before, after, readable);
      }
      Run(true, answers, before, after);
      Run(readable, more, again, last);
    }
  }

  /** The status file after a run on a wish. */
  function StatusAfterRun(s: Option<Status>, w: Wish, answers: seq<Answer>, before: Writing,
                          after: Writing): Option<Status> {
    FileAfter(FileAfter(s, Status(w.id, Preparing, w.mode), before), Handled(w, answers), after)
  }

  /** A run that leaves the file as it found it leaves an answer that was there. */
  predicate LeavesAnswer(w: Wish, s: Option<Status>, before: Writing, after: Writing) {
    before == NotBegun && after == NotBegun && AnsweredId(s) == w.id
  }

  /** After a run on a wish, whatever was on file before, the next look finds it answered exactly when the file can be
      read and the answer got there, or an earlier one was never touched. */
  lemma RunsAgainUnlessSeen(w: Wish, s: Option<Status>, answers: seq<Answer>, before: Writing, after: Writing,
                            readable: bool)
    requires w.id != ""
    ensures Runs(Some(w), Seen(StatusAfterRun(s, w, answers, before, after), readable))
            <==> !(readable && (OnFile(after) || LeavesAnswer(w, s, before, after)))
  {
    HandledIsAnswered(w, answers);
  }

  lemma OneMoreGet(before: seq<Call>, change: Call, n: nat)
    ensures before + ([change] + Gets(n)) + [Get] == before + ([change] + Gets(n + 1))
  {
  }

  /** A wish that was handled is answered: by its own id and mode, in a final state. */
  lemma HandledIsAnswered(w: Wish, answers: seq<Answer>)
    ensures var s := Handled(w, answers);
            && AnsweredId(Some(s)) == w.id && !Runs(Some(w), Some(s)) && s.mode == w.mode
            && (s.state == Ready ==> w.op == AcquireOp && w.mode != "")
            && s.state in [Ready, Held, Released, Error]
  {
    ReadyMeansTheWindowStands(FirstAnswer(answers), LaterAnswers(answers));
    ReleasedMeansGone(FirstAnswer(answers), LaterAnswers(answers));
  }
}
