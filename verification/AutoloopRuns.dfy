/**
 Any number of autoloops on one repository host, each at its own place in a pass, with requests and answers
 lost or late and loops killed at any step.
 */
module AutoloopRuns {
  import opened Autoloop

  /** Inside `work_ticket`, or past it with the claim still to be given back. An idle loop has no phase. */
  datatype Phase = Working(ref: Ref) | Releasing(ref: Ref)

  datatype World = World(
    refs: set<Ref>,
    late: set<Ref>,           // DELETEs still under way whose sender has stopped waiting
    phases: map<nat, Phase>)  // by loop

  datatype Arrival = AtOnce | Late | Never

  datatype Event =
    | Try(loop: nat, repo: string, issue: nat, post: Reply)
    | Straggler(repo: string, issue: nat)        // a POST carried out after its sender gave up on it
    | Finish(loop: nat)                          // `work_ticket` returns or raises
    | Release(loop: nat, arrival: Arrival)
    | Deliver(ref: Ref)                          // a late DELETE is carried out
    | Kill(loop: nat)
    | Other(ref: Ref, there: bool)               // somebody pushes or deletes a ref that is no claim

  predicate IsClaim(r: Ref) { "refs/autoloop/claim" + "/" <= r.name }

  function Step(w: World, e: Event): World {
    match e
    case Try(l, repo, issue, post) =>
      var offer := Offer(Claim(repo, issue), post);
      if l in w.phases then w
      else if Grants(w.refs, offer) then w.(refs := w.refs + {offer.ref}, phases := w.phases[l := Working(offer.ref)])
      else w.(refs := AfterRefusal(w.refs, offer))
    case Straggler(repo, issue) => w.(refs := w.refs + {Claim(repo, issue)})
    case Finish(l) =>
      if l in w.phases then w.(phases := w.phases[l := Releasing(w.phases[l].ref)]) else w
    case Release(l, arrival) =>
      if l !in w.phases || w.phases[l].Working? then w
      else
        var r, idle := w.phases[l].ref, w.phases - {l};
        (match arrival
         case AtOnce => World(w.refs - {r}, w.late, idle)
         case Late => World(w.refs, w.late + {r}, idle)
         case Never => World(w.refs, w.late, idle))
    case Deliver(r) =>
      if r in w.late then w.(refs := w.refs - {r}, late := w.late - {r}) else w
    case Kill(l) => w.(phases := w.phases - {l})
    case Other(r, there) =>
      if IsClaim(r) then w else w.(refs := if there then w.refs + {r} else w.refs - {r})
  }

  function Run(w: World, events: seq<Event>): World
    decreases |events|
  {
    if events == [] then w else Run(Step(w, events[0]), events[1..])
  }

  predicate Holds(w: World, l: nat, r: Ref) { l in w.phases && w.phases[l].ref == r }

  /** Loop `l` is inside `work_ticket` for this issue. */
  predicate WorksOn(w: World, l: nat, repo: string, issue: nat) {
    l in w.phases && w.phases[l] == Working(Claim(repo, issue))
  }

  ghost predicate Exclusive(w: World) {
    && (forall l :: l in w.phases
                  ==> IsClaim(w.phases[l].ref) && w.phases[l].ref in w.refs && w.phases[l].ref !in w.late)
    && (forall l, m, r :: Holds(w, l, r) && Holds(w, m, r) ==> l == m)
    && w.late <= w.refs && (forall r :: r in w.late ==> IsClaim(r))
  }

  lemma StepKeepsExclusive(w: World, e: Event)
    requires Exclusive(w)
    ensures Exclusive(Step(w, e))
  {
    var after := Step(w, e);
    forall l, m, r | Holds(after, l, r) && Holds(after, m, r)
      ensures l == m
    {
      if Holds(w, l, r) && Holds(w, m, r) {
      } else {
        assert Holds(w, l, r) ==> r in w.refs;
        assert Holds(w, m, r) ==> r in w.refs;
      }
    }
    forall l | l in after.phases
      ensures IsClaim(after.phases[l].ref) && after.phases[l].ref in after.refs && after.phases[l].ref !in after.late
    {
      var r := after.phases[l].ref;
      assert Holds(after, l, r);
      if l in w.phases {
        assert Holds(w, l, r);
        if e.Release? && e.loop in w.phases {
          assert Holds(w, e.loop, w.phases[e.loop].ref);
        }
      }
    }
  }

  /** The lock, over every run: one loop at most works an issue, and while it does the issue's claim stands. */
  lemma {:induction false} EveryRunIsExclusive(w: World, events: seq<Event>)
    requires Exclusive(w)
    ensures Exclusive(Run(w, events))
    ensures forall l, m, repo, issue ::
      WorksOn(Run(w, events), l, repo, issue) && WorksOn(Run(w, events), m, repo, issue) ==> l == m
    ensures forall l, repo, issue :: WorksOn(Run(w, events), l, repo, issue)
              ==> Claim(repo, issue) in Run(w, events).refs
    decreases |events|
  {
    if events == [] {
      forall l, m, repo, issue | WorksOn(w, l, repo, issue) && WorksOn(w, m, repo, issue)
        ensures l == m
      {
        assert Holds(w, l, Claim(repo, issue)) && Holds(w, m, Claim(repo, issue));
      }
    } else {
      StepKeepsExclusive(w, events[0]);
      EveryRunIsExclusive(Step(w, events[0]), events[1..]);
    }
  }

  /** Nobody working is a state to start from, whatever refs stand. */
  lemma StartIsExclusive(refs: set<Ref>)
    ensures Exclusive(World(refs, {}, map[]))
  {
  }

  /** An idle loop whose answer comes gets the ticket exactly when the claim is not there. */
  lemma ClaimIsGrantedWhenFree(w: World, l: nat, repo: string, issue: nat)
    requires Exclusive(w) && l !in w.phases
    ensures WorksOn(Step(w, Try(l, repo, issue, Answered)), l, repo, issue) <==> Claim(repo, issue) !in w.refs
  {
  }

  /** Other people's refs come and go beside the claims: no claim changes, and no loop's place. */
  lemma OthersLeaveTheClaims(w: World, r: Ref, there: bool, c: Ref)
    ensures var after := Step(w, Other(r, there));
            && after.phases == w.phases && after.late == w.late
            && (c in after.refs <==> if c == r && !IsClaim(c) then there else c in w.refs)
  {
  }

  // ----- What fails closed -----

  /** A claim that stands with nobody to give it back. */
  ghost predicate Orphaned(w: World, r: Ref) {
    IsClaim(r) && r in w.refs && r !in w.late && forall l :: !Holds(w, l, r)
  }

  /** The four ways a claim is lost, and no other. */
  predicate Orphans(w: World, e: Event, r: Ref) {
    match e
    case Try(l, repo, issue, post) => l !in w.phases && r == Claim(repo, issue) && r !in w.refs && post == AnswerLost
    case Straggler(repo, issue) => r == Claim(repo, issue) && r !in w.refs
    case Release(l, arrival) => l in w.phases && w.phases[l] == Releasing(r) && arrival == Never
    case Kill(l) => Holds(w, l, r)
    case _ => false
  }

  lemma ExactlyTheseOrphan(w: World, e: Event, r: Ref)
    requires Exclusive(w)
    ensures Orphaned(Step(w, e), r) <==> Orphaned(w, r) || Orphans(w, e, r)
  {
    var after := Step(w, e);
    if Orphaned(w, r) {
      OrphanStaysOneStep(w, e, r);
    } else if Orphans(w, e, r) {
      LostClaimIsOrphaned(w, e, r);
    } else {
      NothingElseOrphans(w, e, r);
    }
  }

  lemma OrphanStaysOneStep(w: World, e: Event, r: Ref)
    requires Exclusive(w) && Orphaned(w, r)
    ensures Orphaned(Step(w, e), r)
  {
    forall l
      ensures !Holds(Step(w, e), l, r)
    {
      assert !Holds(w, l, r);
    }
    if e.Release? && e.loop in w.phases {
      assert !Holds(w, e.loop, r);
    }
  }

  lemma LostClaimIsOrphaned(w: World, e: Event, r: Ref)
    requires Exclusive(w) && Orphans(w, e, r)
    ensures Orphaned(Step(w, e), r)
  {
    if e.Kill? || e.Release? {
      assert Holds(w, e.loop, r);
    }
    forall l
      ensures !Holds(Step(w, e), l, r)
    {
      assert Holds(w, l, r) ==> r in w.refs;
    }
  }

  lemma NothingElseOrphans(w: World, e: Event, r: Ref)
    requires Exclusive(w) && !Orphaned(w, r) && !Orphans(w, e, r)
    ensures !Orphaned(Step(w, e), r)
  {
    var after := Step(w, e);
    if !IsClaim(r) || r !in after.refs || r in after.late {
    } else if r !in w.refs {
      assert e.Try? && Holds(after, e.loop, r);
    } else if r in w.late {
      assert false;
    } else {
      var l :| Holds(w, l, r);
      if e.Release? && e.loop == l {
        assert w.phases[l].Working?;
      }
      assert Holds(after, l, r);
    }
  }

  /** A lost claim shuts its ticket out for good: no later run of any loops works it. */
  lemma {:induction false} OrphanedTicketIsNeverWorked(w: World, events: seq<Event>, repo: string, issue: nat)
    requires Exclusive(w) && Orphaned(w, Claim(repo, issue))
    ensures Orphaned(Run(w, events), Claim(repo, issue))
    ensures forall l :: !WorksOn(Run(w, events), l, repo, issue)
    decreases |events|
  {
    if events == [] {
      forall l
        ensures !WorksOn(w, l, repo, issue)
      {
        assert !Holds(w, l, Claim(repo, issue));
      }
    } else {
      StepKeepsExclusive(w, events[0]);
      OrphanStaysOneStep(w, events[0], Claim(repo, issue));
      OrphanedTicketIsNeverWorked(Step(w, events[0]), events[1..], repo, issue);
    }
  }
}
