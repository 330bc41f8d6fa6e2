/**
 The autoloop's lock: one git ref per ticket, created to claim it and deleted to give it back. `Remote` is the
 repository host as one pass of one loop uses it; `World` is any number of loops, lost replies and crashes.
 */
module Autoloop {
  import opened Decimals
  import opened Options
  import Slugs

  // ----- Names -----

  function ClaimRef(issue: nat): string { "refs/autoloop/claim" + "/" + Decimal(issue) }

  function BranchName(issue: nat, loweredTitle: string): string {
    "pi" + "/" + Decimal(issue) + "-" + Slugs.Slug(loweredTitle)
  }

  function BranchMarker(issue: nat): string { "heads/" + "pi" + "/" + Decimal(issue) + "-" }

  /** The full name of a pushed branch. */
  function BranchRef(issue: nat, loweredTitle: string): string { "refs/" + "heads/" + BranchName(issue, loweredTitle) }

  lemma DecimalsDiffer(i: nat, j: nat)
    ensures Decimal(i) == Decimal(j) <==> i == j
  {
    DecimalRoundTrip(i);
    DecimalRoundTrip(j);
  }

  /** Two tickets never share a claim. */
  lemma ClaimsDiffer(i: nat, j: nat)
    ensures ClaimRef(i) == ClaimRef(j) <==> i == j
  {
    DecimalsDiffer(i, j);
    var p := "refs/autoloop/claim" + "/";
    assert ClaimRef(i)[|p|..] == Decimal(i) && ClaimRef(j)[|p|..] == Decimal(j);
  }

  /** Two numbers, each closed by a hyphen, can only begin alike when they are the same. */
  lemma ClosedNumbers(a: string, b: string, tail: string)
    requires AllDigits(a) && AllDigits(b)
    ensures a + "-" <= b + "-" + tail <==> a == b
  {
    var x, y := a + "-", b + "-" + tail;
    assert x[|a|] == '-' && y[|b|] == '-';
    assert |a| < |b| ==> IsDigit(y[|a|]);
    assert |b| < |a| ==> IsDigit(x[|b|]);
    if x <= y {
      assert x[|a|] == y[|a|];
      assert |b| <= |a|;
      assert x[|b|] == y[|b|];
      assert x[..|a|] == a && y[..|b|] == b;
    }
    if a == b {
      assert y == x + tail;
    }
  }

  lemma PrefixUnder(p: string, a: string, b: string)
    ensures p + a <= p + b <==> a <= b
  {
    if a <= b {
      assert p + b == p + a + b[|a|..];
    } else {
      assert (p + b)[|p|..] == b && (p + a)[|p|..] == a;
    }
  }

  /** The marker of one issue finds the branch of another, under any title, exactly when they are the same issue. */
  lemma MarkerFindsItsOwn(i: nat, j: nat, loweredTitle: string)
    ensures BranchMarker(i) <= "heads/" + BranchName(j, loweredTitle) <==> i == j
  {
    var p := "heads/" + "pi" + "/";
    assert BranchMarker(i) == p + (Decimal(i) + "-");
    assert "heads/" + BranchName(j, loweredTitle) == p + (Decimal(j) + "-" + Slugs.Slug(loweredTitle));
    PrefixUnder(p, Decimal(i) + "-", Decimal(j) + "-" + Slugs.Slug(loweredTitle));
    ClosedNumbers(Decimal(i), Decimal(j), Slugs.Slug(loweredTitle));
    DecimalsDiffer(i, j);
  }

  // ----- The host's refs -----

  /** A ref of one of the repositories. */
  datatype Ref = Ref(repo: string, name: string)

  function Claim(repo: string, issue: nat): Ref { Ref(repo, ClaimRef(issue)) }

  /** `matching-refs` lists a ref that begins with the marker. */
  ghost predicate AlreadyWorked(refs: set<Ref>, repo: string, issue: nat) {
    exists r :: r in refs && Marks(r, repo, issue)
  }

  predicate Marks(r: Ref, repo: string, issue: nat) { r.repo == repo && "refs/" + BranchMarker(issue) <= r.name }

  lemma BranchMarks(r: Ref, repo: string, issue: nat, owner: string, j: nat, loweredTitle: string)
    requires r == Ref(owner, BranchRef(j, loweredTitle))
    ensures Marks(r, repo, issue) <==> owner == repo && issue == j
  {
    MarkerFindsItsOwn(issue, j, loweredTitle);
    PrefixUnder("refs/", BranchMarker(issue), "heads/" + BranchName(j, loweredTitle));
    assert BranchRef(j, loweredTitle) == "refs/" + ("heads/" + BranchName(j, loweredTitle));
  }

  /** Anything behind the marker will do, nothing included. */
  lemma MarkedByAnyTail(repo: string, issue: nat, tail: string)
    ensures Marks(Ref(repo, "refs/heads/pi/" + Decimal(issue) + "-" + tail), repo, issue)
  {
    var marker := "refs/" + BranchMarker(issue);
    assert marker == "refs/heads/pi/" + Decimal(issue) + "-";
    assert marker + tail == "refs/heads/pi/" + Decimal(issue) + "-" + tail;
  }

  lemma ClaimNeverMarks(r: Ref, repo: string, issue: nat, owner: string, j: nat)
    requires r == Claim(owner, j)
    ensures !Marks(r, repo, issue)
  {
    var marker := "refs/" + BranchMarker(issue);
    assert marker[5] == 'h';
    assert ClaimRef(j)[5] == 'a';
  }

  /** Pushing a ticket's branch marks that ticket and no other; taking or leaving a claim marks none. */
  lemma OnlyBranchesMark(refs: set<Ref>, repo: string, issue: nat, owner: string, j: nat, loweredTitle: string)
    ensures AlreadyWorked(refs + {Ref(owner, BranchRef(j, loweredTitle))}, repo, issue)
            <==> AlreadyWorked(refs, repo, issue) || (owner == repo && issue == j)
    ensures AlreadyWorked(refs + {Claim(owner, j)}, repo, issue) <==> AlreadyWorked(refs, repo, issue)
  {
    var branch, claim := Ref(owner, BranchRef(j, loweredTitle)), Claim(owner, j);
    BranchMarks(branch, repo, issue, owner, j, loweredTitle);
    ClaimNeverMarks(claim, repo, issue, owner, j);
    forall r | r in refs
      ensures r in refs + {branch} && r in refs + {claim}
    {
    }
    assert branch in refs + {branch};
  }

  // ----- One pass -----

  /** What became of a POST: answered, never arrived, or carried out with the answer lost. */
  datatype Reply = Answered | NeverArrived | AnswerLost

  /** An open ticket as one pass meets it; `worked` is what asking for its marker said. */
  datatype Ticket = Ticket(issue: nat, worked: bool, post: Reply)

  /** A repository as one pass meets it; `sha` is empty when the default branch could not be read. */
  datatype Repo = Repo(name: string, sha: string, tickets: seq<Ticket>)

  /** `[0-9a-f]{40}`. */
  predicate IsSha(sha: string) {
    |sha| == 40 && forall i :: 0 <= i < |sha| ==> '0' <= sha[i] <= '9' || 'a' <= sha[i] <= 'f'
  }

  /** Forty hexadecimal digits in lower case. */
  lemma ShaIsHexadecimal(sha: string)
    ensures IsSha(sha) <==> |sha| == 40 && forall i :: 0 <= i < |sha| ==> sha[i] in "0123456789abcdef"
  {
    forall i | 0 <= i < |sha|
      ensures ('0' <= sha[i] <= '9' || 'a' <= sha[i] <= 'f') <==> sha[i] in "0123456789abcdef"
    {
      HexadecimalDigit(sha[i]);
    }
  }

  lemma HexadecimalDigit(c: char)
    ensures ('0' <= c <= '9' || 'a' <= c <= 'f') <==> c in "0123456789abcdef"
  {
    var digits := "0123456789abcdef";
    if '0' <= c <= '9' {
      assert digits[(c - '0') as int] == c;
    } else if 'a' <= c <= 'f' {
      assert digits[10 + (c - 'a') as int] == c;
    }
  }

  /** The claims a pass would try for, in its order. */
  datatype Offer = Offer(ref: Ref, post: Reply)

  function TicketOffers(repo: string, tickets: seq<Ticket>): seq<Offer> {
    if tickets == [] then []
    else (if tickets[0].worked then [] else [Offer(Claim(repo, tickets[0].issue), tickets[0].post)])
         + TicketOffers(repo, tickets[1..])
  }

  function Offers(repos: seq<Repo>): seq<Offer> {
    if repos == [] then []
    else RepoOffers(repos[0]) + Offers(repos[1..])
  }

  /** Without a commit to point it at, no claim of the repository is tried. */
  function RepoOffers(repo: Repo): seq<Offer> {
    if IsSha(repo.sha) then TicketOffers(repo.name, repo.tickets) else []
  }

  lemma {:induction false} TicketOffersAreUnworked(repo: string, tickets: seq<Ticket>, o: Offer)
    ensures o in TicketOffers(repo, tickets) <==>
            exists t :: t in tickets && !t.worked && o == Offer(Claim(repo, t.issue), t.post)
  {
    if tickets != [] {
      var first, rest := tickets[0], tickets[1..];
      TicketOffersAreUnworked(repo, rest, o);
      assert tickets == [first] + rest;
      assert forall t :: t in tickets <==> t == first || t in rest;
    }
  }

  /** A pass tries for exactly the tickets not yet worked, in the repositories it has a commit for. */
  lemma {:induction false} OffersAreTheOpenTickets(repos: seq<Repo>, o: Offer)
    ensures o in Offers(repos) <==>
            exists r, t ::
               r in repos && IsSha(r.sha) && t in r.tickets && !t.worked && o == Offer(Claim(r.name, t.issue), t.post)
  {
    if repos != [] {
      var first, rest := repos[0], repos[1..];
      OffersAreTheOpenTickets(rest, o);
      TicketOffersAreUnworked(first.name, first.tickets, o);
      assert repos == [first] + rest;
      assert forall r :: r in repos <==> r == first || r in rest;
      assert o in Offers(repos) <==> o in RepoOffers(first) || o in Offers(rest);
    }
  }

  predicate Grants(refs: set<Ref>, o: Offer) { o.post == Answered && o.ref !in refs }

  /** A claim whose answer was lost is left standing, held by nobody. */
  function AfterRefusal(refs: set<Ref>, o: Offer): set<Ref> { if o.post == AnswerLost then refs + {o.ref} else refs }

  /** The refs a pass leaves and the ticket it works, if any. */
  function Pass(refs: set<Ref>, offers: seq<Offer>, released: Reply): (set<Ref>, Option<Ref>)
    decreases |offers|
  {
    if offers == [] then (refs, None)
    else if Grants(refs, offers[0]) then
      (if released == NeverArrived then refs + {offers[0].ref} else refs, Some(offers[0].ref))
    else Pass(AfterRefusal(refs, offers[0]), offers[1..], released)
  }

  lemma {:induction false} PassConcat(refs: set<Ref>, a: seq<Offer>, b: seq<Offer>, released: Reply)
    ensures Pass(refs, a + b, released)
         == if Pass(refs, a, released).1.Some? then Pass(refs, a, released)
             else Pass(Pass(refs, a, released).0, b, released)
    decreases |a|
  {
    if a == [] {
      assert a + b == b;
    } else {
      assert (a + b)[1..] == a[1..] + b;
      if !Grants(refs, a[0]) {
        PassConcat(AfterRefusal(refs, a[0]), a[1..], b, released);
      }
    }
  }

  /** The claims the first `k` offers leave behind when none of them is granted: those whose answer was lost. */
  function LeftBehind(offers: seq<Offer>, k: nat): set<Ref>
    requires k <= |offers|
  {
    set i | 0 <= i < k && offers[i].post == AnswerLost :: offers[i].ref
  }

  /** The `k`-th claim, were it reached, would be granted. */
  predicate Open(refs: set<Ref>, offers: seq<Offer>, k: nat)
    requires k < |offers|
  {
    Grants(refs + LeftBehind(offers, k), offers[k])
  }

  /**
   A pass works the first ticket whose claim is open, and no other; every claim it tried before was somebody's,
   unanswered or unsent; and the only claims it leaves standing are those whose answer or release was lost.
   */
  lemma {:induction false} PassWorksTheFirstOpen(refs: set<Ref>, offers: seq<Offer>, released: Reply) returns (k: nat)
    ensures k <= |offers| && forall j :: 0 <= j < k ==> !Open(refs, offers, j)
    ensures k < |offers| ==> Open(refs, offers, k)
    ensures Pass(refs, offers, released).1 == if k < |offers| then Some(offers[k].ref) else None
    ensures Pass(refs, offers, released).0
         == refs + LeftBehind(offers, k) + if k < |offers| && released == NeverArrived then {offers[k].ref} else {}
    decreases |offers|
  {
    if offers == [] {
      k := 0;
      assert LeftBehind(offers, 0) == {};
    } else if Grants(refs, offers[0]) {
      k := 0;
      assert LeftBehind(offers, 0) == {};
      assert refs + {} == refs;
    } else {
      var rest, next := offers[1..], AfterRefusal(refs, offers[0]);
      var k' := PassWorksTheFirstOpen(next, rest, released);
      k := k' + 1;
      assert LeftBehind(offers, 0) == {} && refs + {} == refs;
      forall j | 0 <= j <= |rest|
        ensures refs + LeftBehind(offers, j + 1) == next + LeftBehind(rest, j)
      {
        LeftBehindStep(refs, offers, j);
      }
      forall j | 0 <= j < k
        ensures !Open(refs, offers, j)
      {
        if j > 0 {
          assert offers[j] == rest[j - 1];
          assert !Open(next, rest, j - 1);
          assert refs + LeftBehind(offers, j - 1 + 1) == next + LeftBehind(rest, j - 1);
        }
      }
    }
  }

  lemma LeftBehindStep(refs: set<Ref>, offers: seq<Offer>, j: nat)
    requires j < |offers|
    ensures refs + LeftBehind(offers, j + 1) == AfterRefusal(refs, offers[0]) + LeftBehind(offers[1..], j)
  {
    var rest := offers[1..];
    forall r | r in LeftBehind(offers, j + 1)
      ensures r in AfterRefusal(refs, offers[0]) + LeftBehind(rest, j)
    {
      var i :| 0 <= i < j + 1 && offers[i].post == AnswerLost && offers[i].ref == r;
      if i > 0 {
        assert rest[i - 1] == offers[i];
      }
    }
    forall r | r in LeftBehind(rest, j)
      ensures r in LeftBehind(offers, j + 1)
    {
      var i :| 0 <= i < j && rest[i].post == AnswerLost && rest[i].ref == r;
      assert offers[i + 1] == rest[i];
    }
  }

  /** With every answer in, a pass leaves the refs as it found them. */
  lemma AnsweredPassCleansUp(refs: set<Ref>, offers: seq<Offer>)
    requires forall o :: o in offers ==> o.post != AnswerLost
    ensures Pass(refs, offers, Answered).0 == refs
  {
    var k := PassWorksTheFirstOpen(refs, offers, Answered);
    assert LeftBehind(offers, k) == {};
  }

  /** What is left of a repository's offers at its `i`-th ticket. */
  function From(repo: Repo, i: nat): (r: seq<Offer>)
    requires i <= |repo.tickets|
    ensures i == 0 ==> r == RepoOffers(repo)
    ensures i == |repo.tickets| ==> r == []
  {
    assert repo.tickets[0..] == repo.tickets;
    if IsSha(repo.sha) then TicketOffers(repo.name, repo.tickets[i..]) else []
  }

  lemma FirstTicket(refs: set<Ref>, repo: Repo, i: nat, released: Reply)
    requires i < |repo.tickets|
    ensures var t := repo.tickets[i];
      var o := Offer(Claim(repo.name, t.issue), t.post);
      Pass(refs, From(repo, i), released)
      == if t.worked || !IsSha(repo.sha) then Pass(refs, From(repo, i + 1), released)
         else if Grants(refs, o) then (if released == NeverArrived then refs + {o.ref} else refs, Some(o.ref))
         else Pass(AfterRefusal(refs, o), From(repo, i + 1), released)
  {
    var t, rest := repo.tickets[i], repo.tickets[i..];
    assert rest[0] == t && rest[1..] == repo.tickets[i + 1..];
    if IsSha(repo.sha) && t.worked {
      assert From(repo, i) == From(repo, i + 1);
    } else if IsSha(repo.sha) {
      assert From(repo, i)[1..] == From(repo, i + 1);
    }
  }

  class Remote {
    var refs: set<Ref>

    constructor ()
      ensures refs == {}
    {
      refs := {};
    }

    /** Create if absent: a rival's claim is an error, and so is an answer that did not come. */
    method AcquireClaim(repo: string, issue: nat, sha: string, post: Reply) returns (ok: bool)
      modifies this
      ensures ok == (IsSha(sha) && post == Answered && Claim(repo, issue) !in old(refs))
      ensures refs == if IsSha(sha) && post != NeverArrived then old(refs) + {Claim(repo, issue)} else old(refs)
    {
      if !IsSha(sha) || post == NeverArrived {
        return false;
      }
      var created := Claim(repo, issue) !in refs;
      refs := refs + {Claim(repo, issue)};
      ok := created && post == Answered;
    }

    method ReleaseClaim(ref: Ref, released: Reply)
      modifies this
      ensures refs == if released == NeverArrived then old(refs) else old(refs) - {ref}
    {
      if released != NeverArrived {
        refs := refs - {ref};
      }
    }

    /** One ticket: claim it, work it, give the claim back. */
    method TryTicket(repo: Repo, t: Ticket, released: Reply) returns (worked: bool)
      modifies this
      ensures var o := Offer(Claim(repo.name, t.issue), t.post);
        if t.worked || !IsSha(repo.sha) then refs == old(refs) && !worked
        else if Grants(old(refs), o) then worked
           && refs == if released == NeverArrived then old(refs) + {o.ref} else old(refs)
        else !worked && refs == AfterRefusal(old(refs), o)
    {
      worked := false;
      if !t.worked {
        worked := AcquireClaim(repo.name, t.issue, repo.sha, t.post);
        if worked {
          ReleaseClaim(Claim(repo.name, t.issue), released);
          assert old(refs) + {Claim(repo.name, t.issue)} - {Claim(repo.name, t.issue)} == old(refs);
        }
      }
    }

    /** The tickets of one repository, up to the first that is worked. */
    method ScanTickets(repo: Repo, released: Reply) returns (chosen: Option<Ref>)
      modifies this
      ensures (refs, chosen) == Pass(old(refs), RepoOffers(repo), released)
    {
      var i := 0;
      while i < |repo.tickets|
        invariant i <= |repo.tickets|
        invariant Pass(refs, From(repo, i), released) == Pass(old(refs), RepoOffers(repo), released)
      {
        FirstTicket(refs, repo, i, released);
        var worked := TryTicket(repo, repo.tickets[i], released);
        if worked {
          return Some(Claim(repo.name, repo.tickets[i].issue));
        }
        i := i + 1;
      }
      chosen := None;
    }

    /** One pass over the repositories: at most one ticket is worked. */
    method Tick(repos: seq<Repo>, released: Reply) returns (chosen: Option<Ref>)
      modifies this
      ensures (refs, chosen) == Pass(old(refs), Offers(repos), released)
    {
      var i := 0;
      while i < |repos|
        invariant i <= |repos|
        invariant Pass(refs, Offers(repos[i..]), released) == Pass(old(refs), Offers(repos), released)
      {
        ghost var before := refs;
        assert repos[i..][0] == repos[i] && repos[i..][1..] == repos[i + 1..];
        PassConcat(before, RepoOffers(repos[i]), Offers(repos[i + 1..]), released);
        if repos[i].sha != "" {
          chosen := ScanTickets(repos[i], released);
          if chosen.Some? {
            return;
          }
        }
        i := i + 1;
      }
      chosen := None;
    }
  }
}
