/**
 Delegated ServiceBay tokens of PI WEB projects: `add` and `remove` as the steps they take, with a failure
 possible at every one. `World` is the pod's entry and token files and the server's live tokens;
 `Acts` performs the verbs in place, `Add` and `Remove` say what they come to.
 */
module ProjectTokens {
  import opened Options

  type Project = string
  type Token = nat

  /** `<name>.json`: missing, naming a token, a valid record that names none, or unreadable or malformed. */
  datatype Entry = Missing | Names(token: Token) | NoToken | Broken

  datatype World = World(
    entries: map<Project, Entry>,     // absent and `Missing` are the same
    files: map<Project, Token>,       // the bare token files
    live: map<Token, Project>,        // delegated and not revoked, by the project named at minting
    minted: nat)                      // tokens below this have been given out

  function EntryOf(w: World, p: Project): Entry { if p in w.entries then w.entries[p] else Missing }

  // ----- Failures -----

  /** A call on the server: done and told so, refused, or done with the reply lost. */
  datatype Reply = Done | Refused | LostReply

  /** `ready`: the project folder exists and this container's own token can be read. */
  datatype AddFaults = AddFaults(
    ready: bool, revokeOld: Reply, mint: Reply, writeEntry: Writing, writeFile: Writing, takeBack: Reply)

  datatype RemoveFaults = RemoveFaults(parentReadable: bool, revoke: Reply, removeEntry: bool, removeFile: bool)

  datatype Outcome = Success | Failure | NotOurs

  // ----- The single steps -----

  /** A revoke of a token that is gone already answers 404, which is an answer. */
  function Revoked(w: World, t: Token, r: Reply): World {
    if r == Refused then w else w.(live := map u | u in w.live && u != t :: w.live[u])
  }

  function EntryWritten(w: World, p: Project, t: Token, how: Writing): World {
    match how
    case Written | ModeFailed => w.(entries := w.entries[p := Names(t)])
    case NotBegun => w
    case Torn => w.(entries := w.entries[p := Broken])
  }

  /** A torn token file holds no token. */
  function FileWritten(w: World, p: Project, t: Token, how: Writing): World {
    match how
    case Written | ModeFailed => w.(files := w.files[p := t])
    case NotBegun => w
    case Torn => w.(files := w.files - {p})
  }

  function Minted(w: World, p: Project): World {
    w.(live := w.live[w.minted := p], minted := w.minted + 1)
  }

  // ----- add -----

  function Add(w: World, p: Project, f: AddFaults): (World, Outcome) {
    var entry := EntryOf(w, p);
    if !f.ready || entry == Broken then (w, Failure)
    else
      var cleared := if entry.Names? then Revoked(w, entry.token, f.revokeOld) else w;
      if entry.Names? && f.revokeOld != Done then (cleared, Failure)
      else if f.mint == Refused then (cleared, Failure)
      else if f.mint == LostReply then (Minted(cleared, p), Failure)
      else Record(Minted(cleared, p), p, cleared.minted, f)
  }

  /** From a minted token on: record it, or take it back. */
  function Record(w: World, p: Project, t: Token, f: AddFaults): (World, Outcome) {
    var entered := EntryWritten(w, p, t, f.writeEntry);
    if f.writeEntry != Written then (Revoked(entered, t, f.takeBack), Failure)
    else
      var filed := FileWritten(entered, p, t, f.writeFile);
      if f.writeFile != Written then (Revoked(filed, t, f.takeBack), Failure) else (filed, Success)
  }

  // ----- remove -----

  function Remove(w: World, p: Project, f: RemoveFaults): (World, Outcome) {
    var entry := EntryOf(w, p);
    if entry == Missing then (w, NotOurs)
    else if !entry.Names? || !f.parentReadable then (w, Failure)
    else
      var revoked := Revoked(w, entry.token, f.revoke);
      if f.revoke != Done then (revoked, Failure)
      else if !f.removeEntry then (revoked, Failure)
      else
        var dropped := revoked.(entries := revoked.entries - {p});
        if p in dropped.files && !f.removeFile then (dropped, Failure)
        else (dropped.(files := dropped.files - {p}), Success)
  }

  // ----- The command itself -----

  class Acts {
    var entries: map<Project, Entry>
    var files: map<Project, Token>
    var live: map<Token, Project>
    var minted: nat

    constructor ()
      ensures Now() == World(map[], map[], map[], 0)
    {
      entries, files, live, minted := map[], map[], map[], 0;
    }

    function Now(): World
      reads this
    {
      World(entries, files, live, minted)
    }

    /** True for `revoked` and for `already-gone`. */
    method RevokeToken(t: Token, r: Reply) returns (ok: bool)
      modifies this`live
      ensures Now() == Revoked(old(Now()), t, r) && ok == (r == Done)
    {
      if r != Refused {
        live := map u | u in live && u != t :: live[u];
      }
      ok := r == Done;
    }

    method DelegateToken(p: Project, r: Reply) returns (secret: Option<Token>)
      modifies this`live, this`minted
      ensures Now() == if r == Refused then old(Now()) else Minted(old(Now()), p)
      ensures secret == if r == Done then Some(old(minted)) else None
    {
      if r == Refused {
        return None;
      }
      var t := minted;
      live, minted := live[t := p], minted + 1;
      secret := if r == Done then Some(t) else None;
    }

    method WriteEntry(p: Project, t: Token, how: Writing) returns (ok: bool)
      modifies this`entries
      ensures Now() == EntryWritten(old(Now()), p, t, how) && ok == (how == Written)
    {
      match how {
        case Written | ModeFailed => entries := entries[p := Names(t)];
        case NotBegun =>
        case Torn => entries := entries[p := Broken];
      }
      ok := how == Written;
    }

    method WriteTokenFile(p: Project, t: Token, how: Writing) returns (ok: bool)
      modifies this`files
      ensures Now() == FileWritten(old(Now()), p, t, how) && ok == (how == Written)
    {
      match how {
        case Written | ModeFailed => files := files[p := t];
        case NotBegun =>
        case Torn => files := files - {p};
      }
      ok := how == Written;
    }

    method AddProject(p: Project, f: AddFaults) returns (outcome: Outcome)
      modifies this
      ensures (Now(), outcome) == Add(old(Now()), p, f)
    {
      if !f.ready {
        return Failure;
      }
      var previous := EntryOf(Now(), p);
      if previous == Broken {
        return Failure;
      }
      if previous.Names? {
        var revoked := RevokeToken(previous.token, f.revokeOld);
        if !revoked {
          return Failure;
        }
      }
      var secret := DelegateToken(p, f.mint);
      if secret.None? {
        return Failure;
      }
      var written := WriteEntry(p, secret.value, f.writeEntry);
      if written {
        written := WriteTokenFile(p, secret.value, f.writeFile);
      }
      if !written {
        var _ := RevokeToken(secret.value, f.takeBack);
        return Failure;
      }
      outcome := Success;
    }

    method RemoveProject(p: Project, f: RemoveFaults) returns (outcome: Outcome)
      modifies this
      ensures (Now(), outcome) == Remove(old(Now()), p, f)
    {
      var entry := EntryOf(Now(), p);
      if entry == Missing {
        return NotOurs;
      }
      if !entry.Names? || !f.parentReadable {
        return Failure;
      }
      var revoked := RevokeToken(entry.token, f.revoke);
      if !revoked || !f.removeEntry {
        return Failure;
      }
      entries := entries - {p};
      if p in files {
        if !f.removeFile {
          return Failure;
        }
        files := files - {p};
      } else {
        assert files - {p} == files;
      }
      outcome := Success;
    }
  }

  // ----- Nothing live goes unnamed -----

  /** A live token its project's entry does not name: a credential nobody can find again. */
  predicate Orphan(w: World, t: Token) { t in w.live && EntryOf(w, w.live[t]) != Names(t) }

  ghost predicate Accounted(w: World) {
    && (forall t :: t in w.live ==> t < w.minted)
    && (forall p :: p in w.entries && w.entries[p].Names? ==> w.entries[p].token < w.minted)
    && forall t :: t in w.live ==> !Orphan(w, t)
  }

  /** The two ways an `add` strands a token: the mint went through and its reply was lost, or the entry does not
      name the fresh token and the server refused to take it back. */
  predicate Strands(w: World, p: Project, f: AddFaults) {
    var entry := EntryOf(w, p);
    && f.ready && entry != Broken && (entry.Names? ==> f.revokeOld == Done)
    && (f.mint == LostReply || (f.mint == Done && LeftUnnamed(f)))
  }

  predicate LeftUnnamed(f: AddFaults) { f.writeEntry in [NotBegun, Torn] && f.takeBack == Refused }

  /** Before a fresh token is minted: all is accounted for, and nothing of the project itself is live. */
  ghost predicate Cleared(w: World, p: Project) {
    Accounted(w) && forall t :: t in w.live ==> w.live[t] != p
  }

  lemma ClearedBeforeMinting(w: World, p: Project, r: Reply)
    requires Accounted(w) && EntryOf(w, p) != Broken && (EntryOf(w, p).Names? ==> r == Done)
    ensures Cleared(if EntryOf(w, p).Names? then Revoked(w, EntryOf(w, p).token, r) else w, p)
  {
    forall t | t in w.live && w.live[t] == p ensures EntryOf(w, p) == Names(t) {
      assert !Orphan(w, t);
    }
  }

  /** `x` is `w` after minting for `p`, with at most the entry of `p` written since; it names no later token. */
  ghost predicate MintedFrom(w: World, p: Project, x: World) {
    && x.live == w.live[w.minted := p] && x.minted == w.minted + 1
    && (forall q :: q != p ==> EntryOf(x, q) == EntryOf(w, q))
    && (EntryOf(x, p).Names? ==> EntryOf(x, p).token <= w.minted)
  }

  lemma NamedIsAccounted(w: World, p: Project, x: World)
    requires Cleared(w, p) && MintedFrom(w, p, x)
    ensures Accounted(x) <==> EntryOf(x, p) == Names(w.minted)
  {
    assert w.minted in x.live && x.live[w.minted] == p;
    forall q | q in x.entries && x.entries[q].Names? ensures x.entries[q].token < x.minted {
      assert q != p ==> EntryOf(w, q) == x.entries[q];
    }
    if EntryOf(x, p) == Names(w.minted) {
      forall t | t in x.live ensures !Orphan(x, t) {
        assert t != w.minted ==> !Orphan(w, t) && w.live[t] != p;
      }
    } else {
      assert Orphan(x, w.minted);
    }
  }

  lemma TakenBackIsAccounted(w: World, p: Project, x: World, r: Reply)
    requires Cleared(w, p) && MintedFrom(w, p, x) && r != Refused
    ensures Accounted(Revoked(x, w.minted, r))
  {
    var y := Revoked(x, w.minted, r);
    forall q | q in y.entries && y.entries[q].Names? ensures y.entries[q].token < y.minted {
      assert q != p ==> EntryOf(w, q) == y.entries[q];
    }
    forall t | t in y.live ensures !Orphan(y, t) {
      assert !Orphan(w, t) && w.live[t] != p;
    }
  }

  lemma EnteredIsMintedFrom(w: World, p: Project, how: Writing, file: Writing)
    requires EntryOf(w, p).Names? ==> EntryOf(w, p).token < w.minted
    ensures var entered := EntryWritten(Minted(w, p), p, w.minted, how);
            && MintedFrom(w, p, entered) && MintedFrom(w, p, FileWritten(entered, p, w.minted, file))
            && (EntryOf(entered, p) == Names(w.minted) <==> how !in [NotBegun, Torn])
  {
  }

  /** Recorded, or left, or taken back: what happens to the fresh token once its world is `x`. */
  lemma KeptOrTakenBack(w: World, p: Project, x: World, keep: bool, r: Reply)
    requires Cleared(w, p) && MintedFrom(w, p, x) && (keep ==> EntryOf(x, p) == Names(w.minted))
    ensures Accounted(if keep then x else Revoked(x, w.minted, r))
            <==> (EntryOf(x, p) == Names(w.minted) || r != Refused)
  {
    NamedIsAccounted(w, p, x);
    if r != Refused {
      TakenBackIsAccounted(w, p, x, r);
    }
  }

  lemma RecordAccounts(w: World, p: Project, f: AddFaults)
    requires Cleared(w, p) && (EntryOf(w, p).Names? ==> EntryOf(w, p).token < w.minted)
    ensures Accounted(Record(Minted(w, p), p, w.minted, f).0) <==> !LeftUnnamed(f)
  {
    var entered := EntryWritten(Minted(w, p), p, w.minted, f.writeEntry);
    EnteredIsMintedFrom(w, p, f.writeEntry, f.writeFile);
    if f.writeEntry != Written {
      KeptOrTakenBack(w, p, entered, false, f.takeBack);
    } else {
      KeptOrTakenBack(w, p, FileWritten(entered, p, w.minted, f.writeFile), f.writeFile == Written, f.takeBack);
    }
  }

  lemma RevokingAccounts(w: World, t: Token, r: Reply)
    requires Accounted(w)
    ensures Accounted(Revoked(w, t, r))
  {
  }

  /** From a world where every live token is named, an `add` leaves one unnamed exactly in those two cases. */
  lemma AddAccountsForTokens(w: World, p: Project, f: AddFaults)
    requires Accounted(w)
    ensures Accounted(Add(w, p, f).0) <==> !Strands(w, p, f)
  {
    var entry := EntryOf(w, p);
    if f.ready && entry != Broken {
      var cleared := if entry.Names? then Revoked(w, entry.token, f.revokeOld) else w;
      RevokingAccounts(w, if entry.Names? then entry.token else 0, f.revokeOld);
      if entry.Names? ==> f.revokeOld == Done {
        ClearedBeforeMinting(w, p, f.revokeOld);
        if f.mint == LostReply {
          assert Orphan(Minted(cleared, p), cleared.minted);
        } else if f.mint == Done {
          RecordAccounts(cleared, p, f);
        }
      }
    }
  }

  lemma RemoveAccountsForTokens(w: World, p: Project, f: RemoveFaults)
    requires Accounted(w)
    ensures Accounted(Remove(w, p, f).0)
  {
  }

  /** With every live token named, a project has at most one, and it is the one in its entry. */
  lemma AtMostOneLivePerProject(w: World, t: Token, u: Token)
    requires Accounted(w) && t in w.live && u in w.live && w.live[t] == w.live[u]
    ensures t == u
  {
    assert !Orphan(w, t) && !Orphan(w, u);
  }

  /** A successful `add` hands out one fresh token, live for the project, in its entry and in its file; what the
      entry named before is gone. */
  lemma AddedTokenIsTheProjectsOwn(w: World, p: Project, f: AddFaults)
    requires Accounted(w) && Add(w, p, f).1 == Success
    ensures var after := Add(w, p, f).0;
            && EntryOf(after, p) == Names(w.minted) && p in after.files && after.files[p] == w.minted
            && w.minted !in w.live && w.minted in after.live && after.live[w.minted] == p
            && (forall t :: t in after.live && after.live[t] == p ==> t == w.minted)
            && (forall q :: q != p ==> EntryOf(after, q) == EntryOf(w, q))
  {
    AddAccountsForTokens(w, p, f);
    var after := Add(w, p, f).0;
    forall t | t in after.live && after.live[t] == p
      ensures t == w.minted
    {
      assert !Orphan(after, t);
    }
  }

  /** What `add` reports: success exactly when the folder and the pod's own token are there, the old entry can be read,
      the token it names is revoked, a new one is handed out, and entry and file are written, modes included. */
  lemma AddReports(w: World, p: Project, f: AddFaults)
    ensures Add(w, p, f).1 == Success <==>
            && f.ready && EntryOf(w, p) != Broken && (EntryOf(w, p).Names? ==> f.revokeOld == Reply.Done)
            && f.mint == Reply.Done && f.writeEntry == Written && f.writeFile == Written
    ensures Add(w, p, f).1 != Success ==> Add(w, p, f).1 == Failure
  {
  }

  /** What `remove` reports, and that a refusal before the first step changes nothing. */
  lemma RemoveReports(w: World, p: Project, f: RemoveFaults)
    ensures Remove(w, p, f).1 == NotOurs <==> EntryOf(w, p) == Missing
    ensures Remove(w, p, f).1 == Success <==>
            && EntryOf(w, p).Names? && f.parentReadable && f.revoke == Reply.Done && f.removeEntry
            && (p in w.files ==> f.removeFile)
    ensures !(EntryOf(w, p).Names? && f.parentReadable) ==> Remove(w, p, f).0 == w
    ensures Remove(w, p, f).1 == Success ==>
              var after := Remove(w, p, f).0;
              && EntryOf(after, p) == Missing && p !in after.files && EntryOf(w, p).token !in after.live
              && (forall q :: q != p ==> EntryOf(after, q) == EntryOf(w, q))
              && (forall t :: t in w.live && t != EntryOf(w, p).token ==> t in after.live && after.live[t] == w.live[t])
  {
  }

  // ----- Whole histories -----

  datatype Verb = AddVerb(p: Project, add: AddFaults) | RemoveVerb(p: Project, remove: RemoveFaults)

  function Apply(w: World, v: Verb): World {
    match v
    case AddVerb(p, f) => Add(w, p, f).0
    case RemoveVerb(p, f) => Remove(w, p, f).0
  }

  function History(vs: seq<Verb>): World {
    if vs == [] then World(map[], map[], map[], 0) else Apply(History(vs[..|vs| - 1]), vs[|vs| - 1])
  }

  ghost predicate NeverStrands(vs: seq<Verb>) {
    forall i :: 0 <= i < |vs| && vs[i].AddVerb? ==> !Strands(History(vs[..i]), vs[i].p, vs[i].add)
  }

  lemma {:induction false} EveryHistoryIsAccounted(vs: seq<Verb>)
    requires NeverStrands(vs)
    ensures Accounted(History(vs))
  {
    if vs != [] {
      var front, last := vs[..|vs| - 1], vs[|vs| - 1];
      forall i | 0 <= i < |front| && front[i].AddVerb?
        ensures !Strands(History(front[..i]), front[i].p, front[i].add)
      {
        assert front[..i] == vs[..i];
      }
      EveryHistoryIsAccounted(front);
      match last
      case AddVerb(p, f) => AddAccountsForTokens(History(front), p, f);
      case RemoveVerb(p, f) => RemoveAccountsForTokens(History(front), p, f);
    }
  }

  const CLEAN := RemoveFaults(true, Done, true, true)

  /** A `remove` without failures on a well-formed entry leaves nothing: no entry, no token file, nothing live. */
  lemma CleanRemoveLeavesNothing(vs: seq<Verb>, p: Project)
    requires NeverStrands(vs) && EntryOf(History(vs), p).Names?
    ensures var (w, outcome) := Remove(History(vs), p, CLEAN);
            && outcome == Success
            && EntryOf(w, p) == Missing && p !in w.files
            && forall t :: t in w.live ==> w.live[t] != p
  {
    EveryHistoryIsAccounted(vs);
    var w := History(vs);
    forall t | t in Remove(w, p, CLEAN).0.live ensures Remove(w, p, CLEAN).0.live[t] != p {
      assert !Orphan(w, t);
    }
  }

  /** A `remove` that failed anywhere can be run again to completion, except past the entry: one that failed on
      the token file alone has dropped the entry, and the second run refuses while the file stays. */
  lemma FailedRemoveCanBeRetried(w: World, p: Project, f: RemoveFaults)
    requires EntryOf(w, p).Names? && Remove(w, p, f).1 == Failure
    ensures var (after, outcome) := Remove(Remove(w, p, f).0, p, CLEAN);
            && (outcome == Success <==> !(f.parentReadable && f.revoke == Done && f.removeEntry))
            && (outcome == Success <==> EntryOf(after, p) == Missing && p !in after.files)
            && (outcome == NotOurs <==> f.parentReadable && f.revoke == Done && f.removeEntry)
  {
  }

  // ----- What does not heal -----

  /** A project's entry names tokens of its own only, and no token not yet minted is named or live. */
  ghost predicate OwnTokens(w: World) {
    && (forall t :: t in w.live ==> t < w.minted)
    && (forall p :: EntryOf(w, p).Names? ==>
          && EntryOf(w, p).token < w.minted
          && (EntryOf(w, p).token in w.live ==> w.live[EntryOf(w, p).token] == p))
  }

  lemma VerbKeepsOwnTokens(w: World, v: Verb)
    requires OwnTokens(w)
    ensures OwnTokens(Apply(w, v))
  {
    match v
    case AddVerb(p, f) => AddKeepsOwnTokens(w, p, f);
    case RemoveVerb(p, f) => RemoveKeepsOwnTokens(w, p, f);
  }

  lemma RemoveKeepsOwnTokens(w: World, p: Project, f: RemoveFaults)
    requires OwnTokens(w)
    ensures OwnTokens(Remove(w, p, f).0)
  {
    var after := Remove(w, p, f).0;
    if EntryOf(w, p).Names? {
      RevokedKeepsOwnTokens(w, EntryOf(w, p).token, f.revoke);
    }
    assert forall q :: EntryOf(after, q) == Missing || EntryOf(after, q) == EntryOf(w, q);
    assert forall t :: t in after.live ==> t in w.live && after.live[t] == w.live[t];
  }

  lemma RevokedKeepsOwnTokens(w: World, t: Token, r: Reply)
    requires OwnTokens(w)
    ensures OwnTokens(Revoked(w, t, r))
  {
    assert forall p :: EntryOf(Revoked(w, t, r), p) == EntryOf(w, p);
  }

  lemma MintedKeepsOwnTokens(w: World, p: Project)
    requires OwnTokens(w)
    ensures OwnTokens(Minted(w, p))
  {
    assert forall q :: EntryOf(Minted(w, p), q) == EntryOf(w, q);
  }

  lemma RecordKeepsOwnTokens(w: World, p: Project, t: Token, f: AddFaults)
    requires OwnTokens(w) && t < w.minted && t in w.live && w.live[t] == p
    ensures OwnTokens(Record(w, p, t, f).0)
  {
    EnteredKeepsOwnTokens(w, p, t, f.writeEntry);
    var entered := EntryWritten(w, p, t, f.writeEntry);
    FiledKeepsOwnTokens(entered, p, t, f.writeFile);
    RevokedKeepsOwnTokens(entered, t, f.takeBack);
    RevokedKeepsOwnTokens(FileWritten(entered, p, t, f.writeFile), t, f.takeBack);
  }

  lemma EnteredKeepsOwnTokens(w: World, p: Project, t: Token, how: Writing)
    requires OwnTokens(w) && t < w.minted && t in w.live && w.live[t] == p
    ensures OwnTokens(EntryWritten(w, p, t, how))
  {
    assert forall q :: q != p ==> EntryOf(EntryWritten(w, p, t, how), q) == EntryOf(w, q);
  }

  lemma FiledKeepsOwnTokens(w: World, p: Project, t: Token, how: Writing)
    requires OwnTokens(w)
    ensures OwnTokens(FileWritten(w, p, t, how))
  {
    assert forall q :: EntryOf(FileWritten(w, p, t, how), q) == EntryOf(w, q);
  }

  lemma AddKeepsOwnTokens(w: World, p: Project, f: AddFaults)
    requires OwnTokens(w)
    ensures OwnTokens(Add(w, p, f).0)
  {
    var entry := EntryOf(w, p);
    var cleared := if entry.Names? then Revoked(w, entry.token, f.revokeOld) else w;
    if entry.Names? {
      RevokedKeepsOwnTokens(w, entry.token, f.revokeOld);
    }
    MintedKeepsOwnTokens(cleared, p);
    RecordKeepsOwnTokens(Minted(cleared, p), p, cleared.minted, f);
  }

  function HistoryFrom(w: World, vs: seq<Verb>): World {
    if vs == [] then w else Apply(HistoryFrom(w, vs[..|vs| - 1]), vs[|vs| - 1])
  }

  /** A stranded token is out of reach for good: no later `add` or `remove` of any project revokes or names it. */
  lemma {:induction false} StrandedStaysStranded(w: World, vs: seq<Verb>, t: Token)
    requires OwnTokens(w) && Orphan(w, t)
    ensures OwnTokens(HistoryFrom(w, vs)) && Orphan(HistoryFrom(w, vs), t)
  {
    if vs != [] {
      var front, last := vs[..|vs| - 1], vs[|vs| - 1];
      StrandedStaysStranded(w, front, t);
      VerbKeepsOwnTokens(HistoryFrom(w, front), last);
      VerbKeepsOrphan(HistoryFrom(w, front), last, t);
    }
  }

  lemma VerbKeepsOrphan(w: World, v: Verb, t: Token)
    requires OwnTokens(w) && Orphan(w, t)
    ensures Orphan(Apply(w, v), t)
  {
    match v
    case AddVerb(p, f) => AddKeepsOrphan(w, p, f, t);
    case RemoveVerb(p, f) =>
  }

  lemma AddKeepsOrphan(w: World, p: Project, f: AddFaults, t: Token)
    requires OwnTokens(w) && Orphan(w, t)
    ensures Orphan(Add(w, p, f).0, t)
  {
    var entry := EntryOf(w, p);
    var cleared := if entry.Names? then Revoked(w, entry.token, f.revokeOld) else w;
    assert Orphan(cleared, t) && t != cleared.minted;
    assert Orphan(Minted(cleared, p), t);
    RecordKeepsOrphan(Minted(cleared, p), p, cleared.minted, f, t);
  }

  lemma RecordKeepsOrphan(w: World, p: Project, minted: Token, f: AddFaults, t: Token)
    requires Orphan(w, t) && t != minted
    ensures Orphan(Record(w, p, minted, f).0, t)
  {
  }

  /** A torn entry blocks its project: every later `add` and `remove` of it fails and changes nothing, whatever is done
      to other projects. */
  lemma {:induction false} TornEntryBlocksItsProject(w: World, vs: seq<Verb>, p: Project)
    requires EntryOf(w, p) == Broken
    ensures EntryOf(HistoryFrom(w, vs), p) == Broken
    ensures forall f :: Add(HistoryFrom(w, vs), p, f) == (HistoryFrom(w, vs), Failure)
    ensures forall f :: Remove(HistoryFrom(w, vs), p, f) == (HistoryFrom(w, vs), Failure)
  {
    if vs != [] {
      var front, last := vs[..|vs| - 1], vs[|vs| - 1];
      TornEntryBlocksItsProject(w, front, p);
      VerbKeepsTorn(HistoryFrom(w, front), last, p);
    }
    TornBlocks(HistoryFrom(w, vs), p);
  }

  lemma VerbKeepsTorn(w: World, v: Verb, p: Project)
    requires EntryOf(w, p) == Broken
    ensures EntryOf(Apply(w, v), p) == Broken
  {
  }

  lemma TornBlocks(w: World, p: Project)
    requires EntryOf(w, p) == Broken
    ensures forall f :: Add(w, p, f) == (w, Failure)
    ensures forall f :: Remove(w, p, f) == (w, Failure)
  {
  }
}
