/** Cleaning up after a merged run: source synchronisation, the selection of owned resources and
    their deletion, over any number of interrupted attempts (internal/application/cleanup.go). */
module OwnedCleanup {
  import opened Outcomes

  datatype Kind = ArtifactRoot | Worktree | Branch | RemoteBranch | LocalBranch | SourceCheckout | OtherKind

  datatype RowStatus = Owned | RowDeleted | OtherStatus

  /** The ownership nonce in a resource's creation evidence; legacy evidence has none. */
  datatype Nonce = Unreadable | Legacy | Given(value: string)

  datatype Resource = Resource(runId: string, kind: Kind, name: string, status: RowStatus, nonce: Nonce)

  datatype Run = Run(id: string, artifactRoot: string, worktreePath: string, workingBranch: string, baseBranch: string)

  const SOURCE_CHECKOUT := "configured_source_checkout"

  // ---------------------------------------------------------------- selection

  const WANTED := [ArtifactRoot, Worktree, Branch, RemoteBranch]

  function NameOf(run: Run, k: Kind): string {
    match k
    case ArtifactRoot => run.artifactRoot
    case Worktree => run.worktreePath
    case _ => run.workingBranch
  }

  /** A row the selection looks at. */
  predicate Relevant(run: Run, r: Resource) {
    r.runId == run.id && r.status != RowDeleted && r.kind in WANTED
  }

  predicate Sound(run: Run, r: Resource) {
    r.status == Owned && r.name == NameOf(run, r.kind)
  }

  /** The relevant rows of one kind. */
  function RowsOf(run: Run, rows: seq<Resource>, k: Kind): seq<Resource> {
    if rows == [] then []
    else (if Relevant(run, rows[0]) && rows[0].kind == k then [rows[0]] else []) + RowsOf(run, rows[1..], k)
  }

  predicate NoncesAgree(worktree: Resource, branch: Resource, remote: Resource) {
    && !worktree.nonce.Unreadable?
    && branch.nonce == worktree.nonce
    && remote.nonce == worktree.nonce
  }

  /** The four resources in the order they are cleaned, when each kind has exactly one relevant row,
      all of those are soundly owned, and their nonces agree. */
  function Select(run: Run, rows: seq<Resource>): Option<seq<Resource>> {
    var a, w, b, r := RowsOf(run, rows, ArtifactRoot), RowsOf(run, rows, Worktree), RowsOf(run, rows, Branch),
      RowsOf(run, rows, RemoteBranch);
    if |a| != 1 || |w| != 1 || |b| != 1 || |r| != 1 then None
    else if !Sound(run, a[0]) || !Sound(run, w[0]) || !Sound(run, b[0]) || !Sound(run, r[0]) then None
    else if !NoncesAgree(w[0], b[0], r[0]) then None
    else Some([a[0], w[0], r[0], b[0].(kind := LocalBranch)])
  }

  lemma {:induction false} RowsOfCounts(run: Run, rows: seq<Resource>, k: Kind, x: Resource)
    ensures multiset(RowsOf(run, rows, k))[x] == if Relevant(run, x) && x.kind == k then multiset(rows)[x] else 0
  {
    if rows != [] {
      RowsOfCounts(run, rows[1..], k, x);
      assert rows == [rows[0]] + rows[1..];
      assert multiset(rows) == multiset{rows[0]} + multiset(rows[1..]);
    }
  }

  lemma SameRows(run: Run, a: seq<Resource>, b: seq<Resource>, k: Kind)
    requires multiset(a) == multiset(b)
    ensures |RowsOf(run, a, k)| == |RowsOf(run, b, k)|
    ensures |RowsOf(run, a, k)| == 1 ==> RowsOf(run, a, k) == RowsOf(run, b, k)
  {
    hide RowsOf, Relevant;
    var ra, rb := RowsOf(run, a, k), RowsOf(run, b, k);
    forall x ensures multiset(ra)[x] == multiset(rb)[x] {
      RowsOfCounts(run, a, k, x);
      RowsOfCounts(run, b, k, x);
    }
    assert multiset(ra) == multiset(rb);
    assert |multiset(ra)| == |ra| && |multiset(rb)| == |rb|;
    if |ra| == 1 {
      assert ra == [ra[0]] && rb == [rb[0]];
      assert ra[0] in multiset(rb);
    }
  }

  /** What is selected does not depend on the order of the rows. */
  lemma SelectionIgnoresOrder(run: Run, a: seq<Resource>, b: seq<Resource>)
    requires multiset(a) == multiset(b)
    ensures Select(run, a) == Select(run, b)
  {
    hide RowsOf;
    SameRows(run, a, b, ArtifactRoot);
    SameRows(run, a, b, Worktree);
    SameRows(run, a, b, Branch);
    SameRows(run, a, b, RemoteBranch);
  }

  lemma {:induction false} RowsOfJoin(run: Run, a: seq<Resource>, b: seq<Resource>, k: Kind)
    ensures RowsOf(run, a + b, k) == RowsOf(run, a, k) + RowsOf(run, b, k)
  {
    if a == [] {
      assert a + b == b;
    } else {
      assert (a + b)[0] == a[0] && (a + b)[1..] == a[1..] + b;
      RowsOfJoin(run, a[1..], b, k);
    }
  }

  /** One more row, in the loop of the selection. */
  lemma RowsOfNext(run: Run, rows: seq<Resource>, i: nat, k: Kind)
    requires i < |rows|
    ensures RowsOf(run, rows[..i + 1], k) == RowsOf(run, rows[..i], k)
      + if Relevant(run, rows[i]) && rows[i].kind == k then [rows[i]] else []
  {
    assert rows[..i + 1] == rows[..i] + [rows[i]];
    RowsOfJoin(run, rows[..i], [rows[i]], k);
    assert [rows[i]][1..] == [];
  }

  lemma RowsOfUpTo(run: Run, rows: seq<Resource>, i: nat, k: Kind)
    requires i <= |rows|
    ensures RowsOf(run, rows, k) == RowsOf(run, rows[..i], k) + RowsOf(run, rows[i..], k)
  {
    assert rows == rows[..i] + rows[i..];
    RowsOfJoin(run, rows[..i], rows[i..], k);
  }

  /** What the loop has put into its map after some of the rows. */
  ghost predicate Gathered(run: Run, rows: seq<Resource>, selected: map<Kind, Resource>) {
    forall k :: k in WANTED ==>
      RowsOf(run, rows, k) == (if k in selected then [selected[k]] else [])
        && (k in selected ==> Sound(run, selected[k]))
  }

  lemma GatherNext(run: Run, rows: seq<Resource>, i: nat, selected: map<Kind, Resource>)
    requires i < |rows| && Gathered(run, rows[..i], selected)
    ensures !Relevant(run, rows[i]) ==> Gathered(run, rows[..i + 1], selected)
    ensures Relevant(run, rows[i]) && Sound(run, rows[i]) && rows[i].kind !in selected ==>
      Gathered(run, rows[..i + 1], selected[rows[i].kind := rows[i]])
    ensures Relevant(run, rows[i]) && (!Sound(run, rows[i]) || rows[i].kind in selected) ==> Select(run, rows).None?
  {
    hide RowsOf;
    forall k | k in WANTED
      ensures RowsOf(run, rows[..i + 1], k) == RowsOf(run, rows[..i], k)
        + if Relevant(run, rows[i]) && rows[i].kind == k then [rows[i]] else []
    {
      RowsOfNext(run, rows, i, k);
    }
    if Relevant(run, rows[i]) && (!Sound(run, rows[i]) || rows[i].kind in selected) {
      RowsOfUpTo(run, rows, i + 1, rows[i].kind);
    }
  }

  /** selectCleanupResources. */
  method SelectCleanupResources(run: Run, rows: seq<Resource>) returns (r: Option<seq<Resource>>)
    ensures r == Select(run, rows)
  {
    hide RowsOf, Relevant, Sound;
    var selected: map<Kind, Resource> := map[];
    GatherNone(run);
    for i := 0 to |rows|
      invariant Gathered(run, rows[..i], selected)
    {
      GatherNext(run, rows, i, selected);
      if Relevant(run, rows[i]) {
        if !Sound(run, rows[i]) || rows[i].kind in selected {
          return None;
        }
        selected := selected[rows[i].kind := rows[i]];
      }
    }
    assert rows[..|rows|] == rows;
    for i := 0 to |WANTED|
      invariant forall k :: k in WANTED[..i] ==> k in selected
    {
      if WANTED[i] !in selected {
        assert WANTED[i] in WANTED;
        return None;
      }
    }
    assert WANTED[0] in selected && WANTED[1] in selected && WANTED[2] in selected && WANTED[3] in selected;
    var worktree, branch, remote := selected[Worktree], selected[Branch], selected[RemoteBranch];
    if !NoncesAgree(worktree, branch, remote) {
      return None;
    }
    return Some([selected[ArtifactRoot], worktree, remote, branch.(kind := LocalBranch)]);
  }

  lemma GatherNone(run: Run)
    ensures Gathered(run, [], map[])
  {
  }

  /** What is selected are rows of the run that it owns, each the only relevant one of its kind; the three
      with a nonce were made under one and the same, or all before there were any. */
  lemma SelectsOwned(run: Run, rows: seq<Resource>)
    requires Select(run, rows).Some?
    ensures var picked := Select(run, rows).value;
      var own := [picked[0], picked[1], picked[2], picked[3].(kind := Branch)];
      && (forall i :: 0 <= i < 4 ==> own[i] in rows && own[i].runId == run.id && own[i].status == Owned
                                     && own[i].name == NameOf(run, own[i].kind))
      && [own[0].kind, own[1].kind, own[2].kind, own[3].kind] == [ArtifactRoot, Worktree, RemoteBranch, Branch]
      && (forall r :: r in rows && Relevant(run, r) ==> r in own)
      && picked[1].nonce == picked[2].nonce == picked[3].nonce && !picked[1].nonce.Unreadable?
  {
    hide RowsOf;
    OnlyRow(run, rows, ArtifactRoot);
    OnlyRow(run, rows, Worktree);
    OnlyRow(run, rows, RemoteBranch);
    OnlyRow(run, rows, Branch);
    assert Select(run, rows).value[3].(kind := Branch) == RowsOf(run, rows, Branch)[0];
  }

  lemma OnlyRow(run: Run, rows: seq<Resource>, k: Kind)
    requires |RowsOf(run, rows, k)| == 1
    ensures var row := RowsOf(run, rows, k)[0];
      && row in rows && Relevant(run, row) && row.kind == k
      && forall r :: r in rows && Relevant(run, r) && r.kind == k ==> r == row
  {
    var row := RowsOf(run, rows, k)[0];
    RowsOfMembers(run, rows, k, row);
    forall r | r in rows && Relevant(run, r) && r.kind == k ensures r == row {
      RowsOfMembers(run, rows, k, r);
    }
  }

  lemma {:induction false} RowsOfMembers(run: Run, rows: seq<Resource>, k: Kind, r: Resource)
    ensures r in RowsOf(run, rows, k) <==> r in rows && Relevant(run, r) && r.kind == k
  {
    if rows != [] {
      RowsOfMembers(run, rows[1..], k, r);
    }
  }

  /** A row of this kind that the run has left. */
  predicate Left(run: Run, r: Resource, k: Kind) {
    r.runId == run.id && r.kind == k && r.status != RowDeleted
  }

  /** The only one. */
  ghost predicate Sole(run: Run, rows: seq<Resource>, k: Kind, x: Resource) {
    && Left(run, x, k) && multiset(rows)[x] == 1
    && forall y :: y in rows && Left(run, y, k) ==> y == x
  }

  lemma {:induction false} AllAlike(s: seq<Resource>, x: Resource)
    requires forall i :: 0 <= i < |s| ==> s[i] == x
    ensures multiset(s)[x] == |s|
  {
    if s != [] {
      AllAlike(s[1..], x);
      assert s == [s[0]] + s[1..];
    }
  }

  lemma SoleIsOnly(run: Run, rows: seq<Resource>, k: Kind, x: Resource)
    requires k in WANTED
    ensures Sole(run, rows, k, x) <==> RowsOf(run, rows, k) == [x]
  {
    hide RowsOf;
    var own := RowsOf(run, rows, k);
    RowsOfCounts(run, rows, k, x);
    forall y ensures y in own <==> y in rows && Left(run, y, k) {
      RowsOfMembers(run, rows, k, y);
    }
    if Sole(run, rows, k, x) {
      forall i | 0 <= i < |own| ensures own[i] == x {
        assert own[i] in own;
      }
      AllAlike(own, x);
      assert |own| == 1 && own[0] in own;
    }
    if own == [x] {
      assert x in own && multiset(own)[x] == 1;
    }
  }

  /** Each kind has one row left, the run owns it under its own name, and the three with a nonce have the
      same, or all are from before there were any. */
  ghost predicate Selectable(run: Run, rows: seq<Resource>, a: Resource, w: Resource, b: Resource, r: Resource) {
    && Sole(run, rows, ArtifactRoot, a) && a.status == Owned && a.name == run.artifactRoot
    && Sole(run, rows, Worktree, w) && w.status == Owned && w.name == run.worktreePath
    && Sole(run, rows, Branch, b) && b.status == Owned && b.name == run.workingBranch
    && Sole(run, rows, RemoteBranch, r) && r.status == Owned && r.name == run.workingBranch
    && w.nonce == b.nonce == r.nonce && !w.nonce.Unreadable?
  }

  /** Exactly such rows are selected, in cleaning order. */
  lemma SelectsIff(run: Run, rows: seq<Resource>)
    ensures Select(run, rows).Some? <==> exists a, w, b, r :: Selectable(run, rows, a, w, b, r)
    ensures forall a, w, b, r :: Selectable(run, rows, a, w, b, r) ==>
      Select(run, rows) == Some([a, w, r, b.(kind := LocalBranch)])
  {
    hide RowsOf, Sole;
    SolesOf(run, rows, ArtifactRoot);
    SolesOf(run, rows, Worktree);
    SolesOf(run, rows, Branch);
    SolesOf(run, rows, RemoteBranch);
    if Select(run, rows).Some? {
      OnlyRow(run, rows, ArtifactRoot);
      OnlyRow(run, rows, Worktree);
      OnlyRow(run, rows, Branch);
      OnlyRow(run, rows, RemoteBranch);
      var a, w := RowsOf(run, rows, ArtifactRoot)[0], RowsOf(run, rows, Worktree)[0];
      var b, r := RowsOf(run, rows, Branch)[0], RowsOf(run, rows, RemoteBranch)[0];
      assert Selectable(run, rows, a, w, b, r);
    }
    forall a, w, b, r | Selectable(run, rows, a, w, b, r)
      ensures Select(run, rows) == Some([a, w, r, b.(kind := LocalBranch)])
    {
      SoleIsLeft(run, rows, a, w, b, r);
    }
  }

  lemma SoleIsLeft(run: Run, rows: seq<Resource>, a: Resource, w: Resource, b: Resource, r: Resource)
    requires Selectable(run, rows, a, w, b, r)
    ensures a.kind == ArtifactRoot && w.kind == Worktree && b.kind == Branch && r.kind == RemoteBranch
  {
  }

  lemma SolesOf(run: Run, rows: seq<Resource>, k: Kind)
    requires k in WANTED
    ensures forall x :: Sole(run, rows, k, x) <==> RowsOf(run, rows, k) == [x]
    ensures |RowsOf(run, rows, k)| == 1 ==> Sole(run, rows, k, RowsOf(run, rows, k)[0])
  {
    hide RowsOf, Sole;
    forall x ensures Sole(run, rows, k, x) <==> RowsOf(run, rows, k) == [x] {
      SoleIsOnly(run, rows, k, x);
    }
  }

  /** Cleanup works on exactly these four resources of the run. */
  function Targets(run: Run): seq<Key> {
    [Key(ArtifactRoot, run.artifactRoot), Key(Worktree, run.worktreePath),
     Key(RemoteBranch, run.workingBranch), Key(LocalBranch, run.workingBranch)]
  }

  lemma SelectsTargets(run: Run, rows: seq<Resource>)
    requires Select(run, rows).Some?
    ensures var picked := Select(run, rows).value;
      |picked| == 4 && forall i :: 0 <= i < 4 ==> Key(picked[i].kind, picked[i].name) == Targets(run)[i]
  {
    RowsAreOfKind(run, rows, ArtifactRoot);
    RowsAreOfKind(run, rows, Worktree);
    RowsAreOfKind(run, rows, Branch);
    RowsAreOfKind(run, rows, RemoteBranch);
  }

  lemma {:induction false} RowsAreOfKind(run: Run, rows: seq<Resource>, k: Kind)
    ensures forall r :: r in RowsOf(run, rows, k) ==> r.kind == k
  {
    if rows != [] {
      RowsAreOfKind(run, rows[1..], k);
    }
  }

  // ---------------------------------------------------------------- what cleanup must keep

  datatype Key = Key(kind: Kind, name: string)

  datatype Status = Intent | FailedStatus | Deleted | Retained | Synced | SkippedAttention

  datatype Event =
    | Persist(key: Key, status: Status)
    | Delete(key: Key)
    | Sync
    | Attend
    | Complete

  /** The records, the keys whose delete or synchronisation was issued under their current intent, and how
      far the run is. */
  datatype Ledger = Ledger(records: map<Key, Status>, issued: set<Key>, attended: bool, completed: bool)

  const SOURCE := Key(SourceCheckout, SOURCE_CHECKOUT)

  predicate Done(records: map<Key, Status>, k: Key) {
    k in records && (records[k] == Deleted || records[k] == Retained)
  }

  predicate Settled(l: Ledger, k: Key) {
    Done(l.records, k)
  }

  predicate Reconciled(l: Ledger) {
    SOURCE in l.records && (l.records[SOURCE] == Synced || (l.records[SOURCE] == SkippedAttention && l.attended))
  }

  /** A delete, or a source synchronisation, needs its intent persisted and not yet settled; a deletion
      is recorded only after it was issued; a settled record is never written again; the run completes
      only when everything is settled. */
  function Step(run: Run, l: Ledger, e: Event): Option<Ledger> {
    if l.completed then None
    else
      match e
      case Persist(key, status) =>
        if Settled(l, key) || (key in l.records && l.records[key] in {Synced, SkippedAttention}) then None
        else if status != Intent && !(key in l.records && l.records[key] == Intent) then None
        else if status == Deleted && (key !in l.issued || key == SOURCE) then None
        else if key == SOURCE && status != Intent && key !in l.issued then None
        else if status == Retained && key.kind != ArtifactRoot then None
        else
          var issued := if status == Intent then l.issued - {key} else l.issued;
          Some(l.(records := l.records[key := status], issued := issued))
      case Delete(key) =>
        if !(key in l.records && l.records[key] == Intent) || key !in Targets(run) then None
        else if key.kind in {RemoteBranch, LocalBranch} && key.name == run.baseBranch then None
        else Some(l.(issued := l.issued + {key}))
      case Sync =>
        if SOURCE in l.records && l.records[SOURCE] == Intent then Some(l.(issued := l.issued + {SOURCE})) else None
      case Attend =>
        if SOURCE in l.records && l.records[SOURCE] == SkippedAttention then Some(l.(attended := true)) else None
      case Complete =>
        if Reconciled(l) && forall k :: k in Targets(run) ==> Settled(l, k) then Some(l.(completed := true)) else None
  }

  function Follow(run: Run, trace: seq<Event>): Option<Ledger> {
    if trace == [] then Some(Ledger(map[], {}, false, false))
    else
      var before := Follow(run, trace[..|trace| - 1]);
      if before.None? then None else Step(run, before.value, trace[|trace| - 1])
  }

  lemma {:induction false} FollowPrefix(run: Run, trace: seq<Event>, k: nat)
    requires k <= |trace| && Follow(run, trace).Some?
    ensures Follow(run, trace[..k]).Some?
    ensures k < |trace| ==> Step(run, Follow(run, trace[..k]).value, trace[k]).Some?
  {
    if k < |trace| {
      FollowPrefix(run, trace[..|trace| - 1], k);
      assert trace[..|trace| - 1][..k] == trace[..k];
    } else {
      assert trace[..k] == trace;
    }
  }

  lemma {:induction false} SettledStays(run: Run, trace: seq<Event>, i: nat, key: Key)
    requires Follow(run, trace).Some? && i <= |trace|
    requires Follow(run, trace[..i]).Some? && Settled(Follow(run, trace[..i]).value, key)
    ensures Settled(Follow(run, trace).value, key)
    decreases |trace| - i
  {
    if i < |trace| {
      FollowPrefix(run, trace, i + 1);
      assert trace[..i + 1][..i] == trace[..i];
      SettledStays(run, trace, i + 1, key);
    } else {
      assert trace[..i] == trace;
    }
  }

  /** The last record of a key is what the ledger says. */
  lemma {:induction false} LastRecord(run: Run, trace: seq<Event>, key: Key)
    requires Follow(run, trace).Some? && key in Follow(run, trace).value.records
    ensures exists i :: 0 <= i < |trace| && trace[i] == Persist(key, Follow(run, trace).value.records[key])
              && forall j :: i < j < |trace| ==> !(trace[j].Persist? && trace[j].key == key)
  {
    var last := trace[|trace| - 1];
    if last.Persist? && last.key == key {
      assert trace[|trace| - 1] == Persist(key, Follow(run, trace).value.records[key]);
    } else {
      var front := trace[..|trace| - 1];
      LastRecord(run, front, key);
      var i :| 0 <= i < |front| && front[i] == Persist(key, Follow(run, front).value.records[key])
        && forall j :: i < j < |front| ==> !(front[j].Persist? && front[j].key == key);
      assert trace[i] == front[i];
    }
  }

  /** Every delete follows its persisted intent, with no other record of the resource in between. */
  lemma DeletesFollowIntent(run: Run, trace: seq<Event>, k: nat)
    requires Follow(run, trace).Some? && k < |trace| && trace[k].Delete?
    ensures exists i :: 0 <= i < k && trace[i] == Persist(trace[k].key, Intent)
              && forall j :: i < j < k ==> !(trace[j].Persist? && trace[j].key == trace[k].key)
  {
    FollowPrefix(run, trace, k);
    var front := trace[..k];
    LastRecord(run, front, trace[k].key);
    var i :| 0 <= i < |front| && front[i] == Persist(trace[k].key, Intent)
      && forall j :: i < j < |front| ==> !(front[j].Persist? && front[j].key == trace[k].key);
    assert trace[i] == front[i];
    forall j | i < j < k ensures !(trace[j].Persist? && trace[j].key == trace[k].key) {
      assert front[j] == trace[j];
    }
  }

  /** A delete is never issued again once its deletion is recorded, and never names the base branch. */
  lemma DeletesAreFinal(run: Run, trace: seq<Event>, i: nat, k: nat)
    requires Follow(run, trace).Some? && i < k < |trace| && trace[k].Delete?
    ensures trace[i] != Persist(trace[k].key, Deleted) && trace[i] != Persist(trace[k].key, Retained)
    ensures trace[k].key.kind in {RemoteBranch, LocalBranch} ==> trace[k].key.name != run.baseBranch
  {
    FollowPrefix(run, trace, k);
    if trace[i] == Persist(trace[k].key, Deleted) || trace[i] == Persist(trace[k].key, Retained) {
      FollowPrefix(run, trace, i + 1);
      FollowPrefix(run, trace, i);
      assert trace[..i + 1][..i] == trace[..i];
      assert Settled(Follow(run, trace[..i + 1]).value, trace[k].key);
      assert trace[..k][..i + 1] == trace[..i + 1];
      SettledStays(run, trace[..k], i + 1, trace[k].key);
      assert false;
    }
  }

  /** A recorded deletion was issued under its intent; nothing but the artifact root is retained. */
  lemma {:induction false} DeletedWasIssued(run: Run, trace: seq<Event>, key: Key)
    requires Follow(run, trace).Some? && Settled(Follow(run, trace).value, key)
    ensures key.kind == ArtifactRoot || exists i :: 0 <= i < |trace| && trace[i] == Delete(key)
  {
    DeletedIsIssued(run, trace, key);
    if key.kind != ArtifactRoot {
      IssuedWasDeleted(run, trace, key);
    }
  }

  lemma {:induction false} DeletedIsIssued(run: Run, trace: seq<Event>, key: Key)
    requires Follow(run, trace).Some? && Settled(Follow(run, trace).value, key)
    ensures Follow(run, trace).value.records[key] == Deleted ==> key in Follow(run, trace).value.issued && key != SOURCE
    ensures Follow(run, trace).value.records[key] == Retained ==> key.kind == ArtifactRoot
  {
    var front := trace[..|trace| - 1];
    if Settled(Follow(run, front).value, key) {
      DeletedIsIssued(run, front, key);
    }
  }

  lemma {:induction false} IssuedWasDeleted(run: Run, trace: seq<Event>, key: Key)
    requires Follow(run, trace).Some? && key in Follow(run, trace).value.issued
    ensures exists i :: 0 <= i < |trace| && (trace[i] == Delete(key) || (key == SOURCE && trace[i] == Sync))
  {
    var front := trace[..|trace| - 1];
    if key in Follow(run, front).value.issued {
      IssuedWasDeleted(run, front, key);
      var i :| 0 <= i < |front| && (front[i] == Delete(key) || (key == SOURCE && front[i] == Sync));
      assert trace[i] == front[i];
    } else {
      assert trace[|trace| - 1] == Delete(key) || (key == SOURCE && trace[|trace| - 1] == Sync);
    }
  }

  /** A recorded synchronisation, or one that was skipped, was asked for under its intent. */
  lemma {:induction false} SyncedWasIssued(run: Run, trace: seq<Event>)
    requires Follow(run, trace).Some? && Reconciled(Follow(run, trace).value)
    ensures exists i :: 0 <= i < |trace| && trace[i] == Sync
  {
    SourceIsIssued(run, trace);
    IssuedWasDeleted(run, trace, SOURCE);
    if forall i :: 0 <= i < |trace| ==> trace[i] != Sync {
      var i :| 0 <= i < |trace| && trace[i] == Delete(SOURCE);
      FollowPrefix(run, trace, i);
      assert false;
    }
  }

  lemma {:induction false} SourceIsIssued(run: Run, trace: seq<Event>)
    requires Follow(run, trace).Some?
    ensures var l := Follow(run, trace).value;
      SOURCE in l.records && l.records[SOURCE] != Intent ==> SOURCE in l.issued
  {
    if trace != [] {
      SourceIsIssued(run, trace[..|trace| - 1]);
    }
  }

  /** A run whose working branch is its base branch can never complete: neither branch may be deleted. */
  lemma BaseBranchNeverCompletes(run: Run, trace: seq<Event>)
    requires Follow(run, trace).Some? && run.workingBranch == run.baseBranch
    ensures !Follow(run, trace).value.completed
  {
    if Follow(run, trace).value.completed {
      var key := Key(LocalBranch, run.workingBranch);
      CompletedIsSettled(run, trace);
      assert key == Targets(run)[3];
      DeletedWasIssued(run, trace, key);
      var i :| 0 <= i < |trace| && trace[i] == Delete(key);
      FollowPrefix(run, trace, i);
      assert false;
    }
  }

  // ---------------------------------------------------------------- the coordinator

  datatype Error = Conflict | Unavailable | Internal

  class Coordinator {
    const run: Run
    /** A calm run: nothing fails or stops, and every gate is open. */
    const calm: bool
    var records: map<Key, Status>
    var attended: bool
    var completed: bool
    ghost var issued: set<Key>
    ghost var trace: seq<Event>

    ghost predicate Valid()
      reads this
    {
      Follow(run, trace) == Some(Ledger(records, issued, attended, completed))
    }

    constructor (run: Run, calm: bool)
      ensures Valid() && this.run == run && this.calm == calm && !completed && trace == []
    {
      this.run, this.calm := run, calm;
      records, attended, completed, issued, trace := map[], false, false, {}, [];
    }

    /** The same run, as a later process finds it. */
    constructor Resumed(earlier: Coordinator, calm: bool)
      requires earlier.Valid() && earlier.ResourceStatuses()
      ensures Valid() && ResourceStatuses() && run == earlier.run && this.calm == calm
      ensures completed == earlier.completed && records == earlier.records
    {
      run, this.calm := earlier.run, calm;
      records, attended, completed := earlier.records, earlier.attended, earlier.completed;
      issued, trace := earlier.issued, earlier.trace;
    }

    ghost method Record(e: Event)
      requires Follow(run, trace).Some? && Step(run, Follow(run, trace).value, e).Some?
      modifies this`trace
      ensures trace == old(trace) + [e] && Follow(run, trace) == Step(run, old(Follow(run, trace).value), e)
    {
      assert (trace + [e])[..|trace|] == trace;
      trace := trace + [e];
    }

    /** UpsertCleanup, which may fail; the process may be stopped on either side of it. */
    method Upsert(key: Key, status: Status) returns (r: Reply<(), Error>)
      requires Valid() && Step(run, Ledger(records, issued, attended, completed), Persist(key, status)).Some?
      modifies this`records, this`issued, this`trace
      ensures Valid()
      ensures calm ==> r.Ok?
      ensures status != Intent ==> issued == old(issued)
      ensures r.Err? ==> r.error == Conflict && records == old(records) && trace == old(trace)
      ensures r.Ok? ==> records == old(records)[key := status] && trace == old(trace) + [Persist(key, status)]
      ensures records == old(records) || records == old(records)[key := status]
    {
      var stopped := Fails(calm);
      var failed := Fails(calm);
      if stopped || failed {
        return if stopped then Stopped else Err(Conflict);
      }
      Record(Persist(key, status));
      records := records[key := status];
      issued := if status == Intent then issued - {key} else issued;
      var stoppedAfter := Fails(calm);
      return if stoppedAfter then Stopped else Ok(());
    }

    /** SyncSourceCheckout. */
    method SyncSourceCheckout() returns (r: Reply<(), Error>)
      requires Valid() && !completed
      requires SOURCE !in records || records[SOURCE] in {Intent, FailedStatus, Synced, SkippedAttention}
      modifies this`records, this`attended, this`issued, this`trace
      ensures Valid()
      ensures forall k :: k != SOURCE ==>
        (k in records <==> k in old(records)) && (k in records ==> records[k] == old(records)[k])
      ensures SOURCE in records ==> records[SOURCE] in {Intent, FailedStatus, Synced, SkippedAttention}
      ensures calm ==> r.Ok?
      ensures r.Ok? ==> Reconciled(Ledger(records, issued, attended, completed))
      // It may be tried again exactly when a failed synchronisation was just put on record.
      ensures r.Err? ==> r.error == Conflict || r.error == Unavailable
      ensures r.Err? ==>
        (r.error == Unavailable <==> |trace| > |old(trace)| && trace[|trace| - 1] == Persist(SOURCE, FailedStatus))
      ensures old(Reconciled(Ledger(records, issued, attended, completed))) ==> records == old(records)
    {
      hide Follow, Targets;
      if SOURCE in records && records[SOURCE] == Synced {
        return Ok(());
      }
      if SOURCE in records && records[SOURCE] == SkippedAttention {
        r := PersistAttention();
        return;
      }
      var _ :- Upsert(SOURCE, Intent);
      Record(Sync);
      issued := issued + {SOURCE};
      var status := PortAnswer();
      var failed := Fails(calm);
      if failed || status !in {Synced, SkippedAttention, FailedStatus} {
        return Err(Conflict);
      }
      var _ :- Upsert(SOURCE, status);
      if status == SkippedAttention {
        r := PersistAttention();
        return;
      }
      return if status == FailedStatus then Err(Unavailable) else Ok(());
    }

    /** What the source port answers; in a calm run it settles one way or the other. */
    method PortAnswer() returns (status: Status)
      ensures calm ==> status == Synced || status == SkippedAttention
    {
      status := *;
      if calm && status != Synced {
        status := SkippedAttention;
      }
    }

    /** persistSourceCheckoutAttention. */
    method PersistAttention() returns (r: Reply<(), Error>)
      requires Valid() && !completed && SOURCE in records && records[SOURCE] == SkippedAttention
      modifies this`attended, this`trace
      ensures Valid() && (r.Ok? ==> attended) && (calm ==> r.Ok?)
      ensures r.Err? ==> r.error == Conflict && trace == old(trace)
    {
      var stopped := Fails(calm);
      var failed := Fails(calm);
      if stopped || failed {
        return if stopped then Stopped else Err(Conflict);
      }
      Record(Attend);
      attended := true;
      return Ok(());
    }

    /** The port call that deletes one resource: it may take effect or not, whatever it answers. */
    method DeleteResource(key: Key) returns (ok: bool)
      requires Valid() && !completed && key in Targets(run) && key.kind != ArtifactRoot && key in records
               && records[key] == Intent
      modifies this`issued, this`trace
      ensures ok ==> key in issued
      // No branch is deleted but the run's own, and never the base branch.
      ensures key.kind != Worktree && (key.name == run.baseBranch || key.name != run.workingBranch) ==>
        !ok && trace == old(trace)
      ensures Valid() && (calm ==> (ok <==> key.kind == Worktree || run.workingBranch != run.baseBranch))
    {
      if key.kind == RemoteBranch || key.kind == LocalBranch {
        if key.name == run.baseBranch || key.name != run.workingBranch {
          return false;
        }
      }
      Record(Delete(key));
      issued := issued + {key};
      var failed := Fails(calm);
      ok := !failed;
    }

    ghost predicate ResourceStatuses()
      reads this
    {
      && (forall k :: k in Targets(run) && k in records ==> records[k] in {Intent, FailedStatus, Deleted, Retained})
      && (SOURCE in records ==> records[SOURCE] in {Intent, FailedStatus, Synced, SkippedAttention})
    }

    /** One resource of CleanupOwned's loop: intent, delete, result. */
    method CleanResource(key: Key) returns (r: Reply<bool, Error>)
      requires Valid() && !completed && ResourceStatuses() && key in Targets(run)
               && !Settled(Ledger(records, issued, attended, completed), key)
      modifies this`records, this`issued, this`trace
      ensures Valid() && ResourceStatuses()
      ensures forall k :: k != key ==>
        (k in records <==> k in old(records)) && (k in records ==> records[k] == old(records)[k])
      ensures calm ==>
        r.Ok? && (r.value <==> key.kind in {ArtifactRoot, Worktree} || run.workingBranch != run.baseBranch)
      ensures r == Ok(true) ==> Settled(Ledger(records, issued, attended, completed), key)
      ensures r == Ok(false) ==> key in records && records[key] == FailedStatus
      ensures r.Err? ==> r.error == Conflict && !Settled(Ledger(records, issued, attended, completed), key)
    {
      hide Follow;
      var unsound := Fails(calm);
      if unsound {
        return Err(Conflict);
      }
      var _ :- Upsert(key, Intent);
      var status := Retained;
      if key.kind != ArtifactRoot {
        var ok := DeleteResource(key);
        status := if ok then Deleted else FailedStatus;
      }
      var _ :- Upsert(key, status);
      return Ok(status != FailedStatus);
    }

    /** The last attempt at a resource is on record as failed. */
    predicate Failed(k: Key)
      reads this
    {
      k in records && records[k] == FailedStatus
    }

    /** CleanupOwned: what is settled is left alone, one failure does not keep the others waiting. */
    method CleanupOwned(rows: seq<Resource>) returns (r: Reply<(), Error>)
      requires Valid() && !completed && ResourceStatuses()
      modifies this`records, this`issued, this`trace
      ensures Valid() && ResourceStatuses()
      ensures old(Reconciled(Ledger(records, issued, attended, completed))) ==>
        Reconciled(Ledger(records, issued, attended, completed))
      ensures calm && Select(run, rows).Some? && run.workingBranch != run.baseBranch ==> r.Ok?
      ensures calm ==> !r.Stopped?
      ensures Select(run, rows).None? ==> r == Err(Conflict) && trace == old(trace)
      // A partial failure leaves every resource either settled or on record as failed, and one at least so.
      ensures r.Err? ==> r.error == Conflict || r.error == Unavailable
      ensures r == Err(Conflict) && Select(run, rows).Some? ==>
        exists k :: k in Targets(run) && !Settled(Ledger(records, issued, attended, completed), k)
      ensures r == Err(Unavailable) ==> exists k :: k in Targets(run) && Failed(k)
      ensures r == Err(Unavailable) ==>
        forall k :: k in Targets(run) ==> Failed(k) || Settled(Ledger(records, issued, attended, completed), k)
      ensures completed == old(completed)
      ensures r.Ok? ==> forall k :: k in Targets(run) ==> Settled(Ledger(records, issued, attended, completed), k)
    {
      hide Follow, Step, Select;
      var selection := SelectCleanupResources(run, rows);
      if selection.None? {
        return Err(Conflict);
      }
      SelectsTargets(run, rows);
      var resources := selection.value;
      var partial := false;
      for i := 0 to |resources|
        invariant Valid() && ResourceStatuses()
        invariant SOURCE in old(records) ==> SOURCE in records && records[SOURCE] == old(records)[SOURCE]
        invariant calm && run.workingBranch != run.baseBranch ==> !partial
        invariant partial ==> exists j :: 0 <= j < i && Failed(Targets(run)[j])
        invariant forall j :: 0 <= j < i ==>
          (partial && Failed(Targets(run)[j])) || Settled(Ledger(records, issued, attended, completed), Targets(run)[j])
      {
        var key := Key(resources[i].kind, resources[i].name);
        assert key == Targets(run)[i];
        if !Done(records, key) {
          var cleaned :- CleanResource(key);
          partial := partial || !cleaned;
        }
      }
      assert forall k :: k in Targets(run) ==> exists j :: 0 <= j < 4 && Targets(run)[j] == k;
      if partial {
        return Err(Unavailable);
      }
      forall k | k in Targets(run) ensures Settled(Ledger(records, issued, attended, completed), k) {
        var j :| 0 <= j < |Targets(run)| && Targets(run)[j] == k;
      }
      return Ok(());
    }

    /** Cleanup: synchronise, clean, complete. */
    method Cleanup(rows: seq<Resource>) returns (r: Reply<(), Error>)
      requires Valid() && ResourceStatuses()
      modifies this
      ensures Valid() && ResourceStatuses() && (old(completed) ==> completed)
      ensures r.Ok? ==> completed && !old(completed)
      ensures completed != old(completed) ==> r.Ok?
      // A success takes a selection and a working branch of its own; in a calm run they are enough.
      ensures r.Ok? ==> Select(run, rows).Some? && run.workingBranch != run.baseBranch
      // Refused for conflict, it has touched no resource; for an internal error, everything is done but the
      // completion; and otherwise it can be tried again.
      ensures r == Err(Conflict) ==> forall k :: k != SOURCE ==>
        (k in records <==> k in old(records)) && (k in records ==> records[k] == old(records)[k])
      ensures r == Err(Internal) ==>
        && !completed && Reconciled(Ledger(records, issued, attended, completed))
        && forall k :: k in Targets(run) ==> Settled(Ledger(records, issued, attended, completed), k)
      ensures r == Err(Unavailable) ==>
        || (|trace| > |old(trace)| && trace[|trace| - 1] == Persist(SOURCE, FailedStatus))
        || (!completed && Reconciled(Ledger(records, issued, attended, completed))
            && (Select(run, rows).None?
                || exists k :: k in Targets(run) && !Settled(Ledger(records, issued, attended, completed), k)))
      ensures old(completed) ==> r == Err(Conflict) && trace == old(trace)
      ensures calm && !old(completed) ==> r.Ok? || r == Err(Unavailable)
      ensures calm ==> (r.Ok? <==> !old(completed) && Select(run, rows).Some? && run.workingBranch != run.baseBranch)
    {
      hide Select;
      var unauthorized := Fails(calm);
      var gateShut := Fails(calm);
      if completed || unauthorized || gateShut {
        return Err(Conflict);
      }
      var _ :- SyncSourceCheckout();
      var cleaned := CleanupOwned(rows);
      if !cleaned.Ok? {
        return if cleaned.Stopped? then Stopped else Err(Unavailable);
      }
      var stopped := Fails(calm);
      var failed := Fails(calm);
      if stopped || failed {
        return if stopped then Stopped else Err(Internal);
      }
      Record(Complete);
      completed := true;
      if run.workingBranch == run.baseBranch {
        BaseBranchNeverCompletes(run, trace);
      }
      return Ok(());
    }

    /** Any number of attempts, each stopped anywhere, over the rows in any order. */
    method Attempts(rows: seq<seq<Resource>>)
      requires Valid() && ResourceStatuses()
      modifies this
      ensures Valid() && ResourceStatuses()
      ensures completed ==> Reconciled(Ledger(records, issued, attended, completed))
      ensures completed ==> forall k :: k in Targets(run) ==> Settled(Ledger(records, issued, attended, completed), k)
    {
      for i := 0 to |rows|
        invariant Valid() && ResourceStatuses()
        invariant old(completed) ==> completed
      {
        var _ := Cleanup(rows[i]);
      }
      if completed {
        CompletedIsSettled(run, trace);
      }
    }
  }

  /** A completed run is reconciled, and all four of its resources are deleted or retained. */
  lemma CompletedIsSettled(run: Run, trace: seq<Event>)
    requires Follow(run, trace).Some? && Follow(run, trace).value.completed
    ensures Reconciled(Follow(run, trace).value)
    ensures forall k :: k in Targets(run) ==> Settled(Follow(run, trace).value, k)
  {
    var before := Follow(run, trace[..|trace| - 1]).value;
    assert !before.completed && trace[|trace| - 1] == Complete;
  }

  /** Recovery: after any number of attempts, each stopped anywhere, one calm attempt leaves the run
      completed, exactly unless its rows are unsound or its working branch is its base branch. */
  method CleanupAfter(earlier: Coordinator, attempts: seq<seq<Resource>>, rows: seq<Resource>)
    returns (recovered: Coordinator)
    requires earlier.Valid() && earlier.ResourceStatuses()
    modifies earlier
    ensures recovered.Valid() && recovered.run == earlier.run
    ensures recovered.completed <==>
      earlier.completed || (Select(earlier.run, rows).Some? && earlier.run.workingBranch != earlier.run.baseBranch)
  {
    earlier.Attempts(attempts);
    recovered := new Coordinator.Resumed(earlier, true);
    var _ := recovered.Cleanup(rows);
  }
}
