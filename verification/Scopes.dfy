/** The scopes a requester is granted over a collection of runs
    (internal/application/authorization.go). */
module Scopes {
  import opened Outcomes
  import opened Texts

  /** A GitHub user; logins are taken as already folded to one case. */
  datatype Identity = Identity(login: string, databaseId: int, nodeId: string, actorType: string)

  predicate ValidIdentity(i: Identity) {
    && !BlankText(i.login) && i.databaseId >= 1 && !BlankText(i.nodeId) && i.actorType == "User"
    && NulFree(i.login) && NulFree(i.nodeId)
  }

  predicate SameIdentity(a: Identity, b: Identity) {
    ValidIdentity(a) && ValidIdentity(b) && a == b
  }

  datatype Kind = Controller | Onboarding | Repository | Run

  datatype Scope = Scope(kind: Kind, id: string, authorityDigest: string, target: string)

  predicate ValidScope(s: Scope) {
    && !BlankText(s.id) && NulFree(s.id) && ValidDigest(s.authorityDigest)
    && (s.kind.Run? ==> !BlankText(s.target) && NulFree(s.target))
  }

  /** A scope names something, under a digest, and can be framed. */
  lemma ValidScopeIff(s: Scope)
    ensures ValidScope(s) <==>
      && (exists c :: c in s.id && !IsSpace(c)) && NUL !in s.id
      && |s.authorityDigest| == 64 && (forall c :: c in s.authorityDigest ==> IsHex(c))
      && (s.kind == Run ==> (exists c :: c in s.target && !IsSpace(c)) && NUL !in s.target)
  {
  }

  datatype RunAuthority = RunAuthority(
    runId: string, repository: string, bindingDigest: string, persistenceBinding: string,
    allowedLogins: seq<string>, trustedOperators: seq<Identity>)

  predicate ValidAuthority(a: RunAuthority) {
    && !BlankText(a.runId) && !BlankText(a.repository) && ValidDigest(a.bindingDigest)
    && a.allowedLogins != [] && a.trustedOperators != []
    && forall o :: o in a.trustedOperators ==> ValidIdentity(o)
  }

  function TargetBinding(a: RunAuthority): string {
    if a.persistenceBinding != "" then a.persistenceBinding else a.bindingDigest
  }

  /** The authority is valid and admits the requester. */
  predicate Admits(a: RunAuthority, requester: Identity) {
    && ValidAuthority(a)
    && requester.login in a.allowedLogins
    && exists o :: o in a.trustedOperators && SameIdentity(o, requester)
  }

  /** A complete GitHub user account. */
  predicate IsUser(i: Identity) {
    && i.actorType == "User" && i.databaseId > 0
    && (exists c :: c in i.login && !IsSpace(c)) && NUL !in i.login
    && (exists c :: c in i.nodeId && !IsSpace(c)) && NUL !in i.nodeId
  }

  /** What it takes for a run's authority to let a requester in: it is complete, all its operators are users,
      and the requester is one of them and logs in under an allowed name. */
  predicate Entitles(a: RunAuthority, requester: Identity) {
    && requester in a.trustedOperators && requester.login in a.allowedLogins
    && (forall o :: o in a.trustedOperators ==> IsUser(o))
    && (exists c :: c in a.runId && !IsSpace(c)) && (exists c :: c in a.repository && !IsSpace(c))
    && |a.bindingDigest| == 64 && (forall c :: c in a.bindingDigest ==> IsHex(c))
  }

  lemma AdmitsTheEntitled(a: RunAuthority, requester: Identity)
    ensures Admits(a, requester) <==> Entitles(a, requester)
  {
    forall o ensures ValidIdentity(o) <==> IsUser(o) {
    }
  }

  function RunScope(a: RunAuthority): Scope {
    Scope(Run, a.runId, a.bindingDigest, TargetBinding(a))
  }

  // ---------------------------------------------------------------- the order of scopes

  function Rank(k: Kind): nat {
    match k
    case Controller => 0
    case Onboarding => 1
    case Repository => 2
    case Run => 3
  }

  predicate SameKey(a: Scope, b: Scope) {
    a.kind == b.kind && a.id == b.id && a.authorityDigest == b.authorityDigest
  }

  /** By kind, id and authority digest; the target binding is not compared. */
  predicate KeyLe(a: Scope, b: Scope) {
    if a.kind != b.kind then Rank(a.kind) < Rank(b.kind)
    else if a.id != b.id then TextLe(a.id, b.id)
    else TextLe(a.authorityDigest, b.authorityDigest)
  }

  lemma KeyLeTotal(a: Scope, b: Scope)
    ensures KeyLe(a, b) || KeyLe(b, a)
    ensures KeyLe(a, b) && KeyLe(b, a) ==> SameKey(a, b)
    ensures SameKey(a, b) ==> KeyLe(a, b)
  {
    TextLeTotal(a.id, b.id);
    TextLeTotal(a.authorityDigest, b.authorityDigest);
    if TextLe(a.id, b.id) && TextLe(b.id, a.id) {
      TextLeAntisymmetric(a.id, b.id);
    }
    if TextLe(a.authorityDigest, b.authorityDigest) && TextLe(b.authorityDigest, a.authorityDigest) {
      TextLeAntisymmetric(a.authorityDigest, b.authorityDigest);
    }
  }

  lemma KeyLeTransitive(a: Scope, b: Scope, c: Scope)
    requires KeyLe(a, b) && KeyLe(b, c)
    ensures KeyLe(a, c)
  {
    if a.kind == b.kind == c.kind {
      if a.id != b.id && b.id != c.id {
        TextLeTransitive(a.id, b.id, c.id);
        if a.id == c.id {
          TextLeAntisymmetric(a.id, b.id);
        }
      } else if a.id == b.id == c.id {
        TextLeTransitive(a.authorityDigest, b.authorityDigest, c.authorityDigest);
      }
    }
  }

  ghost predicate Sorted(s: seq<Scope>) {
    forall i, j :: 0 <= i < j < |s| ==> KeyLe(s[i], s[j])
  }

  function Insert(x: Scope, s: seq<Scope>): (r: seq<Scope>)
    ensures multiset(r) == multiset(s) + multiset{x}
  {
    if s == [] then [x]
    else if KeyLe(x, s[0]) then [x] + s
    else
      assert s == [s[0]] + s[1..];
      [s[0]] + Insert(x, s[1..])
  }

  lemma {:induction false} InsertSorted(x: Scope, s: seq<Scope>)
    requires Sorted(s)
    ensures Sorted(Insert(x, s))
  {
    if s != [] {
      KeyLeTotal(x, s[0]);
      if KeyLe(x, s[0]) {
        forall j | 0 <= j < |s| ensures KeyLe(x, s[j]) {
          if j > 0 {
            KeyLeTransitive(x, s[0], s[j]);
          }
        }
      } else {
        InsertSorted(x, s[1..]);
        var r := Insert(x, s[1..]);
        forall j | 0 <= j < |r| ensures KeyLe(s[0], r[j]) {
          assert r[j] in multiset(s[1..]) + multiset{x};
          if r[j] != x {
            assert r[j] in s[1..];
          }
        }
      }
    }
  }

  /** slices.SortFunc: some sorted permutation. It is not stable, so callers know no more. */
  method SortScopes(scopes: seq<Scope>) returns (sorted: seq<Scope>)
    ensures Sorted(sorted) && multiset(sorted) == multiset(scopes)
  {
    sorted := [];
    for i := 0 to |scopes|
      invariant Sorted(sorted) && multiset(sorted) == multiset(scopes[..i])
    {
      assert scopes[..i + 1] == scopes[..i] + [scopes[i]];
      InsertSorted(scopes[i], sorted);
      sorted := Insert(scopes[i], sorted);
    }
    assert scopes[..|scopes|] == scopes;
  }

  function Compact(s: seq<Scope>): seq<Scope> {
    if |s| <= 1 then s
    else if s[0] == s[1] then Compact(s[1..])
    else [s[0]] + Compact(s[1..])
  }

  lemma {:induction false} CompactKeeps(s: seq<Scope>)
    ensures s != [] ==> Compact(s) != [] && Compact(s)[0] == s[0]
    ensures forall x :: x in Compact(s) <==> x in s
    ensures |Compact(s)| <= |s|
  {
    if |s| > 1 {
      CompactKeeps(s[1..]);
      assert s == [s[0]] + s[1..];
    }
  }

  /** slices.Compact. */
  method CompactScopes(s: seq<Scope>) returns (r: seq<Scope>)
    ensures r == Compact(s)
  {
    r := [];
    var i: nat := |s|;
    assert s[i..] == [];
    while i > 0
      invariant i <= |s| && r == Compact(s[i..])
    {
      i := i - 1;
      CompactKeeps(s[i + 1..]);
      assert s[i..][1..] == s[i + 1..];
      if i + 1 == |s| || s[i] != s[i + 1] {
        r := [s[i]] + r;
      }
    }
    assert s[0..] == s;
  }

  // ---------------------------------------------------------------- one canonical form

  function Elements(s: seq<Scope>): set<Scope> {
    set x | x in s
  }

  /** No two scopes differ in their target binding alone. */
  ghost predicate OneTarget(scopes: set<Scope>) {
    forall a, b :: a in scopes && b in scopes && SameKey(a, b) ==> a == b
  }

  ghost predicate StrictlySorted(s: seq<Scope>) {
    forall i, j :: 0 <= i < j < |s| ==> KeyLe(s[i], s[j]) && !SameKey(s[i], s[j])
  }

  lemma KeyBetween(a: Scope, b: Scope, c: Scope)
    requires KeyLe(a, b) && KeyLe(b, c) && SameKey(a, c)
    ensures SameKey(a, b)
  {
    KeyLeTotal(c, a);
    KeyLeTransitive(b, c, a);
    KeyLeTotal(a, b);
  }

  lemma {:induction false} CompactSorts(s: seq<Scope>)
    requires Sorted(s) && OneTarget(Elements(s))
    ensures StrictlySorted(Compact(s))
  {
    if |s| > 1 {
      var tail := s[1..];
      assert Elements(tail) <= Elements(s);
      CompactSorts(tail);
      CompactKeeps(tail);
      if s[0] != s[1] {
        HeadApart(s);
      }
    }
  }

  lemma HeadApart(s: seq<Scope>)
    requires Sorted(s) && OneTarget(Elements(s)) && |s| > 1 && s[0] != s[1]
    ensures forall x :: x in s[1..] ==> KeyLe(s[0], x) && !SameKey(s[0], x)
    ensures forall x :: x in Compact(s[1..]) ==> KeyLe(s[0], x) && !SameKey(s[0], x)
  {
    CompactKeeps(s[1..]);
    assert s[0] in Elements(s) && s[1] in Elements(s);
    KeyLeTotal(s[1], s[1]);
    forall x | x in s[1..] ensures KeyLe(s[0], x) && !SameKey(s[0], x) {
      var k :| 0 <= k < |s[1..]| && s[1..][k] == x;
      assert x == s[k + 1];
      assert KeyLe(s[1], x);
      if SameKey(s[0], x) {
        KeyBetween(s[0], s[1], x);
      }
    }
  }

  lemma HeadIsLeast(s: seq<Scope>, x: Scope)
    requires StrictlySorted(s) && x in Elements(s)
    ensures KeyLe(s[0], x) && (SameKey(s[0], x) ==> s[0] == x)
  {
    var i :| 0 <= i < |s| && s[i] == x;
    KeyLeTotal(x, x);
  }

  /** A strictly sorted sequence is determined by its elements. */
  lemma {:induction false} StrictlySortedUnique(s: seq<Scope>, t: seq<Scope>)
    requires StrictlySorted(s) && StrictlySorted(t) && Elements(s) == Elements(t)
    ensures s == t
  {
    assert forall i :: 0 <= i < |s| ==> s[i] in Elements(s);
    assert forall i :: 0 <= i < |t| ==> t[i] in Elements(t);
    if s != [] && t != [] {
      HeadIsLeast(s, t[0]);
      HeadIsLeast(t, s[0]);
      KeyLeTotal(s[0], t[0]);
      TailElements(s);
      TailElements(t);
      StrictlySortedUnique(s[1..], t[1..]);
      assert s == [s[0]] + s[1..] && t == [t[0]] + t[1..];
    }
  }

  lemma TailElements(s: seq<Scope>)
    requires StrictlySorted(s) && s != []
    ensures StrictlySorted(s[1..]) && Elements(s[1..]) == Elements(s) - {s[0]}
  {
    forall x ensures x in Elements(s[1..]) <==> x in Elements(s) - {s[0]} {
      if x in s[1..] {
        var k :| 0 <= k < |s[1..]| && s[1..][k] == x;
        assert s[k + 1] == x && !SameKey(s[0], s[k + 1]);
      }
      if x in s && x != s[0] {
        var k :| 0 <= k < |s| && s[k] == x;
        assert s[1..][k - 1] == x;
      }
    }
  }

  /** What newAuthorizedScopeSet may make of some scopes. */
  ghost predicate Canonical(result: seq<Scope>, scopes: seq<Scope>) {
    exists sorted :: Sorted(sorted) && multiset(sorted) == multiset(scopes) && result == Compact(sorted)
  }

  lemma CanonicalElements(result: seq<Scope>, scopes: seq<Scope>)
    requires Canonical(result, scopes)
    ensures Elements(result) == Elements(scopes)
  {
    var sorted :| Sorted(sorted) && multiset(sorted) == multiset(scopes) && result == Compact(sorted);
    CompactKeeps(sorted);
    assert forall x :: x in sorted <==> x in multiset(sorted);
    assert forall x :: x in scopes <==> x in multiset(scopes);
  }

  /** With one target binding per run id and authority digest the result depends on nothing but which
      scopes there are: not on their order, their number or how the sort breaks ties. */
  lemma CanonicalUnique(r: seq<Scope>, a: seq<Scope>, t: seq<Scope>, b: seq<Scope>)
    requires Canonical(r, a) && Canonical(t, b) && Elements(a) == Elements(b) && OneTarget(Elements(a))
    ensures r == t
  {
    CanonicalStrict(r, a);
    CanonicalStrict(t, b);
    CanonicalElements(r, a);
    CanonicalElements(t, b);
    StrictlySortedUnique(r, t);
  }

  lemma CanonicalStrict(r: seq<Scope>, a: seq<Scope>)
    requires Canonical(r, a) && OneTarget(Elements(a))
    ensures StrictlySorted(r)
  {
    var sorted :| Sorted(sorted) && multiset(sorted) == multiset(a) && r == Compact(sorted);
    assert forall x :: x in sorted <==> x in multiset(sorted);
    assert forall x :: x in a <==> x in multiset(a);
    assert Elements(sorted) == Elements(a);
    CompactSorts(sorted);
  }

  // ------------------------------------------------ and only then

  function Moved(s: seq<Scope>, first: nat, i: nat): (p: seq<Scope>)
    requires first <= i < |s|
    ensures |p| == |s| && p[first] == s[i]
    ensures forall k :: 0 <= k < |s| ==> p[k] == s[if first < k <= i then k - 1 else if k == first then i else k]
  {
    s[..first] + [s[i]] + s[first..i] + s[i + 1..]
  }

  lemma MovedElements(s: seq<Scope>, first: nat, i: nat)
    requires first <= i < |s|
    ensures multiset(Moved(s, first, i)) == multiset(s)
  {
    assert s == s[..first] + s[first..i] + [s[i]] + s[i + 1..];
  }

  lemma MovedSorted(s: seq<Scope>, first: nat, i: nat)
    requires Sorted(s) && first <= i < |s| && SameKey(s[first], s[i])
    ensures Sorted(Moved(s, first, i))
  {
    hide Moved;
    var p := Moved(s, first, i);
    forall j | first <= j < |s| ensures KeyLe(s[i], s[j]) {
      KeyLeTotal(s[i], s[first]);
      if first < j {
        assert KeyLe(s[first], s[j]);
        KeyLeTransitive(s[i], s[first], s[j]);
      }
    }
  }

  /** The first scope with a given key. */
  function FirstWith(s: seq<Scope>, key: Scope): Option<Scope> {
    if s == [] then None else if SameKey(s[0], key) then Some(s[0]) else FirstWith(s[1..], key)
  }

  lemma {:induction false} FirstWithCompact(s: seq<Scope>, key: Scope)
    ensures FirstWith(Compact(s), key) == FirstWith(s, key)
  {
    if |s| > 1 {
      FirstWithCompact(s[1..], key);
    }
  }

  lemma {:induction false} FirstWithAt(s: seq<Scope>, first: nat, key: Scope)
    requires first < |s| && SameKey(s[first], key)
    requires forall i :: 0 <= i < first ==> !SameKey(s[i], key)
    ensures FirstWith(s, key) == Some(s[first])
  {
    if first > 0 {
      FirstWithAt(s[1..], first - 1, key);
    }
  }

  function FirstAt(s: seq<Scope>, key: Scope): (n: nat)
    ensures n <= |s| && (n < |s| ==> SameKey(s[n], key))
    ensures forall k :: 0 <= k < n ==> !SameKey(s[k], key)
  {
    if s == [] || SameKey(s[0], key) then 0 else 1 + FirstAt(s[1..], key)
  }

  /** Whichever scope of a key there is, some run of the sort puts it first. */
  lemma SomeSortPutsFirst(scopes: seq<Scope>, x: Scope) returns (result: seq<Scope>)
    requires x in scopes
    ensures Canonical(result, scopes) && FirstWith(result, x) == Some(x)
  {
    hide Moved, Compact, Sorted;
    var sorted := SomeSort(scopes);
    assert x in multiset(sorted);
    var i :| 0 <= i < |sorted| && sorted[i] == x;
    var first := FirstAt(sorted, x);
    MovedElements(sorted, first, i);
    MovedSorted(sorted, first, i);
    var p := Moved(sorted, first, i);
    FirstWithAt(p, first, x);
    FirstWithCompact(p, x);
    result := Compact(p);
  }

  lemma {:induction false} SomeSort(scopes: seq<Scope>) returns (sorted: seq<Scope>)
    ensures Sorted(sorted) && multiset(sorted) == multiset(scopes)
  {
    if scopes == [] {
      sorted := [];
    } else {
      var tail := SomeSort(scopes[1..]);
      InsertSorted(scopes[0], tail);
      sorted := Insert(scopes[0], tail);
      assert scopes == [scopes[0]] + scopes[1..];
    }
  }

  /** The scope set is determined by its elements exactly when no two of them differ in their target
      binding alone. */
  lemma CanonicalIffOneTarget(scopes: seq<Scope>)
    ensures OneTarget(Elements(scopes)) <==> forall r, t :: Canonical(r, scopes) && Canonical(t, scopes) ==> r == t
  {
    if OneTarget(Elements(scopes)) {
      forall r, t | Canonical(r, scopes) && Canonical(t, scopes) ensures r == t {
        CanonicalUnique(r, scopes, t, scopes);
      }
    } else {
      var a, b :| a in Elements(scopes) && b in Elements(scopes) && SameKey(a, b) && a != b;
      var r := SomeSortPutsFirst(scopes, a);
      var t := SomeSortPutsFirst(scopes, b);
      SameFirst(r, a, b);
    }
  }

  lemma {:induction false} SameFirst(s: seq<Scope>, a: Scope, b: Scope)
    requires SameKey(a, b)
    ensures FirstWith(s, a) == FirstWith(s, b)
  {
    if s != [] {
      SameFirst(s[1..], a, b);
    }
  }

  // ---------------------------------------------------------------- the scope set

  /** An authorised scope set; its digest is injective on the requester and the scopes. */
  datatype ScopeSet = ScopeSet(requester: Identity, scopes: seq<Scope>)

  const CONTROLLER_ID := "local-controller"

  /** newAuthorizedScopeSet. */
  method NewScopeSet(requester: Identity, scopes: seq<Scope>) returns (r: Option<ScopeSet>)
    ensures r.Some? <==> ValidIdentity(requester) && scopes != [] && forall s :: s in scopes ==> ValidScope(s)
    ensures r.Some? ==> r.value.requester == requester && Canonical(r.value.scopes, scopes)
  {
    if !ValidIdentity(requester) || scopes == [] {
      return None;
    }
    for i := 0 to |scopes|
      invariant forall s :: s in scopes[..i] ==> ValidScope(s)
    {
      if !ValidScope(scopes[i]) {
        assert scopes[i] in scopes;
        return None;
      }
    }
    assert scopes[..|scopes|] == scopes;
    var sorted := SortScopes(scopes);
    var compact := CompactScopes(sorted);
    return Some(ScopeSet(requester, compact));
  }

  /** The scopes the authorities that admit the requester amount to. */
  function Grants(requester: Identity, digest: string, authorities: seq<RunAuthority>): set<Scope> {
    {Scope(Controller, CONTROLLER_ID, digest, "")} + set a | a in authorities && Admits(a, requester) :: RunScope(a)
  }

  /** ControllerRunScopes, for the configured operator. */
  method ControllerRunScopes(requester: Identity, digest: string, authorities: seq<RunAuthority>)
    returns (r: Option<ScopeSet>)
    requires ValidDigest(digest)
    ensures r.Some? <==>
      ValidIdentity(requester) && forall s :: s in Grants(requester, digest, authorities) ==> ValidScope(s)
    ensures r.Some? ==> r.value.requester == requester
    ensures r.Some? ==>
      exists scopes :: Elements(scopes) == Grants(requester, digest, authorities) && Canonical(r.value.scopes, scopes)
  {
    var controller := Scope(Controller, CONTROLLER_ID, digest, "");
    var scopes := [controller];
    for i := 0 to |authorities|
      invariant Elements(scopes) == Grants(requester, digest, authorities[..i])
      invariant scopes != []
    {
      GrantNext(requester, digest, authorities, i);
      if ValidAuthority(authorities[i]) {
        if Admits(authorities[i], requester) {
          ElementsNext(scopes, RunScope(authorities[i]));
          scopes := scopes + [RunScope(authorities[i])];
        }
      }
    }
    assert authorities[..|authorities|] == authorities;
    assert forall s :: s in scopes <==> s in Elements(scopes);
    r := NewScopeSet(requester, scopes);
  }

  lemma ElementsNext(s: seq<Scope>, x: Scope)
    ensures Elements(s + [x]) == Elements(s) + {x}
  {
  }

  lemma GrantNext(requester: Identity, digest: string, authorities: seq<RunAuthority>, i: nat)
    requires i < |authorities|
    ensures Grants(requester, digest, authorities[..i + 1]) ==
      Grants(requester, digest, authorities[..i])
        + if Admits(authorities[i], requester) then {RunScope(authorities[i])} else {}
  {
    assert forall a :: a in authorities[..i + 1] <==> a in authorities[..i] || a == authorities[i];
  }

  // ---------------------------------------------------------------- what the set allows

  predicate AllowsRepositoryBinding(s: ScopeSet, digest: string) {
    exists x :: x in s.scopes && x.kind.Repository? && x.authorityDigest == digest
  }

  predicate AllowsRun(s: ScopeSet, runId: string, binding: string) {
    || AllowsRepositoryBinding(s, binding)
    || exists x :: x in s.scopes && x.kind.Run? && x.id == runId && x.target == binding
  }

  datatype Target = Target(kind: Kind, id: string, binding: string)

  const CONTROLLER_TARGETS: set<string> := {"controller-configuration", "controller-integrity"}

  /** AllowsOperationTarget. */
  predicate AllowsOperationTarget(s: ScopeSet, t: Target) {
    if s.scopes == [] || BlankText(t.id) || !ValidDigest(t.binding) then false
    else if t.kind.Run? then AllowsRun(s, t.id, t.binding)
    else if t.kind.Controller? && t.id in CONTROLLER_TARGETS then exists x :: x in s.scopes && x.kind.Controller?
    else exists x :: x in s.scopes && x.kind == t.kind && x.id == t.id && x.authorityDigest == t.binding
  }

  /** A run is allowed by its own scope, or through the scope of the repository it is bound to. */
  lemma AllowsRunIff(s: ScopeSet, runId: string, binding: string)
    ensures AllowsRun(s, runId, binding) <==>
      exists x :: x in s.scopes
        && match x.kind
           case Run => x.id == runId && x.target == binding
           case Repository => x.authorityDigest == binding
           case _ => false
  {
  }

  /** The run a scope stands for, under the binding that was frozen for it. */
  predicate Frozen(a: RunAuthority, runId: string, binding: string) {
    a.runId == runId && binding == if a.persistenceBinding == "" then a.bindingDigest else a.persistenceBinding
  }

  /** A controller run collection allows exactly the runs whose authority entitles the requester, each under
      its own binding. */
  lemma AllowsExactlyAdmittedRuns(s: ScopeSet, requester: Identity, digest: string, authorities: seq<RunAuthority>,
                                  scopes: seq<Scope>, runId: string, binding: string)
    requires Elements(scopes) == Grants(requester, digest, authorities) && Canonical(s.scopes, scopes)
    ensures AllowsRun(s, runId, binding) <==>
      exists a :: a in authorities && Entitles(a, requester) && Frozen(a, runId, binding)
  {
    hide Admits, Entitles;
    CanonicalElements(s.scopes, scopes);
    forall a ensures Admits(a, requester) <==> Entitles(a, requester) {
      AdmitsTheEntitled(a, requester);
    }
    assert forall x :: x in s.scopes <==> x in Elements(s.scopes);
    if a :| a in authorities && Entitles(a, requester) && Frozen(a, runId, binding) {
      assert RunScope(a) in Grants(requester, digest, authorities);
    }
  }

  /** Beside runs it allows the controller's own targets under any binding and its own scope, and nothing of
      any repository or onboarding. */
  lemma AllowsOnlyController(s: ScopeSet, requester: Identity, digest: string, authorities: seq<RunAuthority>,
                             scopes: seq<Scope>, t: Target)
    requires Elements(scopes) == Grants(requester, digest, authorities) && Canonical(s.scopes, scopes)
    requires !t.kind.Run?
    ensures AllowsOperationTarget(s, t) <==>
      && t.kind.Controller? && ValidDigest(t.binding)
      && (t.id in {"controller-configuration", "controller-integrity"}
          || (t.id == CONTROLLER_ID && t.binding == digest))
    ensures !AllowsRepositoryBinding(s, t.binding)
  {
    hide Admits, BlankText, ValidDigest, Canonical;
    CanonicalElements(s.scopes, scopes);
    assert forall x :: x in s.scopes <==> x in Elements(s.scopes);
    var controller := Scope(Controller, CONTROLLER_ID, digest, "");
    assert controller in Grants(requester, digest, authorities);
    OwnTargetsAreNamed(t.id);
  }

  lemma OwnTargetsAreNamed(id: string)
    ensures id in CONTROLLER_TARGETS + {CONTROLLER_ID} ==> !BlankText(id)
  {
    assert !IsSpace('o') && 'o' in "controller-configuration" && 'o' in "controller-integrity" && 'o' in CONTROLLER_ID;
  }

  /** The grants are refused exactly for a run whose id or binding cannot be framed. */
  lemma GrantsAreValid(requester: Identity, digest: string, authorities: seq<RunAuthority>)
    requires ValidDigest(digest)
    ensures (forall s :: s in Grants(requester, digest, authorities) ==> ValidScope(s)) <==>
      forall a :: a in authorities && Admits(a, requester) ==>
        NUL !in a.runId && NUL !in TargetBinding(a) && !BlankText(TargetBinding(a))
  {
    hide Admits, ValidScope, BlankText;
    forall a | a in authorities && Admits(a, requester)
      ensures RunScope(a) in Grants(requester, digest, authorities)
      ensures ValidScope(RunScope(a)) <==>
        NUL !in a.runId && NUL !in TargetBinding(a) && !BlankText(TargetBinding(a))
    {
      AdmitsValid(a, requester);
    }
    ControllerIsValid(digest);
  }

  lemma ControllerIsValid(digest: string)
    requires ValidDigest(digest)
    ensures ValidScope(Scope(Controller, CONTROLLER_ID, digest, ""))
  {
    assert 'l' in CONTROLLER_ID && !IsSpace('l');
  }

  lemma AdmitsValid(a: RunAuthority, requester: Identity)
    requires Admits(a, requester)
    ensures ValidAuthority(a)
    ensures ValidScope(RunScope(a)) <==>
      NUL !in a.runId && NUL !in TargetBinding(a) && !BlankText(TargetBinding(a))
  {
  }

  /** Order, duplicates and rows that are invalid or admit someone else change neither the scopes nor,
      with them, the digest. */
  lemma SiblingsDoNotMatter(s: ScopeSet, t: ScopeSet, requester: Identity, digest: string,
                            a: seq<RunAuthority>, b: seq<RunAuthority>, scopesA: seq<Scope>, scopesB: seq<Scope>)
    requires forall x :: Admits(x, requester) ==> (x in a <==> x in b)
    requires s.requester == t.requester == requester
    requires Elements(scopesA) == Grants(requester, digest, a) && Canonical(s.scopes, scopesA)
    requires Elements(scopesB) == Grants(requester, digest, b) && Canonical(t.scopes, scopesB)
    requires OneTarget(Grants(requester, digest, a))
    ensures s == t
  {
    assert Grants(requester, digest, a) == Grants(requester, digest, b);
    CanonicalUnique(s.scopes, scopesA, t.scopes, scopesB);
  }

  /** An operation on a run is allowed for the same runs, given a binding that is a digest. */
  lemma AllowsOperationsOnAdmittedRuns(s: ScopeSet, requester: Identity, digest: string,
                                       authorities: seq<RunAuthority>, scopes: seq<Scope>,
                                       runId: string, binding: string)
    requires Elements(scopes) == Grants(requester, digest, authorities) && Canonical(s.scopes, scopes)
    ensures AllowsOperationTarget(s, Target(Run, runId, binding)) <==>
      && ValidDigest(binding)
      && exists a :: a in authorities && Entitles(a, requester) && Frozen(a, runId, binding)
  {
    AllowsExactlyAdmittedRuns(s, requester, digest, authorities, scopes, runId, binding);
  }
}
