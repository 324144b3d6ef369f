/** Validating the topology of a team package (scr/team.py, `_validate_forest`). */
module Forest {
  import opened Basics
  import opened Capability
  import opened Orchestration

  datatype AgentSpec = AgentSpec(manifest: Manifest, delegates: seq<string>, required: seq<string>)

  type Specs = map<string, AgentSpec>

  // ------------------------------------------------------------- what a forest is

  predicate Distinct(s: seq<string>) {
    forall i, j :: 0 <= i < j < |s| ==> s[i] != s[j]
  }

  predicate Closed(specs: Specs) {
    forall n, k :: n in specs && k in specs[n].delegates ==> k in specs
  }

  predicate NoRepeatedChild(specs: Specs) {
    forall n :: n in specs ==> Distinct(specs[n].delegates)
  }

  predicate IsRoute(specs: Specs, p: seq<string>) {
    p != [] && forall i :: 0 <= i < |p| - 1 ==> p[i] in specs && p[i + 1] in specs[p[i]].delegates
  }

  /** A way down from one of the roots to n. */
  predicate Route(specs: Specs, roots: seq<string>, p: seq<string>, n: string) {
    IsRoute(specs, p) && p[0] in roots && p[|p| - 1] == n
  }

  /** Disjoint trees, one per root, covering every agent: each agent has exactly one way down. */
  ghost predicate IsForest(specs: Specs, roots: seq<string>) {
    && Closed(specs) && NoRepeatedChild(specs)
    && Distinct(roots) && (forall r :: r in roots ==> r in specs)
    && (forall n :: n in specs ==> exists p :: Route(specs, roots, p, n))
    && (forall n, p, q :: n in specs && Route(specs, roots, p, n) && Route(specs, roots, q, n) ==> p == q)
  }

  // ------------------------------------------------- unique parents and the frontier

  predicate Parent(specs: Specs, n: string, k: string) {
    n in specs && k in specs[n].delegates
  }

  ghost predicate OneParent(specs: Specs) {
    && NoRepeatedChild(specs)
    && forall m, n, k :: Parent(specs, m, k) && Parent(specs, n, k) ==> m == n
  }

  ghost predicate Parentless(specs: Specs, roots: seq<string>) {
    forall r, n :: r in roots ==> !Parent(specs, n, r)
  }

  lemma ExtendRoute(specs: Specs, roots: seq<string>, p: seq<string>, n: string, k: string)
    requires Route(specs, roots, p, n) && Parent(specs, n, k)
    ensures Route(specs, roots, p + [k], k)
  {
    var q := p + [k];
    forall i | 0 <= i < |q| - 1
      ensures q[i] in specs && q[i + 1] in specs[q[i]].delegates
    {
      if i < |p| - 1 {
        assert q[i] == p[i] && q[i + 1] == p[i + 1];
      }
    }
  }

  lemma RouteInit(specs: Specs, roots: seq<string>, p: seq<string>, n: string)
    requires Route(specs, roots, p, n) && |p| > 1
    ensures Route(specs, roots, p[..|p| - 1], p[|p| - 2]) && Parent(specs, p[|p| - 2], n)
  {
    assert p[|p| - 2 + 1] in specs[p[|p| - 2]].delegates;
  }

  /** With unique parents and parentless roots there is at most one way down to anyone. */
  lemma {:induction false} RoutesAreUnique(specs: Specs, roots: seq<string>, p: seq<string>, q: seq<string>, n: string)
    requires OneParent(specs) && Parentless(specs, roots)
    requires Route(specs, roots, p, n) && Route(specs, roots, q, n)
    ensures p == q
    decreases |p|
  {
    if |p| > 1 {
      RouteInit(specs, roots, p, n);
    }
    if |q| > 1 {
      RouteInit(specs, roots, q, n);
    }
    if |p| > 1 && |q| > 1 {
      RoutesAreUnique(specs, roots, p[..|p| - 1], q[..|q| - 1], p[|p| - 2]);
      assert p == p[..|p| - 1] + [n] && q == q[..|q| - 1] + [n];
    }
  }

  lemma ForestRoutesAgree(specs: Specs, roots: seq<string>, p: seq<string>, q: seq<string>, n: string)
    requires IsForest(specs, roots) && n in specs && Route(specs, roots, p, n) && Route(specs, roots, q, n)
    ensures p == q
  {
  }

  lemma ForestParentsAgree(specs: Specs, roots: seq<string>, m: string, n: string, k: string)
    requires IsForest(specs, roots) && Parent(specs, m, k) && Parent(specs, n, k)
    ensures m == n
  {
    hide IsRoute, Distinct;
    var p :| Route(specs, roots, p, m);
    var q :| Route(specs, roots, q, n);
    ExtendRoute(specs, roots, p, m, k);
    ExtendRoute(specs, roots, q, n, k);
    hide IsForest, Route;
    ForestRoutesAgree(specs, roots, p + [k], q + [k], k);
    assert p == (p + [k])[..|p|] && q == (q + [k])[..|q|];
  }

  lemma ForestRootsAreParentless(specs: Specs, roots: seq<string>, r: string, n: string)
    requires IsForest(specs, roots) && r in roots
    ensures !Parent(specs, n, r)
  {
    hide IsRoute, Distinct;
    if Parent(specs, n, r) {
      var p :| Route(specs, roots, p, n);
      ExtendRoute(specs, roots, p, n, r);
      SingleRoute(specs, roots, r);
      RouteIsNonempty(specs, roots, p, n);
      ForestRoutesAgree(specs, roots, p + [r], [r], r);
    }
  }

  lemma RouteIsNonempty(specs: Specs, roots: seq<string>, p: seq<string>, n: string)
    requires Route(specs, roots, p, n)
    ensures |p| > 0
  {
  }

  /** Conversely, in a forest parents are unique and roots have none. */
  lemma ForestHasOneParent(specs: Specs, roots: seq<string>)
    requires IsForest(specs, roots)
    ensures OneParent(specs) && Parentless(specs, roots)
  {
    hide Route, Distinct;
    forall m, n, k | Parent(specs, m, k) && Parent(specs, n, k)
      ensures m == n
    {
      ForestParentsAgree(specs, roots, m, n, k);
    }
    forall r, n | r in roots
      ensures !Parent(specs, n, r)
    {
      ForestRootsAreParentless(specs, roots, r, n);
    }
  }

  lemma SingleRoute(specs: Specs, roots: seq<string>, r: string)
    requires r in roots
    ensures Route(specs, roots, [r], r)
  {
  }

  /** The worklist invariant, the same for a stack and for a queue: what is done, and what is listed. */
  ghost predicate Frontier(specs: Specs, roots: seq<string>, done: set<string>, todo: seq<string>) {
    && Distinct(todo)
    && (forall t :: t in todo ==> t in specs && t !in done)
    && (forall t :: t in todo ==> t in roots || exists d :: d in done && Parent(specs, d, t))
    && (forall d :: d in done ==> d in specs && (d in roots || exists e :: e in done && Parent(specs, e, d)))
    && (forall d, k :: d in done && Parent(specs, d, k) ==> k in done || k in todo)
    && (forall t :: t in todo || t in done ==> exists p :: Route(specs, roots, p, t))
  }

  /** Taking one listed agent and listing its children keeps the frontier: no child was seen before. */
  lemma FrontierAdvances(specs: Specs, roots: seq<string>, done: set<string>, a: seq<string>, n: string, b: seq<string>)
    requires OneParent(specs) && Parentless(specs, roots) && Closed(specs)
    requires Frontier(specs, roots, done, a + [n] + b)
    ensures Frontier(specs, roots, done + {n}, a + b + specs[n].delegates)
  {
    hide IsRoute, Route;
    var todo, kids := a + [n] + b, specs[n].delegates;
    var todo', done' := a + b + kids, done + {n};
    assert todo[|a|] == n && n in todo;
    assert forall t :: t in a + b ==> t in todo;
    KidsAreNew(specs, roots, done, todo, n);
    NoLongerListed(a, n, b);
    DistinctJoin(a, n, b, kids);
    forall d, k | d in done' && Parent(specs, d, k)
      ensures k in done' || k in todo'
    {
      if d != n && k !in done && k != n {
        assert k in todo;
        assert k in a || k in b;
      }
    }
    forall t | t in todo'
      ensures t in roots || exists d :: d in done' && Parent(specs, d, t)
    {
      if t in kids {
        assert Parent(specs, n, t);
      } else {
        assert t in todo;
        if t !in roots {
          var d :| d in done && Parent(specs, d, t);
          assert d in done';
        }
      }
    }
    forall d | d in done'
      ensures d in specs && (d in roots || exists e :: e in done' && Parent(specs, e, d))
    {
      if d !in roots {
        var e :| e in done && Parent(specs, e, d);
        assert e in done';
      }
    }
    forall t | t in todo'
      ensures t in specs && t !in done'
    {
      if t in kids {
        assert Parent(specs, n, t);
      }
    }
    forall t | t in todo' || t in done'
      ensures exists p :: Route(specs, roots, p, t)
    {
      if t in kids {
        var p :| Route(specs, roots, p, n);
        ExtendRoute(specs, roots, p, n, t);
      } else {
        assert t in todo || t in done;
      }
    }
  }

  lemma KidsAreNew(specs: Specs, roots: seq<string>, done: set<string>, todo: seq<string>, n: string)
    requires OneParent(specs) && Parentless(specs, roots)
    requires Frontier(specs, roots, done, todo) && n in todo
    ensures forall k :: k in specs[n].delegates ==> k !in done && k !in todo && k != n
  {
    forall k | k in specs[n].delegates
      ensures k !in done && k !in todo && k != n
    {
      assert Parent(specs, n, k) && k !in roots;
      assert forall d :: d in done ==> !Parent(specs, d, k);
    }
  }

  lemma NoLongerListed(a: seq<string>, n: string, b: seq<string>)
    requires Distinct(a + [n] + b)
    ensures n !in a && n !in b
  {
    var s := a + [n] + b;
    assert s[|a|] == n;
    forall i | 0 <= i < |a|
      ensures a[i] != n
    {
      assert s[i] == a[i];
    }
    forall i | 0 <= i < |b|
      ensures b[i] != n
    {
      assert s[|a| + 1 + i] == b[i];
    }
  }

  lemma DistinctJoin(a: seq<string>, n: string, b: seq<string>, kids: seq<string>)
    requires Distinct(a + [n] + b) && Distinct(kids)
    requires forall k :: k in kids ==> k !in a + [n] + b
    ensures Distinct(a + b + kids)
  {
    var s, t := a + [n] + b, a + b + kids;
    var m := |a + b|;
    forall i, j | 0 <= i < j < |t|
      ensures t[i] != t[j]
    {
      var si := if i < |a| then i else i + 1;
      var sj := if j < |a| then j else j + 1;
      if j < m {
        assert t[i] == s[si] && t[j] == s[sj];
      } else if i < m {
        assert t[i] == s[si] && s[si] in s && t[j] == kids[j - m] && kids[j - m] in kids;
      } else {
        assert t[i] == kids[i - m] && t[j] == kids[j - m];
      }
    }
  }

  /** With an empty list, everything below what is done is done. */
  lemma {:induction false} DoneIsClosed(specs: Specs, roots: seq<string>, done: set<string>, p: seq<string>, n: string)
    requires Frontier(specs, roots, done, []) && Route(specs, roots, p, n)
    requires forall r :: r in roots ==> r in done
    ensures n in done
    decreases |p|
  {
    if |p| > 1 {
      RouteInit(specs, roots, p, n);
      DoneIsClosed(specs, roots, done, p[..|p| - 1], p[|p| - 2]);
    }
  }

  lemma FrontierStart(specs: Specs, roots: seq<string>, done: set<string>, root: string)
    requires Frontier(specs, roots, done, []) && root in roots && root in specs && root !in done
    ensures Frontier(specs, roots, done, [root])
  {
    hide IsRoute;
    SingleRoute(specs, roots, root);
  }

  lemma UncoveredIsNoForest(specs: Specs, roots: seq<string>, done: set<string>, n: string)
    requires Frontier(specs, roots, done, []) && n in specs && n !in done
    requires forall r :: r in roots ==> r in done
    ensures !IsForest(specs, roots)
  {
    forall p
      ensures !Route(specs, roots, p, n)
    {
      if Route(specs, roots, p, n) {
        DoneIsClosed(specs, roots, done, p, n);
      }
    }
  }

  lemma CoveredIsForest(specs: Specs, roots: seq<string>, done: set<string>)
    requires Closed(specs) && OneParent(specs) && Parentless(specs, roots) && Distinct(roots)
    requires forall r :: r in roots ==> r in specs
    requires Frontier(specs, roots, done, []) && forall n :: n in specs ==> n in done
    ensures IsForest(specs, roots)
  {
    hide Route;
    forall n, p, q | n in specs && Route(specs, roots, p, n) && Route(specs, roots, q, n)
      ensures p == q
    {
      RoutesAreUnique(specs, roots, p, q, n);
    }
  }

  // --------------------------------------------------------------- the validator

  datatype TopologyError =
    | UnknownDelegate | MultipleParents | NoSingleRoot | UnknownRoot | RootIsDelegate
    | Cycle | TwoTeams | Uncovered | Widening | UndeclaredRequired

  /** `order` lists the dictionary's keys in insertion order. */
  ghost predicate Listing(order: seq<string>, specs: Specs) {
    Distinct(order) && forall n :: n in order <==> n in specs
  }

  method DelegatesKnown(order: seq<string>, specs: Specs) returns (ok: bool)
    requires Listing(order, specs)
    ensures ok <==> Closed(specs)
  {
    for i := 0 to |order|
      invariant forall j, k :: 0 <= j < i && k in specs[order[j]].delegates ==> k in specs
    {
      var kids := specs[order[i]].delegates;
      for j := 0 to |kids|
        invariant forall l :: 0 <= l < j ==> kids[l] in specs
      {
        if kids[j] !in specs {
          assert kids[j] in specs[order[i]].delegates;
          return false;
        }
      }
    }
    return true;
  }

  /** What the parent dictionary knows after the agents in `names`. */
  ghost predicate Knows(specs: Specs, names: seq<string>, parentOf: map<string, string>) {
    && (forall k :: k in parentOf ==> parentOf[k] in names && Parent(specs, parentOf[k], k))
    && (forall n, k :: n in names && Parent(specs, n, k) ==> k in parentOf && parentOf[k] == n)
    && (forall n :: n in names ==> n in specs && Distinct(specs[n].delegates))
  }

  method AdoptKids(n: string, kids: seq<string>, known: map<string, string>)
    returns (ok: bool, parentOf: map<string, string>)
    ensures ok <==> Distinct(kids) && forall k :: k in kids ==> k !in known
    ensures ok ==> forall k :: k in parentOf <==> k in known || k in kids
    ensures ok ==> forall k :: k in parentOf ==> parentOf[k] == if k in kids then n else known[k]
  {
    hide Distinct;
    parentOf := known;
    NoneRepeats(kids);
    for j := 0 to |kids|
      invariant Distinct(kids[..j]) && forall l :: 0 <= l < j ==> kids[l] !in known
      invariant forall k :: k in parentOf <==> k in known || k in kids[..j]
      invariant forall k :: k in parentOf ==> parentOf[k] == if k in kids[..j] then n else known[k]
    {
      if kids[j] in parentOf {
        if kids[j] !in known {
          RepeatedRoot(kids, j);
        }
        return false, parentOf;
      }
      parentOf := parentOf[kids[j] := n];
      DistinctSnoc(kids, j);
    }
    assert kids[..|kids|] == kids;
    return true, parentOf;
  }

  lemma NoneRepeats(s: seq<string>)
    ensures Distinct(s[..0])
  {
  }

  method FindParents(order: seq<string>, specs: Specs) returns (ok: bool, parentOf: map<string, string>)
    requires Listing(order, specs)
    ensures ok <==> OneParent(specs)
    ensures ok ==> Knows(specs, order, parentOf)
  {
    parentOf := map[];
    for i := 0 to |order|
      invariant Knows(specs, order[..i], parentOf)
    {
      var n := order[i];
      ghost var known := parentOf;
      ok, parentOf := AdoptKids(n, specs[n].delegates, parentOf);
      if !ok {
        ClashRefutes(specs, order, i, known);
        return;
      }
      KnowsMore(specs, order, i, known, parentOf);
    }
    assert order[..|order|] == order;
    KnowsAll(specs, order, parentOf);
    ok := true;
  }

  lemma ClashRefutes(specs: Specs, order: seq<string>, i: nat, known: map<string, string>)
    requires Listing(order, specs) && i < |order| && Knows(specs, order[..i], known)
    requires !(Distinct(specs[order[i]].delegates) && forall k :: k in specs[order[i]].delegates ==> k !in known)
    ensures !OneParent(specs)
  {
    var n := order[i];
    if k :| k in specs[n].delegates && k in known {
      var m := known[k];
      var l :| 0 <= l < i && order[..i][l] == m;
      assert order[l] != order[i];
      assert Parent(specs, m, k) && Parent(specs, n, k);
    }
  }

  lemma KnowsMore(specs: Specs, order: seq<string>, i: nat, known: map<string, string>, parentOf: map<string, string>)
    requires Listing(order, specs) && i < |order| && Knows(specs, order[..i], known)
    requires var kids := specs[order[i]].delegates;
      && Distinct(kids) && (forall k :: k in kids ==> k !in known)
      && (forall k :: k in parentOf <==> k in known || k in kids)
      && (forall k :: k in parentOf ==> parentOf[k] == if k in kids then order[i] else known[k])
    ensures Knows(specs, order[..i + 1], parentOf)
  {
    hide Distinct;
    assert order[..i + 1] == order[..i] + [order[i]];
  }

  lemma KnowsAll(specs: Specs, order: seq<string>, parentOf: map<string, string>)
    requires Listing(order, specs) && Knows(specs, order, parentOf)
    ensures OneParent(specs)
  {
    hide Distinct;
    forall m, n, k | Parent(specs, m, k) && Parent(specs, n, k)
      ensures m == n
    {
      assert m in order && n in order;
    }
  }

  ghost predicate HasParent(specs: Specs, n: string) {
    exists d :: Parent(specs, d, n)
  }

  /** Earlier claims stand; every new one is for this root, and of the root or someone's child. */
  ghost predicate ClaimsFor(specs: Specs, root: string, owned: map<string, string>, owner: map<string, string>,
                            stack: seq<string>) {
    && (forall n :: n in owned ==> n in owner && owner[n] == owned[n])
    && (forall n :: n in owner && n !in owned ==> owner[n] == root && (n == root || HasParent(specs, n)))
    && (forall t :: t in stack ==> t == root || HasParent(specs, t))
  }

  lemma ClaimOne(specs: Specs, roots: seq<string>, root: string, owned: map<string, string>, owner: map<string, string>,
                 stack: seq<string>)
    requires Closed(specs) && OneParent(specs) && Parentless(specs, roots)
    requires stack != [] && Frontier(specs, roots, owner.Keys, stack) && ClaimsFor(specs, root, owned, owner, stack)
    ensures var n := stack[|stack| - 1];
      && n in specs && n !in owner
      && ClaimsFor(specs, root, owned, owner[n := root], stack[..|stack| - 1] + specs[n].delegates)
      && Frontier(specs, roots, owner[n := root].Keys, stack[..|stack| - 1] + specs[n].delegates)
  {
    hide Closed, OneParent, Parentless, Frontier, HasParent;
    var n, rest := stack[|stack| - 1], stack[..|stack| - 1];
    assert n in stack && stack == rest + [n] + [] && rest + [] == rest;
    ListedIsNew(specs, roots, owner.Keys, stack, n);
    FrontierAdvances(specs, roots, owner.Keys, rest, n, []);
    assert owner[n := root].Keys == owner.Keys + {n};
    forall t | t in rest + specs[n].delegates
      ensures t == root || HasParent(specs, t)
    {
      if t in specs[n].delegates {
        ChildHasParent(specs, n, t);
      } else {
        assert t in stack;
      }
    }
    if n != root {
      assert HasParent(specs, n);
    }
  }

  lemma ChildHasParent(specs: Specs, n: string, k: string)
    requires Parent(specs, n, k)
    ensures HasParent(specs, k)
  {
  }

  /** One root's worklist. It clashes exactly when the root already belongs to an earlier tree, and
      never with itself; otherwise the whole subtree is claimed and nothing else changes. */
  method ClaimTree(specs: Specs, ghost roots: seq<string>, root: string, owned: map<string, string>)
    returns (clash: Option<TopologyError>, owner: map<string, string>)
    requires Closed(specs) && OneParent(specs) && Parentless(specs, roots)
    requires root in roots && root in specs && Frontier(specs, roots, owned.Keys, [])
    ensures clash == if root in owned then Some(TwoTeams) else None
    ensures clash.None? ==> Frontier(specs, roots, owner.Keys, []) && root in owner
    ensures clash.None? ==> ClaimsFor(specs, root, owned, owner, [])
  {
    hide Frontier, Closed, OneParent, Parentless, ClaimsFor;
    clash, owner := None, owned;
    var seen, stack := {}, [root];
    ghost var isNew := root !in owned;
    ClaimsNothing(specs, root, owned);
    if isNew {
      FrontierStart(specs, roots, owned.Keys, root);
    }
    while clash.None? && stack != []
      invariant isNew ==> clash.None? && Frontier(specs, roots, owner.Keys, stack)
      invariant isNew ==> ClaimsFor(specs, root, owned, owner, stack)
      invariant isNew ==> seen <= owner.Keys && (root in owner || stack == [root])
      invariant !isNew ==> seen == {} && owner == owned && stack == [root] && (clash.None? || clash == Some(TwoTeams))
      decreases specs.Keys - owner.Keys, clash.None?
    {
      var n := stack[|stack| - 1];
      if isNew {
        ClaimOne(specs, roots, root, owned, owner, stack);
      }
      if n in seen {
        clash := Some(Cycle);
      } else if n in owner {
        clash := Some(TwoTeams);
      } else {
        ghost var before := specs.Keys - owner.Keys;
        seen := seen + {n};
        owner := owner[n := root];
        stack := stack[..|stack| - 1] + specs[n].delegates;
        assert n in before && n !in specs.Keys - owner.Keys;
      }
    }
  }

  lemma ClaimsNothing(specs: Specs, root: string, owned: map<string, string>)
    ensures ClaimsFor(specs, root, owned, owned, [root])
  {
  }

  lemma ListedIsNew(specs: Specs, roots: seq<string>, done: set<string>, todo: seq<string>, n: string)
    requires Frontier(specs, roots, done, todo) && n in todo
    ensures n !in done && n in specs
  {
  }

  method CheckRoots(specs: Specs, parentOf: map<string, string>, roots: seq<string>)
    returns (bad: Option<TopologyError>)
    ensures bad.None? <==> forall r :: r in roots ==> r in specs && r !in parentOf
    ensures bad.None? || bad == Some(UnknownRoot) || bad == Some(RootIsDelegate)
  {
    for i := 0 to |roots|
      invariant forall j :: 0 <= j < i ==> roots[j] in specs && roots[j] !in parentOf
    {
      if roots[i] !in specs {
        return Some(UnknownRoot);
      }
      if roots[i] in parentOf {
        return Some(RootIsDelegate);
      }
    }
    return None;
  }

  /** All the roots in turn. A clash means a root declared twice. */
  method ClaimAll(specs: Specs, roots: seq<string>) returns (clash: Option<TopologyError>, owner: map<string, string>)
    requires Closed(specs) && OneParent(specs) && Parentless(specs, roots)
    requires forall r :: r in roots ==> r in specs
    ensures clash.None? <==> Distinct(roots)
    ensures clash.None? || clash == Some(TwoTeams)
    ensures clash.None? ==> Frontier(specs, roots, owner.Keys, []) && forall r :: r in roots ==> r in owner
    ensures clash.None? ==> forall n :: n in owner ==> owner[n] in roots
  {
    hide Frontier, Closed, OneParent, Parentless;
    clash, owner := None, map[];
    EmptyFrontier(specs, roots);
    assert owner.Keys == {};
    for i := 0 to |roots|
      invariant clash.None? && Frontier(specs, roots, owner.Keys, []) && Distinct(roots[..i])
      invariant forall r :: r in roots[..i] ==> r in owner
      invariant forall n :: n in owner ==> owner[n] in roots[..i]
      invariant forall r :: r in roots && r in owner ==> r in roots[..i]
    {
      ghost var owned := owner;
      clash, owner := ClaimTree(specs, roots, roots[i], owner);
      if clash.Some? {
        RepeatedRoot(roots, i);
        return;
      }
      ClaimedRoots(specs, roots, i, owned, owner);
      DistinctSnoc(roots, i);
    }
    assert roots[..|roots|] == roots;
  }

  lemma EmptyFrontier(specs: Specs, roots: seq<string>)
    ensures Frontier(specs, roots, {}, [])
  {
  }

  lemma RepeatedRoot(roots: seq<string>, i: nat)
    requires i < |roots| && roots[i] in roots[..i]
    ensures !Distinct(roots)
  {
    var j :| 0 <= j < i && roots[..i][j] == roots[i];
    assert roots[j] == roots[i];
  }

  /** A tree claims no declared root but its own. */
  lemma ClaimedRoots(specs: Specs, roots: seq<string>, i: nat, owned: map<string, string>, owner: map<string, string>)
    requires i < |roots| && Parentless(specs, roots) && ClaimsFor(specs, roots[i], owned, owner, [])
    requires forall r :: r in roots && r in owned ==> r in roots[..i]
    ensures forall r :: r in roots && r in owner ==> r in roots[..i + 1]
    ensures forall n :: n in owner ==> (n in owned && owner[n] == owned[n]) || owner[n] == roots[i]
    ensures forall n :: n in owned ==> n in owner
  {
    assert roots[..i + 1] == roots[..i] + [roots[i]];
    forall r | r in roots && r in owner
      ensures r in roots[..i + 1]
    {
      assert !HasParent(specs, r);
    }
  }

  lemma DistinctSnoc(s: seq<string>, i: nat)
    requires i < |s| && Distinct(s[..i]) && s[i] !in s[..i]
    ensures Distinct(s[..i + 1]) && s[..i + 1] == s[..i] + [s[i]]
  {
    var t := s[..i + 1];
    forall j, k | 0 <= j < k < |t|
      ensures t[j] != t[k]
    {
      assert t[j] == s[..i][j];
      if k < i {
        assert t[k] == s[..i][k];
      }
    }
  }

  // ------------------------------------------------------- widening and policy

  /** `_reject_widening` lets this edge pass. */
  predicate Narrows(h: Host, parent: Manifest, child: Manifest) {
    && child.tools <= parent.tools && child.netHosts <= parent.netHosts
    && (forall c :: c in child.readRoots ==> Within(h, h.resolve(c), parent.readRoots))
    && (forall c :: c in child.writeRoots ==> Within(h, h.resolve(c), parent.writeRoots))
  }

  /** The check compares the kept roots with the declared ones as sets. */
  method RejectWidening(h: Host, parent: Manifest, child: Manifest) returns (ok: bool)
    ensures ok <==> Narrows(h, parent, child)
  {
    var extraTools, extraHosts := child.tools - parent.tools, child.netHosts - parent.netHosts;
    assert forall t :: t in child.tools ==> t in parent.tools || t in extraTools;
    assert forall t :: t in child.netHosts ==> t in parent.netHosts || t in extraHosts;
    if extraTools != {} || extraHosts != {} {
      return false;
    }
    var keptReads := KeepContainedRoots(h, child.readRoots, parent.readRoots);
    var keptWrites := KeepContainedRoots(h, child.writeRoots, parent.writeRoots);
    var readsKept := (set c | c in keptReads) == (set c | c in child.readRoots);
    var writesKept := (set c | c in keptWrites) == (set c | c in child.writeRoots);
    KeptAllMeansWithin(h, child.readRoots, parent.readRoots);
    KeptAllMeansWithin(h, child.writeRoots, parent.writeRoots);
    return readsKept && writesKept;
  }

  lemma KeptAllMeansWithin(h: Host, child: seq<string>, parent: seq<string>)
    ensures ((set c | c in RootsContained(h, child, parent)) == (set c | c in child))
       <==> forall c :: c in child ==> Within(h, h.resolve(c), parent)
  {
    hide Within;
    var kept := RootsContained(h, child, parent);
    var a, b := set c | c in kept, set c | c in child;
    assert forall c :: c in a <==> c in kept;
    assert forall c :: c in b <==> c in child;
  }

  predicate AllNarrow(h: Host, specs: Specs) {
    forall n, k :: n in specs && k in specs[n].delegates && k in specs ==>
      Narrows(h, specs[n].manifest, specs[k].manifest)
  }

  predicate RequiredAreDelegates(specs: Specs) {
    forall n, c :: n in specs && c in specs[n].required ==> c in specs[n].delegates
  }

  method CheckWidening(h: Host, order: seq<string>, specs: Specs) returns (ok: bool)
    requires Listing(order, specs) && Closed(specs)
    ensures ok <==> AllNarrow(h, specs)
  {
    hide Narrows;
    for i := 0 to |order|
      invariant forall j, k :: 0 <= j < i && k in specs[order[j]].delegates ==>
        Narrows(h, specs[order[j]].manifest, specs[k].manifest)
    {
      var kids := specs[order[i]].delegates;
      for j := 0 to |kids|
        invariant forall l :: 0 <= l < j ==>
          kids[l] in specs && Narrows(h, specs[order[i]].manifest, specs[kids[l]].manifest)
      {
        assert kids[j] in specs[order[i]].delegates;
        var fine := RejectWidening(h, specs[order[i]].manifest, specs[kids[j]].manifest);
        if !fine {
          return false;
        }
      }
    }
    return true;
  }

  method CheckRequired(order: seq<string>, specs: Specs) returns (ok: bool)
    requires Listing(order, specs)
    ensures ok <==> RequiredAreDelegates(specs)
  {
    for i := 0 to |order|
      invariant forall j, c :: 0 <= j < i && c in specs[order[j]].required ==> c in specs[order[j]].delegates
    {
      var required := specs[order[i]].required;
      for j := 0 to |required|
        invariant forall l :: 0 <= l < j ==> required[l] in specs[order[i]].delegates
      {
        if required[j] !in specs[order[i]].delegates {
          assert required[j] in specs[order[i]].required;
          return false;
        }
      }
    }
    return true;
  }

  // ------------------------------------------------------------- the whole check

  /** The topology part of `_validate_forest`, for given roots. Accepted exactly when the agents form
      a forest with these roots; for distinct roots the two late errors cannot arise. */
  method CheckTopology(order: seq<string>, specs: Specs, parentOf: map<string, string>, roots: seq<string>)
    returns (error: Option<TopologyError>)
    requires Listing(order, specs) && Closed(specs) && OneParent(specs) && Knows(specs, order, parentOf)
    ensures error.None? <==> IsForest(specs, roots)
    ensures error != Some(Cycle)
    ensures error == Some(TwoTeams) ==> !Distinct(roots)
  {
    hide Frontier, Closed, OneParent, IsForest, Parentless, Knows, Distinct;
    error := CheckRoots(specs, parentOf, roots);
    RootsVersusForest(specs, order, parentOf, roots);
    if error.Some? {
      return;
    }
    var owner;
    error, owner := ClaimAll(specs, roots);
    if error.Some? {
      ForestIsDistinct(specs, roots);
      return;
    }
    var missing := FirstUncovered(order, owner);
    if missing.Some? {
      UncoveredIsNoForest(specs, roots, owner.Keys, missing.value);
      return Some(Uncovered);
    }
    CoveredIsForest(specs, roots, owner.Keys);
  }

  method FirstUncovered(order: seq<string>, owner: map<string, string>) returns (r: Option<string>)
    ensures r.Some? ==> r.value in order && r.value !in owner
    ensures r.None? ==> forall n :: n in order ==> n in owner
  {
    for i := 0 to |order|
      invariant forall j :: 0 <= j < i ==> order[j] in owner
    {
      if order[i] !in owner {
        return Some(order[i]);
      }
    }
    return None;
  }

  lemma ForestIsDistinct(specs: Specs, roots: seq<string>)
    ensures IsForest(specs, roots) ==> Distinct(roots)
  {
  }

  lemma RootsVersusForest(specs: Specs, order: seq<string>, parentOf: map<string, string>, roots: seq<string>)
    requires Listing(order, specs) && Knows(specs, order, parentOf)
    ensures (forall r :: r in roots ==> r in specs && r !in parentOf) ==> Parentless(specs, roots)
    ensures !(forall r :: r in roots ==> r in specs && r !in parentOf) ==> !IsForest(specs, roots)
  {
    hide Distinct;
    if r :| r in roots && !(r in specs && r !in parentOf) {
      if r in parentOf {
        assert Parent(specs, parentOf[r], r);
        if IsForest(specs, roots) {
          ForestRootsAreParentless(specs, roots, r, parentOf[r]);
        }
      }
    } else {
      forall r, n | r in roots
        ensures !Parent(specs, n, r)
      {
        assert n in specs ==> n in order;
      }
    }
  }

  method NaturalRoots(order: seq<string>, parentOf: map<string, string>) returns (roots: seq<string>)
    ensures forall r :: r in roots <==> r in order && r !in parentOf
    ensures Distinct(order) ==> Distinct(roots)
  {
    roots := [];
    for i := 0 to |order|
      invariant forall r :: r in roots <==> r in order[..i] && r !in parentOf
      invariant Distinct(order) ==> Distinct(roots)
    {
      assert order[..i + 1] == order[..i] + [order[i]];
      if order[i] !in parentOf {
        if Distinct(order) {
          assert forall j :: 0 <= j < i ==> order[..i][j] == order[j] != order[i];
        }
        roots := roots + [order[i]];
      }
    }
    assert order[..|order|] == order;
  }

  /** `_validate_forest`. With declared roots it accepts exactly the forests over those roots; without,
      exactly the single trees. In both cases every edge must narrow and every required child must be
      a declared delegate. */
  method ValidateForest(h: Host, order: seq<string>, specs: Specs, declared: seq<string>)
    returns (error: Option<TopologyError>, roots: seq<string>)
    requires Listing(order, specs)
    ensures declared != [] ==> roots == declared
    ensures declared != [] ==>
      (error.None? <==> IsForest(specs, declared) && AllNarrow(h, specs) && RequiredAreDelegates(specs))
    ensures declared == [] && error.None? ==> |roots| == 1 && IsForest(specs, roots)
    ensures declared == [] ==>
      (error.None? <==> (exists r :: IsForest(specs, [r])) && AllNarrow(h, specs) && RequiredAreDelegates(specs))
    ensures Distinct(declared) ==> error != Some(Cycle) && error != Some(TwoTeams)
  {
    hide IsForest, OneParent, Closed, Knows, AllNarrow, RequiredAreDelegates, Distinct;
    roots := declared;
    ForestNeeds(specs);
    var known := DelegatesKnown(order, specs);
    if !known {
      return Some(UnknownDelegate), roots;
    }
    var unique, parentOf := FindParents(order, specs);
    if !unique {
      return Some(MultipleParents), roots;
    }
    if declared == [] {
      roots := NaturalRoots(order, parentOf);
      SingleTreeRoot(specs, order, parentOf, roots);
      if |roots| != 1 {
        return Some(NoSingleRoot), roots;
      }
      assert roots == [roots[0]];
    }
    error := CheckTopology(order, specs, parentOf, roots);
    if error.Some? {
      return;
    }
    var narrow := CheckWidening(h, order, specs);
    if !narrow {
      return Some(Widening), roots;
    }
    var declaredOk := CheckRequired(order, specs);
    if !declaredOk {
      return Some(UndeclaredRequired), roots;
    }
  }

  lemma ForestNeeds(specs: Specs)
    ensures forall roots :: IsForest(specs, roots) ==> Closed(specs) && OneParent(specs)
  {
    forall roots | IsForest(specs, roots)
      ensures Closed(specs) && OneParent(specs)
    {
      ForestHasOneParent(specs, roots);
    }
  }

  /** The only candidate for a single tree's root is the only agent without a parent. */
  lemma SingleTreeRoot(specs: Specs, order: seq<string>, parentOf: map<string, string>, roots: seq<string>)
    requires Listing(order, specs) && Knows(specs, order, parentOf) && Distinct(roots)
    requires forall r :: r in roots <==> r in order && r !in parentOf
    ensures forall r :: IsForest(specs, [r]) ==> roots == [r]
  {
    hide Distinct;
    forall r | IsForest(specs, [r])
      ensures roots == [r]
    {
      OnlyRoot(specs, order, parentOf, r);
      forall i | 0 <= i < |roots|
        ensures roots[i] == r
      {
        assert roots[i] in roots;
      }
      if |roots| >= 2 {
        ConstantRepeats(roots, r);
      }
    }
  }

  lemma ConstantRepeats(s: seq<string>, r: string)
    requires |s| >= 2 && forall i :: 0 <= i < |s| ==> s[i] == r
    ensures !Distinct(s)
  {
    assert s[0] == s[1];
  }

  lemma OnlyRoot(specs: Specs, order: seq<string>, parentOf: map<string, string>, r: string)
    requires Listing(order, specs) && Knows(specs, order, parentOf) && IsForest(specs, [r])
    ensures r in order && r !in parentOf
    ensures forall n :: n in order && n !in parentOf ==> n == r
  {
    hide Distinct, IsRoute;
    assert r in [r];
    if r in parentOf {
      ForestRootsAreParentless(specs, [r], r, parentOf[r]);
    }
    forall n | n in order && n !in parentOf
      ensures n == r
    {
      var p :| Route(specs, [r], p, n);
      RouteIsNonempty(specs, [r], p, n);
      if |p| > 1 {
        RouteInit(specs, [r], p, n);
      }
    }
  }
}
