/** Building the teams of a validated package (scr/team.py, `_build_loaded`), and what attenuation
    then amounts to for them. */
module Loading {
  import opened Basics
  import opened Capability
  import opened Orchestration
  import opened Forest

  // --------------------------------------------------- a team mirrors its tree

  /** Each edge entry is an agent of `mine` with its declared delegates, no agent twice. */
  ghost predicate EdgesMirror(specs: Specs, edges: Edges, mine: set<string>) {
    && (forall i :: 0 <= i < |edges| ==>
          edges[i].0 in mine && edges[i].0 in specs && edges[i].1 == specs[edges[i].0].delegates)
    && (forall i, j :: 0 <= i < j < |edges| ==> edges[i].0 != edges[j].0)
    && (forall n :: n in mine && n in specs && specs[n].delegates != [] ==>
          exists i :: 0 <= i < |edges| && edges[i].0 == n)
  }

  ghost predicate NodesMirror(specs: Specs, t: TeamView, listed: set<string>) {
    && t.root.name in specs && t.root.manifest == specs[t.root.name].manifest
    && (forall n :: n in t.nodes ==> n in specs && t.nodes[n] == AgentNode(n, specs[n].manifest) && HasParent(specs, n))
    && (forall n :: n in listed ==> n == t.root.name || n in t.nodes)
  }

  /** The team holds the tree of agents `mine`. */
  ghost predicate Mirrors(specs: Specs, t: TeamView, mine: set<string>) {
    EdgesMirror(specs, t.edges, mine) && NodesMirror(specs, t, mine) && Listed(t) && t.revoked == {}
  }

  lemma {:induction false} ParentOfIsListed(edges: Edges, c: string) returns (i: nat)
    requires ParentOf(edges, c).Some?
    ensures i < |edges| && c in edges[i].1 && ParentOf(edges, c) == Some(edges[i].0)
    decreases |edges|
  {
    i := |edges| - 1;
    if c !in edges[i].1 {
      i := ParentOfIsListed(edges[..i], c);
    }
  }

  lemma {:induction false} ListedHasParent(edges: Edges, c: string, i: nat)
    requires i < |edges| && c in edges[i].1
    ensures ParentOf(edges, c).Some?
    decreases |edges|
  {
    if c !in edges[|edges| - 1].1 {
      ListedHasParent(edges[..|edges| - 1], c, i);
    }
  }

  lemma MirroredParent(specs: Specs, edges: Edges, mine: set<string>, n: string, c: string)
    requires OneParent(specs) && EdgesMirror(specs, edges, mine) && n in mine && Parent(specs, n, c)
    ensures ParentOf(edges, c) == Some(n)
  {
    assert specs[n].delegates != [];
    var i :| 0 <= i < |edges| && edges[i].0 == n;
    ListedHasParent(edges, c, i);
    var j := ParentOfIsListed(edges, c);
    assert Parent(specs, edges[j].0, c);
  }

  /** The route of the declarations is the path that the team finds. */
  lemma RouteIsPath(specs: Specs, t: TeamView, mine: set<string>, p: seq<string>, n: string)
    requires OneParent(specs) && Parentless(specs, [t.root.name]) && EdgesMirror(specs, t.edges, mine)
    requires Route(specs, [t.root.name], p, n) && forall i :: 0 <= i < |p| ==> p[i] in mine
    ensures IsPath(t.edges, t.root.name, p, n)
  {
    hide EdgesMirror;
    forall i | 0 < i < |p|
      ensures p[i] != t.root.name && ParentOf(t.edges, p[i]) == Some(p[i - 1])
    {
      assert p[i - 1 + 1] in specs[p[i - 1]].delegates;
      assert Parent(specs, p[i - 1], p[i]);
      assert t.root.name in [t.root.name];
      MirroredParent(specs, t.edges, mine, p[i - 1], p[i]);
    }
  }

  // ----------------------------------------------------------- building one team

  /** The kids added one by one make one entry at the end. */
  function Grown(edges: Edges, parent: string, kids: seq<string>): Edges {
    if kids == [] then edges else edges + [(parent, kids)]
  }

  lemma GrownByOne(edges: Edges, parent: string, kids: seq<string>, kid: string)
    requires forall i :: 0 <= i < |edges| ==> edges[i].0 != parent
    ensures WithEdge(Grown(edges, parent, kids), parent, kid) == Grown(edges, parent, kids + [kid])
  {
    var grown := Grown(edges, parent, kids);
    if kids != [] {
      assert grown[|edges|].0 == parent;
      var next := WithEdge(grown, parent, kid);
      assert |next| == |grown|;
      assert forall i :: 0 <= i < |edges| ==> next[i] == edges[i];
      assert next == edges + [(parent, kids + [kid])];
    } else {
      assert kids + [kid] == [kid];
    }
  }

  /** Adding an agent's children below it. */
  method AddKids(specs: Specs, team: Team, parent: string)
    requires Closed(specs) && parent in specs && Listed(team.View())
    requires parent == team.root.name || parent in team.nodes
    requires forall i :: 0 <= i < |team.edges| ==> team.edges[i].0 != parent
    modifies team
    ensures Listed(team.View()) && team.revoked == old(team.revoked)
    ensures team.edges == Grown(old(team.edges), parent, specs[parent].delegates)
    ensures forall n :: n in team.nodes <==> n in old(team.nodes) || n in specs[parent].delegates
    ensures forall n :: n in team.nodes ==>
      if n in specs[parent].delegates then n in specs && team.nodes[n] == AgentNode(n, specs[n].manifest)
      else n in old(team.nodes) && team.nodes[n] == old(team.nodes)[n]
  {
    hide WithEdge;
    var kids := specs[parent].delegates;
    for j := 0 to |kids|
      invariant Listed(team.View()) && team.revoked == old(team.revoked)
      invariant team.edges == Grown(old(team.edges), parent, kids[..j])
      invariant forall n :: n in team.nodes <==> n in old(team.nodes) || n in kids[..j]
      invariant forall n :: n in team.nodes ==>
        if n in kids[..j] then n in specs && team.nodes[n] == AgentNode(n, specs[n].manifest)
        else n in old(team.nodes) && team.nodes[n] == old(team.nodes)[n]
    {
      assert kids[..j + 1] == kids[..j] + [kids[j]];
      assert kids[j] in kids;
      GrownByOne(old(team.edges), parent, kids[..j], kids[j]);
      var ok := team.Add(parent, AgentNode(kids[j], specs[kids[j]].manifest));
    }
    assert kids[..|kids|] == kids;
  }

  lemma EdgesMirrorMore(specs: Specs, edges: Edges, mine: set<string>, n: string)
    requires EdgesMirror(specs, edges, mine) && n in specs && n !in mine
    ensures EdgesMirror(specs, Grown(edges, n, specs[n].delegates), mine + {n})
    ensures forall i :: 0 <= i < |edges| ==> edges[i].0 != n
  {
    var grown := Grown(edges, n, specs[n].delegates);
    forall m | m in mine + {n} && m in specs && specs[m].delegates != []
      ensures exists i :: 0 <= i < |grown| && grown[i].0 == m
    {
      if m != n {
        var i :| 0 <= i < |edges| && edges[i].0 == m;
        assert grown[i].0 == m;
      } else {
        assert grown[|edges|].0 == n;
      }
    }
  }

  /** What the breadth-first walk keeps, besides the frontier: the team built so far. */
  ghost predicate Walk(specs: Specs, roots: seq<string>, before: set<string>, teamOf: map<string, string>, t: TeamView,
                       queue: seq<string>) {
    && Frontier(specs, roots, teamOf.Keys, queue)
    && before <= teamOf.Keys
    && EdgesMirror(specs, t.edges, teamOf.Keys - before)
    && NodesMirror(specs, t, (teamOf.Keys - before) + (set n | n in queue))
    && ClaimsOnly(t.root.name, before, teamOf)
  }

  predicate ClaimsOnly(root: string, before: set<string>, teamOf: map<string, string>) {
    forall n :: n in teamOf && n !in before ==> teamOf[n] == root
  }

  lemma WalkStep(specs: Specs, roots: seq<string>, before: set<string>, teamOf: map<string, string>, t: TeamView,
                 t': TeamView, queue: seq<string>)
    requires Closed(specs) && OneParent(specs) && Parentless(specs, roots)
    requires queue != [] && Walk(specs, roots, before, teamOf, t, queue)
    requires t'.root == t.root && queue[0] in specs
    requires var kids := specs[queue[0]].delegates;
      && t'.edges == Grown(t.edges, queue[0], kids)
      && (forall n :: n in t'.nodes <==> n in t.nodes || n in kids)
      && (forall n :: n in t'.nodes ==>
            if n in kids then n in specs && t'.nodes[n] == AgentNode(n, specs[n].manifest)
            else t'.nodes[n] == t.nodes[n])
    ensures Walk(specs, roots, before, teamOf[queue[0] := t.root.name], t', queue[1..] + specs[queue[0]].delegates)
  {
    hide EdgesMirror, Frontier, Closed, OneParent, Parentless, HasParent;
    var n, rest, kids := queue[0], queue[1..], specs[queue[0]].delegates;
    var teamOf' := teamOf[n := t.root.name];
    assert n in queue && queue == [] + [n] + rest && [] + rest == rest;
    ListedIsNew(specs, roots, teamOf.Keys, queue, n);
    FrontierAdvances(specs, roots, teamOf.Keys, [], n, rest);
    EdgesMirrorMore(specs, t.edges, teamOf.Keys - before, n);
    assert teamOf'.Keys == teamOf.Keys + {n};
    assert teamOf'.Keys - before == (teamOf.Keys - before) + {n};
    forall m | m in kids
      ensures HasParent(specs, m)
    {
      ChildHasParent(specs, n, m);
    }
    forall m | m in (teamOf'.Keys - before) + (set k | k in rest + kids)
      ensures m == t'.root.name || m in t'.nodes
    {
      if m !in kids {
        assert m in (teamOf.Keys - before) + (set k | k in queue);
      }
    }
  }

  /** One root's breadth-first walk. It keeps no visited set and yet ends, visiting exactly the agents
      below the root; every parent is known when its children are added. */
  method BuildTeam(specs: Specs, ghost roots: seq<string>, root: string, before: map<string, string>, maxDepth: nat)
    returns (team: Team, teamOf: map<string, string>)
    requires Closed(specs) && OneParent(specs) && Parentless(specs, roots)
    requires root in roots && root in specs && root !in before && Frontier(specs, roots, before.Keys, [])
    ensures fresh(team) && team.root.name == root && team.maxDepth == maxDepth
    ensures Frontier(specs, roots, teamOf.Keys, []) && root in teamOf && before.Keys <= teamOf.Keys
    ensures Mirrors(specs, team.View(), teamOf.Keys - before.Keys)
    ensures forall n :: n in before ==> teamOf[n] == before[n]
    ensures forall n :: n in teamOf && n !in before ==> teamOf[n] == root
  {
    hide Frontier, Closed, OneParent, Parentless, EdgesMirror, NodesMirror, Listed;
    team := new Team(AgentNode(root, specs[root].manifest), maxDepth);
    teamOf := before;
    var queue := [root];
    WalkStarts(specs, roots, before, root, team.View());
    while queue != []
      invariant Walk(specs, roots, before.Keys, teamOf, team.View(), queue)
      invariant fresh(team) && Listed(team.View()) && team.revoked == {}
      invariant root in teamOf || queue == [root]
      invariant forall n :: n in before ==> n in teamOf && teamOf[n] == before[n]
      decreases specs.Keys - teamOf.Keys
    {
      var parent := queue[0];
      ghost var was, left := team.View(), specs.Keys - teamOf.Keys;
      NextIsReady(specs, roots, before.Keys, teamOf, was, queue);
      AddKids(specs, team, parent);
      WalkStep(specs, roots, before.Keys, teamOf, was, team.View(), queue);
      teamOf := teamOf[parent := root];
      queue := queue[1..] + specs[parent].delegates;
      assert parent in left && parent !in specs.Keys - teamOf.Keys;
    }
    WalkEnds(specs, roots, before.Keys, teamOf, team.View());
  }

  lemma WalkStarts(specs: Specs, roots: seq<string>, before: map<string, string>, root: string, t: TeamView)
    requires root in roots && root in specs && root !in before && Frontier(specs, roots, before.Keys, [])
    requires t.root == AgentNode(root, specs[root].manifest) && t.edges == [] && t.nodes == map[]
    ensures Walk(specs, roots, before.Keys, before, t, [root]) && Listed(t)
  {
    FrontierStart(specs, roots, before.Keys, root);
    assert before.Keys - before.Keys == {};
    hide Frontier;
  }

  lemma NextIsReady(specs: Specs, roots: seq<string>, before: set<string>, teamOf: map<string, string>, t: TeamView,
                    queue: seq<string>)
    requires queue != [] && Walk(specs, roots, before, teamOf, t, queue)
    ensures queue[0] in specs && queue[0] !in teamOf
    ensures queue[0] == t.root.name || queue[0] in t.nodes
    ensures forall i :: 0 <= i < |t.edges| ==> t.edges[i].0 != queue[0]
  {
    ListedIsNew(specs, roots, teamOf.Keys, queue, queue[0]);
    assert queue[0] in set n | n in queue;
    hide Frontier;
  }

  lemma WalkEnds(specs: Specs, roots: seq<string>, before: set<string>, teamOf: map<string, string>, t: TeamView)
    requires Walk(specs, roots, before, teamOf, t, []) && Listed(t) && t.revoked == {}
    ensures Frontier(specs, roots, teamOf.Keys, []) && Mirrors(specs, t, teamOf.Keys - before)
    ensures forall n :: n in teamOf && n !in before ==> teamOf[n] == t.root.name
  {
    hide Frontier, EdgesMirror;
  }

  /** The agents of one root. */
  function Members(teamOf: map<string, string>, root: string): set<string> {
    set n | n in teamOf && teamOf[n] == root
  }

  /** All the teams: `team_of` is total, each agent belongs to the root above it, and each team mirrors
      its tree. */
  method LoadTeams(specs: Specs, roots: seq<string>, maxDepth: nat)
    returns (teams: map<string, Team>, teamOf: map<string, string>)
    requires IsForest(specs, roots)
    ensures teamOf.Keys == specs.Keys && forall r :: r in teams <==> r in roots
    ensures forall n :: n in teamOf ==> teamOf[n] in teams
    ensures SameTeam(specs, teamOf) && forall r :: r in roots ==> r in teamOf && teamOf[r] == r
    ensures forall r :: r in teams ==>
      && fresh(teams[r]) && teams[r].root.name == r && teams[r].maxDepth == maxDepth
      && Mirrors(specs, teams[r].View(), Members(teamOf, r))
  {
    hide IsForest, Frontier, Closed, OneParent, Parentless, Mirrors, Distinct, Members, NodesMirror, SameTeam,
         Team.View;
    ForestFacts(specs, roots);
    teams, teamOf := map[], map[];
    EmptyFrontier(specs, roots);
    assert teamOf.Keys == {};
    NoTeam(specs, teamOf);
    for i := 0 to |roots|
      invariant Frontier(specs, roots, teamOf.Keys, [])
      invariant forall r :: r in teams <==> r in roots[..i]
      invariant forall n :: n in teamOf ==> teamOf[n] in roots[..i]
      invariant forall r :: r in roots[..i] ==> r in teamOf && teamOf[r] == r
      invariant SameTeam(specs, teamOf)
      invariant forall r :: r in roots && r in teamOf ==> r in roots[..i]
      invariant forall r :: r in teams ==>
        && fresh(teams[r]) && teams[r].root.name == r && teams[r].maxDepth == maxDepth
        && Mirrors(specs, teams[r].View(), Members(teamOf, r))
    {
      var root := roots[i];
      ghost var owned := teamOf;
      NotYet(roots, i);
      var team;
      team, teamOf := BuildTeam(specs, roots, root, teamOf, maxDepth);
      MirrorsNodes(specs, team.View(), teamOf.Keys - owned.Keys);
      OwnTree(specs, roots, i, owned, teamOf, team.View());
      TeamsStayClosed(specs, roots, root, owned, teamOf);
      teams := teams[root := team];
      assert roots[..i + 1] == roots[..i] + [root];
    }
    assert roots[..|roots|] == roots;
    EveryoneIsOwned(specs, roots, teamOf);
  }

  /** Delegates are in their parent's team. */
  ghost predicate SameTeam(specs: Specs, teamOf: map<string, string>) {
    forall n, k :: n in teamOf && Parent(specs, n, k) ==> k in teamOf && teamOf[k] == teamOf[n]
  }

  lemma NoTeam(specs: Specs, teamOf: map<string, string>)
    requires teamOf == map[]
    ensures SameTeam(specs, teamOf)
  {
  }

  /** A new team takes no agent below an agent of another one. */
  lemma TeamsStayClosed(specs: Specs, roots: seq<string>, root: string, owned: map<string, string>, teamOf: map<string,
                        string>)
    requires OneParent(specs) && Parentless(specs, roots) && SameTeam(specs, owned)
    requires Frontier(specs, roots, owned.Keys, []) && Frontier(specs, roots, teamOf.Keys, [])
    requires forall n :: n in owned ==> n in teamOf && teamOf[n] == owned[n]
    requires forall n :: n in teamOf && n !in owned ==> teamOf[n] == root
    ensures SameTeam(specs, teamOf)
  {
    hide Route, NoRepeatedChild, Distinct;
    forall n, k | n in teamOf && Parent(specs, n, k)
      ensures k in teamOf && teamOf[k] == teamOf[n]
    {
      assert k in teamOf.Keys;
      assert k in owned ==> n in owned;
    }
  }

  lemma ForestFacts(specs: Specs, roots: seq<string>)
    requires IsForest(specs, roots)
    ensures Closed(specs) && OneParent(specs) && Parentless(specs, roots) && Distinct(roots)
    ensures forall r :: r in roots ==> r in specs
  {
    ForestHasOneParent(specs, roots);
  }

  lemma NotYet(roots: seq<string>, i: nat)
    requires i < |roots| && Distinct(roots)
    ensures roots[i] !in roots[..i]
  {
    assert forall j :: 0 <= j < i ==> roots[..i][j] == roots[j] != roots[i];
  }

  /** What one more team adds to `team_of`, and what it leaves as it was. */
  lemma OwnTree(specs: Specs, roots: seq<string>, i: nat, owned: map<string, string>, teamOf: map<string, string>,
                t: TeamView)
    requires i < |roots| && roots[i] !in roots[..i] && Parentless(specs, roots) && t.root.name == roots[i]
    requires NodesMirror(specs, t, teamOf.Keys - owned.Keys) && owned.Keys <= teamOf.Keys
    requires forall n :: n in owned ==> owned[n] in roots[..i] && teamOf[n] == owned[n]
    requires forall n :: n in teamOf && n !in owned ==> teamOf[n] == roots[i]
    requires forall r :: r in roots && r in owned ==> r in roots[..i]
    ensures forall r :: r in roots && r in teamOf ==> r in roots[..i + 1]
    ensures forall n :: n in teamOf ==> teamOf[n] in roots[..i + 1]
    ensures Members(teamOf, roots[i]) == teamOf.Keys - owned.Keys
    ensures forall r :: r in roots[..i] ==> Members(teamOf, r) == Members(owned, r)
  {
    assert roots[..i + 1] == roots[..i] + [roots[i]];
    forall r | r in roots && r in teamOf
      ensures r in roots[..i + 1]
    {
      assert !HasParent(specs, r);
    }
    forall r | r in roots[..i]
      ensures Members(teamOf, r) == Members(owned, r)
    {
      assert r != roots[i];
    }
  }

  lemma MirrorsNodes(specs: Specs, t: TeamView, mine: set<string>)
    requires Mirrors(specs, t, mine)
    ensures NodesMirror(specs, t, mine)
  {
  }

  lemma EveryoneIsOwned(specs: Specs, roots: seq<string>, teamOf: map<string, string>)
    requires IsForest(specs, roots) && Frontier(specs, roots, teamOf.Keys, [])
    requires forall r :: r in roots ==> r in teamOf
    ensures teamOf.Keys == specs.Keys
  {
    hide Route;
    forall n | n in specs
      ensures n in teamOf
    {
      var p :| Route(specs, roots, p, n);
      DoneIsClosed(specs, roots, teamOf.Keys, p, n);
    }
  }

  // --------------------------------------------- attenuation in a loaded team

  ghost predicate CeilingsKnown(specs: Specs, p: seq<string>) {
    forall i :: 0 <= i < |p| ==> p[i] in specs && ClassificationRank(specs[p[i]].manifest.ceiling).Some?
  }

  /** Nothing declared is lost but exec rules, budget and ceiling. */
  predicate AsDeclared(eff: Manifest, declared: Manifest) {
    && eff.tools == declared.tools && eff.netHosts == declared.netHosts
    && eff.readRoots == declared.readRoots && eff.writeRoots == declared.writeRoots
    && (forall r :: r in eff.execRules ==> r in declared.execRules)
    && eff.maxBudget <= declared.maxBudget
    && (eff.ceiling == declared.ceiling || LowerCeiling(eff.ceiling, declared.ceiling))
  }

  predicate LowerCeiling(a: string, b: string) {
    var x, y := ClassificationRank(a), ClassificationRank(b);
    x.Some? && y.Some? && x.value <= y.value
  }

  lemma AllKept(h: Host, child: seq<string>, parent: seq<string>)
    requires forall c :: c in child ==> Within(h, h.resolve(c), parent)
    ensures RootsContained(h, child, parent) == child
  {
    hide Within;
    if child != [] {
      assert child[0] in child;
      AllKept(h, child[1..], parent);
      assert child == [child[0]] + child[1..];
    }
  }

  lemma AttenuatedStep(h: Host, above: Manifest, parent: Manifest, child: Manifest)
    requires AsDeclared(above, parent) && Narrows(h, parent, child) && Attenuate(h, above, child).Some?
    ensures AsDeclared(Attenuate(h, above, child).value, child)
  {
    hide Within, ClassificationRank;
    AllKept(h, child.readRoots, above.readRoots);
    AllKept(h, child.writeRoots, above.writeRoots);
  }

  lemma MirroredCeilings(specs: Specs, t: TeamView, mine: set<string>, p: seq<string>)
    requires NodesMirror(specs, t, mine) && p != [] && p[0] == t.root.name && forall i :: 0 <= i < |p| ==> p[i] in mine
    ensures OnTeam(t, p)
    ensures forall i :: 0 <= i < |p| ==> p[i] in specs && NodeOf(t, p[i]).manifest == specs[p[i]].manifest
    ensures KnownCeilings(t, p) <==> CeilingsKnown(specs, p)
  {
    hide HasParent, ClassificationRank;
    assert forall i :: 0 <= i < |p| ==> p[i] in specs && NodeOf(t, p[i]).manifest == specs[p[i]].manifest;
  }

  /** In a validated package, along an agent's delegation path: attenuation raises exactly if the agent
      is no root and some ceiling on the path is unknown, and otherwise leaves the tools, hosts and
      roots that the agent declares. */
  lemma {:induction false} EffectiveIsDeclared(h: Host, specs: Specs, t: TeamView, mine: set<string>, p: seq<string>,
                                               n: string)
    requires AllNarrow(h, specs) && NodesMirror(specs, t, mine)
    requires Route(specs, [t.root.name], p, n) && forall i :: 0 <= i < |p| ==> p[i] in mine
    ensures OnTeam(t, p) && n in specs
    ensures Along(h, t, p).Some? <==> |p| == 1 || CeilingsKnown(specs, p)
    ensures Along(h, t, p).Some? ==> AsDeclared(Along(h, t, p).value, specs[n].manifest)
    decreases |p|
  {
    hide Narrows, Attenuate, AsDeclared, HasParent, CeilingsKnown, KnownCeilings, NodesMirror, NodeOf;
    MirroredCeilings(specs, t, mine, p);
    AlongNeedsKnownCeilings(h, t, p);
    assert NodeOf(t, p[|p| - 1]).manifest == specs[n].manifest;
    if |p| == 1 {
      RootAsDeclared(h, t, p, specs[n].manifest);
    } else if Along(h, t, p).Some? {
      var init, parent := p[..|p| - 1], p[|p| - 2];
      RouteInit(specs, [t.root.name], p, n);
      EffectiveIsDeclared(h, specs, t, mine, init, parent);
      assert Narrows(h, specs[parent].manifest, specs[n].manifest);
      AttenuatedStep(h, Along(h, t, init).value, specs[parent].manifest, specs[n].manifest);
    }
  }

  lemma RootAsDeclared(h: Host, t: TeamView, p: seq<string>, declared: Manifest)
    requires OnTeam(t, p) && |p| == 1 && NodeOf(t, p[0]).manifest == declared
    ensures Along(h, t, p) == Some(declared) && AsDeclared(declared, declared)
  {
  }

  /** What `effective_manifest` answers for an agent of a loaded team, whoever else is revoked: exactly
      when it grants, and that it then grants what the agent declares. */
  ghost predicate KeepsGrants(h: Host, specs: Specs, t: TeamView, p: seq<string>, n: string) {
    && n in specs && IsPath(t.edges, t.root.name, p, n)
    && (GrantedAlong(h, t, p, n) <==>
          && |p| <= t.maxDepth + 1 && (forall i :: 0 <= i < |p| ==> p[i] !in t.revoked)
          && (|p| == 1 || CeilingsKnown(specs, p)))
    && (GrantedAlong(h, t, p, n) ==> AsDeclared(Along(h, t, p).value, specs[n].manifest))
  }

  lemma LoadedAgentsKeepTheirGrants(h: Host, specs: Specs, t: TeamView, mine: set<string>, p: seq<string>, n: string)
    requires OneParent(specs) && Parentless(specs, [t.root.name]) && AllNarrow(h, specs)
    requires Mirrors(specs, t.(revoked := {}), mine)
    requires Route(specs, [t.root.name], p, n) && forall i :: 0 <= i < |p| ==> p[i] in mine
    ensures KeepsGrants(h, specs, t, p, n)
  {
    hide AsDeclared, AllNarrow, CeilingsKnown, OneParent, Parentless, Along, ParentOf;
    RouteIsPath(specs, t, mine, p, n);
    assert NodesMirror(specs, t, mine);
    EffectiveIsDeclared(h, specs, t, mine, p, n);
  }

  /** Two agents, one above the other, with the same manifest. */
  function Pair(m: Manifest): Specs {
    map["a" := AgentSpec(m, ["b"], []), "b" := AgentSpec(m, [], [])]
  }

  /** So "validated" does not mean "usable": validation lets unknown ceilings pass, and then every
      delegation to the lower agent of such a pair is refused. */
  lemma UnknownCeilingIsLoadedAndRefused(h: Host, m: Manifest, t: TeamView)
    requires ClassificationRank(m.ceiling).None?
    requires t.root.name == "a" && NodesMirror(Pair(m), t, {"a", "b"})
    ensures PackageIsValid(h, Pair(m), ["a"])
    ensures Along(h, t, ["a"]) == Some(m) && OnTeam(t, ["a", "b"]) && Along(h, t, ["a", "b"]).None?
  {
    hide ClassificationRank, HasParent;
    PairIsForest(m);
    PairNarrows(h, m);
    MirroredCeilings(Pair(m), t, {"a", "b"}, ["a"]);
    MirroredCeilings(Pair(m), t, {"a", "b"}, ["a", "b"]);
    AlongNeedsKnownCeilings(h, t, ["a", "b"]);
    assert ["a", "b"][1] == "b" && !CeilingsKnown(Pair(m), ["a", "b"]);
  }

  lemma PairNarrows(h: Host, m: Manifest)
    ensures AllNarrow(h, Pair(m)) && RequiredAreDelegates(Pair(m))
  {
    forall roots: seq<string>, c | c in roots
      ensures Within(h, h.resolve(c), roots)
    {
      var i :| 0 <= i < |roots| && roots[i] == c;
      assert h.resolve(roots[i]) <= h.resolve(c);
    }
  }

  lemma PairIsForest(m: Manifest)
    ensures IsForest(Pair(m), ["a"])
  {
    var specs, roots := Pair(m), ["a"];
    assert OneParent(specs) && Parentless(specs, roots);
    assert Route(specs, roots, ["a"], "a") && Route(specs, roots, ["a", "b"], "b");
    forall n, p, q | n in specs && Route(specs, roots, p, n) && Route(specs, roots, q, n)
      ensures p == q
    {
      RoutesAreUnique(specs, roots, p, q, n);
    }
  }

  // ------------------------------------------------------------ a loaded package

  lemma {:induction false} RouteStaysInTeam(specs: Specs, teamOf: map<string, string>, root: string, p: seq<string>,
                                            n: string)
    requires SameTeam(specs, teamOf) && root in teamOf && teamOf[root] == root && Route(specs, [root], p, n)
    ensures forall i :: 0 <= i < |p| ==> p[i] in Members(teamOf, root)
    decreases |p|
  {
    if |p| > 1 {
      RouteInit(specs, [root], p, n);
      RouteStaysInTeam(specs, teamOf, root, p[..|p| - 1], p[|p| - 2]);
      assert p[|p| - 2] in Members(teamOf, root);
    }
  }

  lemma FewerRoots(specs: Specs, roots: seq<string>, root: string)
    requires Parentless(specs, roots) && root in roots
    ensures Parentless(specs, [root])
  {
  }

  lemma RouteFromOne(specs: Specs, roots: seq<string>, p: seq<string>, n: string)
    requires Route(specs, roots, p, n)
    ensures p != [] && p[0] in roots && p[|p| - 1] == n && Route(specs, [p[0]], p, n)
  {
  }

  /** What `_validate_forest` accepts. */
  ghost predicate PackageIsValid(h: Host, specs: Specs, declared: seq<string>) {
    && (if declared != [] then IsForest(specs, declared) else exists r :: IsForest(specs, [r]))
    && AllNarrow(h, specs) && RequiredAreDelegates(specs)
  }

  /** `_build_loaded`: a package is refused, or there is one team for each root, it mirrors the agents
      below that root, and each agent's way down from a root leads it to that root's team, where it
      keeps its grants. */
  method BuildLoaded(h: Host, order: seq<string>, specs: Specs, declared: seq<string>, maxDepth: nat)
    returns (error: Option<TopologyError>, roots: seq<string>, teams: map<string, Team>, teamOf: map<string, string>)
    requires Listing(order, specs)
    ensures error.None? <==> PackageIsValid(h, specs, declared)
    ensures error.None? ==> IsForest(specs, roots) && if declared != [] then roots == declared else |roots| == 1
    ensures error.None? ==> teamOf.Keys == specs.Keys && forall r :: r in teams <==> r in roots
    ensures error.None? ==> forall r :: r in teams ==>
      && teams[r].root.name == r && teams[r].maxDepth == maxDepth
      && Mirrors(specs, teams[r].View(), Members(teamOf, r))
    ensures error.None? ==> forall n :: n in specs ==> exists p :: Route(specs, [teamOf[n]], p, n)
    ensures error.None? ==> forall n, p :: Route(specs, roots, p, n) ==>
      && n in teamOf && teamOf[n] == p[0] && p[0] in teams
      && KeepsGrants(h, specs, teams[p[0]].View(), p, n)
  {
    hide IsForest, Route, Mirrors, AllNarrow, SameTeam, Listing, RequiredAreDelegates, KeepsGrants, Members, OneParent,
         Parentless;
    teams, teamOf := map[], map[];
    error, roots := ValidateForest(h, order, specs, declared);
    if error.None? {
      ForestFacts(specs, roots);
      teams, teamOf := LoadTeams(specs, roots, maxDepth);
      forall n, p | Route(specs, roots, p, n)
        ensures n in teamOf && p != [] && teamOf[n] == p[0] && p[0] in teams
        ensures Route(specs, [p[0]], p, n) && KeepsGrants(h, specs, teams[p[0]].View(), p, n)
      {
        RouteFromOne(specs, roots, p, n);
        RouteStaysInTeam(specs, teamOf, p[0], p, n);
        InMembers(teamOf, p[0], p[|p| - 1]);
        FewerRoots(specs, roots, p[0]);
        LoadedTeamKeepsGrants(h, specs, teams[p[0]].View(), Members(teamOf, p[0]), p, n);
      }
      forall n | n in specs
        ensures exists p :: Route(specs, [teamOf[n]], p, n)
      {
        ForestHasRoute(specs, roots, n);
        var p :| Route(specs, roots, p, n);
        assert Route(specs, [teamOf[n]], p, n);
      }
    }
  }

  lemma ForestHasRoute(specs: Specs, roots: seq<string>, n: string)
    requires IsForest(specs, roots) && n in specs
    ensures exists p :: Route(specs, roots, p, n)
  {
  }

  lemma InMembers(teamOf: map<string, string>, root: string, n: string)
    requires n in Members(teamOf, root)
    ensures n in teamOf && teamOf[n] == root
  {
  }

  lemma LoadedTeamKeepsGrants(h: Host, specs: Specs, t: TeamView, mine: set<string>, p: seq<string>, n: string)
    requires OneParent(specs) && Parentless(specs, [t.root.name]) && AllNarrow(h, specs) && Mirrors(specs, t, mine)
    requires Route(specs, [t.root.name], p, n) && forall i :: 0 <= i < |p| ==> p[i] in mine
    ensures KeepsGrants(h, specs, t, p, n)
  {
    hide OneParent, Parentless, AllNarrow, Route, EdgesMirror, NodesMirror, Listed, KeepsGrants;
    assert t.(revoked := {}) == t;
    LoadedAgentsKeepTheirGrants(h, specs, t, mine, p, n);
  }
}
