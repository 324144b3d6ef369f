/** A team as a tree of agents with attenuated authority (scr/orchestration.py). */
module Orchestration {
  import opened Basics
  import opened Capability

  datatype AgentNode = AgentNode(name: string, manifest: Manifest)

  /** The delegation edges, a dictionary in insertion order: parent and its children so far. */
  type Edges = seq<(string, seq<string>)>

  datatype TeamView = TeamView(
    root: AgentNode,
    edges: Edges,
    nodes: map<string, AgentNode>,
    maxDepth: nat,
    revoked: set<string>)

  // --------------------------------------------------------------- paths

  /** The parent that `path_to` finds: the last one listed. */
  function ParentOf(edges: Edges, name: string): Option<string>
    decreases |edges|
  {
    if edges == [] then None
    else if name in edges[|edges| - 1].1 then Some(edges[|edges| - 1].0)
    else ParentOf(edges[..|edges| - 1], name)
  }

  /** A delegation path from the root to name. */
  predicate IsPath(edges: Edges, root: string, path: seq<string>, name: string) {
    && path != [] && path[0] == root && path[|path| - 1] == name
    && (forall i :: 0 < i < |path| ==> path[i] != root && ParentOf(edges, path[i]) == Some(path[i - 1]))
  }

  lemma {:induction false} PathIsUnique(edges: Edges, root: string, p: seq<string>, q: seq<string>, name: string)
    requires IsPath(edges, root, p, name) && IsPath(edges, root, q, name)
    ensures p == q
    decreases |p|
  {
    if |p| > 1 && |q| > 1 {
      var m, n := |p| - 1, |q| - 1;
      PathIsUnique(edges, root, p[..m], q[..n], p[m - 1]);
      assert p == p[..m] + [p[m]] && q == q[..n] + [q[n]];
    }
  }

  function Reverse(s: seq<string>): (r: seq<string>)
    ensures |r| == |s| && forall i :: 0 <= i < |s| ==> r[i] == s[|s| - 1 - i]
  {
    seq(|s|, i requires 0 <= i < |s| => s[|s| - 1 - i])
  }

  datatype PathResult = Path(path: seq<string>) | NotReachable | TooDeep

  // ----------------------------------------------------------- authority

  function NodeOf(t: TeamView, name: string): AgentNode
    requires name == t.root.name || name in t.nodes
  {
    if name == t.root.name then t.root else t.nodes[name]
  }

  /** Every child that an edge names is a node. */
  predicate Listed(t: TeamView) {
    forall i, c :: 0 <= i < |t.edges| && c in t.edges[i].1 ==> c in t.nodes
  }

  lemma {:induction false} ParentIsListed(t: TeamView, edges: Edges, name: string)
    requires forall i, c :: 0 <= i < |edges| && c in edges[i].1 ==> c in t.nodes
    requires ParentOf(edges, name).Some?
    ensures name in t.nodes
    decreases |edges|
  {
    if name !in edges[|edges| - 1].1 {
      ParentIsListed(t, edges[..|edges| - 1], name);
    }
  }

  predicate OnTeam(t: TeamView, path: seq<string>) {
    path != [] && path[0] == t.root.name && forall i :: 0 <= i < |path| ==> path[i] == t.root.name || path[i] in t.nodes
  }

  lemma PathIsOnTeam(t: TeamView, path: seq<string>, name: string)
    requires Listed(t) && IsPath(t.edges, t.root.name, path, name)
    ensures OnTeam(t, path)
  {
    forall i | 0 < i < |path|
      ensures path[i] in t.nodes
    {
      assert ParentOf(t.edges, path[i]) == Some(path[i - 1]);
      ParentIsListed(t, t.edges, path[i]);
    }
  }

  /** The manifest attenuated along the path; None when a ceiling on it is unknown. */
  function Along(h: Host, t: TeamView, path: seq<string>): Option<Manifest>
    requires OnTeam(t, path)
    decreases |path|
  {
    if |path| == 1 then Some(t.root.manifest)
    else
      var above := Along(h, t, path[..|path| - 1]);
      if above.None? then None else Attenuate(h, above.value, NodeOf(t, path[|path| - 1]).manifest)
  }

  predicate KnownCeilings(t: TeamView, path: seq<string>)
    requires OnTeam(t, path)
  {
    forall i :: 0 <= i < |path| ==> ClassificationRank(NodeOf(t, path[i]).manifest.ceiling).Some?
  }

  /** Attenuation along a path raises exactly if it has more than one node and an unknown ceiling. */
  lemma {:induction false} AlongNeedsKnownCeilings(h: Host, t: TeamView, path: seq<string>)
    requires OnTeam(t, path)
    ensures Along(h, t, path).Some? <==> |path| == 1 || KnownCeilings(t, path)
    ensures Along(h, t, path).Some? && |path| > 1 ==> ClassificationRank(Along(h, t, path).value.ceiling).Some?
    decreases |path|
  {
    hide ClassificationRank;
    if |path| > 1 {
      var n := |path| - 1;
      AlongNeedsKnownCeilings(h, t, path[..n]);
      assert path == path[..n] + [path[n]];
      if n == 1 {
        assert path[0] == t.root.name;
      }
    }
  }

  /** What the path's end may do, every manifest on the path allows. */
  lemma {:induction false} AlongIsSound(h: Host, t: TeamView, path: seq<string>, i: nat, r: Request)
    requires OnTeam(t, path) && i < |path| && Along(h, t, path).Some?
    requires Grants(h, Along(h, t, path).value, r)
    ensures Grants(h, NodeOf(t, path[i]).manifest, r)
    decreases |path|
  {
    hide Grants, Attenuate;
    if |path| > 1 {
      var n := |path| - 1;
      AttenuateIsSound(h, Along(h, t, path[..n]).value, NodeOf(t, path[n]).manifest, r);
      if i < n {
        AlongIsSound(h, t, path[..n], i, r);
      }
    }
  }

  datatype Authority = Granted(manifest: Manifest) | Unreachable | DepthExceeded | Severed | BadCeiling

  class Team {
    const root: AgentNode
    const maxDepth: nat
    var edges: Edges
    var nodes: map<string, AgentNode>
    var revoked: set<string>

    constructor (root: AgentNode, maxDepth: nat)
      ensures View() == TeamView(root, [], map[], maxDepth, {})
    {
      this.root, this.maxDepth := root, maxDepth;
      edges, nodes, revoked := [], map[], {};
    }

    function View(): (v: TeamView)
      reads this
      ensures v.root == root && v.maxDepth == maxDepth
    {
      TeamView(root, edges, nodes, maxDepth, revoked)
    }

    method Revoke(name: string)
      modifies this
      ensures View() == old(View()).(revoked := old(revoked) + {name})
    {
      revoked := revoked + {name};
    }

    /** False when the parent is unknown (DelegationError). */
    method Add(parent: string, child: AgentNode) returns (ok: bool)
      requires Listed(View())
      modifies this
      ensures ok == (parent in old(nodes) || parent == root.name)
      ensures !ok ==> View() == old(View())
      ensures ok ==> View() == old(View()).(nodes := old(nodes)[child.name := child],
                                            edges := WithEdge(old(edges), parent, child.name))
      ensures Listed(View())
    {
      if parent !in nodes && parent != root.name {
        return false;
      }
      nodes := nodes[child.name := child];
      edges := WithEdge(edges, parent, child.name);
      return true;
    }

    method FindPath(name: string) returns (r: PathResult)
      ensures r.Path? ==> IsPath(edges, root.name, r.path, name) && (|r.path| == 1 || |r.path| <= maxDepth + 1)
      ensures r.TooDeep? ==> forall p :: IsPath(edges, root.name, p, name) ==> |p| > maxDepth + 1
      ensures r.NotReachable? ==> forall p :: !IsPath(edges, root.name, p, name)
      ensures r.NotReachable? <==> DeadEnd(View(), name)
      ensures r.TooDeep? <==> TooLong(View(), name)
    {
      var chain := [name];
      while chain[|chain| - 1] != root.name
        invariant 1 <= |chain| && chain[0] == name && (|chain| == 1 || |chain| <= maxDepth + 1)
        invariant forall i :: 0 <= i < |chain| - 1 ==>
          chain[i] != root.name && ParentOf(edges, chain[i]) == Some(chain[i + 1])
        decreases maxDepth + 2 - |chain|
      {
        var parent := ParentOf(edges, chain[|chain| - 1]);
        if parent.None? {
          forall p | IsPath(edges, root.name, p, name)
            ensures false
          {
            ChainFollowsPath(edges, root.name, chain, p, name, |chain| - 1);
          }
          assert Climb(edges, root.name, chain, name);
          NoLongClimb(View(), chain, name);
          return NotReachable;
        }
        chain := chain + [parent.value];
        if |chain| > maxDepth + 1 {
          forall p | IsPath(edges, root.name, p, name)
            ensures |p| > maxDepth + 1
          {
            ChainFollowsPath(edges, root.name, chain, p, name, |chain| - 1);
          }
          assert Climb(edges, root.name, chain, name);
          LongClimb(View(), chain, name);
          return TooDeep;
        }
      }
      assert Climb(edges, root.name, chain, name);
      NoLongClimb(View(), chain, name);
      var path := Reverse(chain);
      forall i | 0 < i < |path|
        ensures path[i] != root.name && ParentOf(edges, path[i]) == Some(path[i - 1])
      {
        assert path[i] == chain[|chain| - 1 - i];
      }
      return Path(path);
    }

    method EffectiveManifest(h: Host, name: string) returns (r: Authority)
      requires Listed(View())
      ensures r.Granted? <==> exists path :: GrantedAlong(h, View(), path, name)
      ensures forall path :: GrantedAlong(h, View(), path, name) ==>
        r == Granted(Along(h, View(), path).value)
      ensures r == Severed ==> exists path :: SeveredAlong(View(), path, name)
      ensures (exists path :: SeveredAlong(View(), path, name)) ==> r == Severed
      ensures r == BadCeiling <==> exists path :: RefusedAlong(h, View(), path, name)
      ensures r == Unreachable <==> DeadEnd(View(), name)
      ensures r == DepthExceeded <==> TooLong(View(), name)
    {
      hide Along, IsPath, ParentOf, Listed, DeadEnd, TooLong;
      var found := FindPath(name);
      if !found.Path? {
        return if found.TooDeep? then DepthExceeded else Unreachable;
      }
      var path := found.path;
      forall q | IsPath(edges, root.name, q, name)
        ensures q == path
      {
        PathIsUnique(edges, root.name, path, q, name);
      }
      PathIsOnTeam(View(), path, name);
      if exists i :: 0 <= i < |path| && path[i] in revoked {
        assert SeveredAlong(View(), path, name);
        return Severed;
      }
      var eff := AttenuateAlong(h, path);
      if eff.None? {
        assert RefusedAlong(h, View(), path, name);
        return BadCeiling;
      }
      assert GrantedAlong(h, View(), path, name);
      return Granted(eff.value);
    }

    /** The fold of `effective_manifest`. */
    method AttenuateAlong(h: Host, path: seq<string>) returns (eff: Option<Manifest>)
      requires OnTeam(View(), path)
      ensures eff == Along(h, View(), path)
    {
      hide Attenuate;
      var m := root.manifest;
      for i := 1 to |path|
        invariant OnTeam(View(), path[..i]) && Along(h, View(), path[..i]) == Some(m)
      {
        assert path[..i + 1][..i] == path[..i];
        eff := Attenuate(h, m, NodeOf(View(), path[i]).manifest);
        if eff.None? {
          StaysNone(h, View(), path, i + 1);
          return;
        }
        m := eff.value;
      }
      assert path[..|path|] == path;
      return Some(m);
    }
  }

  function WithEdge(edges: Edges, parent: string, child: string): Edges {
    if exists i :: 0 <= i < |edges| && edges[i].0 == parent
    then seq(|edges|, i requires 0 <= i < |edges| =>
               if edges[i].0 == parent then (parent, edges[i].1 + [child]) else edges[i])
    else edges + [(parent, [child])]
  }

  /** The climb from name meets the path's nodes from its end. */
  lemma {:induction false} ChainFollowsPath(edges: Edges, root: string, chain: seq<string>, p: seq<string>,
                                            name: string, k: nat)
    requires chain != [] && chain[0] == name && IsPath(edges, root, p, name) && k < |chain|
    requires forall i :: 0 <= i < |chain| - 1 ==> chain[i] != root && ParentOf(edges, chain[i]) == Some(chain[i + 1])
    ensures k < |p| && chain[k] == p[|p| - 1 - k]
    ensures chain[k] != root ==> ParentOf(edges, chain[k]).Some?
    ensures chain[k] != root ==> k + 1 < |p|
    decreases k
  {
    if k > 0 {
      ChainFollowsPath(edges, root, chain, p, name, k - 1);
      assert ParentOf(edges, p[|p| - k]) == Some(p[|p| - k - 1]);
    }
    if chain[k] != root {
      assert ParentOf(edges, p[|p| - 1 - k]) == Some(p[|p| - 2 - k]);
    }
  }

  /** The climb from name by parents, ending before or at the root. */
  predicate Climb(edges: Edges, root: string, chain: seq<string>, name: string) {
    && chain != [] && chain[0] == name
    && forall i :: 0 <= i < |chain| - 1 ==> chain[i] != root && ParentOf(edges, chain[i]) == Some(chain[i + 1])
  }

  /** Within the depth limit the climb stops below an agent without a parent. */
  ghost predicate DeadEnd(t: TeamView, name: string) {
    exists chain :: StopsBelow(t, chain, name)
  }

  predicate StopsBelow(t: TeamView, chain: seq<string>, name: string) {
    && Climb(t.edges, t.root.name, chain, name) && |chain| <= t.maxDepth + 1
    && chain[|chain| - 1] != t.root.name && ParentOf(t.edges, chain[|chain| - 1]).None?
  }

  /** The climb goes on past the depth limit, to the root or not. */
  ghost predicate TooLong(t: TeamView, name: string) {
    exists chain :: Climb(t.edges, t.root.name, chain, name) && |chain| == t.maxDepth + 2
  }

  lemma {:induction false} ClimbsAgree(edges: Edges, root: string, a: seq<string>, b: seq<string>, name: string, k: nat)
    requires Climb(edges, root, a, name) && Climb(edges, root, b, name) && k < |a| && k < |b|
    ensures a[k] == b[k]
  {
    if k > 0 {
      ClimbsAgree(edges, root, a, b, name, k - 1);
    }
  }

  lemma StuckIsLongest(edges: Edges, root: string, a: seq<string>, c: seq<string>, name: string)
    requires Climb(edges, root, a, name) && Climb(edges, root, c, name)
    requires a[|a| - 1] == root || ParentOf(edges, a[|a| - 1]).None?
    ensures |c| <= |a| && c[|c| - 1] == a[|c| - 1]
  {
    hide ParentOf;
    if |c| > |a| {
      ClimbsAgree(edges, root, a, c, name, |a| - 1);
      ClimbGoesOn(edges, root, c, name, |a| - 1);
    } else {
      ClimbsAgree(edges, root, a, c, name, |c| - 1);
    }
  }

  lemma ClimbGoesOn(edges: Edges, root: string, c: seq<string>, name: string, k: nat)
    requires Climb(edges, root, c, name) && k < |c| - 1
    ensures c[k] != root && ParentOf(edges, c[k]) == Some(c[k + 1])
  {
    hide ParentOf;
  }

  /** A climb that can go no further is the longest; if it ended at the root, no climb dead-ends. */
  lemma NoLongClimb(t: TeamView, chain: seq<string>, name: string)
    requires Climb(t.edges, t.root.name, chain, name) && |chain| <= t.maxDepth + 1
    requires chain[|chain| - 1] == t.root.name || ParentOf(t.edges, chain[|chain| - 1]).None?
    ensures !TooLong(t, name) && (DeadEnd(t, name) <==> chain[|chain| - 1] != t.root.name)
  {
    hide ParentOf;
    forall c | Climb(t.edges, t.root.name, c, name)
      ensures |c| <= |chain| && (StopsBelow(t, c, name) ==> c[|c| - 1] == chain[|chain| - 1])
    {
      StuckIsLongest(t.edges, t.root.name, chain, c, name);
      if StopsBelow(t, c, name) {
        StuckIsLongest(t.edges, t.root.name, c, chain, name);
      }
    }
    if chain[|chain| - 1] != t.root.name {
      assert StopsBelow(t, chain, name);
    }
  }

  lemma LongClimb(t: TeamView, chain: seq<string>, name: string)
    requires Climb(t.edges, t.root.name, chain, name) && |chain| == t.maxDepth + 2
    ensures TooLong(t, name) && !DeadEnd(t, name)
  {
    hide ParentOf;
    forall c | StopsBelow(t, c, name)
      ensures |chain| <= |c|
    {
      StuckIsLongest(t.edges, t.root.name, c, chain, name);
    }
  }

  lemma {:induction false} StaysNone(h: Host, t: TeamView, path: seq<string>, n: nat)
    requires OnTeam(t, path) && 1 <= n <= |path| && Along(h, t, path[..n]).None?
    ensures Along(h, t, path).None?
    decreases |path| - n
  {
    hide Attenuate;
    if n == |path| {
      assert path[..n] == path;
    } else {
      assert path[..n + 1][..n] == path[..n];
      StaysNone(h, t, path, n + 1);
    }
  }

  /** The path exists, is within the depth limit and holds no revoked node. */
  predicate LivePath(t: TeamView, path: seq<string>, name: string) {
    && IsPath(t.edges, t.root.name, path, name)
    && (|path| == 1 || |path| <= t.maxDepth + 1)
    && forall i :: 0 <= i < |path| ==> path[i] !in t.revoked
  }

  predicate GrantedAlong(h: Host, t: TeamView, path: seq<string>, name: string) {
    LivePath(t, path, name) && OnTeam(t, path) && Along(h, t, path).Some?
  }

  /** Live, but attenuation raises on the way: a ceiling on the path is unknown. */
  predicate RefusedAlong(h: Host, t: TeamView, path: seq<string>, name: string) {
    LivePath(t, path, name) && OnTeam(t, path) && Along(h, t, path).None?
  }

  predicate SeveredAlong(t: TeamView, path: seq<string>, name: string) {
    && IsPath(t.edges, t.root.name, path, name)
    && (|path| == 1 || |path| <= t.maxDepth + 1)
    && exists i :: 0 <= i < |path| && path[i] in t.revoked
  }

  /** Everything an agent's effective manifest grants is granted by every manifest from the root down
      to its own, for any topology. */
  lemma EffectiveIsWithinEveryAncestor(h: Host, t: TeamView, path: seq<string>, name: string, i: nat, r: Request)
    requires GrantedAlong(h, t, path, name) && i < |path|
    requires Grants(h, Along(h, t, path).value, r)
    ensures Grants(h, NodeOf(t, path[i]).manifest, r)
  {
    AlongIsSound(h, t, path, i, r);
  }

  /** Revoking a node denies exactly the agents whose path passes through it; the authority of all
      others stays as it was. */
  lemma RevocationSeversDescendants(h: Host, t: TeamView, x: string, path: seq<string>, name: string)
    requires IsPath(t.edges, t.root.name, path, name) && Listed(t)
    ensures var t' := t.(revoked := t.revoked + {x});
      && (x in path ==> forall p :: !GrantedAlong(h, t', p, name))
      && (x !in path ==> forall p :: GrantedAlong(h, t', p, name) <==> GrantedAlong(h, t, p, name))
      && (x !in path && GrantedAlong(h, t, path, name) ==> Along(h, t', path) == Along(h, t, path))
  {
    hide Along, IsPath;
    var t' := t.(revoked := t.revoked + {x});
    forall p | IsPath(t.edges, t.root.name, p, name)
      ensures p == path
    {
      PathIsUnique(t.edges, t.root.name, p, path, name);
    }
    PathIsOnTeam(t, path, name);
    RevokedIsNotRead(h, t, t', path);
    if x in path {
      var i :| 0 <= i < |path| && path[i] == x;
    }
  }

  lemma {:induction false} RevokedIsNotRead(h: Host, t: TeamView, t': TeamView, path: seq<string>)
    requires OnTeam(t, path) && t' == t.(revoked := t'.revoked)
    ensures OnTeam(t', path) && Along(h, t', path) == Along(h, t, path)
    decreases |path|
  {
    if |path| > 1 {
      RevokedIsNotRead(h, t, t', path[..|path| - 1]);
    }
  }
}
