/** Deny-by-default capability manifests and their attenuation (scr/capability.py).

    Path resolution, alternate-data-stream rejection and regular-expression
    matching are host facilities: they enter as the functions of `Host`. */
module Capability {
  import opened Basics

  /** `resolve` maps a path text to the component list of the resolved absolute
      path (drive first), `badStream` says that the path uses alternate-data-stream
      syntax, `matches(pattern, text)` is a full regular-expression match. */
  datatype Host = Host(resolve: string -> seq<string>,
                       badStream: string -> bool,
                       matches: (string, string) -> bool)

  datatype ExecRule = ExecRule(binary: string, argPattern: string)

  datatype Manifest = Manifest(
    tools: set<string>,
    readRoots: seq<string>,
    writeRoots: seq<string>,
    netHosts: set<string>,
    execRules: seq<ExecRule>,
    maxBudget: real,
    ceiling: string)

  /** What an agent may ask for at the tool boundary. */
  datatype Request =
    | UseTool(name: string)
    | ReadPath(path: string)
    | WritePath(path: string)
    | Connect(host: string)
    | Execute(binary: string, args: string)
    | Classified(level: string)

  // ---------------------------------------------------------------- checks

  function ClassificationRank(level: string): Option<nat> {
    if level == "public" then Some(0)
    else if level == "internal" then Some(1)
    else if level == "confidential" then Some(2)
    else if level == "secret" then Some(3)
    else None
  }

  predicate ClassificationAllowed(m: Manifest, level: string) {
    var wanted, limit := ClassificationRank(level), ClassificationRank(m.ceiling);
    wanted.Some? && limit.Some? && wanted.value <= limit.value
  }

  /** Some root's components are a prefix of the resolved path's components. */
  predicate Within(h: Host, resolved: seq<string>, roots: seq<string>) {
    exists i :: 0 <= i < |roots| && h.resolve(roots[i]) <= resolved
  }

  predicate PathAllowed(h: Host, path: string, roots: seq<string>) {
    roots != [] && !h.badStream(path) && Within(h, h.resolve(path), roots)
  }

  predicate ExecAllowed(h: Host, rules: seq<ExecRule>, binary: string, args: string) {
    exists i :: 0 <= i < |rules| && rules[i].binary == binary && h.matches(rules[i].argPattern, args)
  }

  /** The request passes the manifest's check instead of raising CapabilityDenied. */
  predicate Grants(h: Host, m: Manifest, r: Request) {
    match r
    case UseTool(name) => name in m.tools
    case ReadPath(path) => PathAllowed(h, path, m.readRoots)
    case WritePath(path) => PathAllowed(h, path, m.writeRoots)
    case Connect(host) => host in m.netHosts
    case Execute(binary, args) => ExecAllowed(h, m.execRules, binary, args)
    case Classified(level) => ClassificationAllowed(m, level)
  }

  /** `resolve_within`: the resolved path under the first root that contains it. */
  method ResolveWithin(h: Host, path: string, roots: seq<string>) returns (r: Option<seq<string>>)
    ensures r.Some? <==> !h.badStream(path) && Within(h, h.resolve(path), roots)
    ensures r.Some? ==> r.value == h.resolve(path)
  {
    if h.badStream(path) {
      return None;
    }
    var resolved := h.resolve(path);
    for i := 0 to |roots|
      invariant forall j :: 0 <= j < i ==> !(h.resolve(roots[j]) <= resolved)
    {
      if h.resolve(roots[i]) <= resolved {
        return Some(resolved);
      }
    }
    return None;
  }

  // ------------------------------------------------------------ attenuation

  /** Child roots that sit under some parent root, in the child's order. */
  function RootsContained(h: Host, child: seq<string>, parent: seq<string>): (kept: seq<string>)
    ensures forall c :: c in kept <==> c in child && Within(h, h.resolve(c), parent)
    ensures |kept| <= |child|
    ensures |kept| == |child| ==> kept == child
  {
    if child == [] then []
    else if Within(h, h.resolve(child[0]), parent)
    then [child[0]] + RootsContained(h, child[1..], parent)
    else RootsContained(h, child[1..], parent)
  }

  lemma {:induction false} RootsContainedSnoc(h: Host, child: seq<string>, c: string, parent: seq<string>)
    ensures RootsContained(h, child + [c], parent) ==
            RootsContained(h, child, parent) + (if Within(h, h.resolve(c), parent) then [c] else [])
  {
    if child == [] {
      assert child + [c] == [c];
    } else {
      assert (child + [c])[1..] == child[1..] + [c];
      RootsContainedSnoc(h, child[1..], c, parent);
    }
  }

  /** The inner loop of `_roots_contained`: does some parent root contain this path? */
  method SitsUnder(h: Host, resolved: seq<string>, parent: seq<string>) returns (found: bool)
    ensures found == Within(h, resolved, parent)
  {
    for j := 0 to |parent|
      invariant forall k :: 0 <= k < j ==> !(h.resolve(parent[k]) <= resolved)
    {
      if h.resolve(parent[j]) <= resolved {
        return true;
      }
    }
    return false;
  }

  /** The outer loop of `_roots_contained`. */
  method KeepContainedRoots(h: Host, child: seq<string>, parent: seq<string>) returns (kept: seq<string>)
    ensures kept == RootsContained(h, child, parent)
  {
    kept := [];
    for i := 0 to |child|
      invariant kept == RootsContained(h, child[..i], parent)
    {
      var found := SitsUnder(h, h.resolve(child[i]), parent);
      RootsContainedSnoc(h, child[..i], child[i], parent);
      assert child[..i+1] == child[..i] + [child[i]];
      if found {
        kept := kept + [child[i]];
      }
    }
    assert child[..|child|] == child;
  }

  /** The child's exec rules that the parent also has, textually. */
  function SharedRules(child: seq<ExecRule>, parent: seq<ExecRule>): (kept: seq<ExecRule>)
    ensures forall r :: r in kept <==> r in child && r in parent
  {
    if child == [] then []
    else if child[0] in parent then [child[0]] + SharedRules(child[1..], parent)
    else SharedRules(child[1..], parent)
  }

  /** None when either ceiling is unknown: ranking it raises CapabilityDenied. */
  function Attenuate(h: Host, parent: Manifest, child: Manifest): (eff: Option<Manifest>)
    ensures eff.Some? <==> ClassificationRank(parent.ceiling).Some? && ClassificationRank(child.ceiling).Some?
  {
    var p, c := ClassificationRank(parent.ceiling), ClassificationRank(child.ceiling);
    if p.None? || c.None? then None
    else Some(Manifest(
      child.tools * parent.tools,
      RootsContained(h, child.readRoots, parent.readRoots),
      RootsContained(h, child.writeRoots, parent.writeRoots),
      child.netHosts * parent.netHosts,
      SharedRules(child.execRules, parent.execRules),
      if parent.maxBudget < child.maxBudget then parent.maxBudget else child.maxBudget,
      if c.value < p.value then child.ceiling else parent.ceiling))
  }

  lemma WithinTrans(h: Host, resolved: seq<string>, kept: seq<string>, child: seq<string>, parent: seq<string>)
    requires kept == RootsContained(h, child, parent)
    requires Within(h, resolved, kept)
    ensures Within(h, resolved, child) && Within(h, resolved, parent)
  {
    var i :| 0 <= i < |kept| && h.resolve(kept[i]) <= resolved;
    assert kept[i] in kept;
    var j :| 0 <= j < |child| && child[j] == kept[i];
    var k :| 0 <= k < |parent| && h.resolve(parent[k]) <= h.resolve(kept[i]);
    assert h.resolve(parent[k]) <= resolved;
  }

  /** Monotonicity: nothing is granted that the parent or the child would refuse. */
  lemma AttenuateIsSound(h: Host, parent: Manifest, child: Manifest, r: Request)
    requires Attenuate(h, parent, child).Some?
    requires Grants(h, Attenuate(h, parent, child).value, r)
    ensures Grants(h, parent, r) && Grants(h, child, r)
  {
    var eff := Attenuate(h, parent, child).value;
    match r
    case ReadPath(path) =>
      WithinTrans(h, h.resolve(path), eff.readRoots, child.readRoots, parent.readRoots);
    case WritePath(path) =>
      WithinTrans(h, h.resolve(path), eff.writeRoots, child.writeRoots, parent.writeRoots);
    case Execute(binary, args) =>
      var i :| 0 <= i < |eff.execRules| && eff.execRules[i].binary == binary
               && h.matches(eff.execRules[i].argPattern, args);
      assert eff.execRules[i] in eff.execRules;
      var j :| 0 <= j < |child.execRules| && child.execRules[j] == eff.execRules[i];
      var k :| 0 <= k < |parent.execRules| && parent.execRules[k] == eff.execRules[i];
    case _ =>
  }

  /** Among the roots around the path, some child root is not wider than some parent root. */
  predicate NotAllWider(h: Host, child: seq<string>, parent: seq<string>, resolved: seq<string>) {
    exists c, p :: c in child && p in parent && h.resolve(c) <= resolved && h.resolve(p) <= resolved
                   && !(h.resolve(c) < h.resolve(p))
  }

  /** For paths a condition on the roots around the path, for commands one rule that both hold as text. */
  predicate SharedWitness(h: Host, parent: Manifest, child: Manifest, r: Request) {
    match r
    case ReadPath(path) => NotAllWider(h, child.readRoots, parent.readRoots, h.resolve(path))
    case WritePath(path) => NotAllWider(h, child.writeRoots, parent.writeRoots, h.resolve(path))
    case Execute(binary, args) =>
      exists rule :: rule in child.execRules && rule in parent.execRules
                     && rule.binary == binary && h.matches(rule.argPattern, args)
    case _ => true
  }

  lemma KeptAround(h: Host, child: seq<string>, parent: seq<string>, resolved: seq<string>)
    ensures Within(h, resolved, RootsContained(h, child, parent)) <==> NotAllWider(h, child, parent, resolved)
  {
    hide Within;
    if Within(h, resolved, RootsContained(h, child, parent)) {
      KeptIsNotWider(h, child, parent, resolved);
    }
    if c, p :| c in child && p in parent && h.resolve(c) <= resolved && h.resolve(p) <= resolved
               && !(h.resolve(c) < h.resolve(p)) {
      NotWiderIsKept(h, child, parent, c, p, resolved);
    }
  }

  lemma KeptIsNotWider(h: Host, child: seq<string>, parent: seq<string>, resolved: seq<string>)
    requires Within(h, resolved, RootsContained(h, child, parent))
    ensures NotAllWider(h, child, parent, resolved)
  {
    var kept := RootsContained(h, child, parent);
    var i :| 0 <= i < |kept| && h.resolve(kept[i]) <= resolved;
    var c := kept[i];
    assert c in kept;
    var j :| 0 <= j < |parent| && h.resolve(parent[j]) <= h.resolve(c);
    var p := parent[j];
    PrefixTransitive(h.resolve(p), h.resolve(c), resolved);
    assert c in child && p in parent;
  }

  lemma NotWiderIsKept(h: Host, child: seq<string>, parent: seq<string>, c: string, p: string, resolved: seq<string>)
    requires c in child && p in parent && h.resolve(c) <= resolved && h.resolve(p) <= resolved
    requires !(h.resolve(c) < h.resolve(p))
    ensures Within(h, resolved, RootsContained(h, child, parent))
  {
    hide Within;
    OneIsAbove(h.resolve(c), h.resolve(p), resolved);
    WithinRoot(h, p, h.resolve(c), parent);
    WithinRoot(h, c, resolved, RootsContained(h, child, parent));
  }

  lemma PrefixTransitive(a: seq<string>, b: seq<string>, c: seq<string>)
    requires a <= b && b <= c
    ensures a <= c && !(b < a)
  {
  }

  /** Exactly which requests that both grant survive: all for tools, hosts and ceilings; a path unless every
      child root around it is wider than every parent root around it; a command if a common rule allows it. */
  lemma AttenuateGrantsExactly(h: Host, parent: Manifest, child: Manifest, r: Request)
    requires Attenuate(h, parent, child).Some?
    ensures Grants(h, Attenuate(h, parent, child).value, r) <==>
            Grants(h, parent, r) && Grants(h, child, r) && SharedWitness(h, parent, child, r)
  {
    var eff := Attenuate(h, parent, child).value;
    if Grants(h, eff, r) {
      AttenuateIsSound(h, parent, child, r);
    }
    match r
    case ReadPath(path) => KeptAround(h, child.readRoots, parent.readRoots, h.resolve(path));
    case WritePath(path) => KeptAround(h, child.writeRoots, parent.writeRoots, h.resolve(path));
    case Execute(binary, args) =>
      if Grants(h, eff, r) {
        var i :| 0 <= i < |eff.execRules| && eff.execRules[i].binary == binary
                 && h.matches(eff.execRules[i].argPattern, args);
        assert eff.execRules[i] in eff.execRules;
      }
      if rule :| rule in child.execRules && rule in parent.execRules
                 && rule.binary == binary && h.matches(rule.argPattern, args) {
        assert rule in eff.execRules;
        var i :| 0 <= i < |eff.execRules| && eff.execRules[i] == rule;
      }
    case _ =>
  }

  /** The gap is real: a child root wider than the parent's is dropped, not narrowed, so a path
      that both manifests grant is refused after attenuation. */
  lemma AttenuateIsNotGreatestLowerBound(h: Host, parent: Manifest, child: Manifest, path: string)
    requires ClassificationRank(parent.ceiling).Some? && ClassificationRank(child.ceiling).Some?
    requires parent.readRoots == ["/data/team"] && child.readRoots == ["/data"]
    requires h.resolve("/data") == ["data"] && h.resolve("/data/team") == ["data", "team"]
    requires h.resolve(path) == ["data", "team", "notes"] && !h.badStream(path)
    ensures Grants(h, parent, ReadPath(path)) && Grants(h, child, ReadPath(path))
    ensures !Grants(h, Attenuate(h, parent, child).value, ReadPath(path))
  {
    assert h.resolve(parent.readRoots[0]) <= h.resolve(path);
    assert h.resolve(child.readRoots[0]) <= h.resolve(path);
    var team := h.resolve("/data/team");
    var data := h.resolve("/data");
    assert |team| == 2 && |data| == 1;
    assert !(team <= data);
  }

  /** The same for commands: rules count as shared only if they are equal as texts, so a command that a
      rule of each matches is refused when the two rules are written differently. */
  lemma AttenuateComparesRulesAsTexts(h: Host, parent: Manifest, child: Manifest, a: ExecRule, b: ExecRule,
                                      args: string)
    requires ClassificationRank(parent.ceiling).Some? && ClassificationRank(child.ceiling).Some?
    requires child.execRules == [a] && parent.execRules == [b] && a != b && a.binary == b.binary
    requires h.matches(a.argPattern, args) && h.matches(b.argPattern, args)
    ensures Grants(h, parent, Execute(a.binary, args)) && Grants(h, child, Execute(a.binary, args))
    ensures !Grants(h, Attenuate(h, parent, child).value, Execute(a.binary, args))
  {
    assert child.execRules[0] == a && parent.execRules[0] == b;
    assert a !in parent.execRules && SharedRules(child.execRules, parent.execRules) == [];
  }

  // ------------------------------------------------ when attenuation is the intersection

  /** A parent root that lies under some child root also lies under a child root that is kept. */
  predicate NoOverhang(h: Host, child: seq<string>, parent: seq<string>) {
    forall c, p :: c in child && p in parent && h.resolve(c) <= h.resolve(p) ==>
      Within(h, h.resolve(p), RootsContained(h, child, parent))
  }

  /** Whatever lies under a root of each still lies under a kept root. */
  ghost predicate KeepsCommonPaths(h: Host, child: seq<string>, parent: seq<string>) {
    forall path :: PathAllowed(h, path, child) && PathAllowed(h, path, parent) ==>
      PathAllowed(h, path, RootsContained(h, child, parent))
  }

  /** Each root can be named by a path that is well-formed. */
  ghost predicate Addressable(h: Host, roots: seq<string>) {
    forall p :: p in roots ==> exists path :: !h.badStream(path) && h.resolve(path) == h.resolve(p)
  }

  lemma WithinRoot(h: Host, root: string, resolved: seq<string>, roots: seq<string>)
    requires root in roots && h.resolve(root) <= resolved
    ensures Within(h, resolved, roots)
  {
    var i :| 0 <= i < |roots| && roots[i] == root;
  }

  lemma OneIsAbove(a: seq<string>, b: seq<string>, path: seq<string>)
    requires a <= path && b <= path
    ensures a <= b || b <= a
  {
    assert a == path[..|a|] && b == path[..|b|];
  }

  lemma CommonPathIsKept(h: Host, child: seq<string>, parent: seq<string>, path: string)
    requires NoOverhang(h, child, parent) && PathAllowed(h, path, child) && PathAllowed(h, path, parent)
    ensures PathAllowed(h, path, RootsContained(h, child, parent))
  {
    var kept, at := RootsContained(h, child, parent), h.resolve(path);
    var i :| 0 <= i < |child| && h.resolve(child[i]) <= at;
    var j :| 0 <= j < |parent| && h.resolve(parent[j]) <= at;
    var c, p := child[i], parent[j];
    hide Within;
    assert c in child && p in parent;
    if h.resolve(c) < h.resolve(p) {
      WithinLower(h, h.resolve(p), at, kept);
    } else {
      NotWiderIsKept(h, child, parent, c, p, at);
    }
    assert Within(h, at, kept);
    KeptIsNotEmpty(h, at, kept);
  }

  lemma WithinLower(h: Host, upper: seq<string>, lower: seq<string>, roots: seq<string>)
    requires Within(h, upper, roots) && upper <= lower
    ensures Within(h, lower, roots)
  {
    var k :| 0 <= k < |roots| && h.resolve(roots[k]) <= upper;
    PrefixTransitive(h.resolve(roots[k]), upper, lower);
  }

  lemma KeptIsNotEmpty(h: Host, resolved: seq<string>, roots: seq<string>)
    requires Within(h, resolved, roots)
    ensures roots != []
  {
  }

  /** Narrowing roots loses no common path exactly if no child root hangs over a parent root that no kept
      root covers. */
  lemma RootsMeetExactly(h: Host, child: seq<string>, parent: seq<string>)
    ensures NoOverhang(h, child, parent) ==> KeepsCommonPaths(h, child, parent)
    ensures Addressable(h, parent) && KeepsCommonPaths(h, child, parent) ==> NoOverhang(h, child, parent)
  {
    hide PathAllowed;
    if NoOverhang(h, child, parent) {
      forall path | PathAllowed(h, path, child) && PathAllowed(h, path, parent)
        ensures PathAllowed(h, path, RootsContained(h, child, parent))
      {
        CommonPathIsKept(h, child, parent, path);
      }
    }
    if Addressable(h, parent) && KeepsCommonPaths(h, child, parent) {
      forall c, p | c in child && p in parent && h.resolve(c) <= h.resolve(p)
        ensures Within(h, h.resolve(p), RootsContained(h, child, parent))
      {
        var path :| !h.badStream(path) && h.resolve(path) == h.resolve(p);
        RootIsCommon(h, child, parent, c, p, path);
      }
    }
  }

  lemma RootIsCommon(h: Host, child: seq<string>, parent: seq<string>, c: string, p: string, path: string)
    requires c in child && p in parent && h.resolve(c) <= h.resolve(p)
    requires !h.badStream(path) && h.resolve(path) == h.resolve(p)
    ensures PathAllowed(h, path, child) && PathAllowed(h, path, parent)
    ensures PathAllowed(h, path, RootsContained(h, child, parent)) ==>
      Within(h, h.resolve(p), RootsContained(h, child, parent))
  {
    WithinRoot(h, c, h.resolve(path), child);
    WithinRoot(h, p, h.resolve(path), parent);
  }

  predicate BothMatch(h: Host, a: ExecRule, b: ExecRule, args: string) {
    a.binary == b.binary && h.matches(a.argPattern, args) && h.matches(b.argPattern, args)
  }

  /** What rules of each match in common, a rule that both hold as text matches too. */
  ghost predicate NoLostCommand(h: Host, child: seq<ExecRule>, parent: seq<ExecRule>) {
    forall a, b, args :: a in child && b in parent && BothMatch(h, a, b, args) ==>
      ExecAllowed(h, SharedRules(child, parent), a.binary, args)
  }

  ghost predicate KeepsCommonCommands(h: Host, child: seq<ExecRule>, parent: seq<ExecRule>) {
    forall binary, args :: ExecAllowed(h, child, binary, args) && ExecAllowed(h, parent, binary, args) ==>
      ExecAllowed(h, SharedRules(child, parent), binary, args)
  }

  lemma RulesMeetExactly(h: Host, child: seq<ExecRule>, parent: seq<ExecRule>)
    ensures KeepsCommonCommands(h, child, parent) <==> NoLostCommand(h, child, parent)
  {
    if NoLostCommand(h, child, parent) {
      forall binary, args | ExecAllowed(h, child, binary, args) && ExecAllowed(h, parent, binary, args)
        ensures ExecAllowed(h, SharedRules(child, parent), binary, args)
      {
        var i :| 0 <= i < |child| && child[i].binary == binary && h.matches(child[i].argPattern, args);
        var j :| 0 <= j < |parent| && parent[j].binary == binary && h.matches(parent[j].argPattern, args);
        assert child[i] in child && parent[j] in parent && BothMatch(h, child[i], parent[j], args);
      }
    }
    if KeepsCommonCommands(h, child, parent) {
      forall a, b, args | a in child && b in parent && BothMatch(h, a, b, args)
        ensures ExecAllowed(h, SharedRules(child, parent), a.binary, args)
      {
        var i :| 0 <= i < |child| && child[i] == a;
        var j :| 0 <= j < |parent| && parent[j] == b;
        assert ExecAllowed(h, child, a.binary, args) && ExecAllowed(h, parent, a.binary, args);
      }
    }
  }

  ghost predicate KeepsCommonGrants(h: Host, parent: Manifest, child: Manifest, eff: Manifest) {
    forall r :: Grants(h, parent, r) && Grants(h, child, r) ==> Grants(h, eff, r)
  }

  /** Attenuation grants everything that both manifests grant, and is then their intersection, exactly if
      no child root hangs over an uncovered parent root and no common command is lost. */
  lemma AttenuateIsMeetExactly(h: Host, parent: Manifest, child: Manifest)
    requires Attenuate(h, parent, child).Some?
    requires Addressable(h, parent.readRoots) && Addressable(h, parent.writeRoots)
    ensures KeepsCommonGrants(h, parent, child, Attenuate(h, parent, child).value) <==>
      && NoOverhang(h, child.readRoots, parent.readRoots) && NoOverhang(h, child.writeRoots, parent.writeRoots)
      && NoLostCommand(h, child.execRules, parent.execRules)
  {
    hide PathAllowed, ExecAllowed, NoOverhang, NoLostCommand, Addressable;
    RootsMeetExactly(h, child.readRoots, parent.readRoots);
    RootsMeetExactly(h, child.writeRoots, parent.writeRoots);
    RulesMeetExactly(h, child.execRules, parent.execRules);
    var eff := Attenuate(h, parent, child).value;
    if KeepsCommonGrants(h, parent, child, eff) {
      forall path | PathAllowed(h, path, child.readRoots) && PathAllowed(h, path, parent.readRoots)
        ensures PathAllowed(h, path, eff.readRoots)
      {
        assert Grants(h, parent, ReadPath(path)) && Grants(h, child, ReadPath(path));
        assert Grants(h, eff, ReadPath(path));
      }
      forall path | PathAllowed(h, path, child.writeRoots) && PathAllowed(h, path, parent.writeRoots)
        ensures PathAllowed(h, path, eff.writeRoots)
      {
        assert Grants(h, parent, WritePath(path)) && Grants(h, child, WritePath(path));
        assert Grants(h, eff, WritePath(path));
      }
      var mine, above := child.execRules, parent.execRules;
      forall binary, args | ExecAllowed(h, mine, binary, args) && ExecAllowed(h, above, binary, args)
        ensures ExecAllowed(h, eff.execRules, binary, args)
      {
        assert Grants(h, parent, Execute(binary, args)) && Grants(h, child, Execute(binary, args));
        assert Grants(h, eff, Execute(binary, args));
      }
    }
  }
}
