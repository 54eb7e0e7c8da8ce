/**
 * The group resolver of `loadGeoJSON`: with groups shown, every group whose
 * members match at least one neighbourhood feature becomes one feature named
 * after the group (the union of the matches), followed by the features whose
 * name no group lists; with groups hidden, the features pass through.
 */
module Grouping {
  import opened Groups

  /**
   * A polygon outline as loaded, or the union of two geometries. `UnionOf`
   * is a free constructor standing for the result of the geometry library's
   * union; equalities between real unions are not reflected.
   */
  datatype Geometry = Outline(id: nat) | UnionOf(left: Geometry, right: Geometry)

  /** A GeoJSON feature; only its `properties.NAME` is ever updated. */
  class Feature {
    var name: string
    const geometry: Geometry

    constructor (name: string, geometry: Geometry)
      ensures this.name == name && this.geometry == geometry
    {
      this.name := name;
      this.geometry := geometry;
    }
  }

  /** The library union of two features: a new feature, whose name is not set yet. */
  method Union(a: Feature, b: Feature) returns (u: Feature)
    ensures fresh(u) && u.geometry == UnionOf(a.geometry, b.geometry)
  {
    u := new Feature("", UnionOf(a.geometry, b.geometry));
  }

  /** Each feature of the collection is a distinct object, as a parsed GeoJSON file gives them. */
  predicate DistinctFeatures(fs: seq<Feature>)
  {
    forall i, j | 0 <= i < j < |fs| :: fs[i] != fs[j]
  }

  /** The current names of the features. */
  function Names(fs: seq<Feature>): (r: seq<string>)
    reads set f | f in fs
    ensures |r| == |fs| && forall i | 0 <= i < |fs| :: r[i] == fs[i].name
  {
    seq(|fs|, i requires 0 <= i < |fs| reads set f | f in fs => fs[i].name)
  }

  /** The geometries of the features. */
  function Geometries(fs: seq<Feature>): (r: seq<Geometry>)
    ensures |r| == |fs| && forall i | 0 <= i < |fs| :: r[i] == fs[i].geometry
  {
    seq(|fs|, i requires 0 <= i < |fs| => fs[i].geometry)
  }

  // ----------------------------------------------------- value-level model

  /**
   * The positions, in increasing order, of the names that are in `s`
   * (`inside`) or not in `s` (`!inside`): a `filter` on the feature list.
   */
  function Positions(names: seq<string>, s: set<string>, inside: bool): (idx: seq<nat>)
    ensures forall k | 0 <= k < |idx| :: idx[k] < |names| && ((names[idx[k]] in s) == inside)
    ensures forall i | 0 <= i < |names| && ((names[i] in s) == inside) :: i in idx
    ensures forall k, l | 0 <= k < l < |idx| :: idx[k] < idx[l]
  {
    if names == [] then []
    else
      var n := |names| - 1;
      var init := Positions(names[..n], s, inside);
      if (names[n] in s) == inside then init + [n] else init
  }

  /** The names a group lists. */
  function MemberSet(g: Group): set<string>
  {
    set m | m in g.members
  }

  /** Every name any group lists, whether or not it matches a feature. */
  function AllMembers(groups: seq<Group>): set<string>
  {
    set g, m | g in groups && m in g.members :: m
  }

  /** The geometries at the given positions, unioned from left to right. */
  function UnionAll(geoms: seq<Geometry>, idx: seq<nat>): Geometry
    requires |idx| > 0 && forall k | 0 <= k < |idx| :: idx[k] < |geoms|
  {
    if |idx| == 1 then geoms[idx[0]]
    else UnionOf(UnionAll(geoms, idx[..|idx| - 1]), geoms[idx[|idx| - 1]])
  }

  /** One feature of the output: an input feature (by position), or a new feature built for a group. */
  datatype Piece = Input(index: nat) | Merged(name: string, geometry: Geometry)

  /** The input features at the given positions. */
  function Inputs(idx: seq<nat>): (r: seq<Piece>)
    ensures |r| == |idx| && forall k | 0 <= k < |idx| :: r[k] == Input(idx[k])
  {
    seq(|idx|, k requires 0 <= k < |idx| => Input(idx[k]))
  }

  /** All input features, in order. */
  function AllInputs(n: nat): (r: seq<Piece>)
    ensures |r| == n && forall i | 0 <= i < n :: r[i] == Input(i)
  {
    seq(n, i requires 0 <= i < n => Input(i))
  }

  /** The merged features of the groups that match at least one feature, in group order. */
  function MergedGroups(names: seq<string>, geoms: seq<Geometry>, groups: seq<Group>): seq<Piece>
    requires |names| == |geoms|
  {
    if groups == [] then []
    else
      var g := groups[|groups| - 1];
      var idx := Positions(names, MemberSet(g), true);
      MergedGroups(names, geoms, groups[..|groups| - 1]) +
      (if idx == [] then [] else [Merged(g.name, UnionAll(geoms, idx))])
  }

  /**
   * The intended result: with groups shown, the merged groups followed by the
   * features no group lists, in their original order; with groups hidden, the
   * features themselves.
   */
  function Resolve(showGroups: bool, names: seq<string>, geoms: seq<Geometry>, groups: seq<Group>): seq<Piece>
    requires |names| == |geoms|
  {
    if !showGroups then AllInputs(|names|)
    else MergedGroups(names, geoms, groups) + Inputs(Positions(names, AllMembers(groups), false))
  }

  /** The state of the source's loop: the features' current names, `usedNames`, and the output so far. */
  datatype Pass = Pass(names: seq<string>, used: set<string>, out: seq<Piece>)

  /**
   * One group as the source handles it: a single match is the input feature
   * itself, and naming it after the group renames the input feature.
   */
  function StepAsWritten(geoms: seq<Geometry>, st: Pass, g: Group): (r: Pass)
    requires |st.names| == |geoms|
    ensures |r.names| == |geoms|
  {
    var idx := Positions(st.names, MemberSet(g), true);
    var used := st.used + MemberSet(g);
    if |idx| == 0 then Pass(st.names, used, st.out)
    else if |idx| == 1 then Pass(st.names[idx[0] := g.name], used, st.out + [Input(idx[0])])
    else Pass(st.names, used, st.out + [Merged(g.name, UnionAll(geoms, idx))])
  }

  /** The source's group loop over the first groups. */
  function GroupsAsWritten(geoms: seq<Geometry>, names: seq<string>, groups: seq<Group>): (r: Pass)
    requires |names| == |geoms|
    ensures |r.names| == |geoms|
  {
    if groups == [] then Pass(names, {}, [])
    else StepAsWritten(geoms, GroupsAsWritten(geoms, names, groups[..|groups| - 1]), groups[|groups| - 1])
  }

  /** The output of `loadGeoJSON` as written, and the features' names afterwards. */
  function ResolveAsWritten(showGroups: bool, names: seq<string>, geoms: seq<Geometry>, groups: seq<Group>)
    : (r: (seq<Piece>, seq<string>))
    requires |names| == |geoms|
    ensures |r.1| == |names|
  {
    if !showGroups then (AllInputs(|names|), names)
    else
      var p := GroupsAsWritten(geoms, names, groups);
      (p.out + Inputs(Positions(p.names, p.used, false)), p.names)
  }

  /** `out` is the list of features that `pieces` describes. */
  ghost predicate Realizes(out: seq<Feature>, pieces: seq<Piece>, features: seq<Feature>)
    reads set j | 0 <= j < |out| && j < |pieces| && pieces[j].Merged? :: out[j]
  {
    |out| == |pieces| &&
    forall j | 0 <= j < |out| ::
      (pieces[j].Input? ==> pieces[j].index < |features| && out[j] == features[pieces[j].index]) &&
      (pieces[j].Merged? ==> out[j] !in features && out[j].name == pieces[j].name && out[j].geometry == pieces[j].geometry)
  }

  /** The features at the given positions. */
  function Pick(features: seq<Feature>, idx: seq<nat>): (r: seq<Feature>)
    requires forall k | 0 <= k < |idx| :: idx[k] < |features|
    ensures |r| == |idx| && forall k | 0 <= k < |idx| :: r[k] == features[idx[k]]
  {
    seq(|idx|, k requires 0 <= k < |idx| => features[idx[k]])
  }

  // ------------------------------------------------------- loop lemmas

  /** Taking one more group adds its members to the names listed. */
  lemma AllMembersSnoc(groups: seq<Group>, n: nat)
    requires n < |groups|
    ensures AllMembers(groups[..n + 1]) == AllMembers(groups[..n]) + MemberSet(groups[n])
  {
    assert groups[..n + 1] == groups[..n] + [groups[n]];
  }

  /** Taking one more group adds its merged feature, if it matches anything. */
  lemma MergedGroupsSnoc(names: seq<string>, geoms: seq<Geometry>, groups: seq<Group>, n: nat)
    requires |names| == |geoms| && n < |groups|
    ensures var idx := Positions(names, MemberSet(groups[n]), true);
      MergedGroups(names, geoms, groups[..n + 1]) ==
      MergedGroups(names, geoms, groups[..n]) + (if idx == [] then [] else [Merged(groups[n].name, UnionAll(geoms, idx))])
  {
    assert groups[..n + 1][..n] == groups[..n];
  }

  /** Appending one realized feature keeps the output realized. */
  lemma RealizesSnoc(out: seq<Feature>, pieces: seq<Piece>, features: seq<Feature>, o: Feature, p: Piece)
    requires Realizes(out, pieces, features)
    requires p.Input? ==> p.index < |features| && o == features[p.index]
    requires p.Merged? ==> o !in features && o.name == p.name && o.geometry == p.geometry
    ensures Realizes(out + [o], pieces + [p], features)
  {
  }

  /** Appending the input features at some positions keeps the output realized. */
  lemma RealizesInputs(out: seq<Feature>, pieces: seq<Piece>, features: seq<Feature>, idx: seq<nat>)
    requires Realizes(out, pieces, features)
    requires forall k | 0 <= k < |idx| :: idx[k] < |features|
    ensures Realizes(out + Pick(features, idx), pieces + Inputs(idx), features)
  {
  }

  // ------------------------------------------------------------- the loops

  /** `matches[0]` unioned with every later match, left to right. */
  method UnionMatches(features: seq<Feature>, idx: seq<nat>) returns (merged: Feature)
    requires |idx| > 0 && forall k | 0 <= k < |idx| :: idx[k] < |features|
    ensures merged.geometry == UnionAll(Geometries(features), idx)
    ensures |idx| == 1 ==> merged == features[idx[0]]
    ensures |idx| > 1 ==> fresh(merged)
  {
    merged := features[idx[0]];
    for k := 1 to |idx|
      invariant merged.geometry == UnionAll(Geometries(features), idx[..k])
      invariant k == 1 ==> merged == features[idx[0]]
      invariant k > 1 ==> fresh(merged)
    {
      assert idx[..k + 1][..k] == idx[..k];
      merged := Union(merged, features[idx[k]]);
    }
    assert idx[..|idx|] == idx;
  }

  /**
   * A matching group as the source handles it: the union of the matches, named
   * after the group. A single match is the input feature itself, so naming it
   * renames that input feature.
   */
  method NameGroup(features: seq<Feature>, idx: seq<nat>, name: string) returns (merged: Feature)
    requires |idx| > 0 && forall k | 0 <= k < |idx| :: idx[k] < |features|
    requires DistinctFeatures(features)
    modifies set f | f in features
    ensures merged.name == name && merged.geometry == UnionAll(Geometries(features), idx)
    ensures |idx| == 1 ==> merged == features[idx[0]]
    ensures |idx| > 1 ==> fresh(merged)
    ensures Names(features) == if |idx| == 1 then old(Names(features))[idx[0] := name] else old(Names(features))
  {
    merged := UnionMatches(features, idx);
    merged.name := name;
  }

  /**
   * The group loop of `loadGeoJSON` as the source writes it: a group with a
   * single match emits the input feature itself, renamed in place to the
   * group name.
   */
  method GroupLoopAsWritten(features: seq<Feature>, groups: seq<Group>)
    returns (out: seq<Feature>, used: set<string>)
    requires DistinctFeatures(features)
    modifies set f | f in features
    ensures var p := GroupsAsWritten(Geometries(features), old(Names(features)), groups);
            Realizes(out, p.out, features) && Names(features) == p.names && used == p.used
  {
    ghost var geoms := Geometries(features);
    ghost var pass := Pass(Names(features), {}, []);
    used := {};
    out := [];
    for gi := 0 to |groups|
      invariant pass == GroupsAsWritten(geoms, old(Names(features)), groups[..gi])
      invariant Names(features) == pass.names && used == pass.used
      invariant Realizes(out, pass.out, features)
    {
      assert groups[..gi + 1][..gi] == groups[..gi];
      used := used + MemberSet(groups[gi]);
      out, pass := GroupStepAsWritten(features, geoms, groups[gi], out, pass);
    }
    assert groups[..|groups|] == groups;
  }

  /** One iteration of the source's group loop: skip a group without matches, else emit its named union. */
  method GroupStepAsWritten(features: seq<Feature>, ghost geoms: seq<Geometry>, g: Group,
                            out: seq<Feature>, ghost pass: Pass)
    returns (out': seq<Feature>, ghost pass': Pass)
    requires DistinctFeatures(features) && geoms == Geometries(features)
    requires Names(features) == pass.names && Realizes(out, pass.out, features)
    modifies set f | f in features
    ensures pass' == StepAsWritten(geoms, pass, g)
    ensures Names(features) == pass'.names && Realizes(out', pass'.out, features)
  {
    pass' := StepAsWritten(geoms, pass, g);
    var idx := Positions(Names(features), MemberSet(g), true);
    if |idx| == 0 {
      return out, pass';
    }
    var merged := NameGroup(features, idx, g.name);
    RealizesSnoc(out, pass.out, features, merged,
      if |idx| == 1 then Input(idx[0]) else Merged(g.name, UnionAll(geoms, idx)));
    out' := out + [merged];
  }

  /** `loadGeoJSON` as the source writes it: the group loop, then the features no group listed. */
  method LoadFeaturesAsWritten(showGroups: bool, features: seq<Feature>, groups: seq<Group>)
    returns (out: seq<Feature>)
    requires DistinctFeatures(features)
    modifies set f | f in features
    ensures var r := ResolveAsWritten(showGroups, old(Names(features)), Geometries(features), groups);
            Realizes(out, r.0, features) && Names(features) == r.1
  {
    if !showGroups {
      return features;
    }
    var grouped, used := GroupLoopAsWritten(features, groups);
    var rest := Positions(Names(features), used, false);
    RealizesInputs(grouped, GroupsAsWritten(Geometries(features), old(Names(features)), groups).out, features, rest);
    out := grouped + Pick(features, rest);
  }

  /**
   * The group loop with the single-match case fixed: every group's feature is
   * a new feature, so no input feature is renamed.
   */
  method GroupLoop(features: seq<Feature>, groups: seq<Group>) returns (out: seq<Feature>, used: set<string>)
    ensures Realizes(out, MergedGroups(Names(features), Geometries(features), groups), features)
    ensures used == AllMembers(groups)
  {
    ghost var geoms := Geometries(features);
    ghost var names := Names(features);
    used := {};
    out := [];
    for gi := 0 to |groups|
      invariant used == AllMembers(groups[..gi])
      invariant Realizes(out, MergedGroups(names, geoms, groups[..gi]), features)
    {
      var g := groups[gi];
      var idx := Positions(Names(features), MemberSet(g), true);
      AllMembersSnoc(groups, gi);
      MergedGroupsSnoc(names, geoms, groups, gi);
      used := used + MemberSet(g);
      if |idx| == 0 {
        continue;
      }
      var merged := UnionMatches(features, idx);
      var named := new Feature(g.name, merged.geometry);
      RealizesSnoc(out, MergedGroups(names, geoms, groups[..gi]), features, named, Merged(g.name, UnionAll(geoms, idx)));
      out := out + [named];
    }
    assert groups[..|groups|] == groups;
  }

  /** `loadGeoJSON` with the single-match case fixed: it changes no input feature. */
  method LoadFeatures(showGroups: bool, features: seq<Feature>, groups: seq<Group>)
    returns (out: seq<Feature>)
    ensures Realizes(out, Resolve(showGroups, Names(features), Geometries(features), groups), features)
  {
    if !showGroups {
      return features;
    }
    var grouped, used := GroupLoop(features, groups);
    var rest := Positions(Names(features), used, false);
    RealizesInputs(grouped, MergedGroups(Names(features), Geometries(features), groups), features, rest);
    out := grouped + Pick(features, rest);
  }

  // ------------------------------------------------------ intended result

  /** The last group's members join the names listed by the groups before it. */
  lemma AllMembersLast(groups: seq<Group>)
    requires groups != []
    ensures AllMembers(groups) == AllMembers(groups[..|groups| - 1]) + MemberSet(groups[|groups| - 1])
  {
    assert groups == groups[..|groups| - 1] + [groups[|groups| - 1]];
  }

  /** One group lists exactly its own members. */
  lemma AllMembersOne(g: Group)
    ensures AllMembers([g]) == MemberSet(g)
  {
    assert forall m | m in MemberSet(g) :: g in [g] && m in g.members;
  }

  /** A filter over one name keeps it or drops it. */
  lemma PositionsOne(name: string, s: set<string>, inside: bool)
    ensures Positions([name], s, inside) == if (name in s) == inside then [0] else []
  {
    assert [name][..0] == [];
  }

  /** The group part of the output holds only new, merged features. */
  lemma {:induction false} MergedGroupsAreMerged(names: seq<string>, geoms: seq<Geometry>, groups: seq<Group>)
    requires |names| == |geoms|
    ensures |MergedGroups(names, geoms, groups)| <= |groups|
    ensures forall p | p in MergedGroups(names, geoms, groups) :: p.Merged?
  {
    if groups != [] {
      MergedGroupsAreMerged(names, geoms, groups[..|groups| - 1]);
    }
  }

  /**
   * Every group that matches at least one feature contributes one feature
   * named after the group, whose geometry is the union of the matches.
   */
  lemma {:induction false} MergedGroupOfMatchingGroup(names: seq<string>, geoms: seq<Geometry>, groups: seq<Group>, k: nat)
    requires |names| == |geoms| && k < |groups|
    requires Positions(names, MemberSet(groups[k]), true) != []
    ensures Merged(groups[k].name, UnionAll(geoms, Positions(names, MemberSet(groups[k]), true)))
            in MergedGroups(names, geoms, groups)
  {
    if k < |groups| - 1 {
      MergedGroupOfMatchingGroup(names, geoms, groups[..|groups| - 1], k);
    }
  }

  /** The groups that match at least one feature, in group order (the ones the loop does not skip). */
  function MatchingGroups(names: seq<string>, groups: seq<Group>): (r: seq<Group>)
    ensures |r| <= |groups|
    ensures forall g | g in r :: g in groups && Positions(names, MemberSet(g), true) != []
    ensures forall g | g in groups && Positions(names, MemberSet(g), true) != [] :: g in r
  {
    if groups == [] then []
    else
      var init := groups[..|groups| - 1];
      var g := groups[|groups| - 1];
      assert groups == init + [g];
      MatchingGroups(names, init) + (if Positions(names, MemberSet(g), true) == [] then [] else [g])
  }

  /**
   * The group part of the output has exactly one piece per matching group, in
   * group order: the `j`-th piece is the `j`-th matching group's union, named
   * after it.
   */
  lemma {:induction false} MergedGroupsOnePerMatch(names: seq<string>, geoms: seq<Geometry>, groups: seq<Group>)
    requires |names| == |geoms|
    ensures |MergedGroups(names, geoms, groups)| == |MatchingGroups(names, groups)|
    ensures forall j | 0 <= j < |MatchingGroups(names, groups)| ::
      var g := MatchingGroups(names, groups)[j];
      Positions(names, MemberSet(g), true) != [] &&
      MergedGroups(names, geoms, groups)[j] == Merged(g.name, UnionAll(geoms, Positions(names, MemberSet(g), true)))
  {
    if groups != [] {
      MergedGroupsOnePerMatch(names, geoms, groups[..|groups| - 1]);
    }
  }

  /**
   * Conversely, every piece of the group part comes from a group that matches
   * at least one feature: it is that group's union, named after it.
   */
  lemma MergedGroupsFromMatchingGroups(names: seq<string>, geoms: seq<Geometry>, groups: seq<Group>)
    requires |names| == |geoms|
    ensures forall p | p in MergedGroups(names, geoms, groups) ::
      exists k | 0 <= k < |groups| ::
        Positions(names, MemberSet(groups[k]), true) != [] &&
        p == Merged(groups[k].name, UnionAll(geoms, Positions(names, MemberSet(groups[k]), true)))
  {
    var out := MergedGroups(names, geoms, groups);
    var ms := MatchingGroups(names, groups);
    MergedGroupsOnePerMatch(names, geoms, groups);
    forall p | p in out
      ensures exists k | 0 <= k < |groups| ::
        Positions(names, MemberSet(groups[k]), true) != [] &&
        p == Merged(groups[k].name, UnionAll(geoms, Positions(names, MemberSet(groups[k]), true)))
    {
      var j :| 0 <= j < |out| && out[j] == p;
      assert ms[j] in ms;
      var k :| 0 <= k < |groups| && groups[k] == ms[j];
    }
  }

  /**
   * New features followed by the inputs at increasing positions hold input
   * `i` exactly when `i` is one of the positions, and then only once.
   */
  lemma InputsOnce(merged: seq<Piece>, rest: seq<nat>, i: nat)
    requires forall p | p in merged :: p.Merged?
    requires forall k, l | 0 <= k < l < |rest| :: rest[k] < rest[l]
    ensures Input(i) in merged + Inputs(rest) <==> i in rest
    ensures forall j1, j2 | 0 <= j1 < j2 < |merged + Inputs(rest)| ::
      (merged + Inputs(rest))[j1] != Input(i) || (merged + Inputs(rest))[j2] != Input(i)
  {
    var out := merged + Inputs(rest);
    forall j | 0 <= j < |merged| ensures out[j].Merged? {
      assert out[j] == merged[j] && merged[j] in merged;
    }
    forall j | |merged| <= j < |out| ensures out[j] == Input(rest[j - |merged|]) {
    }
    if i in rest {
      var k :| 0 <= k < |rest| && rest[k] == i;
      assert out[|merged| + k] == Input(i);
    }
  }

  /**
   * Grouping partitions the features: a feature is passed through exactly when
   * no group lists its name (even a group that matched nothing), and then
   * exactly once.
   */
  lemma ResolvePassthrough(names: seq<string>, geoms: seq<Geometry>, groups: seq<Group>, i: nat)
    requires |names| == |geoms| && i < |names|
    ensures Input(i) in Resolve(true, names, geoms, groups) <==> names[i] !in AllMembers(groups)
    ensures forall j1, j2 | 0 <= j1 < j2 < |Resolve(true, names, geoms, groups)| ::
      Resolve(true, names, geoms, groups)[j1] != Input(i) || Resolve(true, names, geoms, groups)[j2] != Input(i)
  {
    var rest := Positions(names, AllMembers(groups), false);
    MergedGroupsAreMerged(names, geoms, groups);
    InputsOnce(MergedGroups(names, geoms, groups), rest, i);
    assert i in rest <==> names[i] !in AllMembers(groups);
  }

  /** A filter over two names that are both in the set keeps both. */
  lemma PositionsOfPair(x: string, y: string, s: set<string>)
    requires x in s && y in s
    ensures Positions([x, y], s, true) == [0, 1]
  {
    assert [x, y][..1] == [x];
    PositionsOne(x, s, true);
  }

  /** The matches of the group AB among the features A and B: both. */
  lemma MatchesOfAB()
    ensures Positions(["A", "B"], MemberSet(Group("AB", ["A", "B"])), true) == [0, 1]
  {
    var g := Group("AB", ["A", "B"]);
    assert "A" in MemberSet(g) && "B" in MemberSet(g) by {
      assert g.members[0] == "A" && g.members[1] == "B";
    }
    PositionsOfPair("A", "B", MemberSet(g));
  }

  /** The group AB leaves neither A nor B ungrouped. */
  lemma UnmatchedOfAB()
    ensures Positions(["A", "B"], AllMembers([Group("AB", ["A", "B"])]), false) == []
  {
    AllMembersOne(Group("AB", ["A", "B"]));
    assert MemberSet(Group("AB", ["A", "B"])) == {"A", "B"};
    assert ["A", "B"][..1] == ["A"];
    PositionsOne("A", {"A", "B"}, false);
  }

  /** Two features named A and B, one group AB of both: one feature AB, the union of the two, and nothing else. */
  lemma ResolveTwoIntoOne(a: Geometry, b: Geometry)
    ensures Resolve(true, ["A", "B"], [a, b], [Group("AB", ["A", "B"])]) == [Merged("AB", UnionOf(a, b))]
  {
    var g := Group("AB", ["A", "B"]);
    MatchesOfAB();
    UnmatchedOfAB();
    assert UnionAll([a, b], [0, 1]) == UnionOf(a, b) by {
      assert [0, 1][..1] == [0];
    }
    assert [g][..0] == [];
    assert MergedGroups(["A", "B"], [a, b], [g]) == [Merged("AB", UnionOf(a, b))];
  }

  // ---------------------------------------------------- source as written

  /** The source's `usedNames` ends up holding every name any group lists, matched or not. */
  lemma {:induction false} AsWrittenUsesAllMembers(geoms: seq<Geometry>, names: seq<string>, groups: seq<Group>)
    requires |names| == |geoms|
    ensures GroupsAsWritten(geoms, names, groups).used == AllMembers(groups)
  {
    if groups != [] {
      AsWrittenUsesAllMembers(geoms, names, groups[..|groups| - 1]);
      AllMembersLast(groups);
    }
  }

  /**
   * When no group matches exactly one feature, the source renames nothing and
   * its output is the intended one.
   */
  lemma {:induction false} AsWrittenWithoutSingleMatches(geoms: seq<Geometry>, names: seq<string>, groups: seq<Group>)
    requires |names| == |geoms|
    requires forall g | g in groups :: |Positions(names, MemberSet(g), true)| != 1
    ensures GroupsAsWritten(geoms, names, groups) ==
            Pass(names, AllMembers(groups), MergedGroups(names, geoms, groups))
    ensures ResolveAsWritten(true, names, geoms, groups) == (Resolve(true, names, geoms, groups), names)
  {
    if groups != [] {
      AsWrittenWithoutSingleMatches(geoms, names, groups[..|groups| - 1]);
      AllMembersLast(groups);
    }
  }

  /**
   * A group that matches exactly one feature, and whose own name is not one of
   * its members, makes the source emit that feature twice: once as the group's
   * feature and once more as an ungrouped feature, both times under the group
   * name.
   */
  lemma SingleMatchEmittedTwice(geoms: seq<Geometry>, names: seq<string>, g: Group, i: nat)
    requires |names| == |geoms|
    requires Positions(names, MemberSet(g), true) == [i]
    requires g.name !in g.members
    ensures var out := ResolveAsWritten(true, names, geoms, [g]).0;
            |out| >= 2 && out[0] == Input(i) && Input(i) in out[1..]
    ensures i < |names| && ResolveAsWritten(true, names, geoms, [g]).1[i] == g.name
  {
    assert i < |names| by {
      assert Positions(names, MemberSet(g), true)[0] == i;
    }
    var p := GroupsAsWritten(geoms, names, [g]);
    assert p == Pass(names[i := g.name], MemberSet(g), [Input(i)]) by {
      assert [g][..0] == [] && [g][0] == g;
      assert GroupsAsWritten(geoms, names, []) == Pass(names, {}, []);
      assert p == StepAsWritten(geoms, Pass(names, {}, []), g);
      assert {} + MemberSet(g) == MemberSet(g);
    }
    var rest := Positions(p.names, p.used, false);
    assert i in rest by {
      assert p.names[i] == g.name && g.name !in MemberSet(g);
    }
  }

  /** The group G of the one feature A matches it and lists only A. */
  lemma MatchesOfG()
    ensures MemberSet(Group("G", ["A"])) == {"A"} && AllMembers([Group("G", ["A"])]) == {"A"}
    ensures Positions(["A"], {"A"}, true) == [0] && Positions(["A"], {"A"}, false) == []
    ensures Positions(["G"], {"A"}, false) == [0]
  {
    AllMembersOne(Group("G", ["A"]));
    PositionsOne("A", {"A"}, true);
    PositionsOne("A", {"A"}, false);
    PositionsOne("G", {"A"}, false);
  }

  /** The smallest case: a group G of the one feature A yields A twice, renamed G, instead of one feature G. */
  lemma SingleMatchExample(a: Geometry)
    ensures ResolveAsWritten(true, ["A"], [a], [Group("G", ["A"])]) == ([Input(0), Input(0)], ["G"])
    ensures Resolve(true, ["A"], [a], [Group("G", ["A"])]) == [Merged("G", a)]
  {
    var g := Group("G", ["A"]);
    MatchesOfG();
    assert [g][..0] == [] && [g][0] == g;
    assert ["A"][0 := "G"] == ["G"];
    assert GroupsAsWritten([a], ["A"], []) == Pass(["A"], {}, []);
    assert GroupsAsWritten([a], ["A"], [g]) == StepAsWritten([a], Pass(["A"], {}, []), g);
    assert GroupsAsWritten([a], ["A"], [g]) == Pass(["G"], {"A"}, [Input(0)]);
    assert Inputs([0]) == [Input(0)];
    assert [Input(0)] + [Input(0)] == [Input(0), Input(0)];
    assert ResolveAsWritten(true, ["A"], [a], [g]) == ([Input(0)] + Inputs([0]), ["G"]);
    assert MergedGroups(["A"], [a], [g]) == [Merged("G", a)];
  }
}
