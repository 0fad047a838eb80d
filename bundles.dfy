/** The bundle hierarchy: grouping bundles under their parents, and walking a
    bundle's parent chain up to the root. Tree nodes are identified by bundle
    id, as the node map of the source identifies them. */
module BundleHierarchy {
  import opened Domain
  import Seqs

  /** The ids of `bs`, in order. */
  function Ids(bs: seq<Bundle>): (ids: seq<string>)
    ensures |ids| == |bs|
    ensures forall i :: 0 <= i < |bs| ==> ids[i] == bs[i].id
  {
    seq(|bs|, i requires 0 <= i < |bs| => bs[i].id)
  }

  /** The parent a bundle is attached under: its `parentBundleId` when that is
      non-empty and names a bundle of `all`. */
  function AttachedParent(b: Bundle, all: seq<Bundle>): Option<string>
  {
    if Truthy(b.parentBundleId) && b.parentBundleId.value in Ids(all) then b.parentBundleId else None
  }

  /** The ids the second loop pushes onto `roots`, over the prefix `bs`. */
  function RootIds(bs: seq<Bundle>, all: seq<Bundle>): (ids: seq<string>)
    ensures forall id :: id in ids <==> exists i :: 0 <= i < |bs| && bs[i].id == id && AttachedParent(bs[i], all).None?
  {
    if bs == [] then []
    else
      var init := bs[..|bs| - 1];
      var last := bs[|bs| - 1];
      assert forall i :: 0 <= i < |init| ==> init[i] == bs[i];
      RootIds(init, all) + (if AttachedParent(last, all).None? then [last.id] else [])
  }

  /** The ids the second loop pushes onto the children of `parent`, over `bs`. */
  function ChildIds(bs: seq<Bundle>, all: seq<Bundle>, parent: string): (ids: seq<string>)
    ensures forall id :: id in ids <==> exists i :: 0 <= i < |bs| && bs[i].id == id && AttachedParent(bs[i], all) == Some(parent)
  {
    if bs == [] then []
    else
      var init := bs[..|bs| - 1];
      var last := bs[|bs| - 1];
      assert forall i :: 0 <= i < |init| ==> init[i] == bs[i];
      ChildIds(init, all, parent) + (if AttachedParent(last, all) == Some(parent) then [last.id] else [])
  }

  /** `buildTree`: a node per bundle id, then each bundle pushed onto its
      parent's children when the parent is known, and onto the roots otherwise. */
  method BuildTree(bundles: seq<Bundle>) returns (roots: seq<string>, children: map<string, seq<string>>)
    ensures roots == RootIds(bundles, bundles)
    ensures forall id :: id in children <==> id in Ids(bundles)
    ensures forall id :: id in children ==> children[id] == ChildIds(bundles, bundles, id)
  {
    children := map[];
    for i := 0 to |bundles|
      invariant forall id :: id in children <==> id in Ids(bundles[..i])
      invariant forall id :: id in children ==> children[id] == []
    {
      assert Ids(bundles[..i + 1]) == Ids(bundles[..i]) + [bundles[i].id];
      children := children[bundles[i].id := []];
    }
    assert bundles[..|bundles|] == bundles;
    roots := [];
    for i := 0 to |bundles|
      invariant TreeSoFar(bundles[..i], bundles, roots, children)
    {
      var bundle := bundles[i];
      if Truthy(bundle.parentBundleId) && bundle.parentBundleId.value in children {
        AttachStep(bundles, i, roots, children);
        var parent := bundle.parentBundleId.value;
        children := children[parent := children[parent] + [bundle.id]];
      } else {
        RootStep(bundles, i, roots, children);
        roots := roots + [bundle.id];
      }
    }
    assert bundles[..|bundles|] == bundles;
  }

  /** The second loop's state after the bundles `done`. */
  ghost predicate TreeSoFar(done: seq<Bundle>, all: seq<Bundle>, roots: seq<string>, children: map<string, seq<string>>)
  {
    roots == RootIds(done, all)
    && (forall id :: id in children <==> id in Ids(all))
    && forall id :: id in children ==> children[id] == ChildIds(done, all, id)
  }

  /** A bundle whose parent is known joins that parent's children. */
  lemma AttachStep(bundles: seq<Bundle>, i: nat, roots: seq<string>, children: map<string, seq<string>>)
    requires i < |bundles| && TreeSoFar(bundles[..i], bundles, roots, children)
    requires Truthy(bundles[i].parentBundleId) && bundles[i].parentBundleId.value in children
    ensures var p := bundles[i].parentBundleId.value;
            TreeSoFar(bundles[..i + 1], bundles, roots, children[p := children[p] + [bundles[i].id]])
  {
    assert bundles[..i + 1][..i] == bundles[..i];
    assert AttachedParent(bundles[i], bundles) == bundles[i].parentBundleId;
  }

  /** Any other bundle becomes a root. */
  lemma RootStep(bundles: seq<Bundle>, i: nat, roots: seq<string>, children: map<string, seq<string>>)
    requires i < |bundles| && TreeSoFar(bundles[..i], bundles, roots, children)
    requires !(Truthy(bundles[i].parentBundleId) && bundles[i].parentBundleId.value in children)
    ensures TreeSoFar(bundles[..i + 1], bundles, roots + [bundles[i].id], children)
  {
    assert bundles[..i + 1][..i] == bundles[..i];
    assert AttachedParent(bundles[i], bundles).None?;
  }

  /** A bundle is a root iff its parent id is null, empty, or names no bundle. */
  lemma RootIffNoKnownParent(bundles: seq<Bundle>, i: nat)
    requires i < |bundles| && Seqs.NoDuplicates(Ids(bundles))
    ensures bundles[i].id in RootIds(bundles, bundles) <==>
              !Truthy(bundles[i].parentBundleId) || bundles[i].parentBundleId.value !in Ids(bundles)
  {
    var roots := RootIds(bundles, bundles);
    var b := bundles[i];
    assert AttachedParent(b, bundles).None? <==>
             !Truthy(b.parentBundleId) || b.parentBundleId.value !in Ids(bundles);
    if b.id in roots {
      var j :| 0 <= j < |bundles| && bundles[j].id == b.id && AttachedParent(bundles[j], bundles).None?;
      assert Ids(bundles)[i] == Ids(bundles)[j];
      assert i == j;
    } else {
      assert !(0 <= i < |bundles| && bundles[i].id == b.id && AttachedParent(bundles[i], bundles).None?);
    }
  }

  // ---------------------------------------------------------------------------
  // Every bundle is placed exactly once

  /** The total length of the children lists of the bundles `ps`. */
  function ChildTotal(ps: seq<Bundle>, bs: seq<Bundle>, all: seq<Bundle>): nat
  {
    if ps == [] then 0 else |ChildIds(bs, all, ps[0].id)| + ChildTotal(ps[1..], bs, all)
  }

  /** How many bundles of `ps` carry the id `id`. */
  function IdCount(ps: seq<Bundle>, id: string): nat
  {
    if ps == [] then 0 else (if ps[0].id == id then 1 else 0) + IdCount(ps[1..], id)
  }

  lemma {:induction false} ChildTotalStep(ps: seq<Bundle>, bs: seq<Bundle>, b: Bundle, all: seq<Bundle>)
    ensures ChildTotal(ps, bs + [b], all)
            == ChildTotal(ps, bs, all) + (if AttachedParent(b, all).Some? then IdCount(ps, AttachedParent(b, all).value) else 0)
  {
    assert (bs + [b])[..|bs + [b]| - 1] == bs;
    if ps != [] {
      ChildTotalStep(ps[1..], bs, b, all);
    }
  }

  lemma {:induction false} IdCountUnique(ps: seq<Bundle>, id: string)
    requires Seqs.NoDuplicates(Ids(ps)) && id in Ids(ps)
    ensures IdCount(ps, id) == 1
  {
    if ps[0].id == id {
      IdCountAbsent(ps[1..], id);
      assert forall k :: 0 <= k < |ps| - 1 ==> Ids(ps[1..])[k] == Ids(ps)[k + 1];
    } else {
      assert Ids(ps[1..]) == Ids(ps)[1..];
      IdCountUnique(ps[1..], id);
    }
  }

  lemma {:induction false} IdCountAbsent(ps: seq<Bundle>, id: string)
    requires forall k :: 0 <= k < |ps| ==> ps[k].id != id
    ensures IdCount(ps, id) == 0
  {
    if ps != [] {
      IdCountAbsent(ps[1..], id);
    }
  }

  /** With distinct ids, every bundle lands in exactly one list: the roots and
      all children lists together hold as many entries as there are bundles. */
  lemma PlacedExactlyOnce(bundles: seq<Bundle>)
    requires Seqs.NoDuplicates(Ids(bundles))
    ensures |RootIds(bundles, bundles)| + ChildTotal(bundles, bundles, bundles) == |bundles|
  {
    PlacedPrefix(bundles, |bundles|);
    assert bundles[..|bundles|] == bundles;
  }

  lemma {:induction false} PlacedPrefix(bundles: seq<Bundle>, n: nat)
    requires n <= |bundles| && Seqs.NoDuplicates(Ids(bundles))
    ensures |RootIds(bundles[..n], bundles)| + ChildTotal(bundles, bundles[..n], bundles) == n
  {
    if n == 0 {
      ChildTotalEmpty(bundles, bundles);
    } else {
      PlacedPrefix(bundles, n - 1);
      var b := bundles[n - 1];
      assert bundles[..n] == bundles[..n - 1] + [b];
      ChildTotalStep(bundles, bundles[..n - 1], b, bundles);
      if AttachedParent(b, bundles).Some? {
        IdCountUnique(bundles, AttachedParent(b, bundles).value);
      }
    }
  }

  lemma {:induction false} ChildTotalEmpty(ps: seq<Bundle>, all: seq<Bundle>)
    ensures ChildTotal(ps, [], all) == 0
  {
    if ps != [] {
      ChildTotalEmpty(ps[1..], all);
    }
  }

  /** The roots and every children list keep input order. */
  lemma {:induction false} ListsKeepInputOrder(bs: seq<Bundle>, all: seq<Bundle>, parent: string)
    ensures Seqs.IsSubsequence(RootIds(bs, all), Ids(bs))
    ensures Seqs.IsSubsequence(ChildIds(bs, all, parent), Ids(bs))
  {
    if bs != [] {
      var init := bs[..|bs| - 1];
      ListsKeepInputOrder(init, all, parent);
      assert Ids(bs) == Ids(init) + [bs[|bs| - 1].id];
      var last := bs[|bs| - 1];
      Seqs.SubsequenceExtend(RootIds(init, all), Ids(init), last.id);
      Seqs.SubsequenceExtend(ChildIds(init, all, parent), Ids(init), last.id);
      if AttachedParent(last, all).None? {
        assert RootIds(bs, all) == RootIds(init, all) + [last.id];
      } else {
        assert RootIds(bs, all) == RootIds(init, all);
      }
      if AttachedParent(last, all) == Some(parent) {
        assert ChildIds(bs, all, parent) == ChildIds(init, all, parent) + [last.id];
      } else {
        assert ChildIds(bs, all, parent) == ChildIds(init, all, parent);
      }
    }
  }

  // ---------------------------------------------------------------------------
  // Ancestors

  /** The ancestors found by walking up from `current`, root first, or `None`
      when the walk has not ended within `fuel` steps. Each step looks the
      parent id up in the id map (the last bundle with that id). */
  function Walk(bundles: seq<Bundle>, current: Bundle, fuel: nat): (r: Option<seq<Bundle>>)
    ensures r.Some? && !Truthy(current.parentBundleId) ==> r.value == []
    ensures r.Some? && r.value != [] ==>
              Truthy(current.parentBundleId) && LastBundle(bundles, current.parentBundleId.value) == Some(r.value[|r.value| - 1])
    decreases fuel
  {
    if !Truthy(current.parentBundleId) then Some([])
    else
      match LastBundle(bundles, current.parentBundleId.value)
      case None => Some([])
      case Some(parent) =>
        if fuel == 0 then None
        else
          match Walk(bundles, parent, fuel - 1)
          case None => None
          case Some(above) => Some(above + [parent])
  }

  /** The walk from `bundleId` ends: the bundle is unknown, or some number of
      steps reaches a bundle without a known parent. */
  ghost predicate WalkEnds(bundles: seq<Bundle>, bundleId: string)
  {
    LastBundle(bundles, bundleId).None? || exists fuel: nat :: Walk(bundles, LastBundle(bundles, bundleId).value, fuel).Some?
  }

  /** More fuel never changes a walk that has ended. */
  lemma {:induction false} WalkFuelMonotone(bundles: seq<Bundle>, current: Bundle, f1: nat, f2: nat)
    requires f1 <= f2 && Walk(bundles, current, f1).Some?
    ensures Walk(bundles, current, f2) == Walk(bundles, current, f1)
    decreases f1
  {
    if Truthy(current.parentBundleId) {
      match LastBundle(bundles, current.parentBundleId.value)
      case None =>
      case Some(parent) =>
        WalkFuelMonotone(bundles, parent, f1 - 1, f2 - 1);
    }
  }

  /** Each ancestor is the parent of the next one. */
  lemma {:induction false} WalkSteps(bundles: seq<Bundle>, current: Bundle, fuel: nat)
    requires Walk(bundles, current, fuel).Some?
    ensures var a := Walk(bundles, current, fuel).value;
            forall i :: 1 <= i < |a| ==>
              Truthy(a[i].parentBundleId) && LastBundle(bundles, a[i].parentBundleId.value) == Some(a[i - 1])
    decreases fuel
  {
    if Truthy(current.parentBundleId) {
      match LastBundle(bundles, current.parentBundleId.value)
      case None =>
      case Some(parent) =>
        var above := Walk(bundles, parent, fuel - 1).value;
        WalkSteps(bundles, parent, fuel - 1);
        var a := above + [parent];
        assert Walk(bundles, current, fuel).value == a;
        forall i | 1 <= i < |a|
          ensures Truthy(a[i].parentBundleId) && LastBundle(bundles, a[i].parentBundleId.value) == Some(a[i - 1])
        {
          if i < |above| {
            assert a[i] == above[i] && a[i - 1] == above[i - 1];
          } else {
            assert a[i] == parent && a[i - 1] == above[|above| - 1];
          }
        }
    }
  }

  /** Each step of a walk spends one unit of fuel. */
  lemma {:induction false} WalkLength(bundles: seq<Bundle>, current: Bundle, fuel: nat)
    requires Walk(bundles, current, fuel).Some?
    ensures |Walk(bundles, current, fuel).value| <= fuel
    decreases fuel
  {
    if Truthy(current.parentBundleId) && LastBundle(bundles, current.parentBundleId.value).Some? {
      WalkLength(bundles, LastBundle(bundles, current.parentBundleId.value).value, fuel - 1);
    }
  }

  /** The walk from the `i`-th ancestor yields exactly the ancestors before it,
      with the fuel the remaining steps leave. */
  lemma {:induction false} WalkFromAncestor(bundles: seq<Bundle>, current: Bundle, fuel: nat, i: nat)
    requires Walk(bundles, current, fuel).Some? && i < |Walk(bundles, current, fuel).value|
    ensures var a := Walk(bundles, current, fuel).value;
            |a| <= fuel && Walk(bundles, a[i], fuel - (|a| - i)) == Some(a[..i])
    decreases fuel
  {
    var parent := LastBundle(bundles, current.parentBundleId.value).value;
    var above := Walk(bundles, parent, fuel - 1).value;
    var a := above + [parent];
    assert Walk(bundles, current, fuel).value == a;
    WalkLength(bundles, current, fuel);
    if i == |above| {
      assert a[i] == parent && a[..i] == above;
    } else {
      WalkFromAncestor(bundles, parent, fuel - 1, i);
      assert a[i] == above[i] && a[..i] == above[..i];
    }
  }

  /** An ended walk never returns the bundle it started from. */
  lemma ExcludesItself(bundles: seq<Bundle>, current: Bundle, fuel: nat)
    requires Walk(bundles, current, fuel).Some?
    ensures current !in Walk(bundles, current, fuel).value
  {
    var a := Walk(bundles, current, fuel).value;
    if current in a {
      var i :| 0 <= i < |a| && a[i] == current;
      WalkFromAncestor(bundles, current, fuel, i);
      WalkFuelMonotone(bundles, current, fuel - (|a| - i), fuel);
    }
  }

  /** A bundle that is its own parent never ends its walk: `getAncestors`
      loops forever on it. */
  lemma {:induction false} SelfParentNeverEnds(bundles: seq<Bundle>, b: Bundle, fuel: nat)
    requires Truthy(b.parentBundleId) && LastBundle(bundles, b.parentBundleId.value) == Some(b)
    ensures Walk(bundles, b, fuel).None?
  {
    if fuel > 0 {
      SelfParentNeverEnds(bundles, b, fuel - 1);
    }
  }

  /** One step of an ended walk: no known parent ends it with no ancestors,
      a known parent is the last ancestor and the walk goes on from it. */
  lemma WalkUnfold(bundles: seq<Bundle>, current: Bundle, fuel: nat)
    requires Walk(bundles, current, fuel).Some?
    ensures !Truthy(current.parentBundleId) || LastBundle(bundles, current.parentBundleId.value).None? ==>
              Walk(bundles, current, fuel).value == []
    ensures Truthy(current.parentBundleId) && LastBundle(bundles, current.parentBundleId.value).Some? ==>
              var parent := LastBundle(bundles, current.parentBundleId.value).value;
              fuel > 0 && Walk(bundles, parent, fuel - 1).Some?
              && Walk(bundles, current, fuel).value == Walk(bundles, parent, fuel - 1).value + [parent]
  {
  }

  /** `getAncestors`: the walk from the bundle with that id, while the current
      bundle has a non-empty parent id, stopping at the first parent id that
      names no bundle. */
  method GetAncestors(bundles: seq<Bundle>, bundleId: string) returns (ancestors: seq<Bundle>)
    requires WalkEnds(bundles, bundleId)
    ensures LastBundle(bundles, bundleId).None? ==> ancestors == []
    ensures LastBundle(bundles, bundleId).Some? ==>
              forall fuel: nat :: Walk(bundles, LastBundle(bundles, bundleId).value, fuel).Some? ==>
                ancestors == Walk(bundles, LastBundle(bundles, bundleId).value, fuel).value
  {
    ancestors := [];
    var current := LastBundle(bundles, bundleId);
    if current.None? {
      return;
    }
    ghost var start := current.value;
    ghost var fuel: nat :| Walk(bundles, start, fuel).Some?;
    ghost var left: nat := fuel;
    assert Walk(bundles, start, fuel).value + [] == Walk(bundles, start, fuel).value;
    while Truthy(current.value.parentBundleId)
      invariant current.Some? && WalkRemains(bundles, start, fuel, current.value, left, ancestors)
      decreases left
    {
      var parent := LastBundle(bundles, current.value.parentBundleId.value);
      if parent.None? {
        break;
      }
      WalkAdvance(bundles, start, fuel, current.value, left, ancestors);
      ancestors := [parent.value] + ancestors;
      current := parent;
      left := left - 1;
    }
    WalkDone(bundles, start, fuel, current.value, left, ancestors);
    WalkUnique(bundles, start, fuel);
  }

  /** The loop state of `getAncestors`: the walk from `start` is the walk
      still ahead from `current` followed by the ancestors collected. */
  ghost predicate WalkRemains(bundles: seq<Bundle>, start: Bundle, fuel: nat, current: Bundle, left: nat,
                              ancestors: seq<Bundle>)
  {
    Walk(bundles, current, left).Some? && Walk(bundles, start, fuel).Some?
    && Walk(bundles, start, fuel).value == Walk(bundles, current, left).value + ancestors
  }

  lemma WalkAdvance(bundles: seq<Bundle>, start: Bundle, fuel: nat, current: Bundle, left: nat,
                    ancestors: seq<Bundle>)
    requires WalkRemains(bundles, start, fuel, current, left, ancestors)
    requires Truthy(current.parentBundleId) && LastBundle(bundles, current.parentBundleId.value).Some?
    ensures left > 0
    ensures WalkRemains(bundles, start, fuel, LastBundle(bundles, current.parentBundleId.value).value, left - 1,
                        [LastBundle(bundles, current.parentBundleId.value).value] + ancestors)
  {
    var parent := LastBundle(bundles, current.parentBundleId.value).value;
    WalkUnfold(bundles, current, left);
    var above := Walk(bundles, parent, left - 1).value;
    assert above + [parent] + ancestors == above + ([parent] + ancestors);
  }

  lemma WalkDone(bundles: seq<Bundle>, start: Bundle, fuel: nat, current: Bundle, left: nat,
                 ancestors: seq<Bundle>)
    requires WalkRemains(bundles, start, fuel, current, left, ancestors)
    requires !Truthy(current.parentBundleId) || LastBundle(bundles, current.parentBundleId.value).None?
    ensures Walk(bundles, start, fuel).Some? && Walk(bundles, start, fuel).value == ancestors
  {
    WalkUnfold(bundles, current, left);
    assert [] + ancestors == ancestors;
  }

  /** All walks from one bundle that end give the same ancestors. */
  lemma WalkUnique(bundles: seq<Bundle>, start: Bundle, fuel: nat)
    requires Walk(bundles, start, fuel).Some?
    ensures forall f: nat :: Walk(bundles, start, f).Some? ==> Walk(bundles, start, f) == Walk(bundles, start, fuel)
  {
    forall f: nat | Walk(bundles, start, f).Some?
      ensures Walk(bundles, start, f) == Walk(bundles, start, fuel)
    {
      if f <= fuel {
        WalkFuelMonotone(bundles, start, f, fuel);
      } else {
        WalkFuelMonotone(bundles, start, fuel, f);
      }
    }
  }
}
