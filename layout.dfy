/** Card layout on the flat canvas: the card height chosen from the window's
    aspect ratio, one position per note (its stored position, or the next free
    cell of a six-column grid), and one padded bounding box per bundle that has
    placed notes. */
module CanvasLayout {
  import opened Domain
  import Seqs

  const BASE_WIDTH: real := 280.0
  const GAP: real := 24.0
  const COLS: nat := 6
  const REGION_PADDING: real := 20.0
  /** Extra room above a region for the bundle label. */
  const REGION_LABEL: real := 28.0

  const MIN_CARD_HEIGHT: int := 160
  const MAX_CARD_HEIGHT: int := 500

  /** `Math.round`: the nearest integer, halves rounded up. */
  function Round(x: real): (n: int)
    ensures n as real - 0.5 <= x < n as real + 0.5
  {
    (x + 0.5).Floor
  }

  /** The card height: the base width scaled by the window's aspect ratio,
      rounded, and kept within `[160, 500]`. */
  function CardHeight(innerWidth: real, innerHeight: real): (h: int)
    requires innerWidth > 0.0
    ensures MIN_CARD_HEIGHT <= h <= MAX_CARD_HEIGHT
    ensures MIN_CARD_HEIGHT <= Round(BASE_WIDTH * (innerHeight / innerWidth)) <= MAX_CARD_HEIGHT
            ==> h == Round(BASE_WIDTH * (innerHeight / innerWidth))
    ensures Round(BASE_WIDTH * (innerHeight / innerWidth)) < MIN_CARD_HEIGHT ==> h == MIN_CARD_HEIGHT
    ensures Round(BASE_WIDTH * (innerHeight / innerWidth)) > MAX_CARD_HEIGHT ==> h == MAX_CARD_HEIGHT
  {
    var height := Round(BASE_WIDTH * (innerHeight / innerWidth));
    var capped := if MAX_CARD_HEIGHT < height then MAX_CARD_HEIGHT else height;
    if MIN_CARD_HEIGHT > capped then MIN_CARD_HEIGHT else capped
  }

  // ---------------------------------------------------------------------------
  // Positions

  /** Both stored coordinates are non-null. */
  predicate HasStoredPosition(n: Note)
  {
    n.positionX.Some? && n.positionY.Some?
  }

  /** How many notes of `notes` go into the grid. */
  function AutoCount(notes: seq<Note>): (k: nat)
    ensures k <= |notes|
  {
    if notes == [] then 0
    else AutoCount(notes[..|notes| - 1]) + (if HasStoredPosition(notes[|notes| - 1]) then 0 else 1)
  }

  /** The top-left corner of grid cell `k`, filled row by row. */
  function GridCell(k: nat, cardW: real, cardH: real): (p: Point)
    ensures cardW + GAP >= 0.0 && cardH + GAP >= 0.0 ==>
              0.0 <= p.x <= (COLS - 1) as real * (cardW + GAP) && 0.0 <= p.y
  {
    assert 0 <= k % COLS <= COLS - 1;
    ScaleBetween((k % COLS) as real, (COLS - 1) as real, cardW + GAP);
    ScaleBetween((k / COLS) as real, (k / COLS) as real, cardH + GAP);
    Point((k % COLS) as real * (cardW + GAP), (k / COLS) as real * (cardH + GAP))
  }

  /** Where note `n` goes when `k` notes before it went into the grid. */
  function Placement(n: Note, k: nat, cardW: real, cardH: real): (p: Point)
    ensures HasStoredPosition(n) ==> p == Point(n.positionX.value, n.positionY.value)
    ensures !HasStoredPosition(n) && cardW + GAP >= 0.0 && cardH + GAP >= 0.0 ==>
              0.0 <= p.x <= (COLS - 1) as real * (cardW + GAP) && 0.0 <= p.y
  {
    if HasStoredPosition(n) then Point(n.positionX.value, n.positionY.value) else GridCell(k, cardW, cardH)
  }

  /** The position map as the loop leaves it: a later note with the same id
      overwrites an earlier one. */
  function Positions(notes: seq<Note>, cardW: real, cardH: real): (m: map<string, Point>)
    ensures forall i :: 0 <= i < |notes| ==> notes[i].id in m
  {
    if notes == [] then map[]
    else
      var init := notes[..|notes| - 1];
      var last := notes[|notes| - 1];
      Positions(init, cardW, cardH)[last.id := Placement(last, AutoCount(init), cardW, cardH)]
  }

  /** The `positions` memo: one pass over the notes with the grid counter. */
  method ComputePositions(notes: seq<Note>, cardW: real, cardH: real) returns (positions: map<string, Point>)
    ensures positions == Positions(notes, cardW, cardH)
  {
    positions := map[];
    var autoIndex: nat := 0;
    for i := 0 to |notes|
      invariant positions == Positions(notes[..i], cardW, cardH)
      invariant autoIndex == AutoCount(notes[..i])
    {
      var note := notes[i];
      assert notes[..i + 1][..i] == notes[..i];
      if note.positionX.Some? && note.positionY.Some? {
        positions := positions[note.id := Point(note.positionX.value, note.positionY.value)];
      } else {
        positions := positions[note.id := GridCell(autoIndex, cardW, cardH)];
        autoIndex := autoIndex + 1;
      }
    }
    assert notes[..|notes|] == notes;
  }

  /** Every note gets an entry, and there is no entry for any other id. */
  lemma {:induction false} PositionsKeys(notes: seq<Note>, cardW: real, cardH: real)
    ensures forall i :: 0 <= i < |notes| ==> notes[i].id in Positions(notes, cardW, cardH)
    ensures forall id :: id in Positions(notes, cardW, cardH) ==> exists i :: 0 <= i < |notes| && notes[i].id == id
  {
    if notes != [] {
      var init := notes[..|notes| - 1];
      PositionsKeys(init, cardW, cardH);
      forall id | id in Positions(notes, cardW, cardH)
        ensures exists i :: 0 <= i < |notes| && notes[i].id == id
      {
        if id != notes[|notes| - 1].id {
          var i :| 0 <= i < |init| && init[i].id == id;
          assert notes[i].id == id;
        }
      }
    }
  }

  /** The entry for an id is the placement of its last note. */
  lemma {:induction false} PositionsLastWins(notes: seq<Note>, cardW: real, cardH: real, i: nat)
    requires i < |notes|
    requires forall j :: i < j < |notes| ==> notes[j].id != notes[i].id
    ensures notes[i].id in Positions(notes, cardW, cardH)
    ensures Positions(notes, cardW, cardH)[notes[i].id] == Placement(notes[i], AutoCount(notes[..i]), cardW, cardH)
  {
    var init := notes[..|notes| - 1];
    if i < |notes| - 1 {
      assert init[..i] == notes[..i];
      PositionsLastWins(init, cardW, cardH, i);
    }
  }

  /** A note with both coordinates stored (and no later note with its id) keeps
      exactly the stored position. */
  lemma StoredPositionKept(notes: seq<Note>, cardW: real, cardH: real, i: nat)
    requires i < |notes| && HasStoredPosition(notes[i])
    requires forall j :: i < j < |notes| ==> notes[j].id != notes[i].id
    ensures notes[i].id in Positions(notes, cardW, cardH)
    ensures Positions(notes, cardW, cardH)[notes[i].id] == Point(notes[i].positionX.value, notes[i].positionY.value)
  {
    PositionsLastWins(notes, cardW, cardH, i);
  }

  /** Notes with a stored position do not use up a grid cell; every other note
      takes the next one. */
  lemma AutoCountStep(notes: seq<Note>, i: nat)
    requires i < |notes|
    ensures AutoCount(notes[..i + 1]) == AutoCount(notes[..i]) + (if HasStoredPosition(notes[i]) then 0 else 1)
  {
    assert notes[..i + 1][..i] == notes[..i];
  }

  lemma {:induction false} AutoCountMonotone(notes: seq<Note>, i: nat, j: nat)
    requires i <= j <= |notes|
    ensures AutoCount(notes[..i]) <= AutoCount(notes[..j])
    decreases j - i
  {
    if i < j {
      AutoCountStep(notes, j - 1);
      AutoCountMonotone(notes, i, j - 1);
    }
  }

  /** Grid cells of different indices are different, provided cards have a
      positive size. */
  lemma GridCellsDistinct(k1: nat, k2: nat, cardW: real, cardH: real)
    requires cardW > 0.0 && cardH > 0.0 && k1 != k2
    ensures GridCell(k1, cardW, cardH) != GridCell(k2, cardW, cardH)
  {
    assert k1 % COLS != k2 % COLS || k1 / COLS != k2 / COLS;
    ScaledPairsDistinct((k1 % COLS) as real, (k1 / COLS) as real, (k2 % COLS) as real, (k2 / COLS) as real,
                        cardW + GAP, cardH + GAP);
  }

  lemma ScaledPairsDistinct(a1: real, b1: real, a2: real, b2: real, w: real, h: real)
    requires w > 0.0 && h > 0.0 && (a1 != a2 || b1 != b2)
    ensures Point(a1 * w, b1 * h) != Point(a2 * w, b2 * h)
  {
    if a1 * w == a2 * w && b1 * h == b2 * h {
      ProductCancel(a1, a2, w);
      ProductCancel(b1, b2, h);
    }
  }

  lemma ScaleBetween(a: real, top: real, c: real)
    ensures 0.0 <= a <= top && c >= 0.0 ==> 0.0 <= a * c <= top * c
  {
    assert top * c - a * c == (top - a) * c;
  }

  lemma ProductCancel(a: real, b: real, c: real)
    requires c > 0.0 && a * c == b * c
    ensures a == b
  {
    assert (a - b) * c == 0.0;
  }

  /** Two different notes placed by the grid land in different cells: the
      grid counter strictly grows from one to the next. */
  lemma AutoPlacedDistinct(notes: seq<Note>, cardW: real, cardH: real, i: nat, j: nat)
    requires cardW > 0.0 && cardH > 0.0
    requires i < j < |notes| && !HasStoredPosition(notes[i]) && !HasStoredPosition(notes[j])
    ensures Placement(notes[i], AutoCount(notes[..i]), cardW, cardH)
            != Placement(notes[j], AutoCount(notes[..j]), cardW, cardH)
  {
    AutoCountStep(notes, i);
    AutoCountMonotone(notes, i + 1, j);
    GridCellsDistinct(AutoCount(notes[..i]), AutoCount(notes[..j]), cardW, cardH);
  }

  // ---------------------------------------------------------------------------
  // Bundle regions

  datatype Region = Region(bundle: Bundle, x: real, y: real, width: real, height: real)

  /** The note has a non-empty bundle id and a position. */
  predicate Grouped(n: Note, positions: map<string, Point>)
  {
    Truthy(n.bundleId) && n.id in positions
  }

  /** The keys of the `groups` map in insertion order: each bundle id the
      first time a grouped note names it. */
  function GroupKeys(notes: seq<Note>, positions: map<string, Point>): (keys: seq<string>)
    ensures Seqs.NoDuplicates(keys)
    ensures forall k :: k in keys <==> exists i :: 0 <= i < |notes| && Grouped(notes[i], positions)
                                                  && notes[i].bundleId.value == k
  {
    if notes == [] then []
    else
      var init := notes[..|notes| - 1];
      var last := notes[|notes| - 1];
      var keys := GroupKeys(init, positions);
      assert forall i :: 0 <= i < |init| ==> init[i] == notes[i];
      if Grouped(last, positions) && last.bundleId.value !in keys then keys + [last.bundleId.value] else keys
  }

  /** The positions collected for bundle `k`, in note order. */
  function GroupOf(notes: seq<Note>, positions: map<string, Point>, k: string): (pts: seq<Point>)
    ensures |pts| <= |notes|
  {
    if notes == [] then []
    else
      var init := notes[..|notes| - 1];
      var last := notes[|notes| - 1];
      GroupOf(init, positions, k)
        + (if Grouped(last, positions) && last.bundleId.value == k then [positions[last.id]] else [])
  }

  /** Every grouped note contributes its position to its bundle's group. */
  lemma {:induction false} GroupOfMembers(notes: seq<Note>, positions: map<string, Point>, i: nat)
    requires i < |notes| && Grouped(notes[i], positions)
    ensures positions[notes[i].id] in GroupOf(notes, positions, notes[i].bundleId.value)
  {
    var init := notes[..|notes| - 1];
    if i < |notes| - 1 {
      GroupOfMembers(init, positions, i);
    }
  }

  lemma GroupOfKeyNonEmpty(notes: seq<Note>, positions: map<string, Point>, k: string)
    requires k in GroupKeys(notes, positions)
    ensures GroupOf(notes, positions, k) != []
  {
    var i :| 0 <= i < |notes| && Grouped(notes[i], positions) && notes[i].bundleId.value == k;
    GroupOfMembers(notes, positions, i);
  }

  lemma GroupOfStep(notes: seq<Note>, positions: map<string, Point>, i: nat)
    requires i < |notes|
    ensures forall k :: GroupOf(notes[..i + 1], positions, k)
                        == GroupOf(notes[..i], positions, k)
                           + (if Grouped(notes[i], positions) && notes[i].bundleId.value == k then [positions[notes[i].id]] else [])
  {
    assert notes[..i + 1][..i] == notes[..i];
  }

  lemma GroupKeysStep(notes: seq<Note>, positions: map<string, Point>, i: nat)
    requires i < |notes|
    ensures GroupKeys(notes[..i + 1], positions)
            == if Grouped(notes[i], positions) && notes[i].bundleId.value !in GroupKeys(notes[..i], positions)
               then GroupKeys(notes[..i], positions) + [notes[i].bundleId.value]
               else GroupKeys(notes[..i], positions)
  {
    assert notes[..i + 1][..i] == notes[..i];
  }

  lemma {:induction false} GroupOfOutsideKeys(notes: seq<Note>, positions: map<string, Point>, k: string)
    requires k !in GroupKeys(notes, positions)
    ensures GroupOf(notes, positions, k) == []
  {
    if notes != [] {
      var init := notes[..|notes| - 1];
      assert forall i :: 0 <= i < |init| ==> init[i] == notes[i];
      GroupOfOutsideKeys(init, positions, k);
    }
  }

  /** The grouping loop: a map from bundle id to collected positions, with its
      keys kept in insertion order. */
  method BuildGroups(notes: seq<Note>, positions: map<string, Point>)
    returns (keys: seq<string>, groups: map<string, seq<Point>>)
    ensures keys == GroupKeys(notes, positions)
    ensures forall k :: k in groups <==> k in keys
    ensures forall k :: k in groups ==> groups[k] == GroupOf(notes, positions, k)
  {
    keys, groups := [], map[];
    for i := 0 to |notes|
      invariant GroupsSoFar(notes[..i], positions, keys, groups)
    {
      var note := notes[i];
      if !Truthy(note.bundleId) {
        GroupsSkip(notes, positions, i, keys, groups);
        continue;
      }
      if note.id !in positions {
        GroupsSkip(notes, positions, i, keys, groups);
        continue;
      }
      GroupsAdd(notes, positions, i, keys, groups);
      var pos := positions[note.id];
      var b := note.bundleId.value;
      if b !in groups {
        groups := groups[b := []];
        keys := keys + [b];
      }
      groups := groups[b := groups[b] + [pos]];
    }
    assert notes[..|notes|] == notes;
  }

  /** The loop state after the notes `done`: the keys in insertion order and
      each key's collected positions. */
  ghost predicate GroupsSoFar(done: seq<Note>, positions: map<string, Point>,
                              keys: seq<string>, groups: map<string, seq<Point>>)
  {
    keys == GroupKeys(done, positions)
    && (forall k :: k in groups <==> k in keys)
    && forall k :: k in groups ==> groups[k] == GroupOf(done, positions, k)
  }

  /** A note without a bundle id or a position leaves the groups as they are. */
  lemma GroupsSkip(notes: seq<Note>, positions: map<string, Point>, i: nat,
                   keys: seq<string>, groups: map<string, seq<Point>>)
    requires i < |notes| && !Grouped(notes[i], positions)
    requires GroupsSoFar(notes[..i], positions, keys, groups)
    ensures GroupsSoFar(notes[..i + 1], positions, keys, groups)
  {
    GroupKeysStep(notes, positions, i);
    GroupOfStep(notes, positions, i);
  }

  /** A grouped note appends its position to its bundle's group, opening the
      group, and its key, the first time. */
  lemma GroupsAdd(notes: seq<Note>, positions: map<string, Point>, i: nat,
                  keys: seq<string>, groups: map<string, seq<Point>>)
    requires i < |notes| && Grouped(notes[i], positions)
    requires GroupsSoFar(notes[..i], positions, keys, groups)
    ensures var b := notes[i].bundleId.value;
            var started := if b in groups then groups else groups[b := []];
            GroupsSoFar(notes[..i + 1], positions, if b in groups then keys else keys + [b],
                        started[b := started[b] + [positions[notes[i].id]]])
  {
    var b := notes[i].bundleId.value;
    GroupKeysStep(notes, positions, i);
    GroupOfStep(notes, positions, i);
    if b !in groups {
      GroupOfOutsideKeys(notes[..i], positions, b);
    }
  }

  /** The smallest element: `Math.min` folded over `xs`. */
  function Least(xs: seq<real>): real
    requires xs != []
  {
    if |xs| == 1 then xs[0]
    else
      var m := Least(xs[..|xs| - 1]);
      if m <= xs[|xs| - 1] then m else xs[|xs| - 1]
  }

  /** The largest element: `Math.max` folded over `xs`. */
  function Greatest(xs: seq<real>): real
    requires xs != []
  {
    if |xs| == 1 then xs[0]
    else
      var m := Greatest(xs[..|xs| - 1]);
      if m >= xs[|xs| - 1] then m else xs[|xs| - 1]
  }

  lemma {:induction false} LeastIsMinimum(xs: seq<real>)
    requires xs != []
    ensures forall i :: 0 <= i < |xs| ==> Least(xs) <= xs[i]
    ensures exists i :: 0 <= i < |xs| && Least(xs) == xs[i]
  {
    if |xs| > 1 {
      var init := xs[..|xs| - 1];
      LeastIsMinimum(init);
      assert forall i :: 0 <= i < |init| ==> init[i] == xs[i];
      var j :| 0 <= j < |init| && Least(init) == init[j];
      if Least(init) <= xs[|xs| - 1] {
        assert Least(xs) == xs[j];
      } else {
        assert Least(xs) == xs[|xs| - 1];
      }
    } else {
      assert Least(xs) == xs[0];
    }
  }

  lemma {:induction false} GreatestIsMaximum(xs: seq<real>)
    requires xs != []
    ensures forall i :: 0 <= i < |xs| ==> xs[i] <= Greatest(xs)
    ensures exists i :: 0 <= i < |xs| && Greatest(xs) == xs[i]
  {
    if |xs| > 1 {
      var init := xs[..|xs| - 1];
      GreatestIsMaximum(init);
      assert forall i :: 0 <= i < |init| ==> init[i] == xs[i];
      var j :| 0 <= j < |init| && Greatest(init) == init[j];
      if Greatest(init) >= xs[|xs| - 1] {
        assert Greatest(xs) == xs[j];
      } else {
        assert Greatest(xs) == xs[|xs| - 1];
      }
    } else {
      assert Greatest(xs) == xs[0];
    }
  }

  function Lefts(pts: seq<Point>): seq<real> { seq(|pts|, i requires 0 <= i < |pts| => pts[i].x) }
  function Tops(pts: seq<Point>): seq<real> { seq(|pts|, i requires 0 <= i < |pts| => pts[i].y) }
  function Rights(pts: seq<Point>, w: real): seq<real> { seq(|pts|, i requires 0 <= i < |pts| => pts[i].x + w) }
  function Bottoms(pts: seq<Point>, h: real): seq<real> { seq(|pts|, i requires 0 <= i < |pts| => pts[i].y + h) }

  lemma LeastStep(xs: seq<real>, i: nat)
    requires 1 <= i < |xs|
    ensures Least(xs[..i + 1]) == if Least(xs[..i]) <= xs[i] then Least(xs[..i]) else xs[i]
  {
    assert xs[..i + 1][..i] == xs[..i];
  }

  lemma GreatestStep(xs: seq<real>, i: nat)
    requires 1 <= i < |xs|
    ensures Greatest(xs[..i + 1]) == if Greatest(xs[..i]) >= xs[i] then Greatest(xs[..i]) else xs[i]
  {
    assert xs[..i + 1][..i] == xs[..i];
  }

  /** One more card extends each accumulator by that card's edge. */
  lemma BoxStep(pts: seq<Point>, cardW: real, cardH: real, i: nat)
    requires 1 <= i < |pts|
    ensures Least(Lefts(pts)[..i + 1]) == if Least(Lefts(pts)[..i]) <= pts[i].x then Least(Lefts(pts)[..i]) else pts[i].x
    ensures Least(Tops(pts)[..i + 1]) == if Least(Tops(pts)[..i]) <= pts[i].y then Least(Tops(pts)[..i]) else pts[i].y
    ensures Greatest(Rights(pts, cardW)[..i + 1])
            == if Greatest(Rights(pts, cardW)[..i]) >= pts[i].x + cardW then Greatest(Rights(pts, cardW)[..i]) else pts[i].x + cardW
    ensures Greatest(Bottoms(pts, cardH)[..i + 1])
            == if Greatest(Bottoms(pts, cardH)[..i]) >= pts[i].y + cardH then Greatest(Bottoms(pts, cardH)[..i]) else pts[i].y + cardH
  {
    LeastStep(Lefts(pts), i);
    LeastStep(Tops(pts), i);
    GreatestStep(Rights(pts, cardW), i);
    GreatestStep(Bottoms(pts, cardH), i);
  }

  /** The min/max accumulators over one group's card rectangles. The source
      starts them at plus and minus infinity; since a group is never empty,
      starting from the first card gives the same values. */
  method BoundingBox(pts: seq<Point>, cardW: real, cardH: real) returns (minX: real, minY: real, maxX: real, maxY: real)
    requires pts != []
    ensures minX == Least(Lefts(pts)) && minY == Least(Tops(pts))
    ensures maxX == Greatest(Rights(pts, cardW)) && maxY == Greatest(Bottoms(pts, cardH))
  {
    BoxStart(pts, cardW, cardH);
    minX, minY, maxX, maxY := pts[0].x, pts[0].y, pts[0].x + cardW, pts[0].y + cardH;
    for i := 1 to |pts|
      invariant minX == Least(Lefts(pts)[..i]) && minY == Least(Tops(pts)[..i])
      invariant maxX == Greatest(Rights(pts, cardW)[..i]) && maxY == Greatest(Bottoms(pts, cardH)[..i])
    {
      BoxStep(pts, cardW, cardH, i);
      var p := pts[i];
      minX := if minX <= p.x then minX else p.x;
      minY := if minY <= p.y then minY else p.y;
      maxX := if maxX >= p.x + cardW then maxX else p.x + cardW;
      maxY := if maxY >= p.y + cardH then maxY else p.y + cardH;
    }
    BoxEnd(pts, cardW, cardH);
  }

  lemma BoxStart(pts: seq<Point>, cardW: real, cardH: real)
    requires pts != []
    ensures Least(Lefts(pts)[..1]) == pts[0].x && Least(Tops(pts)[..1]) == pts[0].y
    ensures Greatest(Rights(pts, cardW)[..1]) == pts[0].x + cardW && Greatest(Bottoms(pts, cardH)[..1]) == pts[0].y + cardH
  {
    assert Lefts(pts)[..1] == [pts[0].x] && Tops(pts)[..1] == [pts[0].y];
    assert Rights(pts, cardW)[..1] == [pts[0].x + cardW] && Bottoms(pts, cardH)[..1] == [pts[0].y + cardH];
  }

  lemma BoxEnd(pts: seq<Point>, cardW: real, cardH: real)
    ensures Lefts(pts)[..|pts|] == Lefts(pts) && Tops(pts)[..|pts|] == Tops(pts)
    ensures Rights(pts, cardW)[..|pts|] == Rights(pts, cardW) && Bottoms(pts, cardH)[..|pts|] == Bottoms(pts, cardH)
  {
  }

  /** The region drawn for bundle `b` around the cards at `pts`. */
  function RegionOf(b: Bundle, pts: seq<Point>, cardW: real, cardH: real): (r: Region)
    requires pts != []
    ensures r.bundle == b
    ensures r.width >= cardW + 2.0 * REGION_PADDING && r.height >= cardH + 2.0 * REGION_PADDING + REGION_LABEL
  {
    LeastIsMinimum(Lefts(pts));
    LeastIsMinimum(Tops(pts));
    GreatestIsMaximum(Rights(pts, cardW));
    GreatestIsMaximum(Bottoms(pts, cardH));
    var minX := Least(Lefts(pts));
    var minY := Least(Tops(pts));
    var maxX := Greatest(Rights(pts, cardW));
    var maxY := Greatest(Bottoms(pts, cardH));
    Region(b, minX - REGION_PADDING, minY - REGION_PADDING - REGION_LABEL,
           maxX - minX + REGION_PADDING * 2.0, maxY - minY + REGION_PADDING * 2.0 + REGION_LABEL)
  }

  /** A card rectangle lies inside the region with 20 to spare on the left, right
      and bottom, and 48 on top. */
  predicate PaddedInside(r: Region, p: Point, cardW: real, cardH: real)
  {
    r.x + REGION_PADDING <= p.x && p.x + cardW + REGION_PADDING <= r.x + r.width
    && r.y + REGION_PADDING + REGION_LABEL <= p.y && p.y + cardH + REGION_PADDING <= r.y + r.height
  }

  /** The region contains every member card with its padding, and is the
      tightest such box: each of its four sides is reached by some card. */
  lemma RegionContainsMembers(b: Bundle, pts: seq<Point>, cardW: real, cardH: real)
    requires pts != []
    ensures forall i :: 0 <= i < |pts| ==> PaddedInside(RegionOf(b, pts, cardW, cardH), pts[i], cardW, cardH)
    ensures exists i :: 0 <= i < |pts| && RegionOf(b, pts, cardW, cardH).x + REGION_PADDING == pts[i].x
    ensures exists i :: 0 <= i < |pts| && RegionOf(b, pts, cardW, cardH).y + REGION_PADDING + REGION_LABEL == pts[i].y
    ensures exists i :: 0 <= i < |pts| && pts[i].x + cardW + REGION_PADDING
                                          == RegionOf(b, pts, cardW, cardH).x + RegionOf(b, pts, cardW, cardH).width
    ensures exists i :: 0 <= i < |pts| && pts[i].y + cardH + REGION_PADDING
                                          == RegionOf(b, pts, cardW, cardH).y + RegionOf(b, pts, cardW, cardH).height
  {
    var r := RegionOf(b, pts, cardW, cardH);
    LeastIsMinimum(Lefts(pts));
    LeastIsMinimum(Tops(pts));
    GreatestIsMaximum(Rights(pts, cardW));
    GreatestIsMaximum(Bottoms(pts, cardH));
    assert forall i :: 0 <= i < |pts| ==> Lefts(pts)[i] == pts[i].x && Tops(pts)[i] == pts[i].y
                                          && Rights(pts, cardW)[i] == pts[i].x + cardW
                                          && Bottoms(pts, cardH)[i] == pts[i].y + cardH;
  }

  /** The regions for the group keys `keys`, in key order, skipping keys that
      name no bundle. */
  function Regions(keys: seq<string>, notes: seq<Note>, positions: map<string, Point>,
                   bundles: seq<Bundle>, cardW: real, cardH: real): (rs: seq<Region>)
    requires forall k :: k in keys ==> k in GroupKeys(notes, positions)
    ensures |rs| <= |keys|
  {
    if keys == [] then []
    else
      var k := keys[|keys| - 1];
      var rest := Regions(keys[..|keys| - 1], notes, positions, bundles, cardW, cardH);
      match LastBundle(bundles, k)
      case None => rest
      case Some(b) =>
        GroupOfKeyNonEmpty(notes, positions, k);
        rest + [RegionOf(b, GroupOf(notes, positions, k), cardW, cardH)]
  }

  lemma RegionsStep(keys: seq<string>, notes: seq<Note>, positions: map<string, Point>,
                    bundles: seq<Bundle>, cardW: real, cardH: real, i: nat)
    requires i < |keys| && forall k :: k in keys ==> k in GroupKeys(notes, positions)
    ensures GroupOf(notes, positions, keys[i]) != []
    ensures LastBundle(bundles, keys[i]).None? ==>
              Regions(keys[..i + 1], notes, positions, bundles, cardW, cardH)
              == Regions(keys[..i], notes, positions, bundles, cardW, cardH)
    ensures LastBundle(bundles, keys[i]).Some? ==>
              Regions(keys[..i + 1], notes, positions, bundles, cardW, cardH)
              == Regions(keys[..i], notes, positions, bundles, cardW, cardH)
                 + [RegionOf(LastBundle(bundles, keys[i]).value, GroupOf(notes, positions, keys[i]), cardW, cardH)]
  {
    assert keys[..i + 1][..i] == keys[..i];
    GroupOfKeyNonEmpty(notes, positions, keys[i]);
  }

  /** One region: the bounding box of the group's cards, padded. */
  method RegionFor(b: Bundle, pts: seq<Point>, cardW: real, cardH: real) returns (region: Region)
    requires pts != []
    ensures region == RegionOf(b, pts, cardW, cardH)
  {
    var minX, minY, maxX, maxY := BoundingBox(pts, cardW, cardH);
    region := Region(b, minX - REGION_PADDING, minY - REGION_PADDING - REGION_LABEL,
                     maxX - minX + REGION_PADDING * 2.0, maxY - minY + REGION_PADDING * 2.0 + REGION_LABEL);
  }

  /** The `bundleRegions` memo. */
  method BundleRegions(notes: seq<Note>, bundles: seq<Bundle>, positions: map<string, Point>, cardW: real, cardH: real)
    returns (regions: seq<Region>)
    ensures regions == Regions(GroupKeys(notes, positions), notes, positions, bundles, cardW, cardH)
  {
    var keys, groups := BuildGroups(notes, positions);
    regions := [];
    for i := 0 to |keys|
      invariant regions == Regions(keys[..i], notes, positions, bundles, cardW, cardH)
    {
      RegionsStep(keys, notes, positions, bundles, cardW, cardH, i);
      var bundle := LastBundle(bundles, keys[i]);
      var notePositions := groups[keys[i]];
      assert notePositions == GroupOf(notes, positions, keys[i]);
      if bundle.None? || |notePositions| == 0 {
        continue;
      }
      var region := RegionFor(bundle.value, notePositions, cardW, cardH);
      regions := regions + [region];
    }
    assert keys[..|keys|] == keys;
  }

  /** Each region is for a group key and carries the bundle the id map
      finds for it. */
  lemma {:induction false} RegionsAreForKeys(keys: seq<string>, notes: seq<Note>, positions: map<string, Point>,
                                             bundles: seq<Bundle>, cardW: real, cardH: real)
    requires forall k :: k in keys ==> k in GroupKeys(notes, positions)
    ensures forall r :: r in Regions(keys, notes, positions, bundles, cardW, cardH) ==>
              r.bundle.id in keys && LastBundle(bundles, r.bundle.id) == Some(r.bundle)
  {
    if keys != [] {
      var init := keys[..|keys| - 1];
      assert forall x :: x in init ==> x in keys;
      RegionsAreForKeys(init, notes, positions, bundles, cardW, cardH);
    }
  }

  /** Every group key that names a bundle gets a region. */
  lemma {:induction false} RegionsComplete(keys: seq<string>, notes: seq<Note>, positions: map<string, Point>,
                                           bundles: seq<Bundle>, cardW: real, cardH: real)
    requires forall k :: k in keys ==> k in GroupKeys(notes, positions)
    ensures forall k :: k in keys && LastBundle(bundles, k).Some? ==>
              exists r :: r in Regions(keys, notes, positions, bundles, cardW, cardH) && r.bundle.id == k
  {
    if keys != [] {
      var init := keys[..|keys| - 1];
      assert forall x :: x in init ==> x in keys;
      RegionsComplete(init, notes, positions, bundles, cardW, cardH);
      var rs := Regions(keys, notes, positions, bundles, cardW, cardH);
      var rest := Regions(init, notes, positions, bundles, cardW, cardH);
      assert forall r :: r in rest ==> r in rs;
      var k := keys[|keys| - 1];
      if LastBundle(bundles, k).Some? {
        assert rs[|rs| - 1].bundle.id == k;
      }
      assert forall x :: x in keys ==> x in init || x == k;
    }
  }

  /** At most one region per bundle. */
  lemma {:induction false} RegionsDistinct(keys: seq<string>, notes: seq<Note>, positions: map<string, Point>,
                                           bundles: seq<Bundle>, cardW: real, cardH: real)
    requires forall k :: k in keys ==> k in GroupKeys(notes, positions)
    requires Seqs.NoDuplicates(keys)
    ensures forall i, j :: 0 <= i < j < |Regions(keys, notes, positions, bundles, cardW, cardH)| ==>
              Regions(keys, notes, positions, bundles, cardW, cardH)[i].bundle.id
              != Regions(keys, notes, positions, bundles, cardW, cardH)[j].bundle.id
  {
    if keys != [] {
      var init := keys[..|keys| - 1];
      var k := keys[|keys| - 1];
      assert forall x :: x in init ==> x in keys;
      assert Seqs.NoDuplicates(init);
      assert k !in init;
      RegionsDistinct(init, notes, positions, bundles, cardW, cardH);
      RegionsAreForKeys(init, notes, positions, bundles, cardW, cardH);
    }
  }

  /** Each region encloses the card of every note in its bundle. */
  lemma {:induction false} RegionsEncloseMembers(keys: seq<string>, notes: seq<Note>, positions: map<string, Point>,
                                                 bundles: seq<Bundle>, cardW: real, cardH: real)
    requires forall k :: k in keys ==> k in GroupKeys(notes, positions)
    ensures forall r, n :: r in Regions(keys, notes, positions, bundles, cardW, cardH) && n in notes
                           && Grouped(n, positions) && n.bundleId.value == r.bundle.id ==>
              PaddedInside(r, positions[n.id], cardW, cardH)
  {
    if keys != [] {
      var init := keys[..|keys| - 1];
      var k := keys[|keys| - 1];
      assert forall x :: x in init ==> x in keys;
      RegionsEncloseMembers(init, notes, positions, bundles, cardW, cardH);
      match LastBundle(bundles, k)
      case None =>
      case Some(b) =>
        var pts := GroupOf(notes, positions, k);
        GroupOfKeyNonEmpty(notes, positions, k);
        RegionContainsMembers(b, pts, cardW, cardH);
        forall n | n in notes && Grouped(n, positions) && n.bundleId.value == k
          ensures PaddedInside(RegionOf(b, pts, cardW, cardH), positions[n.id], cardW, cardH)
        {
          var i :| 0 <= i < |notes| && notes[i] == n;
          GroupOfMembers(notes, positions, i);
          var j :| 0 <= j < |pts| && pts[j] == positions[n.id];
        }
    }
  }

  /** No note outside a bundle, and no bundle id that names no bundle, gives a
      region; the regions for a layout follow the group keys. */
  lemma LayoutRegions(notes: seq<Note>, bundles: seq<Bundle>, cardW: real, cardH: real)
    ensures var positions := Positions(notes, cardW, cardH);
            var regions := Regions(GroupKeys(notes, positions), notes, positions, bundles, cardW, cardH);
            (forall r :: r in regions ==>
               (exists i :: 0 <= i < |notes| && notes[i].bundleId == Some(r.bundle.id))
               && r.bundle.id != "" && r.bundle in bundles)
            && forall i, j :: 0 <= i < j < |regions| ==> regions[i].bundle.id != regions[j].bundle.id
  {
    var positions := Positions(notes, cardW, cardH);
    var keys := GroupKeys(notes, positions);
    RegionsAreForKeys(keys, notes, positions, bundles, cardW, cardH);
    RegionsDistinct(keys, notes, positions, bundles, cardW, cardH);
  }
}
