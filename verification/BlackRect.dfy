/** The search for the largest near-black slab: a summed-area table, and a scan of the boxes that are
    flush with an edge or anchored at the bottom right corner. */
module BlackRect {
  import opened PlayTypes

  /** Rows y0 <= y < y1, columns x0 <= x < x1. */
  datatype Box = Box(y0: nat, y1: nat, x0: nat, x1: nat)

  type Image = seq<seq<bool>>

  predicate Rectangular(black: Image, width: nat) { forall y :: 0 <= y < |black| ==> |black[y]| == width }

  predicate Fits(b: Box, height: nat, width: nat) { b.y0 <= b.y1 <= height && b.x0 <= b.x1 <= width }

  function Area(b: Box): int { (b.y1 - b.y0) * (b.x1 - b.x0) }

  // ---------------------------------------------------------------------------------------------
  // Counting dark pixels directly

  function RowCount(row: seq<bool>, x0: nat, x1: nat): nat
    requires x0 <= x1 <= |row|
    decreases x1
  {
    if x0 == x1 then 0 else RowCount(row, x0, x1 - 1) + if row[x1 - 1] then 1 else 0
  }

  function Count(black: Image, width: nat, y0: nat, y1: nat, x0: nat, x1: nat): nat
    requires Rectangular(black, width) && y0 <= y1 <= |black| && x0 <= x1 <= width
    decreases y1
  {
    if y0 == y1 then 0 else Count(black, width, y0, y1 - 1, x0, x1) + RowCount(black[y1 - 1], x0, x1)
  }

  lemma {:induction false} RowSplits(row: seq<bool>, x0: nat, m: nat, x1: nat)
    requires x0 <= m <= x1 <= |row|
    ensures RowCount(row, x0, x1) == RowCount(row, x0, m) + RowCount(row, m, x1)
    decreases x1
  {
    if m < x1 {
      RowSplits(row, x0, m, x1 - 1);
    }
  }

  lemma {:induction false} CountSplitsRows(black: Image, width: nat, y0: nat, m: nat, y1: nat, x0: nat, x1: nat)
    requires Rectangular(black, width) && y0 <= m <= y1 <= |black| && x0 <= x1 <= width
    ensures Count(black, width, y0, y1, x0, x1) == Count(black, width, y0, m, x0, x1)
        + Count(black, width, m, y1, x0, x1)
    decreases y1
  {
    if m < y1 {
      CountSplitsRows(black, width, y0, m, y1 - 1, x0, x1);
    }
  }

  lemma {:induction false} CountSplitsColumns(black: Image, width: nat, y0: nat, y1: nat, x0: nat, m: nat, x1: nat)
    requires Rectangular(black, width) && y0 <= y1 <= |black| && x0 <= m <= x1 <= width
    ensures Count(black, width, y0, y1, x0, x1) == Count(black, width, y0, y1, x0, m)
        + Count(black, width, y0, y1, m, x1)
    decreases y1
  {
    if y0 < y1 {
      CountSplitsColumns(black, width, y0, y1 - 1, x0, m, x1);
      RowSplits(black[y1 - 1], x0, m, x1);
    }
  }

  /** Four table entries give the count of any box. */
  lemma {:induction false} FourLookups(black: Image, width: nat, b: Box)
    requires Rectangular(black, width) && Fits(b, |black|, width)
    ensures Count(black, width, b.y0, b.y1, b.x0, b.x1)
            == Count(black, width, 0, b.y1, 0, b.x1) - Count(black, width, 0, b.y0, 0, b.x1)
               - Count(black, width, 0, b.y1, 0, b.x0) + Count(black, width, 0, b.y0, 0, b.x0)
  {
    CountSplitsRows(black, width, 0, b.y0, b.y1, 0, b.x1);
    CountSplitsRows(black, width, 0, b.y0, b.y1, 0, b.x0);
    CountSplitsColumns(black, width, b.y0, b.y1, 0, b.x0, b.x1);
  }

  /** The share asked for, and how the machine rounds a quotient: any function will do. */
  datatype Threshold = Threshold(fill: real, round: real -> real)

  /** The share of dark pixels, rounded; an empty box has none. */
  function FillOf(black: Image, width: nat, round: real -> real, b: Box): real
    requires Rectangular(black, width) && Fits(b, |black|, width)
  {
    if Area(b) <= 0 then 0.0 else round(Count(black, width, b.y0, b.y1, b.x0, b.x1) as real / Area(b) as real)
  }

  // ---------------------------------------------------------------------------------------------
  // The boxes considered, and the best of them by definition

  predicate Candidate(b: Box, height: nat, width: nat) {
    && b.y0 < b.y1 <= height && b.x0 < b.x1 <= width
    && (|| (b.y0 == 0 && b.x0 == 0 && b.x1 == width)        // flush with the top
        || (b.x0 == 0 && b.y1 == height && b.x1 == width)   // the bottom
        || (b.y0 == 0 && b.y1 == height && b.x0 == 0)       // the left
        || (b.y0 == 0 && b.y1 == height && b.x1 == width)   // the right
        || (b.y1 == height && b.x1 == width))               // the bottom right corner
  }

  function Tops(h: nat, w: nat, n: nat): (r: seq<Box>) { seq(n, i requires 0 <= i => Box(0, i + 1, 0, w)) }
  function Bottoms(h: nat, w: nat, n: nat): seq<Box> { seq(n, i requires 0 <= i => Box(i, h, 0, w)) }
  function Lefts(h: nat, w: nat, n: nat): seq<Box> { seq(n, i requires 0 <= i => Box(0, h, 0, i + 1)) }
  function Rights(h: nat, w: nat, n: nat): seq<Box> { seq(n, i requires 0 <= i => Box(0, h, i, w)) }
  function CornerRow(h: nat, w: nat, y0: nat, n: nat): seq<Box> { seq(n, i requires 0 <= i => Box(y0, h, i, w)) }
  function Corners(h: nat, w: nat, n: nat): seq<Box> {
    if n == 0 then [] else Corners(h, w, n - 1) + CornerRow(h, w, n - 1, w)
  }

  function Edges(h: nat, w: nat): seq<Box> { Tops(h, w, h) + Bottoms(h, w, h) + Lefts(h, w, w) + Rights(h, w, w) }

  /** Every box in the order the scan meets them. */
  function Candidates(h: nat, w: nat): seq<Box> { Edges(h, w) + Corners(h, w, h) }

  function AreaOf(best: Option<Box>): int { if best.Some? then Area(best.value) else 0 }

  predicate Meets(black: Image, width: nat, ask: Threshold, b: Box)
    requires Rectangular(black, width)
  {
    Fits(b, |black|, width) && FillOf(black, width, ask.round, b) >= ask.fill
  }

  /** A box replaces the best so far if it is strictly larger and dark enough. */
  function Better(black: Image, width: nat, ask: Threshold, best: Option<Box>, b: Box): Option<Box>
    requires Rectangular(black, width)
  {
    if Area(b) > AreaOf(best) && Meets(black, width, ask, b) then Some(b) else best
  }

  function Best(black: Image, width: nat, ask: Threshold, boxes: seq<Box>): Option<Box>
    requires Rectangular(black, width)
  {
    if boxes == [] then None
    else Better(black, width, ask, Best(black, width, ask, boxes[..|boxes| - 1]), boxes[|boxes| - 1])
  }

  lemma {:induction false} BestIsOneOfThem(black: Image, width: nat, ask: Threshold, boxes: seq<Box>)
    requires Rectangular(black, width) && Best(black, width, ask, boxes).Some?
    ensures var b := Best(black, width, ask, boxes).value;
            b in boxes && Area(b) > 0 && Meets(black, width, ask, b)
  {
    var front := boxes[..|boxes| - 1];
    if Best(black, width, ask, front).Some? {
      BestIsOneOfThem(black, width, ask, front);
    }
  }

  lemma {:induction false} BestIsLargest(black: Image, width: nat, ask: Threshold, boxes: seq<Box>, c: Box)
    requires Rectangular(black, width) && c in boxes && Area(c) > 0 && Meets(black, width, ask, c)
    ensures Best(black, width, ask, boxes).Some? && Area(c) <= AreaOf(Best(black, width, ask, boxes))
  {
    var front := boxes[..|boxes| - 1];
    if c in front {
      BestIsLargest(black, width, ask, front, c);
    } else {
      assert boxes == front + [boxes[|boxes| - 1]];
    }
  }

  lemma {:induction false} BestSnoc(black: Image, width: nat, ask: Threshold, boxes: seq<Box>, b: Box)
    requires Rectangular(black, width)
    ensures Best(black, width, ask, boxes + [b]) == Better(black, width, ask, Best(black, width, ask, boxes), b)
  {
    assert (boxes + [b])[..|boxes|] == boxes;
  }

  /** Boxes no larger than the best so far can be skipped. */
  lemma {:induction false} SmallBoxesSkip(black: Image, width: nat, ask: Threshold, boxes: seq<Box>, more: seq<Box>)
    requires Rectangular(black, width)
    requires forall b :: b in more ==> Area(b) <= AreaOf(Best(black, width, ask, boxes))
    ensures Best(black, width, ask, boxes + more) == Best(black, width, ask, boxes)
  {
    if more == [] {
      assert boxes + more == boxes;
    } else {
      var front := more[..|more| - 1];
      SmallBoxesSkip(black, width, ask, boxes, front);
      BestSnoc(black, width, ask, boxes + front, more[|more| - 1]);
      assert boxes + more == boxes + front + [more[|more| - 1]];
      assert more[|more| - 1] in more;
    }
  }

  lemma {:induction false} CornerListed(h: nat, w: nat, n: nat, b: Box)
    ensures b in Corners(h, w, n) <==> b.y0 < n && b.y1 == h && b.x0 < w && b.x1 == w
  {
    if n > 0 {
      CornerListed(h, w, n - 1, b);
      var row := CornerRow(h, w, n - 1, w);
      if b.y0 == n - 1 && b.y1 == h && b.x0 < w && b.x1 == w {
        assert row[b.x0] == b;
      }
    }
  }

  lemma {:induction false} EdgeListed(h: nat, w: nat, b: Box)
    requires b.y0 < b.y1 && b.x0 < b.x1
    ensures b in Edges(h, w) <==> Candidate(b, h, w) && ((b.x0 == 0 && b.x1 == w) || (b.y0 == 0 && b.y1 == h))
  {
    if Candidate(b, h, w) {
      if b.x0 == 0 && b.x1 == w && b.y0 == 0 {
        assert Tops(h, w, h)[b.y1 - 1] == b;
      } else if b.x0 == 0 && b.x1 == w {
        assert Bottoms(h, w, h)[b.y0] == b;
      } else if b.y0 == 0 && b.y1 == h && b.x0 == 0 {
        assert Lefts(h, w, w)[b.x1 - 1] == b;
      } else if b.y0 == 0 && b.y1 == h {
        assert Rights(h, w, w)[b.x0] == b;
      }
    }
  }

  lemma {:induction false} AllCandidatesListed(h: nat, w: nat, b: Box)
    requires b.y0 < b.y1 && b.x0 < b.x1
    ensures b in Candidates(h, w) <==> Candidate(b, h, w)
  {
    EdgeListed(h, w, b);
    CornerListed(h, w, h, b);
  }

  // ---------------------------------------------------------------------------------------------
  // The search

  lemma {:induction false} FillOfLookups(black: Image, width: nat, round: real -> real, b: Box)
    requires Rectangular(black, width) && Fits(b, |black|, width) && Area(b) > 0
    ensures FillOf(black, width, round, b)
            == round((Count(black, width, 0, b.y1, 0, b.x1) - Count(black, width, 0, b.y0, 0, b.x1)
                      - Count(black, width, 0, b.y1, 0, b.x0) + Count(black, width, 0, b.y0, 0, b.x0)) as real
                     / Area(b) as real)
  {
    FourLookups(black, width, b);
  }

  lemma {:induction false} AreaShrinks(h: int, w: int, x: int)
    requires 0 <= h && 0 <= x <= w
    ensures h * (w - x) <= h * w
  {
  }

  /** One search: the summed-area table and the best box so far. */
  class Search {
    const black: Image
    const width: nat
    const ask: Threshold
    const integ: array2<nat>
    var bestBox: Option<Box>
    var bestArea: nat
    ghost var seen: seq<Box>   // the boxes considered, or safely skipped

    ghost predicate Shape() {
      Rectangular(black, width) && integ.Length0 == |black| + 1 && integ.Length1 == width + 1
    }

    ghost predicate RowUpTo(y: nat, last: nat)
      requires Shape() && y <= |black| && last <= width
      reads integ
    {
      forall x :: 0 <= x <= last ==> integ[y, x] == Count(black, width, 0, y, 0, x)
    }

    /** The table holds, at (y, x), the count of the box from the top left corner to (y, x). */
    ghost predicate TableUpTo(rows: nat)
      reads integ
    {
      && Shape()
      && rows <= integ.Length0
      && forall y, x :: 0 <= y < rows && 0 <= x <= width ==> integ[y, x] == Count(black, width, 0, y, 0, x)
    }

    ghost predicate Valid()
      reads this, integ
    {
      && TableUpTo(|black| + 1)
      && bestBox == Best(black, width, ask, seen)
      && bestArea == AreaOf(bestBox)
    }

    constructor (black: Image, width: nat, ask: Threshold)
      requires Rectangular(black, width)
      ensures this.black == black && this.width == width && this.ask == ask
      ensures Shape() && fresh(integ) && bestBox == None && bestArea == 0 && seen == []
    {
      this.black, this.width, this.ask := black, width, ask;
      integ := new nat[|black| + 1, width + 1];
      bestBox, bestArea, seen := None, 0, [];
    }

    /** One row of the table from the row above it. */
    method FillRow(y: nat)
      requires y < |black| && TableUpTo(y + 1)
      modifies integ
      ensures TableUpTo(y + 2)
    {
      var dark := 0;
      integ[y + 1, 0] := 0;
      CountEmpty(black, width, y + 1);
      for x := 0 to width
        invariant dark == RowCount(black[y], 0, x)
        invariant TableUpTo(y + 1)
        invariant RowUpTo(y + 1, x)
      {
        dark := dark + if black[y][x] then 1 else 0;
        integ[y + 1, x + 1] := integ[y, x + 1] + dark;
      }
    }

    method Cumulate()
      requires Shape()
      modifies integ
      ensures TableUpTo(|black| + 1)
    {
      for x := 0 to width + 1
        invariant forall k :: 0 <= k < x ==> integ[0, k] == 0
      {
        integ[0, x] := 0;
      }
      for y := 0 to |black|
        invariant TableUpTo(y + 1)
      {
        FillRow(y);
      }
    }

    /** The share of dark pixels from four table lookups. */
    method RectFill(b: Box) returns (share: real)
      requires TableUpTo(|black| + 1) && Fits(b, |black|, width)
      ensures share == FillOf(black, width, ask.round, b)
    {
      var area := Area(b);
      if area <= 0 { return 0.0; }
      FillOfLookups(black, width, ask.round, b);
      var total := integ[b.y1, b.x1] - integ[b.y0, b.x1] - integ[b.y1, b.x0] + integ[b.y0, b.x0];
      share := ask.round(total as real / area as real);
    }

    method Take(b: Box)
      requires Valid() && Fits(b, |black|, width)
      modifies this
      ensures Valid() && seen == old(seen) + [b]
    {
      BestSnoc(black, width, ask, seen, b);
      seen := seen + [b];
      var area := Area(b);
      if area <= bestArea { return; }
      var share := RectFill(b);
      if share < ask.fill { return; }
      bestArea, bestBox := area, Some(b);
    }

    method TakeRows()
      requires Valid() && seen == []
      modifies this
      ensures Valid() && seen == Tops(|black|, width, |black|) + Bottoms(|black|, width, |black|)
    {
      var height := |black|;
      for y1 := 1 to height + 1
        invariant Valid() && seen == Tops(height, width, y1 - 1)
      {
        Take(Box(0, y1, 0, width));
      }
      for y0 := 0 to height
        invariant Valid() && seen == Tops(height, width, height) + Bottoms(height, width, y0)
      {
        Take(Box(y0, height, 0, width));
      }
    }

    method TakeColumns()
      requires Valid()
      modifies this
      ensures Valid() && seen == old(seen) + Lefts(|black|, width, width) + Rights(|black|, width, width)
    {
      var height := |black|;
      for x1 := 1 to width + 1
        invariant Valid() && seen == old(seen) + Lefts(height, width, x1 - 1)
      {
        Take(Box(0, height, 0, x1));
      }
      for x0 := 0 to width
        invariant Valid() && seen == old(seen) + Lefts(height, width, width) + Rights(height, width, x0)
      {
        Take(Box(0, height, x0, width));
      }
    }

    ghost method Skip(more: seq<Box>)
      requires Valid() && forall b :: b in more ==> Area(b) <= bestArea
      modifies this`seen
      ensures Valid() && seen == old(seen) + more
    {
      SmallBoxesSkip(black, width, ask, seen, more);
      seen := seen + more;
    }

    /** One row of bottom-right boxes, given up once they are too small to win. */
    method TakeCornerRow(y0: nat)
      requires Valid() && y0 < |black|
      modifies this
      ensures Valid() && seen == old(seen) + CornerRow(|black|, width, y0, width)
    {
      var height := |black|;
      var remain := height - y0;
      var x0 := 0;
      while x0 < width
        invariant 0 <= x0 <= width
        invariant Valid() && seen == old(seen) + CornerRow(height, width, y0, x0)
      {
        if remain * (width - x0) <= bestArea {
          ghost var rest := CornerRow(height, width, y0, width)[x0..];
          forall b | b in rest ensures Area(b) <= bestArea {
            AreaShrinks(remain, width - x0, b.x0 - x0);
          }
          Skip(rest);
          return;
        }
        Take(Box(y0, height, x0, width));
        x0 := x0 + 1;
      }
    }

    method TakeCorners()
      requires Valid()
      modifies this
      ensures Valid() && seen == old(seen) + Corners(|black|, width, |black|)
    {
      var height := |black|;
      var y0 := 0;
      while y0 < height
        invariant 0 <= y0 <= height
        invariant Valid() && seen == old(seen) + Corners(height, width, y0)
      {
        if (height - y0) * width <= bestArea {
          ghost var rest := CornersFrom(height, width, y0, height);
          forall b | b in rest ensures Area(b) <= bestArea {
            LaterCornersSmaller(height, width, y0, b);
          }
          Skip(rest);
          return;
        }
        TakeCornerRow(y0);
        y0 := y0 + 1;
      }
    }
  }

  lemma {:induction false} CountEmpty(black: Image, width: nat, y: nat)
    requires Rectangular(black, width) && y <= |black|
    ensures Count(black, width, 0, y, 0, 0) == 0
  {
    if y > 0 {
      CountEmpty(black, width, y - 1);
    }
  }

  /** The corner boxes of rows y0 to n - 1. */
  ghost function CornersFrom(h: nat, w: nat, y0: nat, n: nat): (r: seq<Box>)
    requires y0 <= n
    ensures Corners(h, w, n) == Corners(h, w, y0) + r
    ensures forall b :: b in r ==> y0 <= b.y0 < n && b.y1 == h && b.x1 == w && b.x0 < w
    decreases n
  {
    if y0 == n then [] else CornersFrom(h, w, y0, n - 1) + CornerRow(h, w, n - 1, w)
  }

  lemma {:induction false} LaterCornersSmaller(h: nat, w: nat, y0: nat, b: Box)
    requires y0 <= b.y0 <= h && b.y1 == h && b.x1 == w && b.x0 <= w
    ensures Area(b) <= (h - y0) * w
  {
    AreaShrinks(h - b.y0, w, b.x0);
    AreaShrinks(w, h - y0, b.y0 - y0);
  }

  /** The search returns a dark enough candidate of the largest area, the first such in scan order,
      and nothing exactly when no candidate is dark enough. */
  method LargestNearBlackRect(black: Image, width: nat, ask: Threshold) returns (box: Option<Box>)
    requires Rectangular(black, width)
    ensures box == Best(black, width, ask, Candidates(|black|, width))
    ensures box.Some? ==> Candidate(box.value, |black|, width) && Meets(black, width, ask, box.value)
    ensures forall c :: Candidate(c, |black|, width) && Meets(black, width, ask, c) ==>
              box.Some? && Area(c) <= Area(box.value)
  {
    var search := new Search(black, width, ask);
    search.Cumulate();
    search.TakeRows();
    search.TakeColumns();
    search.TakeCorners();
    box := search.bestBox;
    assert search.seen == Candidates(|black|, width);
    LargestAmongCandidates(black, width, ask);
  }

  lemma {:induction false} PositiveSides(b: Box, height: nat, width: nat)
    requires Fits(b, height, width)
    ensures Area(b) > 0 <==> b.y0 < b.y1 && b.x0 < b.x1
  {
  }

  lemma {:induction false} LargestAmongCandidates(black: Image, width: nat, ask: Threshold)
    requires Rectangular(black, width)
    ensures var box := Best(black, width, ask, Candidates(|black|, width));
            && (box.Some? ==> Candidate(box.value, |black|, width) && Meets(black, width, ask, box.value))
            && forall c :: Candidate(c, |black|, width) && Meets(black, width, ask, c) ==>
                 box.Some? && Area(c) <= Area(box.value)
  {
    var boxes := Candidates(|black|, width);
    var box := Best(black, width, ask, boxes);
    if box.Some? {
      BestIsOneOfThem(black, width, ask, boxes);
      PositiveSides(box.value, |black|, width);
      AllCandidatesListed(|black|, width, box.value);
    }
    forall c | Candidate(c, |black|, width) && Meets(black, width, ask, c)
      ensures box.Some? && Area(c) <= Area(box.value)
    {
      AllCandidatesListed(|black|, width, c);
      PositiveSides(c, |black|, width);
      BestIsLargest(black, width, ask, boxes, c);
    }
  }
}
