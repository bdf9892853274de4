/**
 * The layers the overlay draws, as values.
 *
 * A square contributes, by detail level:
 *   0 -- one polygon through its four corners;
 *   1 -- that polygon and a marker at its centre carrying its identifier;
 *   2 -- for each sub-square (i, j), i-major, that is allowed by the
 *        deconfliction table and has a corner inside the viewport, a polygon
 *        and a marker at its centre labelled identifier + i + j.
 * The geodesy transform (`parse(ref).toLatLon()` of the grid's library) and
 * the viewport test (`map.getBounds().contains`) are function parameters.
 *
 * The function LoopLayers follows the plugin's two nested loops;
 * DrawnSubSquares and LayersOf are an independent description (filter the
 * hundred sub-squares, then draw each survivor), and LoopLayersAreDrawnLayers
 * proves the two agree.
 */
module Overlay {

  import opened GridRefs
  import opened Deconfliction

  datatype LatLng = LatLng(lat: real, lng: real)

  /** What the layer group holds: polygons, and markers with a text label at an anchor. */
  datatype Layer = Polygon(corners: seq<LatLng>) | Marker(anchor: LatLng, text: string)

  datatype SubSquare = SubSquare(i: int, j: int)

  /** Corners of the whole square at offsets (0, 0), (99999, 0), (99999, 99999), (0, 99999). */
  function WholeSquareCorners(squareRef: string, toLatLon: string -> LatLng): (corners: seq<LatLng>)
    ensures |corners| == 4
  {
    [toLatLon(squareRef + " 00000 00000"), toLatLon(squareRef + " 99999 00000"),
     toLatLon(squareRef + " 99999 99999"), toLatLon(squareRef + " 00000 99999")]
  }

  function WholeSquareCentre(squareRef: string, toLatLon: string -> LatLng): LatLng
  {
    toLatLon(squareRef + " 50000 50000")
  }

  /** Corners of sub-square (i, j), in the same order as the whole square's. */
  function SubSquareCorners(squareRef: string, i: int, j: int, toLatLon: string -> LatLng): (corners: seq<LatLng>)
    requires 0 <= i <= 9 && 0 <= j <= 9
    ensures |corners| == 4
  {
    [toLatLon(SubSquareRef(squareRef, i, "0000", j, "0000")), toLatLon(SubSquareRef(squareRef, i, "9999", j, "0000")),
     toLatLon(SubSquareRef(squareRef, i, "9999", j, "9999")), toLatLon(SubSquareRef(squareRef, i, "0000", j, "9999"))]
  }

  function SubSquareCentre(squareRef: string, i: int, j: int, toLatLon: string -> LatLng): LatLng
    requires 0 <= i <= 9 && 0 <= j <= 9
  {
    toLatLon(SubSquareRef(squareRef, i, "5000", j, "5000"))
  }

  /** The culling test: at least one of the four corners is inside the viewport. */
  predicate AnyCornerInView(corners: seq<LatLng>, inView: LatLng -> bool)
    requires |corners| == 4
  {
    inView(corners[0]) || inView(corners[1]) || inView(corners[2]) || inView(corners[3])
  }

  /** Sub-square (i, j) is drawn: indices in range, allowed by the table, and on screen. */
  predicate Drawn(squareRef: string, c: SubSquare, toLatLon: string -> LatLng, inView: LatLng -> bool)
  {
    && 0 <= c.i <= 9 && 0 <= c.j <= 9
    && ValidSmallSquare(squareRef, c.i, c.j)
    && AnyCornerInView(SubSquareCorners(squareRef, c.i, c.j, toLatLon), inView)
  }

  /** The outline of a sub-square. */
  function SubSquarePolygon(squareRef: string, c: SubSquare, toLatLon: string -> LatLng): Layer
    requires 0 <= c.i <= 9 && 0 <= c.j <= 9
  {
    Polygon(SubSquareCorners(squareRef, c.i, c.j, toLatLon))
  }

  /** The marker at a sub-square's centre, labelled identifier + i + j. */
  function SubSquareMarker(squareRef: string, c: SubSquare, toLatLon: string -> LatLng): Layer
    requires 0 <= c.i <= 9 && 0 <= c.j <= 9
  {
    Marker(SubSquareCentre(squareRef, c.i, c.j, toLatLon), SubSquareLabel(squareRef, c.i, c.j))
  }

  /** The polygon and the labelled marker of one drawn sub-square. */
  function SubSquareGraphics(squareRef: string, c: SubSquare, toLatLon: string -> LatLng): seq<Layer>
    requires 0 <= c.i <= 9 && 0 <= c.j <= 9
  {
    [SubSquarePolygon(squareRef, c, toLatLon), SubSquareMarker(squareRef, c, toLatLon)]
  }

  /** What one pass of the inner loop adds for sub-square (i, j). */
  function SubSquareLayers(squareRef: string, i: int, j: int, toLatLon: string -> LatLng, inView: LatLng -> bool): seq<Layer>
    requires 0 <= i <= 9 && 0 <= j <= 9
  {
    if ValidSmallSquare(squareRef, i, j) && AnyCornerInView(SubSquareCorners(squareRef, i, j, toLatLon), inView)
    then SubSquareGraphics(squareRef, SubSquare(i, j), toLatLon)
    else []
  }

  /**
   * The layers the two nested loops have added once rows 0 to i - 1 are
   * complete and row i has had its first j passes (j = 10 ends a row).
   */
  function LoopLayers(squareRef: string, i: int, j: int, toLatLon: string -> LatLng, inView: LatLng -> bool): seq<Layer>
    requires 0 <= i <= 10 && 0 <= j <= 10 && (i < 10 || j == 0)
    decreases i, j
  {
    if j == 0 then
      (if i == 0 then [] else LoopLayers(squareRef, i - 1, 10, toLatLon, inView))
    else
      LoopLayers(squareRef, i, j - 1, toLatLon, inView) + SubSquareLayers(squareRef, i, j - 1, toLatLon, inView)
  }

  /** The layers one square contributes at a detail level; any other level draws nothing. */
  function SquareLayers(squareRef: string, level: int, toLatLon: string -> LatLng, inView: LatLng -> bool): seq<Layer>
  {
    if level == 0 || level == 1 then
      [Polygon(WholeSquareCorners(squareRef, toLatLon))]
        + (if level == 1 then [Marker(WholeSquareCentre(squareRef, toLatLon), squareRef)] else [])
    else if level == 2 then LoopLayers(squareRef, 10, 0, toLatLon, inView)
    else []
  }

  /** The layers a list of squares contributes, square after square. */
  function ListLayers(squares: seq<string>, layersOf: string -> seq<Layer>): seq<Layer>
    decreases |squares|
  {
    if squares == [] then []
    else ListLayers(squares[..|squares| - 1], layersOf) + layersOf(squares[|squares| - 1])
  }

  /** The per-square layers of one grid's squares at a detail level. */
  function SquareLayersAt(level: int, toLatLon: string -> LatLng, inView: LatLng -> bool): string -> seq<Layer>
  {
    squareRef => SquareLayers(squareRef, level, toLatLon, inView)
  }

  // ---------------------------------------------------------------------------
  // An independent description of the finest level: filter, then draw.
  // ---------------------------------------------------------------------------

  /** Position of a sub-square in i-major order. */
  function Index(c: SubSquare): int
  {
    10 * c.i + c.j
  }

  /** The hundred sub-squares in i-major order. */
  function AllSubSquares(): (cells: seq<SubSquare>)
    ensures |cells| == 100
    ensures forall k :: 0 <= k < 100 ==> cells[k] == SubSquare(k / 10, k % 10)
  {
    seq(100, k requires 0 <= k < 100 => SubSquare(k / 10, k % 10))
  }

  /** The sub-squares of `cells` that are drawn, in their order. */
  function DrawnSubSquares(squareRef: string, cells: seq<SubSquare>, toLatLon: string -> LatLng, inView: LatLng -> bool)
    : (drawn: seq<SubSquare>)
    ensures |drawn| <= |cells|
    ensures InRange(drawn)
    decreases |cells|
  {
    if cells == [] then []
    else
      var last := cells[|cells| - 1];
      DrawnSubSquares(squareRef, cells[..|cells| - 1], toLatLon, inView)
        + (if Drawn(squareRef, last, toLatLon, inView) then [last] else [])
  }

  predicate InRange(cells: seq<SubSquare>)
  {
    forall k :: 0 <= k < |cells| ==> 0 <= cells[k].i <= 9 && 0 <= cells[k].j <= 9
  }

  /** Polygon and marker of each given sub-square, in order. */
  function LayersOf(squareRef: string, cells: seq<SubSquare>, toLatLon: string -> LatLng): seq<Layer>
    requires InRange(cells)
    decreases |cells|
  {
    if cells == [] then []
    else
      LayersOf(squareRef, cells[..|cells| - 1], toLatLon) + SubSquareGraphics(squareRef, cells[|cells| - 1], toLatLon)
  }

  // ---------------------------------------------------------------------------
  // Lemmas
  // ---------------------------------------------------------------------------

  lemma ListLayersSnoc(squares: seq<string>, x: string, layersOf: string -> seq<Layer>)
    ensures ListLayers(squares + [x], layersOf) == ListLayers(squares, layersOf) + layersOf(x)
  {
    assert (squares + [x])[..|squares|] == squares;
  }

  /** The layers of a list are the layers of its first part followed by those of the rest. */
  lemma {:induction false} ListLayersAppend(a: seq<string>, b: seq<string>, layersOf: string -> seq<Layer>)
    ensures ListLayers(a + b, layersOf) == ListLayers(a, layersOf) + ListLayers(b, layersOf)
    decreases |b|
  {
    if b == [] {
      assert a + b == a;
    } else {
      var init, x := b[..|b| - 1], b[|b| - 1];
      assert b == init + [x];
      assert a + b == (a + init) + [x];
      ListLayersSnoc(a + init, x, layersOf);
      ListLayersSnoc(init, x, layersOf);
      ListLayersAppend(a, init, layersOf);
    }
  }

  /** At level 0 every square of the list adds exactly its outline, and no marker. */
  lemma {:induction false} OutlineListLayers(squares: seq<string>, toLatLon: string -> LatLng, inView: LatLng -> bool)
    ensures var r := ListLayers(squares, SquareLayersAt(0, toLatLon, inView));
            |r| == |squares|
            && forall k :: 0 <= k < |squares| ==> r[k] == Polygon(WholeSquareCorners(squares[k], toLatLon))
    decreases |squares|
  {
    if squares != [] {
      var init, x := squares[..|squares| - 1], squares[|squares| - 1];
      assert squares == init + [x];
      OutlineListLayers(init, toLatLon, inView);
      ListLayersSnoc(init, x, SquareLayersAt(0, toLatLon, inView));
    }
  }

  /**
   * At level 1 every square of the list adds its outline followed by a marker
   * at its centre whose text is the square's identifier.
   */
  lemma {:induction false} LabelledListLayers(squares: seq<string>, toLatLon: string -> LatLng, inView: LatLng -> bool)
    ensures var r := ListLayers(squares, SquareLayersAt(1, toLatLon, inView));
            |r| == 2 * |squares|
            && forall k :: 0 <= k < |squares| ==>
                 && r[2 * k] == Polygon(WholeSquareCorners(squares[k], toLatLon))
                 && r[2 * k + 1] == Marker(WholeSquareCentre(squares[k], toLatLon), squares[k])
    decreases |squares|
  {
    if squares != [] {
      var init, x := squares[..|squares| - 1], squares[|squares| - 1];
      assert squares == init + [x];
      LabelledListLayers(init, toLatLon, inView);
      ListLayersSnoc(init, x, SquareLayersAt(1, toLatLon, inView));
    }
  }

  /** The loops visit exactly the pairs of indices in 0 .. 9. */
  lemma AllSubSquaresMembers(c: SubSquare)
    ensures c in AllSubSquares() <==> 0 <= c.i <= 9 && 0 <= c.j <= 9
  {
    if 0 <= c.i <= 9 && 0 <= c.j <= 9 {
      SplitIndex(c.i, c.j);
      assert AllSubSquares()[10 * c.i + c.j] == c;
    }
  }

  /** The loops visit the sub-squares in strictly increasing i-major order. */
  lemma AllSubSquaresOrdered()
    ensures StrictlyIncreasing(AllSubSquares())
  {
    var all := AllSubSquares();
    assert forall k :: 0 <= k < 100 ==> Index(all[k]) == k;
  }

  lemma SplitIndex(i: int, j: int)
    requires 0 <= i <= 9 && 0 <= j <= 9
    ensures (10 * i + j) / 10 == i && (10 * i + j) % 10 == j
  {
  }

  lemma DrawnSnoc(squareRef: string, cells: seq<SubSquare>, c: SubSquare, toLatLon: string -> LatLng, inView: LatLng -> bool)
    ensures DrawnSubSquares(squareRef, cells + [c], toLatLon, inView)
         == DrawnSubSquares(squareRef, cells, toLatLon, inView) + (if Drawn(squareRef, c, toLatLon, inView) then [c] else [])
  {
    assert (cells + [c])[..|cells|] == cells;
  }

  lemma LayersOfSnoc(squareRef: string, cells: seq<SubSquare>, c: SubSquare, toLatLon: string -> LatLng)
    requires InRange(cells) && 0 <= c.i <= 9 && 0 <= c.j <= 9
    ensures InRange(cells + [c])
    ensures LayersOf(squareRef, cells + [c], toLatLon) == LayersOf(squareRef, cells, toLatLon) + SubSquareGraphics(squareRef, c, toLatLon)
  {
    assert (cells + [c])[..|cells|] == cells;
  }

  lemma AppendAssociative<T>(a: seq<T>, b: seq<T>, c: seq<T>)
    ensures (a + b) + c == a + (b + c)
  {
  }

  lemma PrefixSnoc<T>(s: seq<T>, k: int)
    requires 0 <= k < |s|
    ensures s[..k + 1] == s[..k] + [s[k]]
  {
  }

  /** The layers drawn for the first k sub-squares in i-major order, by the independent description. */
  function PrefixLayers(squareRef: string, k: int, toLatLon: string -> LatLng, inView: LatLng -> bool): seq<Layer>
    requires 0 <= k <= 100
  {
    LayersOf(squareRef, DrawnSubSquares(squareRef, AllSubSquares()[..k], toLatLon, inView), toLatLon)
  }

  /** One more sub-square in i-major order adds what one pass of the inner loop adds. */
  lemma PrefixLayersStep(squareRef: string, i: int, j: int, toLatLon: string -> LatLng, inView: LatLng -> bool)
    requires 0 <= i <= 9 && 0 <= j <= 9
    ensures PrefixLayers(squareRef, 10 * i + j + 1, toLatLon, inView)
         == PrefixLayers(squareRef, 10 * i + j, toLatLon, inView) + SubSquareLayers(squareRef, i, j, toLatLon, inView)
  {
    var all := AllSubSquares();
    var c := SubSquare(i, j);
    var prefix := all[..10 * i + j];
    var before := DrawnSubSquares(squareRef, prefix, toLatLon, inView);
    SplitIndex(i, j);
    PrefixSnoc(all, 10 * i + j);
    assert all[..10 * i + j + 1] == prefix + [c];
    DrawnSnoc(squareRef, prefix, c, toLatLon, inView);
    if Drawn(squareRef, c, toLatLon, inView) {
      LayersOfSnoc(squareRef, before, c, toLatLon);
    } else {
      assert before + [] == before;
    }
  }

  lemma EmptyPrefix(squareRef: string, toLatLon: string -> LatLng, inView: LatLng -> bool)
    ensures PrefixLayers(squareRef, 0, toLatLon, inView) == []
  {
    assert AllSubSquares()[..0] == [];
  }

  /** Finishing row i - 1 is the same point as starting row i, for both descriptions. */
  lemma RowBoundary(squareRef: string, i: int, toLatLon: string -> LatLng, inView: LatLng -> bool)
    requires 0 < i <= 10
    ensures LoopLayers(squareRef, i, 0, toLatLon, inView) == LoopLayers(squareRef, i - 1, 10, toLatLon, inView)
    ensures PrefixLayers(squareRef, 10 * i, toLatLon, inView) == PrefixLayers(squareRef, 10 * (i - 1) + 10, toLatLon, inView)
  {
  }

  /** Pass j - 1 of row i adds the same layers to both descriptions. */
  lemma PassStep(squareRef: string, i: int, j: int, toLatLon: string -> LatLng, inView: LatLng -> bool)
    requires 0 <= i < 10 && 0 < j <= 10
    ensures LoopLayers(squareRef, i, j, toLatLon, inView)
         == LoopLayers(squareRef, i, j - 1, toLatLon, inView) + SubSquareLayers(squareRef, i, j - 1, toLatLon, inView)
    ensures PrefixLayers(squareRef, 10 * i + j, toLatLon, inView)
         == PrefixLayers(squareRef, 10 * i + (j - 1), toLatLon, inView) + SubSquareLayers(squareRef, i, j - 1, toLatLon, inView)
  {
    PrefixLayersStep(squareRef, i, j - 1, toLatLon, inView);
    assert 10 * i + (j - 1) + 1 == 10 * i + j;
  }

  /** The loops and the filter-then-draw description agree after every pass. */
  lemma {:induction false} LoopLayersArePrefixLayers(squareRef: string, i: int, j: int,
                                                     toLatLon: string -> LatLng, inView: LatLng -> bool)
    requires 0 <= i <= 10 && 0 <= j <= 10 && (i < 10 || j == 0)
    ensures LoopLayers(squareRef, i, j, toLatLon, inView) == PrefixLayers(squareRef, 10 * i + j, toLatLon, inView)
    decreases i, j
  {
    if j == 0 {
      if i == 0 {
        EmptyPrefix(squareRef, toLatLon, inView);
      } else {
        LoopLayersArePrefixLayers(squareRef, i - 1, 10, toLatLon, inView);
        RowBoundary(squareRef, i, toLatLon, inView);
      }
    } else {
      LoopLayersArePrefixLayers(squareRef, i, j - 1, toLatLon, inView);
      PassStep(squareRef, i, j, toLatLon, inView);
    }
  }

  /** The nested loops draw exactly the drawn sub-squares, in i-major order. */
  lemma LoopLayersAreDrawnLayers(squareRef: string, toLatLon: string -> LatLng, inView: LatLng -> bool)
    ensures SquareLayers(squareRef, 2, toLatLon, inView)
         == LayersOf(squareRef, DrawnSubSquares(squareRef, AllSubSquares(), toLatLon, inView), toLatLon)
  {
    LoopLayersArePrefixLayers(squareRef, 10, 0, toLatLon, inView);
    assert AllSubSquares()[..100] == AllSubSquares();
  }

  /** A sub-square survives the filter exactly when it is one of the input and is drawn. */
  lemma {:induction false} DrawnSubSquaresMembers(squareRef: string, cells: seq<SubSquare>, c: SubSquare,
                                                  toLatLon: string -> LatLng, inView: LatLng -> bool)
    ensures c in DrawnSubSquares(squareRef, cells, toLatLon, inView)
        <==> c in cells && Drawn(squareRef, c, toLatLon, inView)
    decreases |cells|
  {
    if cells != [] {
      var n := |cells|;
      DrawnSubSquaresMembers(squareRef, cells[..n - 1], c, toLatLon, inView);
      assert cells == cells[..n - 1] + [cells[n - 1]];
    }
  }

  predicate StrictlyIncreasing(cells: seq<SubSquare>)
  {
    forall a, b :: 0 <= a < b < |cells| ==> Index(cells[a]) < Index(cells[b])
  }

  /** Filtering keeps the order of its input. */
  lemma {:induction false} DrawnSubSquaresOrdered(squareRef: string, cells: seq<SubSquare>,
                                                  toLatLon: string -> LatLng, inView: LatLng -> bool)
    requires StrictlyIncreasing(cells)
    ensures StrictlyIncreasing(DrawnSubSquares(squareRef, cells, toLatLon, inView))
    decreases |cells|
  {
    if cells != [] {
      var n := |cells|;
      var init := cells[..n - 1];
      DrawnSubSquaresOrdered(squareRef, init, toLatLon, inView);
      var before := DrawnSubSquares(squareRef, init, toLatLon, inView);
      forall x | x in before ensures Index(x) < Index(cells[n - 1]) {
        DrawnSubSquaresMembers(squareRef, init, x, toLatLon, inView);
      }
    }
  }

  /** LayersOf alternates polygon and marker, two layers per sub-square. */
  lemma {:induction false} LayersOfShape(squareRef: string, cells: seq<SubSquare>, toLatLon: string -> LatLng)
    requires InRange(cells)
    ensures var r := LayersOf(squareRef, cells, toLatLon);
            |r| == 2 * |cells|
            && forall k :: 0 <= k < |cells| ==>
                 r[2 * k] == SubSquarePolygon(squareRef, cells[k], toLatLon)
                 && r[2 * k + 1] == SubSquareMarker(squareRef, cells[k], toLatLon)
    decreases |cells|
  {
    if cells != [] {
      var n := |cells|;
      var init := cells[..n - 1];
      LayersOfShape(squareRef, init, toLatLon);
      var before := LayersOf(squareRef, init, toLatLon);
      var r := before + SubSquareGraphics(squareRef, cells[n - 1], toLatLon);
      assert LayersOf(squareRef, cells, toLatLon) == r;
      forall k | 0 <= k < n
        ensures r[2 * k] == SubSquarePolygon(squareRef, cells[k], toLatLon)
        ensures r[2 * k + 1] == SubSquareMarker(squareRef, cells[k], toLatLon)
      {
        if k < n - 1 {
          assert r[2 * k] == before[2 * k] && r[2 * k + 1] == before[2 * k + 1];
          assert cells[k] == init[k];
        }
      }
    }
  }

  /**
   * At the finest level a square draws, for each drawn sub-square in strictly
   * increasing i-major order, its polygon followed by its labelled marker, and
   * nothing else: at most 100 polygons and 100 markers.
   */
  lemma FinestSquareLayers(squareRef: string, toLatLon: string -> LatLng, inView: LatLng -> bool)
    ensures var cells := DrawnSubSquares(squareRef, AllSubSquares(), toLatLon, inView);
            var r := SquareLayers(squareRef, 2, toLatLon, inView);
            && InRange(cells) && |cells| <= 100 && |r| == 2 * |cells|
            && StrictlyIncreasing(cells)
            && (forall c :: c in cells <==> Drawn(squareRef, c, toLatLon, inView))
            && forall k :: 0 <= k < |cells| ==>
                 && r[2 * k] == SubSquarePolygon(squareRef, cells[k], toLatLon)
                 && r[2 * k + 1] == SubSquareMarker(squareRef, cells[k], toLatLon)
  {
    var all := AllSubSquares();
    var cells := DrawnSubSquares(squareRef, all, toLatLon, inView);
    LoopLayersAreDrawnLayers(squareRef, toLatLon, inView);
    LayersOfShape(squareRef, cells, toLatLon);
    AllSubSquaresOrdered();
    DrawnSubSquaresOrdered(squareRef, all, toLatLon, inView);
    forall c ensures c in cells <==> Drawn(squareRef, c, toLatLon, inView) {
      DrawnSubSquaresMembers(squareRef, all, c, toLatLon, inView);
      AllSubSquaresMembers(c);
    }
  }

  /** In a sequence of polygon-then-marker pairs, every marker sits second in its pair. */
  lemma MarkerIndex(r: seq<Layer>, n: int, p: int) returns (k: int)
    requires |r| == 2 * n
    requires forall k :: 0 <= k < n ==> r[2 * k].Polygon?
    requires 0 <= p < |r| && r[p].Marker?
    ensures 0 <= k < n && p == 2 * k + 1
  {
    k := p / 2;
    assert r[2 * k].Polygon?;
  }

  /** A marker labelled identifier + i + j is only drawn for a drawn sub-square (i, j). */
  lemma LabelledOnlyIfDrawn(squareRef: string, i: int, j: int, toLatLon: string -> LatLng, inView: LatLng -> bool)
    requires 0 <= i <= 9 && 0 <= j <= 9
    requires Marker(SubSquareCentre(squareRef, i, j, toLatLon), SubSquareLabel(squareRef, i, j))
               in LayersOf(squareRef, DrawnSubSquares(squareRef, AllSubSquares(), toLatLon, inView), toLatLon)
    ensures Drawn(squareRef, SubSquare(i, j), toLatLon, inView)
  {
    var all := AllSubSquares();
    var cells := DrawnSubSquares(squareRef, all, toLatLon, inView);
    var r := LayersOf(squareRef, cells, toLatLon);
    var m := Marker(SubSquareCentre(squareRef, i, j, toLatLon), SubSquareLabel(squareRef, i, j));
    LayersOfShape(squareRef, cells, toLatLon);
    forall k | 0 <= k < |cells| ensures r[2 * k].Polygon? {
      assert r[2 * k] == SubSquarePolygon(squareRef, cells[k], toLatLon);
    }
    var p :| 0 <= p < |r| && r[p] == m;
    var k := MarkerIndex(r, |cells|, p);
    assert SubSquareMarker(squareRef, cells[k], toLatLon) == m;
    SubSquareLabelInjective(squareRef, cells[k].i, cells[k].j, squareRef, i, j);
    assert cells[k] == SubSquare(i, j);
    DrawnSubSquaresMembers(squareRef, all, SubSquare(i, j), toLatLon, inView);
  }

  /** A drawn sub-square (i, j) gets the marker labelled identifier + i + j at its centre. */
  lemma LabelledIfDrawn(squareRef: string, i: int, j: int, toLatLon: string -> LatLng, inView: LatLng -> bool)
    requires 0 <= i <= 9 && 0 <= j <= 9
    requires Drawn(squareRef, SubSquare(i, j), toLatLon, inView)
    ensures Marker(SubSquareCentre(squareRef, i, j, toLatLon), SubSquareLabel(squareRef, i, j))
              in LayersOf(squareRef, DrawnSubSquares(squareRef, AllSubSquares(), toLatLon, inView), toLatLon)
  {
    var all := AllSubSquares();
    var cells := DrawnSubSquares(squareRef, all, toLatLon, inView);
    var r := LayersOf(squareRef, cells, toLatLon);
    LayersOfShape(squareRef, cells, toLatLon);
    AllSubSquaresMembers(SubSquare(i, j));
    DrawnSubSquaresMembers(squareRef, all, SubSquare(i, j), toLatLon, inView);
    var k :| 0 <= k < |cells| && cells[k] == SubSquare(i, j);
    assert r[2 * k + 1] == SubSquareMarker(squareRef, cells[k], toLatLon);
  }

  /**
   * For indices in range, the marker labelled identifier + i + j appears at
   * the centre of sub-square (i, j) exactly when the table allows that
   * sub-square and one of its corners is in view.
   */
  lemma SubSquareLabelledIff(squareRef: string, i: int, j: int, toLatLon: string -> LatLng, inView: LatLng -> bool)
    requires 0 <= i <= 9 && 0 <= j <= 9
    ensures Marker(SubSquareCentre(squareRef, i, j, toLatLon), SubSquareLabel(squareRef, i, j))
              in SquareLayers(squareRef, 2, toLatLon, inView)
        <==> ValidSmallSquare(squareRef, i, j) && AnyCornerInView(SubSquareCorners(squareRef, i, j, toLatLon), inView)
  {
    var m := Marker(SubSquareCentre(squareRef, i, j, toLatLon), SubSquareLabel(squareRef, i, j));
    var cells := DrawnSubSquares(squareRef, AllSubSquares(), toLatLon, inView);
    LoopLayersAreDrawnLayers(squareRef, toLatLon, inView);
    if m in LayersOf(squareRef, cells, toLatLon) {
      LabelledOnlyIfDrawn(squareRef, i, j, toLatLon, inView);
    }
    if Drawn(squareRef, SubSquare(i, j), toLatLon, inView) {
      LabelledIfDrawn(squareRef, i, j, toLatLon, inView);
    }
  }

  /** With every sub-square allowed and everything in view, a square draws 200 layers. */
  lemma FinestAllInView(squareRef: string, toLatLon: string -> LatLng, inView: LatLng -> bool)
    requires forall i, j :: 0 <= i <= 9 && 0 <= j <= 9 ==> ValidSmallSquare(squareRef, i, j)
    requires forall p :: inView(p)
    ensures |SquareLayers(squareRef, 2, toLatLon, inView)| == 200
  {
    var all := AllSubSquares();
    AllDrawn(squareRef, all, toLatLon, inView);
    FinestSquareLayers(squareRef, toLatLon, inView);
  }

  lemma {:induction false} AllDrawn(squareRef: string, cells: seq<SubSquare>, toLatLon: string -> LatLng,
                                    inView: LatLng -> bool)
    requires InRange(cells)
    requires forall i, j :: 0 <= i <= 9 && 0 <= j <= 9 ==> ValidSmallSquare(squareRef, i, j)
    requires forall p :: inView(p)
    ensures DrawnSubSquares(squareRef, cells, toLatLon, inView) == cells
    decreases |cells|
  {
    if cells != [] {
      var n := |cells|;
      AllDrawn(squareRef, cells[..n - 1], toLatLon, inView);
      assert cells == cells[..n - 1] + [cells[n - 1]];
    }
  }

  /** With nothing in view the finest level draws nothing. */
  lemma FinestNothingInView(squareRef: string, toLatLon: string -> LatLng, inView: LatLng -> bool)
    requires forall p :: !inView(p)
    ensures SquareLayers(squareRef, 2, toLatLon, inView) == []
  {
    NoneDrawn(squareRef, AllSubSquares(), toLatLon, inView);
    LoopLayersAreDrawnLayers(squareRef, toLatLon, inView);
  }

  lemma {:induction false} NoneDrawn(squareRef: string, cells: seq<SubSquare>, toLatLon: string -> LatLng,
                                     inView: LatLng -> bool)
    requires forall p :: !inView(p)
    ensures DrawnSubSquares(squareRef, cells, toLatLon, inView) == []
    decreases |cells|
  {
    if cells != [] {
      NoneDrawn(squareRef, cells[..|cells| - 1], toLatLon, inView);
    }
  }
}
