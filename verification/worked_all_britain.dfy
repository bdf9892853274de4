/**
 * The Worked All Britain layer group: its options, the three geodesy
 * libraries it waits for, whether it is on a map, and the layers it holds.
 *
 * `Redraw` empties the group and refills it, grid by grid and square by
 * square, through `AddWABGraphicsForSquare`, whose nested loops add a polygon
 * and a marker for every sub-square that survives deconfliction and culling.
 * Each method is proved to leave the group holding exactly the layers that
 * the functions of module Overlay describe.
 */
module WorkedAllBritain {

  import opened Wrappers
  import opened GridRefs
  import opened Deconfliction
  import opened DetailLevels
  import opened Overlay

  /** A loaded geodesy module, reduced to what the overlay uses: `parse(ref).toLatLon()`. */
  datatype GeodesyLibrary = GeodesyLibrary(toLatLon: string -> LatLng)

  const DefaultGbSquares: seq<string> := [
    "HP", "HT", "HU", "HW", "HX", "HY", "HZ", "NA", "NB", "NC", "ND", "NF", "NG", "NH", "NJ", "NK", "NL", "NM",
    "NN", "NO", "NR", "NS", "NT", "NU", "NW", "NX", "NY", "NZ", "OV", "SC", "SD", "SE", "SH", "SJ", "SK", "SM",
    "SN", "SO", "SP", "SR", "SS", "ST", "SU", "SV", "SW", "SX", "SY", "SZ", "TA", "TF", "TG", "TL", "TM", "TR",
    "TQ", "TV"]
  const DefaultNiSquares: seq<string> := ["C", "D", "G", "H", "J"]
  const DefaultCiSquares: seq<string> := ["WA", "WV"]

  /** Constructor options; an option left out keeps its default list. */
  datatype Options = Options(gbSquares: Option<seq<string>>, niSquares: Option<seq<string>>, ciSquares: Option<seq<string>>)

  function OrDefault(option: Option<seq<string>>, default: seq<string>): seq<string>
  {
    if option.Some? then option.value else default
  }

  /** Every square the deconfliction table names is configured in one of the default lists. */
  lemma TableSquaresConfigured()
    ensures forall sq :: sq in TableSquares() ==> sq in DefaultGbSquares + DefaultNiSquares + DefaultCiSquares
  {
    forall sq | sq in TableSquares() ensures sq in DefaultGbSquares + DefaultNiSquares + DefaultCiSquares {
      var k :| 0 <= k < |Exclusions| && Exclusions[k].square == sq;
    }
  }

  /** Everything the three grids contribute, GB list first, then IE, then CI. */
  function Render(gbSquares: seq<string>, niSquares: seq<string>, ciSquares: seq<string>, level: int,
                  gb: GeodesyLibrary, ie: GeodesyLibrary, ci: GeodesyLibrary, inView: LatLng -> bool): seq<Layer>
  {
    ListLayers(gbSquares, SquareLayersAt(level, gb.toLatLon, inView))
      + ListLayers(niSquares, SquareLayersAt(level, ie.toLatLon, inView))
      + ListLayers(ciSquares, SquareLayersAt(level, ci.toLatLon, inView))
  }

  /**
   * At level 0 a redraw holds one outline per configured square, at level 1
   * an outline and a name marker per configured square.
   */
  lemma RenderCoarseCounts(gbSquares: seq<string>, niSquares: seq<string>, ciSquares: seq<string>, level: int,
                           gb: GeodesyLibrary, ie: GeodesyLibrary, ci: GeodesyLibrary, inView: LatLng -> bool)
    requires level == 0 || level == 1
    ensures level == 0 ==> |Render(gbSquares, niSquares, ciSquares, level, gb, ie, ci, inView)|
                           == |gbSquares| + |niSquares| + |ciSquares|
    ensures level == 1 ==> |Render(gbSquares, niSquares, ciSquares, level, gb, ie, ci, inView)|
                           == 2 * (|gbSquares| + |niSquares| + |ciSquares|)
  {
    if level == 0 {
      OutlineListLayers(gbSquares, gb.toLatLon, inView);
      OutlineListLayers(niSquares, ie.toLatLon, inView);
      OutlineListLayers(ciSquares, ci.toLatLon, inView);
    } else {
      LabelledListLayers(gbSquares, gb.toLatLon, inView);
      LabelledListLayers(niSquares, ie.toLatLon, inView);
      LabelledListLayers(ciSquares, ci.toLatLon, inView);
    }
  }

  class WorkedAllBritainLayer {
    var gbSquares: seq<string>
    var niSquares: seq<string>
    var ciSquares: seq<string>
    /** Whether the group has been added to a map. */
    var mapAttached: bool
    var osGridLibrary: Option<GeodesyLibrary>
    var ieGridLibrary: Option<GeodesyLibrary>
    var utmLibrary: Option<GeodesyLibrary>
    /** The layers of the group, in the order they were added. */
    var layers: seq<Layer>

    /** A new group: options merged over the defaults, no map, no library loaded yet, no layers. */
    constructor (options: Options)
      ensures gbSquares == OrDefault(options.gbSquares, DefaultGbSquares)
      ensures niSquares == OrDefault(options.niSquares, DefaultNiSquares)
      ensures ciSquares == OrDefault(options.ciSquares, DefaultCiSquares)
      ensures !mapAttached && osGridLibrary == None && ieGridLibrary == None && utmLibrary == None
      ensures layers == []
    {
      gbSquares := OrDefault(options.gbSquares, DefaultGbSquares);
      niSquares := OrDefault(options.niSquares, DefaultNiSquares);
      ciSquares := OrDefault(options.ciSquares, DefaultCiSquares);
      mapAttached := false;
      osGridLibrary, ieGridLibrary, utmLibrary := None, None, None;
      layers := [];
    }

    /** A redraw does something only on a map and with all three libraries loaded. */
    predicate CanRedraw()
      reads this`mapAttached, this`osGridLibrary, this`ieGridLibrary, this`utmLibrary
    {
      mapAttached && osGridLibrary.Some? && ieGridLibrary.Some? && utmLibrary.Some?
    }

    /** Which loaded library serves a grid-system tag, as a lookup table. */
    function LibraryFor(gridSystem: string): Option<GeodesyLibrary>
      reads this`osGridLibrary, this`ieGridLibrary, this`utmLibrary
    {
      var table := map["GB" := osGridLibrary, "IE" := ieGridLibrary, "CI" := utmLibrary];
      if gridSystem in table then table[gridSystem] else None
    }

    function OsgbGridRefToLatLon(grid: string): Option<LatLng>
      reads this`osGridLibrary
    {
      if osGridLibrary.Some? then Some(osGridLibrary.value.toLatLon(grid)) else None
    }

    function OsieGridRefToLatLon(grid: string): Option<LatLng>
      reads this`ieGridLibrary
    {
      if ieGridLibrary.Some? then Some(ieGridLibrary.value.toLatLon(grid)) else None
    }

    function CiGridRefToLatLon(grid: string): Option<LatLng>
      reads this`utmLibrary
    {
      if utmLibrary.Some? then Some(utmLibrary.value.toLatLon(grid)) else None
    }

    /**
     * The plugin's dispatch on the grid-system tag: a coordinate comes back
     * exactly when the tag is GB, IE or CI and that grid's library is loaded,
     * and it is that library's transform of the reference; otherwise null.
     */
    function GridRefToLatLon(grid: string, gridSystem: string): (r: Option<LatLng>)
      reads this`osGridLibrary, this`ieGridLibrary, this`utmLibrary
      ensures r.Some? <==> LibraryFor(gridSystem).Some?
      ensures r.Some? ==> r.value == LibraryFor(gridSystem).value.toLatLon(grid)
      ensures gridSystem != "GB" && gridSystem != "IE" && gridSystem != "CI" ==> r == None
    {
      if gridSystem == "GB" then OsgbGridRefToLatLon(grid)
      else if gridSystem == "IE" then OsieGridRefToLatLon(grid)
      else if gridSystem == "CI" then CiGridRefToLatLon(grid)
      else None
    }

    /** What a redraw leaves in the group, given the current options and libraries. */
    function RenderedLayers(level: int, inView: LatLng -> bool): seq<Layer>
      reads this`gbSquares, this`niSquares, this`ciSquares, this`osGridLibrary, this`ieGridLibrary, this`utmLibrary
      requires osGridLibrary.Some? && ieGridLibrary.Some? && utmLibrary.Some?
    {
      Render(gbSquares, niSquares, ciSquares, level, osGridLibrary.value, ieGridLibrary.value, utmLibrary.value, inView)
    }

    /** Leaflet's `addLayer`: the layer joins the group after those already in it. */
    method AddLayer(layer: Layer)
      modifies this`layers
      ensures layers == old(layers) + [layer]
    {
      layers := layers + [layer];
    }

    /** `eachLayer(removeLayer)`: every layer leaves the group. */
    method ClearLayers()
      modifies this`layers
      ensures layers == []
    {
      layers := [];
    }

    /**
     * Redraw for the map's current zoom and viewport: without a map or with a
     * library missing nothing changes; otherwise the group ends up holding
     * exactly the layers of the GB list, then the IE list, then the CI list,
     * at the detail level of the zoom, whatever it held before.
     */
    method Redraw(zoom: real, inView: LatLng -> bool)
      modifies this`layers
      ensures CanRedraw() ==> layers == RenderedLayers(DetailLevel(zoom), inView)
      ensures !CanRedraw() ==> layers == old(layers)
    {
      if CanRedraw() {
        ClearLayers();
        var detailLevel := DetailLevel(zoom);
        assert LibraryFor("GB") == osGridLibrary && LibraryFor("IE") == ieGridLibrary && LibraryFor("CI") == utmLibrary;
        ghost var gb := ListLayers(gbSquares, SquareLayersAt(detailLevel, osGridLibrary.value.toLatLon, inView));
        ghost var ni := ListLayers(niSquares, SquareLayersAt(detailLevel, ieGridLibrary.value.toLatLon, inView));
        ghost var ci := ListLayers(ciSquares, SquareLayersAt(detailLevel, utmLibrary.value.toLatLon, inView));
        AddSquaresOf(gbSquares, "GB", detailLevel, inView);
        assert layers == gb;
        AddSquaresOf(niSquares, "IE", detailLevel, inView);
        assert layers == gb + ni;
        AddSquaresOf(ciSquares, "CI", detailLevel, inView);
        assert layers == gb + ni + ci;
      }
    }

    /** One `forEach` of redraw: the squares of one grid's list, in order. */
    method AddSquaresOf(squares: seq<string>, gridSystem: string, detailLevel: int, inView: LatLng -> bool)
      requires LibraryFor(gridSystem).Some?
      modifies this`layers
      ensures layers == old(layers) + ListLayers(squares, SquareLayersAt(detailLevel, LibraryFor(gridSystem).value.toLatLon, inView))
    {
      ghost var layersOf := SquareLayersAt(detailLevel, LibraryFor(gridSystem).value.toLatLon, inView);
      var k := 0;
      while k < |squares|
        invariant 0 <= k <= |squares|
        invariant layers == old(layers) + ListLayers(squares[..k], layersOf)
      {
        AddWABGraphicsForSquare(squares[k], gridSystem, detailLevel, inView);
        ListLayersSnoc(squares[..k], squares[k], layersOf);
        PrefixSnoc(squares, k);
        AppendAssociative(old(layers), ListLayers(squares[..k], layersOf), layersOf(squares[k]));
        k := k + 1;
      }
      assert squares[..k] == squares;
    }

    /**
     * The graphics of one square of grid `gridSystem` at `detailLevel`: at
     * levels 0 and 1 its outline (and at level 1 its name at its centre), at
     * level 2 a polygon and a labelled marker for each sub-square that the
     * deconfliction table allows and that has a corner in view.
     */
    method AddWABGraphicsForSquare(squareRef: string, gridSystem: string, detailLevel: int, inView: LatLng -> bool)
      requires LibraryFor(gridSystem).Some?
      modifies this`layers
      ensures layers == old(layers) + SquareLayers(squareRef, detailLevel, LibraryFor(gridSystem).value.toLatLon, inView)
    {
      ghost var toLatLon := LibraryFor(gridSystem).value.toLatLon;
      if detailLevel == 0 || detailLevel == 1 {
        AddWholeSquareGraphics(squareRef, gridSystem, detailLevel == 1);
      } else if detailLevel == 2 {
        var i := 0;
        while i < 10
          invariant 0 <= i <= 10
          invariant layers == old(layers) + LoopLayers(squareRef, i, 0, toLatLon, inView)
        {
          var j := 0;
          while j < 10
            invariant 0 <= j <= 10
            invariant layers == old(layers) + LoopLayers(squareRef, i, j, toLatLon, inView)
          {
            AddSubSquareGraphics(squareRef, gridSystem, i, j, inView);
            AppendAssociative(old(layers), LoopLayers(squareRef, i, j, toLatLon, inView),
                              SubSquareLayers(squareRef, i, j, toLatLon, inView));
            j := j + 1;
          }
          i := i + 1;
        }
      } else {
        assert layers == old(layers) + [];
      }
    }

    /**
     * Levels 0 and 1: the outline of the whole square, then, when `labelled`,
     * a marker at its centre whose text is the square's identifier.
     */
    method AddWholeSquareGraphics(squareRef: string, gridSystem: string, labelled: bool)
      requires LibraryFor(gridSystem).Some?
      modifies this`layers
      ensures layers == old(layers) + [Polygon(WholeSquareCorners(squareRef, LibraryFor(gridSystem).value.toLatLon))]
                        + (if labelled then [Marker(WholeSquareCentre(squareRef, LibraryFor(gridSystem).value.toLatLon), squareRef)] else [])
    {
      ghost var toLatLon := LibraryFor(gridSystem).value.toLatLon;
      var swCorner := GridRefToLatLon(squareRef + " 00000 00000", gridSystem).value;
      var nwCorner := GridRefToLatLon(squareRef + " 99999 00000", gridSystem).value;
      var neCorner := GridRefToLatLon(squareRef + " 99999 99999", gridSystem).value;
      var seCorner := GridRefToLatLon(squareRef + " 00000 99999", gridSystem).value;
      var centre := GridRefToLatLon(squareRef + " 50000 50000", gridSystem).value;
      assert [swCorner, nwCorner, neCorner, seCorner] == WholeSquareCorners(squareRef, toLatLon);
      AddLayer(Polygon([swCorner, nwCorner, neCorner, seCorner]));
      if labelled {
        AddLayer(Marker(centre, squareRef));
        AppendAssociative(old(layers), [Polygon(WholeSquareCorners(squareRef, toLatLon))],
                          [Marker(WholeSquareCentre(squareRef, toLatLon), squareRef)]);
      } else {
        assert layers == old(layers) + [Polygon(WholeSquareCorners(squareRef, toLatLon))] + [];
      }
    }

    /**
     * One pass of the inner loop: sub-square (i, j) gets its polygon and its
     * labelled marker exactly when the deconfliction table allows it and one
     * of its corners is in view.
     */
    method AddSubSquareGraphics(squareRef: string, gridSystem: string, i: int, j: int, inView: LatLng -> bool)
      requires LibraryFor(gridSystem).Some?
      requires 0 <= i <= 9 && 0 <= j <= 9
      modifies this`layers
      ensures layers == old(layers) + SubSquareLayers(squareRef, i, j, LibraryFor(gridSystem).value.toLatLon, inView)
    {
      ghost var toLatLon := LibraryFor(gridSystem).value.toLatLon;
      if ValidSmallSquare(squareRef, i, j) {
        var swCorner := GridRefToLatLon(SubSquareRef(squareRef, i, "0000", j, "0000"), gridSystem).value;
        var nwCorner := GridRefToLatLon(SubSquareRef(squareRef, i, "9999", j, "0000"), gridSystem).value;
        var neCorner := GridRefToLatLon(SubSquareRef(squareRef, i, "9999", j, "9999"), gridSystem).value;
        var seCorner := GridRefToLatLon(SubSquareRef(squareRef, i, "0000", j, "9999"), gridSystem).value;
        var centre := GridRefToLatLon(SubSquareRef(squareRef, i, "5000", j, "5000"), gridSystem).value;
        assert [swCorner, nwCorner, neCorner, seCorner] == SubSquareCorners(squareRef, i, j, toLatLon);
        if inView(swCorner) || inView(nwCorner) || inView(neCorner) || inView(seCorner) {
          AddLayer(Polygon([swCorner, nwCorner, neCorner, seCorner]));
          AddLayer(Marker(centre, SubSquareLabel(squareRef, i, j)));
        }
      }
    }
  }
}
