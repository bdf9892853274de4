# Worked All Britain overlay — a Dafny model

Leaflet.WorkedAllBritain is a Leaflet layer group. It draws the squares of the
"Worked All Britain" amateur-radio award scheme over a map. The scheme uses the
100 km squares of three national grids:

- the British grid (OSGB, e.g. `HP`, `TQ`);
- the Irish grid (`C`, `D`, `G`, `H`, `J`);
- the Channel Islands grid (`WA`, `WV`).

The detail level depends on the zoom:

- level 0: each square's outline;
- level 1: the outline and the square's name at its centre;
- level 2: the 10 x 10 sub-squares of every square, each outline labelled with
  the square's name and the two sub-square digits (`HP37`). Only sub-squares
  with a corner on screen are drawn, and sub-squares where two grids overlap
  are deconflicted by a fixed table of rules.

This project models that core and proves what it draws:

- `DetailLevels` (`detail_level.dfy`): the zoom-to-level rule.
- `Deconfliction` (`deconfliction.dfy`):
  - the sub-square rule chain;
  - an independent table of the same rules, proved equivalent to the chain.
- `GridRefs` (`grid_refs.dfy`):
  - the grid-reference strings the plugin builds;
  - a fixed-width decoder for them;
  - proofs that each string decodes to the intended offsets (whole square:
    0, 99999 and 50000; sub-square (i, j): i·10000 + {0, 9999, 5000});
  - the sub-square label and its injectivity.
- `Overlay` (`overlay.dfy`):
  - the layers one square contributes at each level, as values;
  - `LoopLayers`, which follows the plugin's nested loops;
  - a filter-then-draw description proved equal to it: the drawn sub-squares
    in i-major order, a polygon and then a labelled marker each.
- `WorkedAllBritain` (`worked_all_britain.dfy`): the layer group as a class.
  - Its fields are the three square lists, whether it is on a map, the three
    geodesy libraries (absent until loaded) and the layers it holds.
  - `Redraw`, `AddSquaresOf` and `AddWABGraphicsForSquare` update the layers
    with loops. They are proved to leave exactly the layers the `Overlay`
    functions describe.

Two parameters stand for the foreign pieces:

- the geodesy transform `parse(ref).toLatLon()`, a function `string -> LatLng`
  held by each loaded library;
- the viewport test `map.getBounds().contains`, a predicate `LatLng -> bool`.

## Model

| member | source | states |
|---|---|---|
| DetailLevels.DetailLevel | L.WorkedAllBritain.js:75 | the level is always 0, 1 or 2: 0 exactly when zoom <= 4, 1 exactly when 4 < zoom <= 8, 2 exactly when zoom > 8 |
| DetailLevels.DetailLevelMonotonic | L.WorkedAllBritain.js:75 | zooming in never lowers the detail level |
| DetailLevels.DetailLevelBoundaries | L.WorkedAllBritain.js:75 | spot checks of the strict thresholds: zoom 4 gives 0 and 4.0001 gives 1; zoom 8 gives 1 and 8.0001 gives 2 |
| Deconfliction.ValidSmallSquare | L.WorkedAllBritain.js:157-179 | the rule chain itself; a square other than WA, TR, SM, TV, NW, NR, C, D and J is valid for every (i, j) |
| Deconfliction.TableSquares | L.WorkedAllBritain.js:159-176 | the squares with an exclusion rule are exactly WA, TR, SM, TV, NW, NR, C, D and J |
| Deconfliction.ExclusionSquaresDistinct | L.WorkedAllBritain.js:157-179 | no square has two rules, so the order of the if/else chain cannot matter |
| Deconfliction.ValidSmallSquareMatchesTable | L.WorkedAllBritain.js:157-179 | `_validSmallSquare` returns false exactly when one of the nine rules (WA j>1; TR i>4 and j<5; SM i<4; TV i=9 and j=0; NW i<9; NR i<5 and j<3; C j>6; D i>5 or j>5 or (i>2 and j>3); J i>6) removes (i, j) |
| Deconfliction.ChainRemovalIsTableRow | L.WorkedAllBritain.js:157-179 | a sub-square the chain rejects is rejected by some row of the table |
| Deconfliction.TableRowRemovalIsChain | L.WorkedAllBritain.js:157-179 | a sub-square any table row rejects is rejected by the chain |
| Deconfliction.UnlistedSquareAlwaysValid | L.WorkedAllBritain.js:157-179 | a square with no rule is valid for every (i, j) |
| Deconfliction.ValidSmallSquareExamples | L.WorkedAllBritain.js:159-176 | spot checks of the WA and D rules and of an unlisted square |
| GridRefs.DigitChar | L.WorkedAllBritain.js:129-133 | a one-digit index is written as a single character '0'..'9' whose value is the index |
| GridRefs.Pad5 | L.WorkedAllBritain.js:97-101 | an offset's text is five decimal digits |
| GridRefs.Pad5ThenValue5 | L.WorkedAllBritain.js:97-101 | reading back the five-digit text of an offset gives the offset |
| GridRefs.Value5ThenPad5 | L.WorkedAllBritain.js:97-101 | any five-digit text is the padded text of its value |
| GridRefs.GridRef | L.WorkedAllBritain.js:97-101 | a reference is the identifier, a space, the easting, a space, the northing: identifier length + 12 characters |
| GridRefs.ParseGridRef | L.WorkedAllBritain.js:97-101 | the decoder only returns offsets in 0 .. 99999 |
| GridRefs.ParseGridRefOfGridRef | L.WorkedAllBritain.js:97-101 | decoding an encoded reference returns its identifier and both offsets |
| GridRefs.GridRefOfParseGridRef | L.WorkedAllBritain.js:97-101 | whatever the decoder accepts is exactly the encoding of what it returns |
| GridRefs.WholeSquareRefsAreGridRefs | L.WorkedAllBritain.js:97-101 | the five literal suffixes of levels 0 and 1 are the references at offsets (0,0), (99999,0), (99999,99999), (0,99999), (50000,50000) |
| GridRefs.WholeSquareRefsDecode | L.WorkedAllBritain.js:97-101 | the five level-0/1 references decode to the identifier and the corner and centre offsets |
| GridRefs.SubSquareRef | L.WorkedAllBritain.js:129-133 | a sub-square reference is identifier, space, digit i, suffix, space, digit j, suffix, with the lengths that implies |
| GridRefs.SubOffsetText | L.WorkedAllBritain.js:129-133 | digit d followed by "0000", "9999" or "5000" is the five-digit text of d·10000 + 0, 9999 or 5000 |
| GridRefs.SubSquareRefIsGridRef | L.WorkedAllBritain.js:129-133 | the concatenated sub-square reference is the grid reference of offsets (i·10000 + e, j·10000 + n), both in 0 .. 99999 |
| GridRefs.SubSquareRefDecodes | L.WorkedAllBritain.js:129-133 | a sub-square reference with any of the three suffixes decodes to the identifier and the offsets in the (i, j) 10 km band |
| GridRefs.SubSquareRefsDecode | L.WorkedAllBritain.js:129-133 | the four corner references and the centre reference of sub-square (i, j) decode to i·10000 + {0, 9999} by j·10000 + {0, 9999}, and to (i·10000 + 5000, j·10000 + 5000) |
| GridRefs.SubSquareLabel | L.WorkedAllBritain.js:143 | the label is the identifier followed by two digit characters, the first the digit of i and the second the digit of j |
| GridRefs.SubSquareLabelInjective | L.WorkedAllBritain.js:143 | equal labels mean the same identifier and the same i and j |
| GridRefs.SubSquareLabelExample | L.WorkedAllBritain.js:143 | square HP, i = 3, j = 7 gives "HP37" |
| Overlay.AnyCornerInView | L.WorkedAllBritain.js:136-137 | the culling test: one of the four corners is in the viewport |
| Overlay.SubSquareLayers | L.WorkedAllBritain.js:126-148 | one inner-loop pass: polygon and labelled marker of (i, j) when it is valid and a corner is in view, nothing otherwise |
| Overlay.LoopLayers | L.WorkedAllBritain.js:121-151 | the layers the nested loops have added after row i - 1 is finished and j passes of row i are done |
| Overlay.SquareLayers | L.WorkedAllBritain.js:94-153 | what one square adds at a detail level: outline, outline and name, or the nested loops' layers; nothing at any other level |
| Overlay.WholeSquareCentre | L.WorkedAllBritain.js:101 | the anchor of the name marker: the transform of the identifier followed by " 50000 50000" |
| Overlay.SubSquareCentre | L.WorkedAllBritain.js:133 | the anchor of a sub-square's marker: the transform of the reference with i + "5000" and j + "5000" |
| Overlay.SubSquarePolygon | L.WorkedAllBritain.js:138-139 | the sub-square's outline polygon through its four corners |
| Overlay.SubSquareMarker | L.WorkedAllBritain.js:141-147 | the marker at the sub-square's centre whose text is the identifier followed by i and j |
| Overlay.Drawn | L.WorkedAllBritain.js:126-137 | a sub-square is drawn when its indices are in range, `_validSmallSquare` holds and one of its corners is in view |
| Overlay.ListLayers | L.WorkedAllBritain.js:78-86 | one `forEach`: the layers of each square of a list, square after square |
| Overlay.WholeSquareCorners | L.WorkedAllBritain.js:97-103 | the outline of a whole square has four corners |
| Overlay.SubSquareCorners | L.WorkedAllBritain.js:129-138 | the outline of a sub-square has four corners |
| Overlay.AllSubSquaresMembers | L.WorkedAllBritain.js:121-122 | the loops visit exactly the pairs with 0 <= i, j <= 9 |
| Overlay.AllSubSquaresOrdered | L.WorkedAllBritain.js:121-122 | the loops visit the sub-squares in strictly increasing i-major order |
| Overlay.DrawnSubSquares | L.WorkedAllBritain.js:126-137 | filtering never lengthens the list and keeps only indices in range |
| Overlay.DrawnSubSquaresMembers | L.WorkedAllBritain.js:126-137 | a sub-square survives the filter exactly when it was visited, passes `_validSmallSquare` and has a corner in view |
| Overlay.DrawnSubSquaresOrdered | L.WorkedAllBritain.js:121-122 | the filter keeps the i-major order |
| Overlay.LayersOfShape | L.WorkedAllBritain.js:138-147 | each drawn sub-square adds exactly two layers, its polygon and then its labelled marker |
| Overlay.PrefixLayersStep | L.WorkedAllBritain.js:126-148 | one more sub-square in i-major order adds exactly what one inner-loop pass adds |
| Overlay.PassStep | L.WorkedAllBritain.js:122-148 | one inner-loop pass extends the loop description and the filter description by the same layers |
| Overlay.LoopLayersArePrefixLayers | L.WorkedAllBritain.js:121-151 | after any number of inner-loop passes, the loops have added exactly the layers of the drawn sub-squares among those visited |
| Overlay.LoopLayersAreDrawnLayers | L.WorkedAllBritain.js:121-151 | level 2 draws exactly the drawn sub-squares, each as polygon then marker, in i-major order |
| Overlay.FinestSquareLayers | L.WorkedAllBritain.js:121-151 | at level 2 a square draws at most 100 sub-squares, in strictly increasing i-major order, exactly the drawn ones, each as its polygon followed by its labelled marker, and nothing else |
| Overlay.LabelledOnlyIfDrawn | L.WorkedAllBritain.js:126-147 | a marker labelled identifier + i + j appears only if sub-square (i, j) is valid and has a corner in view |
| Overlay.LabelledIfDrawn | L.WorkedAllBritain.js:126-147 | a valid sub-square with a corner in view gets its labelled marker at its centre |
| Overlay.SubSquareLabelledIff | L.WorkedAllBritain.js:126-147 | at level 2, sub-square (i, j)'s labelled marker is drawn if and only if `_validSmallSquare` holds and one of its four corners is in view |
| Overlay.FinestAllInView | L.WorkedAllBritain.js:121-151 | with no exclusion and everything in view, a square draws 200 layers |
| Overlay.AllDrawn | L.WorkedAllBritain.js:126-137 | with no exclusion and everything in view, the filter keeps every sub-square |
| Overlay.FinestNothingInView | L.WorkedAllBritain.js:135-137 | with nothing in view, level 2 draws nothing for the square |
| Overlay.NoneDrawn | L.WorkedAllBritain.js:135-137 | with nothing in view, the filter keeps no sub-square |
| Overlay.ListLayersSnoc | L.WorkedAllBritain.js:78-86 | one more square at the end of a list adds that square's layers at the end |
| Overlay.ListLayersAppend | L.WorkedAllBritain.js:78-86 | walking two lists one after the other gives the first list's layers followed by the second's |
| Overlay.OutlineListLayers | L.WorkedAllBritain.js:95-104 | at level 0, the k-th layer of a list is the outline of its k-th square, and there are no markers |
| Overlay.LabelledListLayers | L.WorkedAllBritain.js:95-115 | at level 1, layers 2k and 2k + 1 of a list are the outline of its k-th square and a marker at its centre whose text is the square's identifier |
| WorkedAllBritain.TableSquaresConfigured | L.WorkedAllBritain.js:7-9 | every square that has a deconfliction rule is in one of the default square lists |
| WorkedAllBritain.OrDefault | L.WorkedAllBritain.js:15 | an option that is given replaces the default list, one that is left out keeps it |
| WorkedAllBritain.Render | L.WorkedAllBritain.js:78-86 | the three `forEach` loops: the GB list's layers, then the IE list's, then the CI list's |
| WorkedAllBritain.RenderCoarseCounts | L.WorkedAllBritain.js:78-115 | a redraw at level 0 holds one layer per configured square, at level 1 two |
| WorkedAllBritain.WorkedAllBritainLayer.constructor | L.WorkedAllBritain.js:3-16 | options override the default lists one by one; no map, no library loaded and no layers yet |
| WorkedAllBritain.WorkedAllBritainLayer.CanRedraw | L.WorkedAllBritain.js:70 | redraw proceeds only with a map and all three libraries loaded |
| WorkedAllBritain.WorkedAllBritainLayer.OsgbGridRefToLatLon | L.WorkedAllBritain.js:195-201 | the British grid's transform of the reference, or null when its library is not loaded |
| WorkedAllBritain.WorkedAllBritainLayer.OsieGridRefToLatLon | L.WorkedAllBritain.js:213-219 | the Irish grid's transform of the reference, or null when its library is not loaded |
| WorkedAllBritain.WorkedAllBritainLayer.CiGridRefToLatLon | L.WorkedAllBritain.js:231-237 | the Channel Islands grid's transform of the reference, or null when its library is not loaded |
| WorkedAllBritain.WorkedAllBritainLayer.GridRefToLatLon | L.WorkedAllBritain.js:182-192 | a coordinate comes back exactly when the tag is GB, IE or CI and that grid's library is loaded, and it is that library's transform of the reference; any other tag gives null |
| WorkedAllBritain.WorkedAllBritainLayer.AddLayer | L.WorkedAllBritain.js:104 | the layer joins the group after those already in it |
| WorkedAllBritain.WorkedAllBritainLayer.ClearLayers | L.WorkedAllBritain.js:72 | the group holds no layer afterwards |
| WorkedAllBritain.WorkedAllBritainLayer.Redraw | L.WorkedAllBritain.js:68-89 | without a map or with a library missing the layers are unchanged; otherwise the group holds exactly the GB list's layers, then the IE list's, then the CI list's, at the zoom's detail level, whatever it held before |
| WorkedAllBritain.WorkedAllBritainLayer.AddSquaresOf | L.WorkedAllBritain.js:78-86 | one `forEach`: the layers of the list's squares, in list order, are appended |
| WorkedAllBritain.WorkedAllBritainLayer.AddWABGraphicsForSquare | L.WorkedAllBritain.js:94-153 | the square's layers at the detail level are appended: outline (and name) at levels 0 and 1, the drawn sub-squares in i-major order at level 2, nothing at any other level |
| WorkedAllBritain.WorkedAllBritainLayer.AddWholeSquareGraphics | L.WorkedAllBritain.js:95-115 | the outline through the four corners is appended, then, at level 1, a marker at the centre whose text is the identifier |
| WorkedAllBritain.WorkedAllBritainLayer.AddSubSquareGraphics | L.WorkedAllBritain.js:126-149 | sub-square (i, j) appends its polygon and labelled marker if it is valid and has a corner in view, and nothing otherwise |

## Left out

- The asynchronous `import()` of the three geodesy modules, their promise
  callbacks, the "redraw once all three are loaded" trigger and the console
  logging (L.WorkedAllBritain.js:17-51). These are I/O and asynchrony.
  Readiness is the three `Option` fields. No method of the model loads a
  library; a client sets the field.
- `onAdd`/`onRemove` and the map event wiring (L.WorkedAllBritain.js:54-66),
  including `onRemove` passing `this.map` to `off`. These are map-widget glue.
  Being on a map is the `mapAttached` field, which no method of the model
  sets.
- The geodesy transforms (L.WorkedAllBritain.js:195-237) are floating-point
  geodesy in external libraries. Each loaded library is reduced to a function
  `string -> LatLng`. Exceptions the libraries might throw on a reference are
  not modelled.
- The reverse transforms `_latLonToOSGBGridRef`, `_latLonToOSIEGridRef` and
  `_latLonToCIGridRef` (L.WorkedAllBritain.js:203-248). No drawing path uses
  them, and the CI one is an unfinished stub.
- The viewport test `map.getBounds().contains` (L.WorkedAllBritain.js:136-137)
  is a predicate parameter `inView`. `redraw` reads the zoom from the global
  `map`, not from the group's own map; the model takes the zoom as a
  parameter. The any-corner test is kept as written, so a sub-square that
  spans the viewport with all four corners outside it is skipped.
- The HTML and CSS of the labels, the icon class names, the colour option and
  the polygon options (L.WorkedAllBritain.js:103, 108-113, 138, 141-146). A
  marker is reduced to its anchor and its text.
- Leaflet's layer-group internals: removing every layer is modelled as
  emptying the sequence, and the group's order as the order of `addLayer`
  calls.
- `ParseGridRef` is a fixed-width reference decoder defined in this model,
  not the geodesy libraries' parser. It is the reference against which the
  built strings are shown to carry the intended offsets.
- WorkedAllBritain.WorkedAllBritainLayer.AddWABGraphicsForSquare requires the
  grid's library to be loaded. The plugin only reaches it from `redraw` once
  all three libraries are present. With a library missing, `_gridRefToLatLon`
  would return null and Leaflet would be handed null corners; that case is
  not modelled.
- The default GB list is the 56 squares listed at L.WorkedAllBritain.js:7,
  and `redraw` does nothing unless the map and all three libraries are
  present (L.WorkedAllBritain.js:70); the model follows both as written.
