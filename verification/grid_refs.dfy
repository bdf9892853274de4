/**
 * Grid references and sub-square labels as the overlay builds them.
 *
 * A grid reference is a square identifier ("HP", "D", "WA", ...) followed by a
 * space, a five-digit easting offset, a space and a five-digit northing offset,
 * each offset in metres from the square's south-west corner (0 .. 99999).
 * At the finest detail level the plugin builds these strings by gluing the
 * one-digit sub-square index in front of a four-character suffix ("0000",
 * "9999" or "5000"); this module proves that this yields exactly the offsets
 * of the sub-square's corners and centre, and that a fixed-width decoder
 * recovers the identifier and both offsets.
 */
module GridRefs {

  import opened Wrappers

  /** The character JavaScript prints for a one-digit number. */
  function DigitChar(d: int): (c: char)
    requires 0 <= d <= 9
    ensures '0' <= c <= '9'
    ensures DigitValue(c) == d
  {
    ('0' as int + d) as char
  }

  function DigitValue(c: char): int
  {
    c as int - '0' as int
  }

  predicate IsDigit(c: char)
  {
    '0' <= c <= '9'
  }

  predicate AllDigits(s: string)
  {
    forall k :: 0 <= k < |s| ==> IsDigit(s[k])
  }

  /** Zero-padded five-digit decimal text of an offset in metres. */
  function Pad5(v: int): (s: string)
    requires 0 <= v <= 99999
    ensures |s| == 5 && AllDigits(s)
  {
    [DigitChar(v / 10000), DigitChar(v / 1000 % 10), DigitChar(v / 100 % 10),
     DigitChar(v / 10 % 10), DigitChar(v % 10)]
  }

  /** The number written by five decimal digits. */
  function Value5(s: string): (v: int)
    requires |s| == 5 && AllDigits(s)
    ensures 0 <= v <= 99999
  {
    DigitValue(s[0]) * 10000 + DigitValue(s[1]) * 1000 + DigitValue(s[2]) * 100
      + DigitValue(s[3]) * 10 + DigitValue(s[4])
  }

  lemma Pad5ThenValue5(v: int)
    requires 0 <= v <= 99999
    ensures Value5(Pad5(v)) == v
  {
    var a, r4 := v / 10000, v % 10000;
    var b, r3 := r4 / 1000, r4 % 1000;
    var c, r2 := r3 / 100, r3 % 100;
    var d, e := r2 / 10, r2 % 10;
    FiveDigits(v, a, b, c, d, e);
  }

  lemma Value5ThenPad5(s: string)
    requires |s| == 5 && AllDigits(s)
    ensures Pad5(Value5(s)) == s
  {
    var a, b, c, d, e := DigitValue(s[0]), DigitValue(s[1]), DigitValue(s[2]), DigitValue(s[3]), DigitValue(s[4]);
    FiveDigits(Value5(s), a, b, c, d, e);
    var t := Pad5(Value5(s));
    forall k | 0 <= k < 5 ensures t[k] == s[k] {
      assert DigitValue(t[k]) == DigitValue(s[k]);
    }
  }

  /** The decimal digit of v at the place value m, when v == (h * 10 + dg) * m + r. */
  lemma DigitAt(v: int, h: int, dg: int, r: int, m: int)
    requires m in {1, 10, 100, 1000, 10000}
    requires 0 <= h && 0 <= dg < 10 && 0 <= r < m && v == (h * 10 + dg) * m + r
    ensures v / m == h * 10 + dg && (v / m) % 10 == dg
  {
  }

  /** A grid reference in the plugin's text form: identifier, easting, northing. */
  function GridRef(square: string, easting: int, northing: int): (s: string)
    requires 0 <= easting <= 99999 && 0 <= northing <= 99999
    ensures |s| == |square| + 12
  {
    square + " " + Pad5(easting) + " " + Pad5(northing)
  }

  datatype GridRefParts = GridRefParts(square: string, easting: int, northing: int)

  /**
   * Fixed-width decoder for the text form above: the last eleven characters
   * hold the two offsets, everything before the separating space is the
   * square identifier, which must itself contain no space.
   */
  function ParseGridRef(s: string): (r: Option<GridRefParts>)
    ensures r.Some? ==> 0 <= r.value.easting <= 99999 && 0 <= r.value.northing <= 99999
  {
    if |s| < 12 then None
    else
      var square, east, north := s[..|s| - 12], s[|s| - 11..|s| - 6], s[|s| - 5..];
      if s[|s| - 12] == ' ' && s[|s| - 6] == ' ' && ' ' !in square && AllDigits(east) && AllDigits(north)
      then Some(GridRefParts(square, Value5(east), Value5(north)))
      else None
  }

  /** Decoding an encoded reference gives back the identifier and both offsets. */
  lemma ParseGridRefOfGridRef(square: string, easting: int, northing: int)
    requires ' ' !in square
    requires 0 <= easting <= 99999 && 0 <= northing <= 99999
    ensures ParseGridRef(GridRef(square, easting, northing)) == Some(GridRefParts(square, easting, northing))
  {
    var s := GridRef(square, easting, northing);
    var n := |s|;
    assert s[..n - 12] == square;
    assert s[n - 11..n - 6] == Pad5(easting);
    assert s[n - 5..] == Pad5(northing);
    assert s[n - 12] == ' ' && s[n - 6] == ' ';
    Pad5ThenValue5(easting);
    Pad5ThenValue5(northing);
  }

  /** Whatever the decoder accepts is exactly the encoding of what it returns. */
  lemma GridRefOfParseGridRef(s: string)
    requires ParseGridRef(s).Some?
    ensures var p := ParseGridRef(s).value;
            ' ' !in p.square && GridRef(p.square, p.easting, p.northing) == s
  {
    var n := |s|;
    var east, north := s[n - 11..n - 6], s[n - 5..];
    Value5ThenPad5(east);
    Value5ThenPad5(north);
    assert s == s[..n - 12] + " " + east + " " + north;
  }

  /** The three four-character suffixes the plugin appends to a sub-square index, with their values. */
  predicate SuffixOffset(suffix: string, m: int)
  {
    || (suffix == "0000" && m == 0)
    || (suffix == "9999" && m == 9999)
    || (suffix == "5000" && m == 5000)
  }

  /**
   * The one-digit sub-square index glued in front of one of the plugin's
   * four-character suffixes is the five-digit offset index * 10000 + suffix.
   */
  lemma SubOffsetText(d: int, suffix: string, m: int)
    requires 0 <= d <= 9
    requires SuffixOffset(suffix, m)
    ensures [DigitChar(d)] + suffix == Pad5(d * 10000 + m)
  {
    if m == 0 {
      FiveDigits(d * 10000, d, 0, 0, 0, 0);
      assert suffix == [DigitChar(0), DigitChar(0), DigitChar(0), DigitChar(0)];
    } else if m == 9999 {
      FiveDigits(d * 10000 + 9999, d, 9, 9, 9, 9);
      assert suffix == [DigitChar(9), DigitChar(9), DigitChar(9), DigitChar(9)];
    } else {
      FiveDigits(d * 10000 + 5000, d, 5, 0, 0, 0);
      assert suffix == [DigitChar(5), DigitChar(0), DigitChar(0), DigitChar(0)];
    }
  }

  /** The five-digit text of the number spelt by five given digits. */
  lemma FiveDigits(v: int, a: int, b: int, c: int, d: int, e: int)
    requires 0 <= a < 10 && 0 <= b < 10 && 0 <= c < 10 && 0 <= d < 10 && 0 <= e < 10
    requires v == a * 10000 + b * 1000 + c * 100 + d * 10 + e
    ensures Pad5(v) == [DigitChar(a), DigitChar(b), DigitChar(c), DigitChar(d), DigitChar(e)]
  {
    DigitAt(v, 0, a, b * 1000 + c * 100 + d * 10 + e, 10000);
    DigitAt(v, a, b, c * 100 + d * 10 + e, 1000);
    DigitAt(v, a * 10 + b, c, d * 10 + e, 100);
    DigitAt(v, a * 100 + b * 10 + c, d, e, 10);
    DigitAt(v, a * 1000 + b * 100 + c * 10 + d, e, 0, 1);
  }

  /** A sub-square reference is the grid reference of the offsets its two halves spell. */
  lemma SubSquareRefDecodes(square: string, i: int, east: string, e: int, j: int, north: string, n: int,
                            easting: int, northing: int)
    requires ' ' !in square
    requires 0 <= i <= 9 && 0 <= j <= 9
    requires SuffixOffset(east, e)
    requires SuffixOffset(north, n)
    requires easting == i * 10000 + e && northing == j * 10000 + n
    ensures ParseGridRef(SubSquareRef(square, i, east, j, north)) == Some(GridRefParts(square, easting, northing))
  {
    SubSquareRefIsGridRef(square, i, east, e, j, north, n);
    ParseGridRefOfEqualText(SubSquareRef(square, i, east, j, north), square, easting, northing);
  }

  /** Any text equal to the encoding of a reference decodes to that reference. */
  lemma ParseGridRefOfEqualText(s: string, square: string, easting: int, northing: int)
    requires ' ' !in square
    requires 0 <= easting <= 99999 && 0 <= northing <= 99999
    requires s == GridRef(square, easting, northing)
    ensures ParseGridRef(s) == Some(GridRefParts(square, easting, northing))
  {
    ParseGridRefOfGridRef(square, easting, northing);
  }

  /** A sub-square reference is, character for character, a grid reference. */
  lemma SubSquareRefIsGridRef(square: string, i: int, east: string, e: int, j: int, north: string, n: int)
    requires 0 <= i <= 9 && 0 <= j <= 9
    requires SuffixOffset(east, e)
    requires SuffixOffset(north, n)
    ensures 0 <= i * 10000 + e <= 99999 && 0 <= j * 10000 + n <= 99999
    ensures SubSquareRef(square, i, east, j, north) == GridRef(square, i * 10000 + e, j * 10000 + n)
  {
    SubOffsetText(i, east, e);
    SubOffsetText(j, north, n);
    var eastText, northText := [DigitChar(i)] + east, [DigitChar(j)] + north;
    assert SubSquareRef(square, i, east, j, north) == square + " " + eastText + " " + northText;
  }

  /**
   * The reference the finest detail level builds for sub-square (i, j), with
   * the easting suffix `east` and the northing suffix `north`, in the order
   * the plugin concatenates: identifier, space, i, suffix and space, j, suffix.
   */
  function SubSquareRef(square: string, i: int, east: string, j: int, north: string): (s: string)
    requires 0 <= i <= 9 && 0 <= j <= 9
    ensures |s| == |square| + |east| + |north| + 4
  {
    square + " " + [DigitChar(i)] + east + " " + [DigitChar(j)] + north
  }

  /**
   * The five references of sub-square (i, j) decode to the identifier and
   * to offsets i * 10000 + {0, 9999, 5000} and j * 10000 + {0, 9999, 5000}:
   * all four corners and the centre lie in the (i, j) 10 km band.
   */
  lemma SubSquareRefsDecode(square: string, i: int, j: int)
    requires ' ' !in square
    requires 0 <= i <= 9 && 0 <= j <= 9
    ensures ParseGridRef(SubSquareRef(square, i, "0000", j, "0000")) == Some(GridRefParts(square, i * 10000, j * 10000))
    ensures ParseGridRef(SubSquareRef(square, i, "9999", j, "0000")) == Some(GridRefParts(square, i * 10000 + 9999, j * 10000))
    ensures ParseGridRef(SubSquareRef(square, i, "9999", j, "9999")) == Some(GridRefParts(square, i * 10000 + 9999, j * 10000 + 9999))
    ensures ParseGridRef(SubSquareRef(square, i, "0000", j, "9999")) == Some(GridRefParts(square, i * 10000, j * 10000 + 9999))
    ensures ParseGridRef(SubSquareRef(square, i, "5000", j, "5000")) == Some(GridRefParts(square, i * 10000 + 5000, j * 10000 + 5000))
  {
    var e, n := i * 10000, j * 10000;
    SubSquareRefDecodes(square, i, "0000", 0, j, "0000", 0, e, n);
    SubSquareRefDecodes(square, i, "9999", 9999, j, "0000", 0, e + 9999, n);
    SubSquareRefDecodes(square, i, "9999", 9999, j, "9999", 9999, e + 9999, n + 9999);
    SubSquareRefDecodes(square, i, "0000", 0, j, "9999", 9999, e, n + 9999);
    SubSquareRefDecodes(square, i, "5000", 5000, j, "5000", 5000, e + 5000, n + 5000);
  }

  /**
   * The literal suffixes the two coarser detail levels append to the
   * identifier are the references of the whole square's corners and centre.
   */
  lemma WholeSquareRefsDecode(square: string)
    requires ' ' !in square
    ensures ParseGridRef(square + " 00000 00000") == Some(GridRefParts(square, 0, 0))
    ensures ParseGridRef(square + " 99999 00000") == Some(GridRefParts(square, 99999, 0))
    ensures ParseGridRef(square + " 99999 99999") == Some(GridRefParts(square, 99999, 99999))
    ensures ParseGridRef(square + " 00000 99999") == Some(GridRefParts(square, 0, 99999))
    ensures ParseGridRef(square + " 50000 50000") == Some(GridRefParts(square, 50000, 50000))
  {
    WholeSquareRefsAreGridRefs(square);
    ParseGridRefOfGridRef(square, 0, 0);
    ParseGridRefOfGridRef(square, 99999, 0);
    ParseGridRefOfGridRef(square, 99999, 99999);
    ParseGridRefOfGridRef(square, 0, 99999);
    ParseGridRefOfGridRef(square, 50000, 50000);
  }

  /** The literal suffixes spell the grid references of the whole square's corners and centre. */
  lemma WholeSquareRefsAreGridRefs(square: string)
    ensures square + " 00000 00000" == GridRef(square, 0, 0)
    ensures square + " 99999 00000" == GridRef(square, 99999, 0)
    ensures square + " 99999 99999" == GridRef(square, 99999, 99999)
    ensures square + " 00000 99999" == GridRef(square, 0, 99999)
    ensures square + " 50000 50000" == GridRef(square, 50000, 50000)
  {
    assert Pad5(0) == "00000" && Pad5(99999) == "99999" && Pad5(50000) == "50000";
  }

  /** Label of sub-square (i, j): the identifier followed by the digits of i and j. */
  function SubSquareLabel(square: string, i: int, j: int): (s: string)
    requires 0 <= i <= 9 && 0 <= j <= 9
    ensures |s| == |square| + 2 && s[..|square|] == square
    ensures IsDigit(s[|square|]) && IsDigit(s[|square| + 1])
    ensures DigitValue(s[|square|]) == i && DigitValue(s[|square| + 1]) == j
  {
    square + [DigitChar(i), DigitChar(j)]
  }

  /** Two sub-square labels are equal only for the same square and indices. */
  lemma SubSquareLabelInjective(a: string, i: int, j: int, b: string, k: int, l: int)
    requires 0 <= i <= 9 && 0 <= j <= 9 && 0 <= k <= 9 && 0 <= l <= 9
    requires SubSquareLabel(a, i, j) == SubSquareLabel(b, k, l)
    ensures a == b && i == k && j == l
  {
    var s := SubSquareLabel(a, i, j);
    assert a == s[..|a|] == b;
    assert DigitValue(s[|a|]) == i && DigitValue(s[|a|]) == k;
    assert DigitValue(s[|a| + 1]) == j && DigitValue(s[|a| + 1]) == l;
  }

  lemma SubSquareLabelExample()
    ensures SubSquareLabel("HP", 3, 7) == "HP37"
  {
  }
}
