/**
 * Which sub-squares of a square are drawn at the finest detail level.
 *
 * Where the British, Irish and Channel Islands grids overlap (the Irish Sea,
 * the North Channel, the Channel), a few sub-squares of nine squares belong to
 * the neighbouring grid or to open sea and are not drawn. The rules are an
 * empirical table, one rule per square; every other square is drawn everywhere.
 */
module Deconfliction {

  /** The plugin's rule chain: the first rule whose square matches decides. */
  function ValidSmallSquare(squareRef: string, i: int, j: int): (valid: bool)
    ensures squareRef !in {"WA", "TR", "SM", "TV", "NW", "NR", "C", "D", "J"} ==> valid
  {
    if squareRef == "WA" && j > 1 then false
    else if squareRef == "TR" && i > 4 && j < 5 then false
    else if squareRef == "SM" && i < 4 then false
    else if squareRef == "TV" && i == 9 && j == 0 then false
    else if squareRef == "NW" && i < 9 then false
    else if squareRef == "NR" && i < 5 && j < 3 then false
    else if squareRef == "C" && j > 6 then false
    else if squareRef == "D" && (i > 5 || j > 5 || (i > 2 && j > 3)) then false
    else if squareRef == "J" && i > 6 then false
    else true
  }

  /** One row of the exclusion table: the square it applies to and the sub-squares it removes. */
  datatype Exclusion = Exclusion(square: string, excludes: (int, int) -> bool)

  /** The exclusion table as a list of independent rules. */
  const Exclusions: seq<Exclusion> := [
    Exclusion("WA", (i, j) => j > 1),
    Exclusion("TR", (i, j) => i > 4 && j < 5),
    Exclusion("SM", (i, j) => i < 4),
    Exclusion("TV", (i, j) => i == 9 && j == 0),
    Exclusion("NW", (i, j) => i < 9),
    Exclusion("NR", (i, j) => i < 5 && j < 3),
    Exclusion("C", (i, j) => j > 6),
    Exclusion("D", (i, j) => i > 5 || j > 5 || (i > 2 && j > 3)),
    Exclusion("J", (i, j) => i > 6)
  ]

  /** Some rule of the table, whichever its position, removes sub-square (i, j) of the square. */
  predicate ExcludedByTable(squareRef: string, i: int, j: int)
  {
    exists k :: 0 <= k < |Exclusions| && Exclusions[k].square == squareRef && Exclusions[k].excludes(i, j)
  }

  /** The squares the table has a rule for. */
  function TableSquares(): (squares: set<string>)
    ensures squares == {"WA", "TR", "SM", "TV", "NW", "NR", "C", "D", "J"}
  {
    var squares := set k | 0 <= k < |Exclusions| :: Exclusions[k].square;
    assert Exclusions[0].square in squares && Exclusions[1].square in squares && Exclusions[2].square in squares;
    assert Exclusions[3].square in squares && Exclusions[4].square in squares && Exclusions[5].square in squares;
    assert Exclusions[6].square in squares && Exclusions[7].square in squares && Exclusions[8].square in squares;
    squares
  }

  /** No square has two rules, so the order of the chain does not matter. */
  lemma ExclusionSquaresDistinct()
    ensures forall k, l :: 0 <= k < l < |Exclusions| ==> Exclusions[k].square != Exclusions[l].square
  {
  }

  /** The rule chain removes a sub-square exactly when some rule of the table does. */
  lemma ValidSmallSquareMatchesTable(squareRef: string, i: int, j: int)
    ensures ValidSmallSquare(squareRef, i, j) <==> !ExcludedByTable(squareRef, i, j)
  {
    if !ValidSmallSquare(squareRef, i, j) {
      ChainRemovalIsTableRow(squareRef, i, j);
    }
    if ExcludedByTable(squareRef, i, j) {
      TableRowRemovalIsChain(squareRef, i, j);
    }
  }

  /** A sub-square the chain removes is removed by some row of the table. */
  lemma ChainRemovalIsTableRow(squareRef: string, i: int, j: int)
    requires !ValidSmallSquare(squareRef, i, j)
    ensures ExcludedByTable(squareRef, i, j)
  {
    var k := if squareRef == "WA" && j > 1 then 0
      else if squareRef == "TR" && i > 4 && j < 5 then 1
      else if squareRef == "SM" && i < 4 then 2
      else if squareRef == "TV" && i == 9 && j == 0 then 3
      else if squareRef == "NW" && i < 9 then 4
      else if squareRef == "NR" && i < 5 && j < 3 then 5
      else if squareRef == "C" && j > 6 then 6
      else if squareRef == "D" && (i > 5 || j > 5 || (i > 2 && j > 3)) then 7
      else 8;
    assert Exclusions[k].square == squareRef && Exclusions[k].excludes(i, j);
  }

  /** A sub-square some table row removes is removed by the chain, whatever the row's position. */
  lemma TableRowRemovalIsChain(squareRef: string, i: int, j: int)
    requires ExcludedByTable(squareRef, i, j)
    ensures !ValidSmallSquare(squareRef, i, j)
  {
  }

  /** A square without a rule is drawn everywhere, whatever the indices. */
  lemma UnlistedSquareAlwaysValid(squareRef: string, i: int, j: int)
    requires squareRef !in TableSquares()
    ensures ValidSmallSquare(squareRef, i, j)
  {
    ValidSmallSquareMatchesTable(squareRef, i, j);
  }

  lemma ValidSmallSquareExamples(i: int)
    ensures ValidSmallSquare("WA", i, 0) && !ValidSmallSquare("WA", i, 2)
    ensures !ValidSmallSquare("D", 6, 0) && !ValidSmallSquare("D", 0, 6)
    ensures !ValidSmallSquare("D", 3, 4) && ValidSmallSquare("D", 2, 4)
    ensures ValidSmallSquare("ZZ", 5, 5)
  {
  }
}
