/**
 * How much of the grid the overlay draws at a given map zoom.
 *
 * Level 0 draws each configured square's outline, level 1 adds the square's
 * name at its centre, level 2 draws the 10 x 10 sub-squares with their labels.
 * Leaflet zoom levels may be fractional, so the zoom is a real number.
 */
module DetailLevels {

  /** The detail level chosen for a zoom: above 4 and above 8 are the two thresholds. */
  function DetailLevel(zoom: real): (level: int)
    ensures 0 <= level <= 2
    ensures level == 0 <==> zoom <= 4.0
    ensures level == 1 <==> 4.0 < zoom <= 8.0
    ensures level == 2 <==> 8.0 < zoom
  {
    if zoom > 4.0 then (if zoom > 8.0 then 2 else 1) else 0
  }

  /** Zooming in never lowers the detail level. */
  lemma DetailLevelMonotonic(z1: real, z2: real)
    requires z1 <= z2
    ensures DetailLevel(z1) <= DetailLevel(z2)
  {
  }

  lemma DetailLevelBoundaries()
    ensures DetailLevel(4.0) == 0 && DetailLevel(4.0001) == 1
    ensures DetailLevel(8.0) == 1 && DetailLevel(8.0001) == 2
  {
  }
}
