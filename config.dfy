/** The timing and size constants of the shape-overlay engine (main.js:80-83). */
module ShapeConfig {
  /** Points along the wavy edge of each shape. */
  const NumPoints: nat := 10
  /** Shapes (SVG path layers) in the overlay. */
  const NumPaths: nat := 5
  /** Per-point wave delays are drawn from [0, MaxDelay). */
  const MaxDelay: real := 0.35
  /** Fraction of a segment that one point takes to travel from 100 to 0. */
  const PointDuration: real := 0.25
}
