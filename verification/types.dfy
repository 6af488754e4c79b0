/**
 * The overlay layer data model: points are offsets from the centre of the
 * reference image, and a layer is either a perspective fan or an
 * orthogonal grid.
 */
module Types {

  datatype Option<+T> = None | Some(value: T)

  /** An offset from the reference image's own centre, in image pixels. */
  datatype Point = Point(x: real, y: real)

  /** The two layer kinds: `'perspective'` (a radial fan of rays around each
      point) and `'ortho-grid'` (a rectangular grid over the image). */
  datatype LayerKind = Perspective | OrthoGrid

  /** One overlay layer. `density` counts ray quadruplets for a perspective
      layer and vertical lines for a grid; `densityY` is the grid's optional
      horizontal line count (absent on perspective layers). */
  datatype Layer = Layer(
    id: string,
    name: string,
    kind: LayerKind,
    points: seq<Point>,
    visible: bool,
    locked: bool,
    color: string,
    density: int,
    densityY: Option<int>,
    width: real)

  /** JavaScript's `n || d` on a number: 0 is falsy, so it falls back to `d`. */
  function Or(n: int, d: int): int {
    if n != 0 then n else d
  }

  /** JavaScript's `n || d` on an optional number: undefined and 0 fall back to `d`. */
  function OptOr(n: Option<int>, d: int): int {
    match n
    case None => d
    case Some(v) => Or(v, d)
  }

  /** The decimal digit character for `d`. */
  function Digit(d: int): (c: char)
    requires 0 <= d < 10
    ensures IsDigit(c) && DigitValue(c) == d
  {
    (d + '0' as int) as char
  }

  predicate IsDigit(c: char) {
    '0' <= c <= '9'
  }

  /** The number a digit character stands for. */
  function DigitValue(c: char): (d: int)
    requires IsDigit(c)
    ensures 0 <= d < 10
  {
    c as int - '0' as int
  }

  /** The number a string of decimal digits denotes, most significant first. */
  function DecimalValue(s: string): nat
    requires forall i :: 0 <= i < |s| ==> IsDigit(s[i])
  {
    if s == [] then 0 else DecimalValue(s[..|s| - 1]) * 10 + DigitValue(s[|s| - 1])
  }

  /** Decimal rendering of a natural number, as a template literal prints it:
      the digits denote `n`, and there is no leading zero except for 0
      itself. */
  function NatToString(n: nat): (s: string)
    ensures |s| >= 1
    ensures forall i :: 0 <= i < |s| ==> IsDigit(s[i])
    ensures DecimalValue(s) == n
    ensures s[0] == '0' <==> n == 0
    ensures n < 10 <==> |s| == 1
  {
    if n < 10 then [Digit(n)]
    else
      var prefix := NatToString(n / 10);
      var s := prefix + [Digit(n % 10)];
      assert s[..|s| - 1] == prefix;
      s
  }

  /** A layer satisfies the shape the editor itself creates: a perspective
      layer carries points and no `densityY`, a grid carries no points. */
  predicate WellShaped(l: Layer) {
    match l.kind
    case Perspective => |l.points| >= 1 && l.densityY.None?
    case OrthoGrid => l.points == [] && l.densityY.Some?
  }
}
