/**
 * Spritesheets: a texture of width × height pixels cut into a rows × columns
 * grid of frames, row-major, with unsigned integer division for the cell size.
 * Only the integer texture rectangle of each sprite is modelled.
 */
module Sprites {

  /** The texture rectangle (left, top, width, height) a sprite displays. */
  datatype Sprite = Sprite(left: int, top: int, width: int, height: int)

  /** The rectangle of a default-constructed sprite. */
  const NoSprite := Sprite(0, 0, 0, 0)

  /**
   * A spritesheet after construction: the texture's size, the grid and the
   * frames cut from it. It is never changed afterwards, and it is copied by
   * value into every animation built from it.
   */
  datatype Spritesheet = Spritesheet(width: nat, height: nat, rows: nat, columns: nat, frame: seq<Sprite>)

  /** The rectangle the constructor computes for the cell in column x of row y. */
  function CellRect(width: nat, height: nat, rows: nat, columns: nat, x: nat, y: nat): Sprite
    requires 0 < rows && 0 < columns
  {
    Sprite(x * (width / columns), y * (height / rows), width / columns, height / rows)
  }

  /**
   * Frame k of a sheet addressed by its linear index: column k % columns,
   * row k / columns, every cell (width / columns) × (height / rows) pixels.
   */
  function FrameRect(width: nat, height: nat, rows: nat, columns: nat, k: nat): Sprite
    requires 0 < rows && 0 < columns
  {
    Sprite((k % columns) * (width / columns), (k / columns) * (height / rows), width / columns, height / rows)
  }

  /** One positive factor at least 1 makes a product at least the other factor. */
  lemma MulAtLeast(a: int, c: int)
    requires 1 <= a && 0 < c
    ensures c <= a * c
  {
  }

  /** Division and remainder are the only quotient and remainder of n by c. */
  lemma DivModUnique(n: int, c: int, q: int, r: int)
    requires 0 < c && 0 <= r < c && n == q * c + r
    ensures n / c == q && n % c == r
  {
    var q', r' := n / c, n % c;
    assert (q - q') * c == r' - r;
    if q > q' {
      MulAtLeast(q - q', c);
    } else if q < q' {
      MulAtLeast(q' - q, c);
    }
  }

  /** The linear index of cell (x, y) splits back into x and y. */
  lemma CellIndex(y: nat, x: nat, columns: nat)
    requires x < columns
    ensures (y * columns + x) / columns == y
    ensures (y * columns + x) % columns == x
  {
    DivModUnique(y * columns + x, columns, y, x);
  }

  /**
   * The Spritesheet constructor: two nested loops over the rows and the
   * columns, appending one rectangle per cell. A grid with no rows or no
   * columns yields no frames.
   */
  method NewSpritesheet(width: nat, height: nat, rows: nat, columns: nat) returns (ss: Spritesheet)
    ensures ss.width == width && ss.height == height && ss.rows == rows && ss.columns == columns
    ensures |ss.frame| == rows * columns
    ensures 0 < rows && 0 < columns ==>
      forall k :: 0 <= k < |ss.frame| ==> ss.frame[k] == FrameRect(width, height, rows, columns, k)
  {
    var frame: seq<Sprite> := [];
    var y := 0;
    while y < rows
      invariant 0 <= y <= rows
      invariant |frame| == y * columns
      invariant 0 < rows && 0 < columns ==>
        forall k :: 0 <= k < |frame| ==> frame[k] == FrameRect(width, height, rows, columns, k)
    {
      var x := 0;
      while x < columns
        invariant 0 <= x <= columns
        invariant |frame| == y * columns + x
        invariant forall k :: 0 <= k < |frame| ==> frame[k] == FrameRect(width, height, rows, columns, k)
      {
        CellIndex(y, x, columns);
        frame := frame + [CellRect(width, height, rows, columns, x, y)];
        x := x + 1;
      }
      assert |frame| == (y + 1) * columns;
      y := y + 1;
    }
    ss := Spritesheet(width, height, rows, columns, frame);
  }

  /** a * b <= a * c when b <= c, over naturals. */
  lemma MulMono(a: nat, b: nat, c: nat)
    requires b <= c
    ensures a * b <= a * c
  {
  }

  /**
   * Every frame lies inside the texture: truncating division can leave a
   * strip unused on the right and at the bottom, but no cell reaches past
   * the texture's edge.
   */
  lemma FrameInsideTexture(width: nat, height: nat, rows: nat, columns: nat, k: nat)
    requires 0 < rows && 0 < columns && k < rows * columns
    ensures var r := FrameRect(width, height, rows, columns, k);
      0 <= r.left && 0 <= r.top && 0 <= r.width && 0 <= r.height &&
      r.left + r.width <= width && r.top + r.height <= height
  {
    var row := k / columns;
    assert row * columns <= k;
    MulCancelLess(row, rows, columns);
    CellFits(k % columns, columns, width);
    CellFits(row, rows, height);
  }

  /** A strict inequality between two multiples of the same positive c holds between the factors. */
  lemma MulCancelLess(a: nat, b: nat, c: nat)
    requires 0 < c && a * c < b * c
    ensures a < b
  {
  }

  /** Cell i of n equal cells cut from total pixels ends inside the total. */
  lemma CellFits(i: nat, n: nat, total: nat)
    requires i < n
    ensures i * (total / n) + total / n <= total
  {
    var w := total / n;
    assert total == n * w + total % n;
    calc {
      i * w + w;
    ==
      (i + 1) * w;
    <= { MulMono(w, i + 1, n); }
      n * w;
    }
  }

  /** The linear index a frame rectangle was cut from, read back from its position. */
  function IndexOf(columns: nat, r: Sprite): int
    requires r.width != 0 && r.height != 0
  {
    (r.top / r.height) * columns + r.left / r.width
  }

  /** (a * b) / b == a for positive b. */
  lemma MulDivCancel(a: nat, b: nat)
    requires 0 < b
    ensures (a * b) / b == a
  {
    CellIndex(a, 0, b);
  }

  /**
   * When every cell is at least one pixel wide and high, the frame's position
   * determines its index: reading the index back from frame k gives k.
   */
  lemma FrameIndexRoundTrip(width: nat, height: nat, rows: nat, columns: nat, k: nat)
    requires 0 < rows <= height && 0 < columns <= width
    ensures var r := FrameRect(width, height, rows, columns, k);
      r.width != 0 && r.height != 0 && IndexOf(columns, r) == k
  {
    var w, h := width / columns, height / rows;
    assert 0 < w && 0 < h;
    MulDivCancel(k % columns, w);
    MulDivCancel(k / columns, h);
  }

  /** Distinct indices of a sheet with non-empty cells give distinct frames. */
  lemma FramesDistinct(width: nat, height: nat, rows: nat, columns: nat, j: nat, k: nat)
    requires 0 < rows <= height && 0 < columns <= width && j != k
    ensures FrameRect(width, height, rows, columns, j) != FrameRect(width, height, rows, columns, k)
  {
    FrameIndexRoundTrip(width, height, rows, columns, j);
    FrameIndexRoundTrip(width, height, rows, columns, k);
  }
}
