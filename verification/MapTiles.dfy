/** The map tiles that cover a box around a point (`tilesAround` in Front-End/lib/booking-tracker.ts). */
module MapTiles {
  import opened Arithmetic

  const TILE_SIZE := 256

  /** A tile's place on the endless plane, the column it is fetched as, and where it is drawn in the box. */
  datatype Tile = Tile(tx: int, ty: int, x: int, left: real, top: real)

  function TileOf(pixel: real): int {
    (pixel / TILE_SIZE as real).Floor
  }

  /** `%` as the source's language has it: the sign of the dividend. */
  function Remainder(a: int, n: int): int
    requires n > 0
  {
    if a >= 0 then a % n else -((-a) % n)
  }

  /** A column, brought back onto the world across the date line. */
  function Wrapped(tx: int, n: int): int
    requires n > 0
  {
    Remainder(Remainder(tx, n) + n, n)
  }

  /** Despite the signed `%`, the column is on the world and congruent to the place. */
  lemma WrappedIsColumn(tx: int, n: int)
    requires n > 0
    ensures Wrapped(tx, n) == tx % n
  {
    var q, r := tx / n, tx % n;
    if tx < 0 {
      if r == 0 {
        RemainderIs(-tx, -q, 0, n);
        RemainderIs(n, 1, 0, n);
      } else {
        RemainderIs(-tx, -q - 1, n - r, n);
        RemainderIs(r, 0, r, n);
      }
    } else {
      RemainderIs(r + n, 1, r, n);
    }
  }

  /** The box in pixels of the world at this zoom, which is `n` tiles around and `n` high. */
  datatype Box = Box(n: nat, left: real, top: real, width: real, height: real)

  function TileAt(b: Box, tx: int, ty: int): Tile
    requires b.n > 0
  {
    Tile(tx, ty, Wrapped(tx, b.n), (tx * TILE_SIZE) as real - b.left, (ty * TILE_SIZE) as real - b.top)
  }

  function Row(b: Box, x0: int, x1: int, ty: int): seq<Tile>
    requires b.n > 0
    decreases if x0 > x1 then 0 else x1 - x0 + 1
  {
    if x0 > x1 then [] else Row(b, x0, x1 - 1, ty) + [TileAt(b, x1, ty)]
  }

  /** Row by row, skipping rows above and below the world. */
  function Rows(b: Box, y0: int, y1: int, x0: int, x1: int): seq<Tile>
    requires b.n > 0
    decreases if y0 > y1 then 0 else y1 - y0 + 1
  {
    if y0 > y1 then []
    else Rows(b, y0, y1 - 1, x0, x1) + if 0 <= y1 < b.n then Row(b, x0, x1, y1) else []
  }

  function Tiles(b: Box): seq<Tile>
    requires b.n > 0
  {
    Rows(b, TileOf(b.top), TileOf(b.top + b.height), TileOf(b.left), TileOf(b.left + b.width))
  }

  /** One row of the nested loop. */
  method PushRow(ghost b: Box, n: nat, left: real, top: real, x0: int, x1: int, ty: int, before: seq<Tile>) returns (out: seq<Tile>)
    requires n > 0 && b.n == n && b.left == left && b.top == top
    ensures out == before + Row(b, x0, x1, ty)
  {
    out := before;
    var tx := x0;
    while tx <= x1
      invariant tx > x0 ==> tx <= x1 + 1
      invariant tx >= x0 && out == before + Row(b, x0, tx - 1, ty)
    {
      var x := Wrapped(tx, n);
      out := out + [Tile(tx, ty, x, (tx * TILE_SIZE) as real - left, (ty * TILE_SIZE) as real - top)];
      tx := tx + 1;
    }
  }

  method TilesAround(centreX: real, centreY: real, width: real, height: real, n: nat) returns (out: seq<Tile>)
    requires n > 0
    ensures out == Tiles(Box(n, centreX * TILE_SIZE as real - width / 2.0, centreY * TILE_SIZE as real - height / 2.0, width, height))
  {
    var left := centreX * TILE_SIZE as real - width / 2.0;
    var top := centreY * TILE_SIZE as real - height / 2.0;
    ghost var b := Box(n, left, top, width, height);
    var x0, x1 := TileOf(left), TileOf(left + width);
    var y0, y1 := TileOf(top), TileOf(top + height);
    out := [];
    var ty := y0;
    while ty <= y1
      invariant ty > y0 ==> ty <= y1 + 1
      invariant ty >= y0 && out == Rows(b, y0, ty - 1, x0, x1)
    {
      if 0 <= ty < n { out := PushRow(b, n, left, top, x0, x1, ty, out); }
      ty := ty + 1;
    }
  }

  // ----- what the tiles cover -----

  ghost predicate Before(s: Tile, t: Tile) {
    s.ty < t.ty || (s.ty == t.ty && s.tx < t.tx)
  }

  /** In reading order, so no place twice. */
  ghost predicate InOrder(ts: seq<Tile>) {
    forall i, j | 0 <= i < j < |ts| :: Before(ts[i], ts[j])
  }

  lemma OrderJoins(a: seq<Tile>, b: seq<Tile>)
    requires InOrder(a) && InOrder(b) && forall s, t | s in a && t in b :: Before(s, t)
    ensures InOrder(a + b)
  {
    forall i, j | 0 <= i < j < |a + b| ensures Before((a + b)[i], (a + b)[j]) {
      if i < |a| <= j { assert a[i] in a && b[j - |a|] in b; }
    }
  }

  lemma {:induction false} RowIs(b: Box, x0: int, x1: int, ty: int)
    requires b.n > 0
    ensures InOrder(Row(b, x0, x1, ty))
    ensures forall t :: t in Row(b, x0, x1, ty) <==> t.ty == ty && x0 <= t.tx <= x1 && t == TileAt(b, t.tx, ty)
    ensures |Row(b, x0, x1, ty)| == if x0 > x1 then 0 else x1 - x0 + 1
    decreases if x0 > x1 then 0 else x1 - x0 + 1
  {
    if x0 <= x1 {
      RowIs(b, x0, x1 - 1, ty);
      OrderJoins(Row(b, x0, x1 - 1, ty), [TileAt(b, x1, ty)]);
    }
  }

  lemma {:induction false} RowsAre(b: Box, y0: int, y1: int, x0: int, x1: int)
    requires b.n > 0
    ensures InOrder(Rows(b, y0, y1, x0, x1))
    ensures forall t :: t in Rows(b, y0, y1, x0, x1) <==>
              y0 <= t.ty <= y1 && 0 <= t.ty < b.n && x0 <= t.tx <= x1 && t == TileAt(b, t.tx, t.ty)
    decreases if y0 > y1 then 0 else y1 - y0 + 1
  {
    if y0 <= y1 {
      RowsAre(b, y0, y1 - 1, x0, x1);
      RowIs(b, x0, x1, y1);
      OrderJoins(Rows(b, y0, y1 - 1, x0, x1), if 0 <= y1 < b.n then Row(b, x0, x1, y1) else []);
    }
  }

  lemma {:induction false} RowsCount(b: Box, y0: int, y1: int, x0: int, x1: int)
    requires b.n > 0 && y0 <= y1 + 1 && x0 <= x1 + 1
    ensures |Rows(b, y0, y1, x0, x1)| <= (y1 - y0 + 1) * (x1 - x0 + 1)
    decreases y1 - y0 + 1
  {
    var width := x1 - x0 + 1;
    if y0 <= y1 {
      RowsCount(b, y0, y1 - 1, x0, x1);
      RowIs(b, x0, x1, y1);
      assert (y1 - y0 + 1) * width == (y1 - 1 - y0 + 1) * width + width;
    }
  }

  /** Where a tile is drawn holds a point of the box, given in the box's own pixels. */
  predicate Holds(t: Tile, u: real, v: real) {
    t.left <= u < t.left + TILE_SIZE as real && t.top <= v < t.top + TILE_SIZE as real
  }

  lemma HoldsIsPlace(b: Box, tx: int, ty: int, u: real, v: real)
    requires b.n > 0
    ensures Holds(TileAt(b, tx, ty), u, v) <==> tx == TileOf(b.left + u) && ty == TileOf(b.top + v)
  {
    InTile(b.left + u, tx);
    InTile(b.top + v, ty);
  }

  lemma InTile(pixel: real, k: int)
    ensures (k * TILE_SIZE) as real <= pixel < (k * TILE_SIZE) as real + TILE_SIZE as real <==> k == TileOf(pixel)
  {
    var q := pixel / TILE_SIZE as real;
    assert pixel == q * TILE_SIZE as real;
  }

  lemma TileOfMonotone(p: real, q: real)
    requires p <= q
    ensures TileOf(p) <= TileOf(q)
    ensures TileOf(q) - TileOf(p) <= TileOf(q - p) + 1
  {
    var x, y := p / TILE_SIZE as real, q / TILE_SIZE as real;
    assert (q - p) / TILE_SIZE as real == y - x;
  }

  /** Every point of the box whose row is in the world lies in exactly one tile, fetched from a column of the world. */
  lemma EveryPointInOneTile(b: Box, u: real, v: real)
    requires b.n > 0 && 0.0 <= u <= b.width && 0.0 <= v <= b.height
    requires 0 <= TileOf(b.top + v) < b.n
    ensures var t := TileAt(b, TileOf(b.left + u), TileOf(b.top + v));
      && t in Tiles(b) && Holds(t, u, v)
      && (forall s | s in Tiles(b) && Holds(s, u, v) :: s == t)
      && 0 <= t.x < b.n && t.x == t.tx % b.n
  {
    var t := TileAt(b, TileOf(b.left + u), TileOf(b.top + v));
    RowsAre(b, TileOf(b.top), TileOf(b.top + b.height), TileOf(b.left), TileOf(b.left + b.width));
    TileOfMonotone(b.left, b.left + u);
    TileOfMonotone(b.left + u, b.left + b.width);
    TileOfMonotone(b.top, b.top + v);
    TileOfMonotone(b.top + v, b.top + b.height);
    HoldsIsPlace(b, t.tx, t.ty, u, v);
    WrappedIsColumn(t.tx, b.n);
    forall s | s in Tiles(b) && Holds(s, u, v) ensures s == t {
      HoldsIsPlace(b, s.tx, s.ty, u, v);
    }
  }

  lemma TileSpan(p: real, length: real)
    requires length >= 0.0
    ensures 0 <= TileOf(p + length) - TileOf(p) + 1 <= TileOf(length) + 2
  {
    TileOfMonotone(p, p + length);
    assert p + length - p == length;
  }

  lemma TilesCount(b: Box)
    requires b.n > 0 && b.width >= 0.0 && b.height >= 0.0
    ensures |Tiles(b)| <= (TileOf(b.height) + 2) * (TileOf(b.width) + 2)
  {
    var x0, x1 := TileOf(b.left), TileOf(b.left + b.width);
    var y0, y1 := TileOf(b.top), TileOf(b.top + b.height);
    TileSpan(b.left, b.width);
    TileSpan(b.top, b.height);
    RowsCount(b, y0, y1, x0, x1);
    ProductMonotone(y1 - y0 + 1, TileOf(b.height) + 2, x1 - x0 + 1, TileOf(b.width) + 2);
  }

  lemma ProductMonotone(a: int, a': int, b: int, b': int)
    requires 0 <= a <= a' && 0 <= b <= b'
    ensures a * b <= a' * b'
  {
    assert a * b <= a' * b;
    assert a' * b <= a' * b';
  }

  /** No place twice, nothing off the world, and no more than the box can touch. */
  lemma TilesAreFew(b: Box)
    requires b.n > 0 && b.width >= 0.0 && b.height >= 0.0
    ensures InOrder(Tiles(b))
    ensures forall t | t in Tiles(b) :: 0 <= t.ty < b.n && t == TileAt(b, t.tx, t.ty)
    ensures |Tiles(b)| <= (TileOf(b.height) + 2) * (TileOf(b.width) + 2)
  {
    RowsAre(b, TileOf(b.top), TileOf(b.top + b.height), TileOf(b.left), TileOf(b.left + b.width));
    TilesCount(b);
  }
}
