/** Addressing of the packed FP16 tensors (the prepare_input and load_output_channel
    shaders and their dispatch in dev/windows/mpv/rife_runtime.cpp). Two halves share
    a 32-bit word, the even column in the low half. Colour decoding and rounding to
    half precision are parameters. */
module TensorPacking {
  import opened Basics
  import opened ShapeProfiles

  const TWO_32 := 0x1_0000_0000

  type Half = h: int | 0 <= h < 0x1_0000
  type Word = w: int | 0 <= w < TWO_32

  function Packed(left: Half, right: Half): Word {
    left + right * 0x1_0000
  }

  // ---------------------------------------------------------------- row-major arithmetic

  lemma DivMod(q: nat, n: nat, r: nat)
    requires r < n
    ensures (q * n + r) / n == q && (q * n + r) % n == r
  {
    var d := (q * n + r) / n;
    if d < q {
      MulMonotone(d + 1, q, n);
    } else if d > q {
      MulMonotone(q + 1, d, n);
    }
  }

  function RowMajor(rows: nat, columns: nat, plane: nat, row: nat, column: nat): nat {
    (plane * rows + row) * columns + column
  }

  lemma RowMajorInverts(rows: nat, columns: nat, plane: nat, row: nat, column: nat)
    requires row < rows && column < columns
    ensures var i := RowMajor(rows, columns, plane, row, column);
      i % columns == column && i / columns % rows == row && i / columns / rows == plane
  {
    DivMod(plane * rows + row, columns, column);
    DivMod(plane, rows, row);
  }

  lemma RowMajorBound(rows: nat, columns: nat, planes: nat, plane: nat, row: nat, column: nat)
    requires plane < planes && row < rows && column < columns
    ensures RowMajor(rows, columns, plane, row, column) < planes * rows * columns
  {
    MulMonotone(plane + 1, planes, rows);
    MulMonotone(plane * rows + row + 1, planes * rows, columns);
  }

  lemma QuotientBound(planes: nat, rows: nat, i: nat)
    requires i < planes * rows
    ensures rows > 0 && i / rows < planes && i == i / rows * rows + i % rows
  {
    if rows == 0 {
      assert false;
    }
    if i / rows >= planes {
      MulMonotone(planes, i / rows, rows);
    }
  }

  lemma RowMajorCovers(rows: nat, columns: nat, planes: nat, i: nat) returns (plane: nat, row: nat, column: nat)
    requires i < planes * rows * columns
    ensures plane < planes && row < rows && column < columns && i == RowMajor(rows, columns, plane, row, column)
  {
    QuotientBound(planes * rows, columns, i);
    QuotientBound(planes, rows, i / columns);
    plane, row, column := i / columns / rows, i / columns % rows, i % columns;
  }

  // ---------------------------------------------------------------- the layout

  /** A padded [1, 11, height, 2 * pairWidth] tensor and its intended elements. */
  datatype Tensor = Tensor(pairWidth: nat, height: nat, content: (nat, nat, nat) -> Half) {

    function Width(): nat {
      2 * pairWidth
    }

    function PlaneStride(): nat {
      Width() * height
    }

    function Words(): nat {
      11 * height * pairWidth
    }

    /** Guaranteed by configure_shape and by the limit on raw buffers. */
    predicate Valid() {
      pairWidth > 0 && height > 1 && 11 * PlaneStride() * 2 < TWO_32
    }
  }

  /** A 32-bit store of store_half_pair at a byte offset. */
  datatype Store = Store(offset: Word, left: Half, right: Half)

  /** The byte address of a store, in the 32-bit arithmetic of the shader. */
  function StoreOffset(channel: nat, planeStride: nat, pairIndex: nat): Word {
    (channel * planeStride % TWO_32 * 2 % TWO_32 + pairIndex * 4 % TWO_32) % TWO_32
  }

  function StoreHalfPair(channel: nat, planeStride: nat, pairIndex: nat, left: Half, right: Half): Store {
    Store(StoreOffset(channel, planeStride, pairIndex), left, right)
  }

  function StoreOf(t: Tensor, c: nat, y: nat, pairX: nat): Store {
    StoreHalfPair(c, t.PlaneStride(), y * t.pairWidth + pairX,
                  t.content(c, y, 2 * pairX), t.content(c, y, 2 * pairX + 1))
  }

  lemma OffsetBound(c: nat, h: nat, p: nat, y: nat, x: nat)
    requires c < 11 && y < h && x < p && 11 * (2 * p * h) * 2 < TWO_32
    ensures 2 * (c * (2 * p * h)) + 4 * (y * p + x) < TWO_32
  {
    RowMajorBound(h, p, 1, 0, y, x);
    MulMonotone(c, 10, 2 * p * h);
    Factor(1, h, p);
  }

  lemma Factor(c: nat, h: nat, p: nat)
    ensures c * (2 * p * h) == 2 * (c * h * p) && 2 * p * h == 2 * (h * p)
  {
  }

  lemma Exact(base: nat, pair: nat)
    requires 2 * base + 4 * pair < TWO_32
    ensures (base % TWO_32 * 2 % TWO_32 + pair * 4 % TWO_32) % TWO_32 == 2 * base + 4 * pair
  {
    assert base % TWO_32 == base && pair * 4 % TWO_32 == pair * 4;
    assert base * 2 % TWO_32 == base * 2;
  }

  lemma Regroup(c: nat, h: nat, p: nat, y: nat, x: nat)
    ensures 2 * (c * (2 * p * h)) + 4 * (y * p + x) == 4 * RowMajor(h, p, c, y, x)
  {
    Factor(c, h, p);
    assert (c * h + y) * p == c * h * p + y * p;
  }

  /** No wrap-around, and aligned. */
  lemma OffsetIsExact(c: nat, h: nat, p: nat, y: nat, x: nat)
    requires c < 11 && y < h && x < p && 11 * (2 * p * h) * 2 < TWO_32
    ensures StoreOffset(c, 2 * p * h, y * p + x) == 4 * RowMajor(h, p, c, y, x)
  {
    OffsetBound(c, h, p, y, x);
    UnwrappedOffset(c, 2 * p * h, y * p + x);
    Regroup(c, h, p, y, x);
  }

  lemma UnwrappedOffset(c: nat, stride: nat, pair: nat)
    requires 2 * (c * stride) + 4 * pair < TWO_32
    ensures StoreOffset(c, stride, pair) == 2 * (c * stride) + 4 * pair
  {
    Exact(c * stride, pair);
  }

  lemma Doubles(q: nat, p: nat, x: nat)
    ensures q * (2 * p) + x == 2 * (q * p + x / 2) + x % 2
  {
  }

  /** The word that the store of (c, y, pairX) addresses: no wrap-around, aligned, in bounds. */
  lemma StoreAddress(t: Tensor, c: nat, y: nat, pairX: nat)
    requires t.Valid() && c < 11 && y < t.height && pairX < t.pairWidth
    ensures var w := RowMajor(t.height, t.pairWidth, c, y, pairX);
      w < t.Words() && StoreOf(t, c, y, pairX).offset == 4 * w
  {
    RowMajorBound(t.height, t.pairWidth, 11, c, y, pairX);
    OffsetIsExact(c, t.height, t.pairWidth, y, pairX);
  }

  /** The FP16 input buffer of a configured shape holds exactly the words of the tensor,
      and the limit on raw buffers keeps its addresses within 32 bits. */
  lemma ConfiguredBufferHolds(height: nat, width: nat, content: (nat, nat, nat) -> Half)
    requires width % 2 == 0 && width > 0 && height > 1
    ensures var t, bytes := Tensor(width / 2, height, content), 11 * height * width * DataTypeSize(DataType.Half);
      && bytes == 4 * t.Words()
      && (bytes < TWO_32 ==> t.Valid())
  {
    var p := width / 2;
    assert width == 2 * p;
    Factor(11, height, p);
    assert 11 * height * (2 * p) * 2 == 4 * (11 * height * p);
  }

  // ---------------------------------------------------------------- prepare_input

  /** A frame pair; coordinates are (component, row, column). */
  datatype Frames = Frames(pairWidth: nat, height: nat, sourceWidth: nat, sourceHeight: nat,
                           rgb: (bool, nat, nat, nat) -> real, toHalf: real -> Half) {

    predicate Valid() {
      pairWidth > 0 && height > 1
    }

    /** load_rgb: black outside the source. */
    function LoadRgb(second: bool, component: nat, y: nat, x: nat): real {
      if x >= sourceWidth || y >= sourceHeight then 0.0 else rgb(second, component, y, x)
    }

    /** What the network expects at channel c: two frames, the time and the grids. */
    function Content(c: nat, y: nat, x: nat): Half
      requires Valid()
    {
      var width, height := 2.0 * pairWidth as real, height as real;
      toHalf(
        if c < 3 then LoadRgb(false, c, y, x)
        else if c < 6 then LoadRgb(true, c - 3, y, x)
        else if c == 6 then 0.5
        else if c == 7 then 2.0 * x as real / (width - 1.0) - 1.0
        else if c == 8 then 2.0 * y as real / (height - 1.0) - 1.0
        else if c == 9 then 2.0 / (width - 1.0)
        else 2.0 / (height - 1.0))
    }

    function Rendered(): Tensor
      requires Valid()
    {
      Tensor(pairWidth, height, (c, y, x) => Content(c, y, x))
    }
  }

  lemma FrameChannels(f: Frames, y: nat, x: nat)
    requires f.Valid()
    ensures f.Content(0, y, x) == f.toHalf(f.LoadRgb(false, 0, y, x))
    ensures f.Content(1, y, x) == f.toHalf(f.LoadRgb(false, 1, y, x))
    ensures f.Content(2, y, x) == f.toHalf(f.LoadRgb(false, 2, y, x))
    ensures f.Content(3, y, x) == f.toHalf(f.LoadRgb(true, 0, y, x))
    ensures f.Content(4, y, x) == f.toHalf(f.LoadRgb(true, 1, y, x))
    ensures f.Content(5, y, x) == f.toHalf(f.LoadRgb(true, 2, y, x))
  {
  }

  lemma GridChannels(f: Frames, y: nat, x: nat)
    requires f.Valid()
    ensures var width, height := 2.0 * f.pairWidth as real, f.height as real;
      && f.Content(6, y, x) == f.toHalf(0.5)
      && f.Content(7, y, x) == f.toHalf(2.0 * x as real / (width - 1.0) - 1.0)
      && f.Content(8, y, x) == f.toHalf(2.0 * y as real / (height - 1.0) - 1.0)
      && f.Content(9, y, x) == f.toHalf(2.0 / (width - 1.0))
      && f.Content(10, y, x) == f.toHalf(2.0 / (height - 1.0))
  {
  }

  /** The frames are shown pixel by pixel, and black where the padding reaches beyond them. */
  lemma FramesArePadded(f: Frames, second: bool, component: nat, y: nat, x: nat)
    requires f.Valid() && component < 3
    ensures var c := if second then component + 3 else component;
      f.Content(c, y, x)
      == f.toHalf(if x < f.sourceWidth && y < f.sourceHeight then f.rgb(second, component, y, x) else 0.0)
  {
  }

  /** The time is the middle between the frames; the grids run from -1 at the first column
      and row to 1 at the last, by the steps of channels 9 and 10. */
  lemma GridsSpanTheFrame(f: Frames, y: nat, x: nat)
    requires f.Valid()
    ensures f.Content(6, y, x) == f.toHalf(0.5)
    ensures f.Content(7, y, 0) == f.toHalf(-1.0) && f.Content(7, y, 2 * f.pairWidth - 1) == f.toHalf(1.0)
    ensures f.Content(8, 0, x) == f.toHalf(-1.0) && f.Content(8, f.height - 1, x) == f.toHalf(1.0)
    ensures f.Content(7, y, x) == f.toHalf(GridAt(2 * f.pairWidth, x))
    ensures f.Content(8, y, x) == f.toHalf(GridAt(f.height, y))
    ensures f.Content(9, y, x) == f.toHalf(GridAt(2 * f.pairWidth, x + 1) - GridAt(2 * f.pairWidth, x))
    ensures f.Content(10, y, x) == f.toHalf(GridAt(f.height, y + 1) - GridAt(f.height, y))
  {
    GridEnds(2 * f.pairWidth, x);
    GridEnds(f.height, y);
  }

  /** Place i of n on the line from -1 to 1. */
  function GridAt(n: nat, i: nat): real
    requires n > 1
  {
    2.0 * i as real / (n as real - 1.0) - 1.0
  }

  lemma GridEnds(n: nat, i: nat)
    requires n > 1
    ensures GridAt(n, 0) == -1.0 && GridAt(n, n - 1) == 1.0
    ensures GridAt(n, i + 1) - GridAt(n, i) == 2.0 / (n as real - 1.0)
  {
    var d := n as real - 1.0;
    assert (n - 1) as real == d && 2.0 * d / d == 2.0;
    assert (i + 1) as real == i as real + 1.0;
    assert 2.0 * (i as real + 1.0) / d == 2.0 * i as real / d + 2.0 / d;
  }

  /** Channels 0 to 5: the two frames. */
  method PrepareFrames(f: Frames, pairX: nat, y: nat) returns (stores: seq<Store>)
    requires f.Valid()
    ensures |stores| == 6 && forall c | 0 <= c < 6 :: stores[c] == StoreOf(f.Rendered(), c, y, pairX)
  {
    var x0, x1 := 2 * pairX, 2 * pairX + 1;
    var stride, pairIndex := 2 * f.pairWidth * f.height, y * f.pairWidth + pairX;
    FrameChannels(f, y, x0);
    FrameChannels(f, y, x1);
    stores := [
      StoreHalfPair(0, stride, pairIndex, f.toHalf(f.LoadRgb(false, 0, y, x0)), f.toHalf(f.LoadRgb(false, 0, y, x1))),
      StoreHalfPair(1, stride, pairIndex, f.toHalf(f.LoadRgb(false, 1, y, x0)), f.toHalf(f.LoadRgb(false, 1, y, x1))),
      StoreHalfPair(2, stride, pairIndex, f.toHalf(f.LoadRgb(false, 2, y, x0)), f.toHalf(f.LoadRgb(false, 2, y, x1))),
      StoreHalfPair(3, stride, pairIndex, f.toHalf(f.LoadRgb(true, 0, y, x0)), f.toHalf(f.LoadRgb(true, 0, y, x1))),
      StoreHalfPair(4, stride, pairIndex, f.toHalf(f.LoadRgb(true, 1, y, x0)), f.toHalf(f.LoadRgb(true, 1, y, x1))),
      StoreHalfPair(5, stride, pairIndex, f.toHalf(f.LoadRgb(true, 2, y, x0)), f.toHalf(f.LoadRgb(true, 2, y, x1)))
    ];
  }

  /** Channels 6 to 10: the time and the grids. */
  method PrepareGrids(f: Frames, pairX: nat, y: nat) returns (stores: seq<Store>)
    requires f.Valid()
    ensures |stores| == 5 && forall c | 0 <= c < 5 :: stores[c] == StoreOf(f.Rendered(), c + 6, y, pairX)
  {
    var x0, x1 := 2 * pairX, 2 * pairX + 1;
    var stride, pairIndex := 2 * f.pairWidth * f.height, y * f.pairWidth + pairX;
    var width, height := 2.0 * f.pairWidth as real, f.height as real;
    var vertical := f.toHalf(2.0 * y as real / (height - 1.0) - 1.0);
    GridChannels(f, y, x0);
    GridChannels(f, y, x1);
    stores := [
      StoreHalfPair(6, stride, pairIndex, f.toHalf(0.5), f.toHalf(0.5)),
      StoreHalfPair(7, stride, pairIndex, f.toHalf(2.0 * x0 as real / (width - 1.0) - 1.0),
                    f.toHalf(2.0 * x1 as real / (width - 1.0) - 1.0)),
      StoreHalfPair(8, stride, pairIndex, vertical, vertical),
      StoreHalfPair(9, stride, pairIndex, f.toHalf(2.0 / (width - 1.0)), f.toHalf(2.0 / (width - 1.0))),
      StoreHalfPair(10, stride, pairIndex, f.toHalf(2.0 / (height - 1.0)), f.toHalf(2.0 / (height - 1.0)))
    ];
  }

  /** The stores of one thread, none outside the padded texture. */
  function Prepared(f: Frames, pairX: nat, y: nat): seq<Store>
    requires f.Valid()
  {
    if pairX >= f.pairWidth || y >= f.height then []
    else seq(11, c requires 0 <= c < 11 => StoreOf(f.Rendered(), c, y, pairX))
  }

  method PrepareInput(f: Frames, pairX: nat, y: nat) returns (stores: seq<Store>)
    requires f.Valid()
    ensures stores == Prepared(f, pairX, y)
    ensures if pairX >= f.pairWidth || y >= f.height then stores == []
            else |stores| == 11 && forall c | 0 <= c < 11 :: stores[c] == StoreOf(f.Rendered(), c, y, pairX)
  {
    if pairX >= f.pairWidth || y >= f.height {
      return [];
    }
    var frames := PrepareFrames(f, pairX, y);
    var grids := PrepareGrids(f, pairX, y);
    stores := frames + grids;
    assert forall c | 6 <= c < 11 :: stores[c] == grids[c - 6];
  }

  // ---------------------------------------------------------------- the dispatch

  /** A store some dispatched thread makes: ids reach from 0 to eight times the groups. */
  predicate Dispatched(t: Tensor, s: Store) {
    exists c, y, pairX ::
      && 0 <= c < 11
      && 0 <= y < (t.height + 7) / 8 * 8 && 0 <= pairX < (t.Width() / 2 + 7) / 8 * 8
      && pairX < t.pairWidth && y < t.height
      && s == StoreOf(t, c, y, pairX)
  }

  /** Every store of the dispatch once, in whatever order the threads make them. */
  ghost predicate Schedule(t: Tensor, stores: seq<Store>) {
    && (forall s :: Dispatched(t, s) <==> s in stores)
    && (forall i, j | 0 <= i < j < |stores| :: stores[i] != stores[j])
  }

  predicate InGrid(t: Tensor, pairX: nat, y: nat) {
    y < (t.height + 7) / 8 * 8 && pairX < (t.Width() / 2 + 7) / 8 * 8
  }

  ghost predicate StoredByThread(f: Frames, s: Store, pairX: nat, y: nat)
    requires f.Valid()
  {
    InGrid(f.Rendered(), pairX, y) && s in Prepared(f, pairX, y)
  }

  /** What is dispatched for a frame pair is what the threads of prepare_input store. */
  lemma DispatchedIsPrepared(f: Frames, s: Store)
    requires f.Valid()
    ensures Dispatched(f.Rendered(), s) <==> exists pairX: nat, y: nat :: StoredByThread(f, s, pairX, y)
  {
    if Dispatched(f.Rendered(), s) {
      var pairX, y := ThreadOf(f, s);
      assert StoredByThread(f, s, pairX, y);
    }
    forall pairX: nat, y: nat | StoredByThread(f, s, pairX, y)
      ensures Dispatched(f.Rendered(), s)
    {
      PreparedIsDispatched(f, s, pairX, y);
    }
  }

  lemma ThreadOf(f: Frames, s: Store) returns (pairX: nat, y: nat)
    requires f.Valid() && Dispatched(f.Rendered(), s)
    ensures StoredByThread(f, s, pairX, y)
  {
    var t, c := f.Rendered(), 0;
    c, y, pairX :|
      && 0 <= c < 11 && 0 <= y < (t.height + 7) / 8 * 8 && 0 <= pairX < (t.Width() / 2 + 7) / 8 * 8
      && pairX < t.pairWidth && y < t.height && s == StoreOf(t, c, y, pairX);
    assert Prepared(f, pairX, y)[c] == s;
  }

  lemma PreparedIsDispatched(f: Frames, s: Store, pairX: nat, y: nat)
    requires f.Valid() && StoredByThread(f, s, pairX, y)
    ensures Dispatched(f.Rendered(), s)
  {
    var c :| 0 <= c < |Prepared(f, pairX, y)| && Prepared(f, pairX, y)[c] == s;
    assert s == StoreOf(f.Rendered(), c, y, pairX);
  }

  lemma DispatchedAddress(t: Tensor, s: Store) returns (c: nat, y: nat, pairX: nat)
    requires t.Valid() && Dispatched(t, s)
    ensures c < 11 && y < t.height && pairX < t.pairWidth && s == StoreOf(t, c, y, pairX)
    ensures s.offset == 4 * RowMajor(t.height, t.pairWidth, c, y, pairX) < 4 * t.Words()
  {
    c, y, pairX :|
      && 0 <= c < 11 && 0 <= y < (t.height + 7) / 8 * 8 && 0 <= pairX < (t.Width() / 2 + 7) / 8 * 8
      && pairX < t.pairWidth && y < t.height && s == StoreOf(t, c, y, pairX);
    StoreAddress(t, c, y, pairX);
  }

  lemma RowMajorInjective(rows: nat, columns: nat, c: nat, y: nat, x: nat, c': nat, y': nat, x': nat)
    requires y < rows && y' < rows && x < columns && x' < columns
    requires RowMajor(rows, columns, c, y, x) == RowMajor(rows, columns, c', y', x')
    ensures c == c' && y == y' && x == x'
  {
    RowMajorInverts(rows, columns, c, y, x);
    RowMajorInverts(rows, columns, c', y', x');
  }

  /** No two stores of the dispatch meet in a word. */
  lemma StoresAreDisjoint(t: Tensor, s: Store, s': Store)
    requires t.Valid() && Dispatched(t, s) && Dispatched(t, s') && s.offset / 4 == s'.offset / 4
    ensures s == s'
  {
    var c, y, x := DispatchedAddress(t, s);
    var c', y', x' := DispatchedAddress(t, s');
    RowMajorInjective(t.height, t.pairWidth, c, y, x, c', y', x');
  }

  /** Every word is the target of some store of the dispatch. */
  lemma StoresCover(t: Tensor, w: nat) returns (s: Store)
    requires t.Valid() && w < t.Words()
    ensures Dispatched(t, s) && s.offset == 4 * w
  {
    var c, y, x := RowMajorCovers(t.height, t.pairWidth, 11, w);
    StoreAddress(t, c, y, x);
    s := StoreOf(t, c, y, x);
  }

  /** The store that hits word w. */
  function StoreAt(t: Tensor, w: nat): Store
    requires t.height > 0 && t.pairWidth > 0
  {
    var (c, y, x) := PlaceOf(t.height, t.pairWidth, w);
    StoreOf(t, c, y, x)
  }

  function PlaceOf(rows: nat, columns: nat, i: nat): (nat, nat, nat)
    requires rows > 0 && columns > 0
  {
    (i / columns / rows, i / columns % rows, i % columns)
  }

  lemma StoreAtWord(t: Tensor, w: nat)
    requires t.Valid() && w < t.Words()
    ensures Dispatched(t, StoreAt(t, w)) && StoreAt(t, w).offset == 4 * w
  {
    var c, y, x := RowMajorCovers(t.height, t.pairWidth, 11, w);
    RowMajorInverts(t.height, t.pairWidth, c, y, x);
    StoreAddress(t, c, y, x);
    assert StoreAt(t, w) == StoreOf(t, c, y, x);
  }

  /** Every tensor has a schedule: one store for each word. */
  lemma ScheduleExists(t: Tensor)
    requires t.Valid()
    ensures exists stores :: Schedule(t, stores)
  {
    var stores := seq(t.Words(), w requires 0 <= w < t.Words() => StoreAt(t, w));
    forall w | 0 <= w < t.Words()
      ensures Dispatched(t, stores[w]) && stores[w].offset == 4 * w
    {
      StoreAtWord(t, w);
    }
    forall s | Dispatched(t, s)
      ensures s in stores
    {
      var c, y, x := DispatchedAddress(t, s);
      StoresAreDisjoint(t, s, stores[s.offset / 4]);
    }
    assert Schedule(t, stores);
  }

  /** The element of a packed tensor, by its row-major number. */
  function HalfAt(words: seq<Word>, e: nat): Half
    requires e / 2 < |words|
  {
    if e % 2 == 0 then words[e / 2] % 0x1_0000 else words[e / 2] / 0x1_0000
  }

  /** The words are the row-major tensor. */
  ghost predicate Holds(t: Tensor, words: seq<Word>) {
    forall c, y, x | 0 <= c < 11 && 0 <= y < t.height && 0 <= x < t.Width() ::
      && RowMajor(t.height, t.Width(), c, y, x) / 2 < |words|
      && HalfAt(words, RowMajor(t.height, t.Width(), c, y, x)) == t.content(c, y, x)
  }

  ghost predicate Written(done: seq<Store>, w: nat) {
    exists s :: s in done && s.offset / 4 == w
  }

  /** The stores made so far are in place, and no word was written twice. */
  ghost predicate Progress(done: seq<Store>, words: seq<Word>, writes: seq<nat>)
    requires |words| == |writes|
  {
    && (forall s | s in done :: s.offset / 4 < |words| && words[s.offset / 4] == Packed(s.left, s.right))
    && (forall w | 0 <= w < |words| :: writes[w] == if Written(done, w) then 1 else 0)
  }

  /** Main result: any order of the stores fills the buffer with the row-major tensor
      and writes every word, hence every half, exactly once and in bounds. */
  method Dispatch(t: Tensor, stores: seq<Store>, buffer: array<Word>) returns (ghost writes: seq<nat>)
    requires t.Valid() && Schedule(t, stores) && buffer.Length == t.Words()
    modifies buffer
    ensures Holds(t, buffer[..])
    ensures |writes| == t.Words() && forall w | 0 <= w < t.Words() :: writes[w] == 1
  {
    writes := seq(t.Words(), _ => 0);
    for k := 0 to |stores|
      invariant |writes| == t.Words() && Progress(stores[..k], buffer[..], writes)
    {
      var s := stores[k];
      ghost var before := buffer[..];
      OneStore(t, stores, k, before, writes);
      buffer[s.offset / 4] := Packed(s.left, s.right);
      assert buffer[..] == before[s.offset / 4 := Packed(s.left, s.right)];
      writes := writes[s.offset / 4 := writes[s.offset / 4] + 1];
    }
    assert stores[..|stores|] == stores;
    AllWritten(t, stores, buffer[..], writes);
    AllHeld(t, stores, buffer[..], writes);
  }

  lemma OneStore(t: Tensor, stores: seq<Store>, k: nat, words: seq<Word>, writes: seq<nat>)
    requires t.Valid() && Schedule(t, stores) && k < |stores|
    requires |words| == |writes| == t.Words() && Progress(stores[..k], words, writes)
    ensures var s := stores[k];
      var i := s.offset / 4;
      && i < t.Words()
      && Progress(stores[..k + 1], words[i := Packed(s.left, s.right)], writes[i := writes[i] + 1])
  {
    var s := stores[k];
    var i := s.offset / 4;
    assert Dispatched(t, s);
    var _, _, _ := DispatchedAddress(t, s);
    assert stores[..k + 1] == stores[..k] + [s];
    forall other | other in stores[..k]
      ensures other.offset / 4 != i
    {
      assert Dispatched(t, other);
      if other.offset / 4 == i {
        StoresAreDisjoint(t, s, other);
      }
    }
    WrittenGrows(stores[..k], s);
  }

  lemma WrittenGrows(done: seq<Store>, s: Store)
    ensures forall w :: Written(done + [s], w) <==> Written(done, w) || s.offset / 4 == w
  {
    forall w | Written(done, w) || s.offset / 4 == w
      ensures Written(done + [s], w)
    {
      var s' :| s' in done + [s] && s'.offset / 4 == w;
    }
  }

  lemma AllWritten(t: Tensor, stores: seq<Store>, words: seq<Word>, writes: seq<nat>)
    requires t.Valid() && Schedule(t, stores)
    requires |words| == |writes| == t.Words() && Progress(stores, words, writes)
    ensures forall w | 0 <= w < t.Words() :: writes[w] == 1
  {
    forall w | 0 <= w < t.Words()
      ensures writes[w] == 1
    {
      var s := StoresCover(t, w);
      assert s in stores;
    }
  }

  lemma AllHeld(t: Tensor, stores: seq<Store>, words: seq<Word>, writes: seq<nat>)
    requires t.Valid() && Schedule(t, stores)
    requires |words| == |writes| == t.Words() && Progress(stores, words, writes)
    ensures Holds(t, words)
  {
    forall c, y, x | 0 <= c < 11 && 0 <= y < t.height && 0 <= x < t.Width()
      ensures RowMajor(t.height, t.Width(), c, y, x) / 2 < |words|
      ensures HalfAt(words, RowMajor(t.height, t.Width(), c, y, x)) == t.content(c, y, x)
    {
      Held(t, stores, words, writes, c, y, x);
    }
  }

  lemma HeldWord(t: Tensor, stores: seq<Store>, words: seq<Word>, writes: seq<nat>, c: nat, y: nat, pairX: nat)
    requires t.Valid() && Schedule(t, stores)
    requires |words| == |writes| == t.Words() && Progress(stores, words, writes)
    requires c < 11 && y < t.height && pairX < t.pairWidth
    ensures var w, s := RowMajor(t.height, t.pairWidth, c, y, pairX), StoreOf(t, c, y, pairX);
      w < |words| && words[w] == Packed(s.left, s.right)
  {
    StoreAddress(t, c, y, pairX);
    assert Dispatched(t, StoreOf(t, c, y, pairX));
    assert StoreOf(t, c, y, pairX) in stores;
  }

  lemma Held(t: Tensor, stores: seq<Store>, words: seq<Word>, writes: seq<nat>, c: nat, y: nat, x: nat)
    requires t.Valid() && Schedule(t, stores)
    requires |words| == |writes| == t.Words() && Progress(stores, words, writes)
    requires c < 11 && y < t.height && x < t.Width()
    ensures RowMajor(t.height, t.Width(), c, y, x) / 2 < |words|
    ensures HalfAt(words, RowMajor(t.height, t.Width(), c, y, x)) == t.content(c, y, x)
  {
    HeldWord(t, stores, words, writes, c, y, x / 2);
    Unpack(words, t.height, t.pairWidth, c, y, x, t.content(c, y, 2 * (x / 2)), t.content(c, y, 2 * (x / 2) + 1));
    assert x == 2 * (x / 2) + x % 2;
  }

  lemma Unpack(words: seq<Word>, h: nat, p: nat, c: nat, y: nat, x: nat, left: Half, right: Half)
    requires RowMajor(h, p, c, y, x / 2) < |words| && words[RowMajor(h, p, c, y, x / 2)] == Packed(left, right)
    ensures RowMajor(h, 2 * p, c, y, x) / 2 < |words|
    ensures HalfAt(words, RowMajor(h, 2 * p, c, y, x)) == if x % 2 == 0 then left else right
  {
    Doubles(c * h + y, p, x);
    UnpackWord(words, RowMajor(h, p, c, y, x / 2), x % 2, left, right);
  }

  lemma UnpackWord(words: seq<Word>, w: nat, odd: nat, left: Half, right: Half)
    requires w < |words| && odd < 2 && words[w] == Packed(left, right)
    ensures HalfAt(words, 2 * w + odd) == if odd == 0 then left else right
  {
  }

  // ---------------------------------------------------------------- reading back

  /** The byte address that load_output_channel reads, in its 32-bit arithmetic. */
  function LoadOffset(planeStart: nat, linear: nat): Word {
    (planeStart % TWO_32 * 2 % TWO_32 + (linear - linear % 2) * 2 % TWO_32) % TWO_32
  }

  /** load_output_channel: the row-major element (channel, y, x) of a packed tensor. */
  method LoadOutputChannel(words: seq<Word>, planes: nat, height: nat, width: nat, channel: nat, x: nat, y: nat)
    returns (bits: Half)
    requires width % 2 == 0 && planes * (width * height) * 2 < TWO_32
    requires 2 * |words| == planes * (width * height)
    requires channel < planes && x < width && y < height
    ensures RowMajor(height, width, channel, y, x) / 2 < |words|
    ensures bits == HalfAt(words, RowMajor(height, width, channel, y, x))
  {
    LoadBounds(planes, height, width, channel, x, y);
    EvenPlane(channel, height, width);
    Distribute(channel, height, width, y, x);
    bits := LoadAt(words, channel * (width * height), y * width, x);
  }

  /** The same once the two products are known. */
  method LoadAt(words: seq<Word>, planeStart: nat, rowStart: nat, x: nat) returns (bits: Half)
    requires planeStart % 2 == 0 && planeStart + rowStart + x < 2 * |words| < TWO_32 / 2
    ensures bits == HalfAt(words, planeStart + (rowStart + x))
  {
    Unwrapped(rowStart, x);
    ExactLoad(planeStart, rowStart + x);
    var linearIndex := (rowStart % TWO_32 + x) % TWO_32;
    var packed := words[LoadOffset(planeStart, linearIndex) / 4];
    bits := if linearIndex % 2 == 0 then packed % 0x1_0000 else packed / 0x1_0000;
  }

  lemma LoadBounds(planes: nat, h: nat, w: nat, c: nat, x: nat, y: nat)
    requires c < planes && x < w && y < h
    ensures c * (w * h) + (y * w + x) < planes * (w * h)
  {
    RowMajorBound(h, w, planes, c, y, x);
    Distribute(c, h, w, y, x);
    Distribute(planes, h, w, 0, 0);
  }

  lemma Distribute(c: nat, h: nat, w: nat, y: nat, x: nat)
    ensures RowMajor(h, w, c, y, x) == c * (w * h) + (y * w + x)
    ensures c * h * w == c * (w * h)
  {
    assert (c * h + y) * w == c * h * w + y * w;
  }

  lemma EvenPlane(c: nat, h: nat, w: nat)
    requires w % 2 == 0
    ensures c * (w * h) % 2 == 0
  {
    var k := w / 2;
    Factor(c, h, k);
    assert w == 2 * k;
  }

  lemma Unwrapped(base: nat, x: nat)
    requires base + x < TWO_32
    ensures (base % TWO_32 + x) % TWO_32 == base + x
  {
  }

  lemma ExactLoad(planeStart: nat, linear: nat)
    requires planeStart % 2 == 0 && 2 * planeStart + 2 * linear < TWO_32
    ensures LoadOffset(planeStart, linear) == (planeStart + linear) / 2 * 4
    ensures linear % 2 == (planeStart + linear) % 2
  {
    HalvesAdd(planeStart, linear);
    Exact(planeStart, linear / 2);
    assert (linear - linear % 2) * 2 == linear / 2 * 4;
  }

  lemma HalvesAdd(base: nat, linear: nat)
    requires base % 2 == 0
    ensures (base + linear) / 2 * 4 == 2 * base + 4 * (linear / 2)
  {
  }

  /** The two shaders agree on the layout: load_output_channel on what prepare_input
      wrote gives the content of any channel at any place. */
  method ReadBack(t: Tensor, words: seq<Word>, c: nat, y: nat, x: nat) returns (bits: Half)
    requires t.Valid() && c < 11 && y < t.height && x < t.Width() && |words| == t.Words() && Holds(t, words)
    ensures bits == t.content(c, y, x)
  {
    Factor(11, t.height, t.pairWidth);
    bits := LoadOutputChannel(words, 11, t.height, t.Width(), c, x, y);
  }
}
