/** Quantizing a row-major matrix group by group, packing the codes, and restoring it. */
module Int4Matrix {
  import opened Types
  import opened NibbleCodec
  import opened Int4

  datatype Shape = Shape(rows: nat, cols: nat, groupSize: nat)

  function Groups(sh: Shape): nat
    requires sh.groupSize >= 1
  {
    CeilDiv(sh.cols, sh.groupSize)
  }

  function GroupEnd(sh: Shape, g: nat): nat {
    if g * sh.groupSize + sh.groupSize < sh.cols then g * sh.groupSize + sh.groupSize else sh.cols
  }

  lemma GroupInRow(sh: Shape, g: nat)
    requires sh.groupSize >= 1 && g < Groups(sh)
    ensures 0 <= g * sh.groupSize < GroupEnd(sh, g) <= sh.cols
    ensures forall col | g * sh.groupSize <= col < GroupEnd(sh, g) :: col / sh.groupSize == g
    ensures g + 1 < Groups(sh) ==> GroupEnd(sh, g) == (g + 1) * sh.groupSize
    ensures g + 1 == Groups(sh) ==> GroupEnd(sh, g) == sh.cols
  {
    var n := sh.cols + sh.groupSize - 1;
    var ng := Groups(sh);
    assert n == ng * sh.groupSize + n % sh.groupSize;
    assert (g + 1) * sh.groupSize <= ng * sh.groupSize by {
      MulMonotone(g + 1, ng, sh.groupSize);
    }
    assert (g + 1) * sh.groupSize == g * sh.groupSize + sh.groupSize;
    if g + 1 < ng {
      MulMonotone(g + 2, ng, sh.groupSize);
      assert (g + 2) * sh.groupSize == (g + 1) * sh.groupSize + sh.groupSize;
    }
    forall col | g * sh.groupSize <= col < GroupEnd(sh, g)
      ensures col / sh.groupSize == g
    {
      QuotientIs(col, sh.groupSize, g);
    }
  }

  lemma QuotientIs(a: nat, b: nat, q: nat)
    requires b >= 1 && q * b <= a < q * b + b
    ensures a / b == q && a % b == a - q * b
  {
    var d := a / b;
    assert a == d * b + a % b;
    assert (d + 1) * b == d * b + b && (q + 1) * b == q * b + b;
    if d < q {
      MulMonotone(d + 1, q, b);
    } else if d > q {
      MulMonotone(q + 1, d, b);
    }
  }

  lemma IndexInside(row: nat, rows: nat, width: nat)
    requires row < rows
    ensures 0 <= row * width && row * width + width <= rows * width
  {
    MulMonotone(row + 1, rows, width);
    assert (row + 1) * width == row * width + width;
  }

  /** Row and column of a flat index, and the column's group. */
  lemma FlatIndex(sh: Shape, k: nat)
    requires k < sh.rows * sh.cols && sh.groupSize >= 1
    ensures sh.cols > 0 && 0 <= k / sh.cols < sh.rows && k == k / sh.cols * sh.cols + k % sh.cols
    ensures 0 <= k % sh.cols && 0 <= k % sh.cols / sh.groupSize < Groups(sh)
  {
    assert sh.cols == 0 ==> sh.rows * sh.cols == 0;
    var row, col := k / sh.cols, k % sh.cols;
    assert k == row * sh.cols + col;
    if row >= sh.rows {
      MulMonotone(sh.rows, row, sh.cols);
    }
    var g, ng := col / sh.groupSize, Groups(sh);
    assert col == g * sh.groupSize + col % sh.groupSize;
    var n := sh.cols + sh.groupSize - 1;
    assert n == ng * sh.groupSize + n % sh.groupSize;
    if g >= ng {
      MulMonotone(ng, g, sh.groupSize);
    }
  }

  ghost predicate Fits(w: seq<real>, sh: Shape) {
    sh.groupSize >= 1 && |w| == sh.rows * sh.cols
  }

  function Group(w: seq<real>, sh: Shape, row: nat, g: nat): seq<real>
    requires Fits(w, sh) && row < sh.rows && g < Groups(sh)
  {
    GroupInRow(sh, g);
    IndexInside(row, sh.rows, sh.cols);
    w[row * sh.cols + g * sh.groupSize..row * sh.cols + GroupEnd(sh, g)]
  }

  function GroupScale(w: seq<real>, sh: Shape, row: nat, g: nat): (s: real)
    requires Fits(w, sh) && row < sh.rows && g < Groups(sh)
    ensures s > 0.0
  {
    Scale(MinOf(Group(w, sh, row, g)), MaxOf(Group(w, sh, row, g)))
  }

  function GroupZero(w: seq<real>, sh: Shape, row: nat, g: nat): (z: nat)
    requires Fits(w, sh) && row < sh.rows && g < Groups(sh)
    ensures z <= 15
  {
    ZeroPoint(MinOf(Group(w, sh, row, g)), GroupScale(w, sh, row, g))
  }

  /** The group a flat index belongs to. */
  function GroupOf(w: seq<real>, sh: Shape, k: nat): seq<real>
    requires Fits(w, sh) && k < |w|
  {
    FlatIndex(sh, k);
    Group(w, sh, k / sh.cols, k % sh.cols / sh.groupSize)
  }

  function Code(w: seq<real>, sh: Shape, k: nat): (q: nat)
    requires Fits(w, sh) && k < |w|
    ensures q <= 15
  {
    FlatIndex(sh, k);
    var row, g := k / sh.cols, k % sh.cols / sh.groupSize;
    Quantized(w[k], GroupScale(w, sh, row, g), GroupZero(w, sh, row, g))
  }

  // ---------------------------------------------------------------- the quantized layer

  datatype QuantizedMatrix = QuantizedMatrix(qweight: seq<Byte>, rows: nat, packedCols: nat, scales: seq<real>,
    zeros: Option<seq<nat>>, groupSize: nat)

  function ToByte(q: nat): Byte
    requires q <= 15
  {
    q as Byte
  }

  lemma CodeByte(q: nat)
    requires q <= 15
    ensures ToByte(q) & 0x0F == ToByte(q) && ToByte(q) as nat == q
  {
    assert q == 0 || q == 1 || q == 2 || q == 3 || q == 4 || q == 5 || q == 6 || q == 7
        || q == 8 || q == 9 || q == 10 || q == 11 || q == 12 || q == 13 || q == 14 || q == 15;
  }

  function Codes(w: seq<real>, sh: Shape): (cs: seq<Byte>)
    requires Fits(w, sh)
    ensures |cs| == |w|
  {
    seq(|w|, k requires 0 <= k < |w| => ToByte(Code(w, sh, k)))
  }

  /** One entry per group, row by row. */
  function Scales(w: seq<real>, sh: Shape): (ss: seq<real>)
    requires Fits(w, sh)
    ensures |ss| == sh.rows * Groups(sh)
  {
    seq(sh.rows * Groups(sh), m requires 0 <= m < sh.rows * Groups(sh) =>
      GroupIndex(sh, m); GroupScale(w, sh, m / Groups(sh), m % Groups(sh)))
  }

  function Zeros(w: seq<real>, sh: Shape): (zs: seq<nat>)
    requires Fits(w, sh)
    ensures |zs| == sh.rows * Groups(sh)
  {
    seq(sh.rows * Groups(sh), m requires 0 <= m < sh.rows * Groups(sh) =>
      GroupIndex(sh, m); GroupZero(w, sh, m / Groups(sh), m % Groups(sh)))
  }

  lemma GroupIndex(sh: Shape, m: nat)
    requires sh.groupSize >= 1 && m < sh.rows * Groups(sh)
    ensures Groups(sh) > 0 && 0 <= m / Groups(sh) < sh.rows && 0 <= m % Groups(sh) < Groups(sh)
  {
    var ng := Groups(sh);
    assert ng == 0 ==> sh.rows * ng == 0;
    assert m == m / ng * ng + m % ng;
    if m / ng >= sh.rows {
      MulMonotone(sh.rows, m / ng, ng);
    }
  }

  /** Building the packed tensor fails unless the byte count matches its shape. */
  predicate ShapeMatches(sh: Shape) {
    (sh.rows * sh.cols + 1) / 2 == sh.rows * ((sh.cols + 1) / 2)
  }

  function Quantization(w: seq<real>, sh: Shape): Option<QuantizedMatrix>
    requires Fits(w, sh)
  {
    if ShapeMatches(sh) then
      Some(QuantizedMatrix(Packed(Codes(w, sh)), sh.rows, (sh.cols + 1) / 2, Scales(w, sh), Some(Zeros(w, sh)),
        sh.groupSize))
    else None
  }

  /** Which shapes can be quantized at all: an even number of columns, or at most one row. */
  lemma ShapeMatchesIff(sh: Shape)
    ensures ShapeMatches(sh) <==> sh.cols % 2 == 0 || sh.rows <= 1
  {
    var h := (sh.cols + 1) / 2;
    if sh.cols % 2 == 0 {
      assert sh.cols == 2 * h;
      assert sh.rows * sh.cols == 2 * (sh.rows * h);
    } else {
      assert sh.cols == 2 * h - 1;
      assert sh.rows * sh.cols == 2 * (sh.rows * h) - sh.rows;
    }
  }

  /** A group's entry sits at row times number of groups plus group. */
  lemma GroupSlot(sh: Shape, row: nat, g: nat)
    requires sh.groupSize >= 1 && row < sh.rows && g < Groups(sh)
    ensures var m := row * Groups(sh) + g; 0 <= m < sh.rows * Groups(sh) && m / Groups(sh) == row && m % Groups(sh) == g
  {
    IndexInside(row, sh.rows, Groups(sh));
    QuotientIs(row * Groups(sh) + g, Groups(sh), row);
  }

  lemma ElementSlot(sh: Shape, row: nat, g: nat, col: nat)
    requires sh.groupSize >= 1 && row < sh.rows && g < Groups(sh) && g * sh.groupSize <= col < GroupEnd(sh, g)
    ensures var k := row * sh.cols + col;
      k < sh.rows * sh.cols && sh.cols > 0 && k / sh.cols == row && k % sh.cols == col && col / sh.groupSize == g
  {
    GroupInRow(sh, g);
    IndexInside(row, sh.rows, sh.cols);
    QuotientIs(row * sh.cols + col, sh.cols, row);
  }

  /** The range of one group, folded column by column. */
  method Range(w: seq<real>, sh: Shape, row: nat, g: nat) returns (lo: real, hi: real)
    requires Fits(w, sh) && row < sh.rows && g < Groups(sh)
    ensures lo == MinOf(Group(w, sh, row, g)) && hi == MaxOf(Group(w, sh, row, g))
  {
    hide Group, GroupEnd, MinOf, MaxOf;
    GroupInRow(sh, g);
    ghost var group := Group(w, sh, row, g);
    var start, end := g * sh.groupSize, GroupEnd(sh, g);
    lo, hi := F32_MAX, -F32_MAX;
    NoExtremes();
    GroupLength(w, sh, row, g);
    for col := start to end
      invariant lo == MinOf(group[..col - start]) && hi == MaxOf(group[..col - start])
    {
      GroupElement(w, sh, row, g, col);
      ExtremesStep(group, col - start);
      var val := w[row * sh.cols + col];
      lo := if val < lo then val else lo;
      hi := if val > hi then val else hi;
    }
    assert group[..end - start] == group;
  }

  lemma NoExtremes()
    ensures MinOf([]) == F32_MAX && MaxOf([]) == -F32_MAX
  {
  }

  lemma ExtremesStep(vs: seq<real>, i: nat)
    requires i < |vs|
    ensures MinOf(vs[..i + 1]) == if vs[i] < MinOf(vs[..i]) then vs[i] else MinOf(vs[..i])
    ensures MaxOf(vs[..i + 1]) == if vs[i] > MaxOf(vs[..i]) then vs[i] else MaxOf(vs[..i])
  {
    assert vs[..i + 1][..i] == vs[..i];
  }

  lemma SliceAt(s: seq<real>, base: nat, lo: nat, hi: nat, col: nat)
    requires lo <= col < hi && base + hi <= |s|
    ensures |s[base + lo..base + hi]| == hi - lo
    ensures s[base + lo..base + hi][col - lo] == s[base + col]
  {
  }

  lemma GroupLength(w: seq<real>, sh: Shape, row: nat, g: nat)
    requires Fits(w, sh) && row < sh.rows && g < Groups(sh)
    ensures |Group(w, sh, row, g)| == GroupEnd(sh, g) - g * sh.groupSize
  {
    GroupInRow(sh, g);
    IndexInside(row, sh.rows, sh.cols);
    SliceAt(w, row * sh.cols, g * sh.groupSize, GroupEnd(sh, g), g * sh.groupSize);
    hide GroupEnd, Groups;
  }

  lemma GroupElement(w: seq<real>, sh: Shape, row: nat, g: nat, col: nat)
    requires Fits(w, sh) && row < sh.rows && g < Groups(sh) && g * sh.groupSize <= col < GroupEnd(sh, g)
    ensures row * sh.cols + col < |w| && col - g * sh.groupSize < |Group(w, sh, row, g)|
    ensures Group(w, sh, row, g)[col - g * sh.groupSize] == w[row * sh.cols + col]
  {
    ElementSlot(sh, row, g, col);
    GroupInRow(sh, g);
    IndexInside(row, sh.rows, sh.cols);
    SliceAt(w, row * sh.cols, g * sh.groupSize, GroupEnd(sh, g), col);
    hide GroupEnd, Groups;
  }

  /** Quantizes one group: its scale and zero point, and the codes of its columns. */
  method QuantizeGroup(w: seq<real>, sh: Shape, row: nat, g: nat, values: array<Byte>) returns (scale: real, zero: nat)
    requires Fits(w, sh) && row < sh.rows && g < Groups(sh) && values.Length == |w|
    modifies values
    ensures scale == GroupScale(w, sh, row, g) && zero == GroupZero(w, sh, row, g)
    ensures forall k | 0 <= k < |w| && !(row * sh.cols + g * sh.groupSize <= k < row * sh.cols + GroupEnd(sh, g)) ::
      values[k] == old(values[k])
    ensures forall k | 0 <= k < |w| && row * sh.cols + g * sh.groupSize <= k < row * sh.cols + GroupEnd(sh, g) ::
      values[k] == ToByte(Code(w, sh, k))
  {
    hide Group, Scale, Quantized, ZeroPoint, MinOf, MaxOf;
    var minVal, maxVal := Range(w, sh, row, g);
    scale := Scale(minVal, maxVal);
    zero := ZeroPoint(minVal, scale);
    GroupInRow(sh, g);
    IndexInside(row, sh.rows, sh.cols);
    for col := g * sh.groupSize to GroupEnd(sh, g)
      invariant forall k | 0 <= k < |w| && !(row * sh.cols + g * sh.groupSize <= k < row * sh.cols + col) ::
        values[k] == old(values[k])
      invariant forall k | 0 <= k < |w| && row * sh.cols + g * sh.groupSize <= k < row * sh.cols + col ::
        values[k] == ToByte(Code(w, sh, k))
    {
      ElementSlot(sh, row, g, col);
      var q := Quantized(w[row * sh.cols + col], scale, zero);
      values[row * sh.cols + col] := ToByte(q);
    }
  }

  lemma GroupEntries(w: seq<real>, sh: Shape, row: nat, g: nat)
    requires Fits(w, sh) && row < sh.rows && g < Groups(sh)
    ensures var m := row * Groups(sh) + g;
      && 0 <= m < sh.rows * Groups(sh)
      && Scales(w, sh)[m] == GroupScale(w, sh, row, g) && Zeros(w, sh)[m] == GroupZero(w, sh, row, g)
  {
    hide GroupScale, GroupZero, Groups;
    GroupSlot(sh, row, g);
  }

  /** Quantizes the matrix: per group a scale and a zero point, per element a four-bit code. */
  method Quantize(w: seq<real>, sh: Shape) returns (r: Option<QuantizedMatrix>)
    requires Fits(w, sh)
    ensures r == Quantization(w, sh)
  {
    hide Group, GroupEnd, GroupScale, GroupZero, Code, Scales, Zeros;
    var numGroups := CeilDiv(sh.cols, sh.groupSize);
    var scalesData := new real[sh.rows * numGroups](_ => 0.0);
    var zerosData := new nat[sh.rows * numGroups](_ => 0);
    var values4bit := new Byte[sh.rows * sh.cols](_ => 0);
    for row := 0 to sh.rows
      invariant forall m | 0 <= m < scalesData.Length && m < row * numGroups ::
        scalesData[m] == Scales(w, sh)[m] && zerosData[m] == Zeros(w, sh)[m]
      invariant forall k | 0 <= k < values4bit.Length && k < row * sh.cols :: values4bit[k] == Codes(w, sh)[k]
    {
      for g := 0 to numGroups
        invariant forall m | 0 <= m < scalesData.Length && m < row * numGroups + g ::
          scalesData[m] == Scales(w, sh)[m] && zerosData[m] == Zeros(w, sh)[m]
        invariant forall k | 0 <= k < values4bit.Length && k < row * sh.cols + GroupStart(sh, g) ::
          values4bit[k] == Codes(w, sh)[k]
      {
        GroupEntries(w, sh, row, g);
        GroupStarts(sh, g);
        var scale, zero := QuantizeGroup(w, sh, row, g, values4bit);
        scalesData[row * numGroups + g] := scale;
        zerosData[row * numGroups + g] := zero;
      }
      GroupStarts(sh, numGroups);
      assert (row + 1) * numGroups == row * numGroups + numGroups;
      assert (row + 1) * sh.cols == row * sh.cols + sh.cols;
    }
    assert scalesData[..] == Scales(w, sh) && zerosData[..] == Zeros(w, sh);
    assert values4bit[..] == Codes(w, sh);
    var qweightData := PackI4(values4bit[..]);
    if qweightData.Length == sh.rows * ((sh.cols + 1) / 2) {
      r := Some(QuantizedMatrix(qweightData[..], sh.rows, (sh.cols + 1) / 2, scalesData[..], Some(zerosData[..]),
        sh.groupSize));
    } else {
      r := None;
    }
  }

  /** Where group `g` begins, the row's end standing for the group after the last. */
  function GroupStart(sh: Shape, g: nat): nat {
    if g * sh.groupSize < sh.cols then g * sh.groupSize else sh.cols
  }

  lemma GroupStarts(sh: Shape, g: nat)
    requires sh.groupSize >= 1 && g <= Groups(sh)
    ensures g < Groups(sh) ==> GroupStart(sh, g) == g * sh.groupSize && GroupStart(sh, g + 1) == GroupEnd(sh, g)
    ensures g == Groups(sh) ==> GroupStart(sh, g) == sh.cols
  {
    if g < Groups(sh) {
      GroupInRow(sh, g);
      assert (g + 1) * sh.groupSize == g * sh.groupSize + sh.groupSize;
    } else {
      assert sh.cols + sh.groupSize - 1 == g * sh.groupSize + (sh.cols + sh.groupSize - 1) % sh.groupSize;
    }
  }

  // ---------------------------------------------------------------- restoring

  /** The tensors of a layer have the dimensions they claim; whether zero points are stored is up to the layer. */
  ghost predicate WellShaped(q: QuantizedMatrix) {
    && q.groupSize >= 1 && q.rows >= 1
    && |q.qweight| == q.rows * q.packedCols
    && |q.scales| == q.rows * GroupsStored(q)
    && (q.zeros.Some? ==> |q.zeros.value| == |q.scales|)
  }

  function GroupsStored(q: QuantizedMatrix): nat {
    if q.rows == 0 then 0 else |q.scales| / q.rows
  }

  function Width(q: QuantizedMatrix): nat {
    q.packedCols * 2
  }

  function ZeroAt(q: QuantizedMatrix, m: nat): nat
    requires q.zeros.Some? ==> m < |q.zeros.value|
  {
    match q.zeros
    case Some(zs) => zs[m]
    case None => 8
  }

  /** The restored value in a row's column; columns beyond the last stored group stay zero. */
  function Unpacking(q: QuantizedMatrix, row: nat, col: nat): real
    requires WellShaped(q) && row < q.rows && col < Width(q)
  {
    var g := col / q.groupSize;
    if g < GroupsStored(q) then
      StoredSlot(q, row, g);
      NibbleInside(q, row, col);
      var m := row * GroupsStored(q) + g;
      Dequantized(Nibble(q.qweight, row * Width(q) + col) as nat, q.scales[m], ZeroAt(q, m))
    else 0.0
  }

  lemma StoredSlot(q: QuantizedMatrix, row: nat, g: nat)
    requires WellShaped(q) && row < q.rows && g < GroupsStored(q)
    ensures 0 <= row * GroupsStored(q) + g < |q.scales|
  {
    hide GroupsStored;
    IndexInside(row, q.rows, GroupsStored(q));
  }

  lemma NibbleInside(q: QuantizedMatrix, row: nat, col: nat)
    requires WellShaped(q) && row < q.rows && col < Width(q)
    ensures 0 <= row * Width(q) + col < 2 * |q.qweight| == q.rows * Width(q)
  {
    hide GroupsStored;
    assert q.rows * Width(q) == 2 * (q.rows * q.packedCols);
    IndexInside(row, q.rows, Width(q));
  }

  /** Where the first `g` stored groups end within a row. */
  function Reached(q: QuantizedMatrix, g: nat): nat {
    if g * q.groupSize < Width(q) then g * q.groupSize else Width(q)
  }

  /** Rows before `row` are restored, in `row` the columns before `col`; everything else is still zero. */
  ghost predicate RestoredUpTo(q: QuantizedMatrix, weight: seq<real>, row: nat, col: nat)
    requires WellShaped(q) && |weight| == q.rows * Width(q)
  {
    forall r, c | 0 <= r < q.rows && 0 <= c < Width(q) ::
      && Flat(q, r, c) < |weight|
      && weight[Flat(q, r, c)] == if r < row || (r == row && c < col) then Unpacking(q, r, c) else 0.0
  }

  function Flat(q: QuantizedMatrix, row: nat, col: nat): nat {
    row * Width(q) + col
  }

  lemma FlatInjective(q: QuantizedMatrix, r: nat, c: nat, row: nat, col: nat)
    requires c < Width(q) && col < Width(q) && Flat(q, r, c) == Flat(q, row, col)
    ensures r == row && c == col
  {
    QuotientIs(Flat(q, r, c), Width(q), r);
    QuotientIs(Flat(q, row, col), Width(q), row);
  }

  lemma RestoredNext(q: QuantizedMatrix, weight: seq<real>, row: nat, col: nat)
    requires WellShaped(q) && |weight| == q.rows * Width(q) && row < q.rows && col < Width(q)
    requires RestoredUpTo(q, weight, row, col)
    ensures Flat(q, row, col) < |weight|
      && RestoredUpTo(q, weight[Flat(q, row, col) := Unpacking(q, row, col)], row, col + 1)
  {
    hide WellShaped, Unpacking;
    var next := weight[Flat(q, row, col) := Unpacking(q, row, col)];
    forall r, c | 0 <= r < q.rows && 0 <= c < Width(q)
      ensures next[Flat(q, r, c)] == if r < row || (r == row && c < col + 1) then Unpacking(q, r, c) else 0.0
    {
      if Flat(q, r, c) == Flat(q, row, col) {
        FlatInjective(q, r, c, row, col);
      }
    }
  }

  /** Columns beyond the stored groups are restored as zero, so a row is complete after its last stored group. */
  lemma RowComplete(q: QuantizedMatrix, weight: seq<real>, row: nat)
    requires WellShaped(q) && |weight| == q.rows * Width(q) && row < q.rows
    requires RestoredUpTo(q, weight, row, Reached(q, GroupsStored(q)))
    ensures RestoredUpTo(q, weight, row + 1, 0)
  {
    hide WellShaped, Unpacking, GroupsStored, Reached;
    forall c: nat | Reached(q, GroupsStored(q)) <= c < Width(q)
      ensures Unpacking(q, row, c) == 0.0
    {
      BeyondGroups(q, row, c);
    }
  }

  lemma BeyondGroups(q: QuantizedMatrix, row: nat, col: nat)
    requires WellShaped(q) && row < q.rows && Reached(q, GroupsStored(q)) <= col < Width(q)
    ensures Unpacking(q, row, col) == 0.0
  {
    hide GroupsStored;
    var g, n := col / q.groupSize, GroupsStored(q);
    assert col == g * q.groupSize + col % q.groupSize;
    assert (g + 1) * q.groupSize == g * q.groupSize + q.groupSize;
    if g < n {
      MulMonotone(g + 1, n, q.groupSize);
    }
  }

  lemma ReachedNext(q: QuantizedMatrix, g: nat)
    requires q.groupSize >= 1
    ensures var end := if g * q.groupSize + q.groupSize < Width(q) then g * q.groupSize + q.groupSize else Width(q);
      Reached(q, g + 1) == end
    ensures Reached(q, g) == if g * q.groupSize < Width(q) then g * q.groupSize else Width(q)
    ensures forall col | g * q.groupSize <= col < Reached(q, g + 1) :: col / q.groupSize == g
  {
    assert (g + 1) * q.groupSize == g * q.groupSize + q.groupSize;
    forall col | g * q.groupSize <= col < Reached(q, g + 1)
      ensures col / q.groupSize == g
    {
      QuotientIs(col, q.groupSize, g);
    }
  }

  lemma NothingRestored(q: QuantizedMatrix, weight: seq<real>)
    requires WellShaped(q) && |weight| == q.rows * Width(q) && forall k | 0 <= k < |weight| :: weight[k] == 0.0
    ensures RestoredUpTo(q, weight, 0, 0)
  {
    forall r, c | 0 <= r < q.rows && 0 <= c < Width(q)
      ensures Flat(q, r, c) < |weight|
    {
      NibbleInside(q, r, c);
    }
  }

  lemma Dimensions(q: QuantizedMatrix)
    requires WellShaped(q)
    ensures q.groupSize >= 1 && q.rows >= 1 && |q.qweight| == q.rows * q.packedCols
      && 2 * |q.qweight| == q.rows * Width(q)
    ensures |q.scales| / q.rows == GroupsStored(q) && (q.zeros.Some? ==> |q.zeros.value| == |q.scales|)
  {
  }

  /** Restores one group of a row. */
  method UnpackGroup(q: QuantizedMatrix, qvalues: seq<Byte>, row: nat, g: nat, weight: array<real>)
    requires WellShaped(q) && row < q.rows && g < GroupsStored(q)
    requires qvalues == Unpacked(q.qweight, q.rows * Width(q)) && weight.Length == q.rows * Width(q)
    requires RestoredUpTo(q, weight[..], row, Reached(q, g))
    modifies weight
    ensures RestoredUpTo(q, weight[..], row, Reached(q, g + 1))
  {
    Dimensions(q);
    hide Dequantized, Nibble, WellShaped, Unpacking, RestoredUpTo, Unpacked;
    ReachedNext(q, g);
    StoredSlot(q, row, g);
    var inFeatures, numGroups := q.packedCols * 2, |q.scales| / q.rows;
    var start := g * q.groupSize;
    var end := if start + q.groupSize < inFeatures then start + q.groupSize else inFeatures;
    var scale, zero := q.scales[row * numGroups + g], ZeroAt(q, row * numGroups + g);
    var col := start;
    while col < end
      invariant start <= col && (col <= end || col == start)
      invariant RestoredUpTo(q, weight[..], row, if col <= end then col else end)
    {
      CodeAt(q, row, col);
      RestoredNext(q, weight[..], row, col);
      UnpackingIs(q, row, col, g);
      weight[row * inFeatures + col] := Dequantized(qvalues[row * inFeatures + col] as nat, scale, zero);
      col := col + 1;
    }
  }

  lemma CodeAt(q: QuantizedMatrix, row: nat, col: nat)
    requires WellShaped(q) && row < q.rows && col < Width(q)
    ensures var qvalues, k := Unpacked(q.qweight, q.rows * Width(q)), row * Width(q) + col;
      0 <= k < |qvalues| == q.rows * Width(q) == 2 * |q.qweight| && qvalues[k] == Nibble(q.qweight, k)
  {
    NibbleInside(q, row, col);
  }

  /**
   * Unpacks the codes and restores every element from its group's scale and zero point, 8 when the layer stores none.
   */
  method UnpackWeights(q: QuantizedMatrix) returns (weight: array<real>)
    requires WellShaped(q)
    ensures fresh(weight) && weight.Length == q.rows * Width(q)
    ensures RestoredUpTo(q, weight[..], q.rows, 0)
  {
    Dimensions(q);
    hide WellShaped, RestoredUpTo, Unpacked;
    var inFeatures := q.packedCols * 2;
    var numValues := q.rows * inFeatures;
    var qvalues := UnpackI4(q.qweight, numValues);
    var numGroups := |q.scales| / q.rows;
    weight := new real[q.rows * inFeatures](_ => 0.0);
    NothingRestored(q, weight[..]);
    for row := 0 to q.rows
      invariant RestoredUpTo(q, weight[..], row, 0)
    {
      for g := 0 to numGroups
        invariant RestoredUpTo(q, weight[..], row, Reached(q, g))
      {
        UnpackGroup(q, qvalues, row, g, weight);
      }
      RowComplete(q, weight[..], row);
    }
  }

  lemma UnpackingIs(q: QuantizedMatrix, row: nat, col: nat, g: nat)
    requires WellShaped(q) && row < q.rows && col < Width(q) && col / q.groupSize == g < GroupsStored(q)
    ensures 0 <= row * Width(q) + col < 2 * |q.qweight| && 0 <= row * GroupsStored(q) + g < |q.scales|
    ensures Unpacking(q, row, col) ==
      Dequantized(Nibble(q.qweight, row * Width(q) + col) as nat, q.scales[row * GroupsStored(q) + g],
        ZeroAt(q, row * GroupsStored(q) + g))
  {
    StoredSlot(q, row, g);
    NibbleInside(q, row, col);
  }

  /** The dimensions of a quantized matrix; with an odd width it is one column wider than the original. */
  lemma QuantizedShape(w: seq<real>, sh: Shape)
    requires Fits(w, sh) && ShapeMatches(sh) && sh.rows >= 1
    ensures Quantization(w, sh).Some?
    ensures var q := Quantization(w, sh).value;
      && WellShaped(q) && q.rows == sh.rows && q.groupSize == sh.groupSize && GroupsStored(q) == Groups(sh)
      && sh.cols <= Width(q) && (Width(q) == sh.cols || sh.rows == 1)
  {
    hide Codes, Scales, Zeros, Packed, Groups;
    ShapeMatchesIff(sh);
    QuotientIs(sh.rows * Groups(sh), sh.rows, Groups(sh));
  }

  /** Where the scale and zero point of element `k` are stored. */
  function SlotOf(sh: Shape, k: nat): (m: nat)
    requires sh.groupSize >= 1 && k < sh.rows * sh.cols
    ensures m < sh.rows * Groups(sh)
  {
    FlatIndex(sh, k);
    GroupSlot(sh, k / sh.cols, k % sh.cols / sh.groupSize);
    k / sh.cols * Groups(sh) + k % sh.cols / sh.groupSize
  }

  /** The value that unpacking the quantized matrix gives in the row and column of element `k`. */
  ghost function Unpacked4(w: seq<real>, sh: Shape, k: nat): real
    requires Fits(w, sh) && ShapeMatches(sh) && k < |w|
  {
    FlatIndex(sh, k);
    QuantizedShape(w, sh);
    Unpacking(Quantization(w, sh).value, k / sh.cols, k % sh.cols)
  }

  lemma FlatStays(w: seq<real>, sh: Shape, row: nat, col: nat)
    requires Fits(w, sh) && ShapeMatches(sh) && row < sh.rows && col < sh.cols
    ensures Quantization(w, sh).Some? && Flat(Quantization(w, sh).value, row, col) == row * sh.cols + col
  {
    hide Codes, Scales, Zeros, Packed, Groups, ShapeMatches;
    QuantizedShape(w, sh);
    hide Quantization, Width;
  }

  /**
   * Every element comes back as quantization in its own group leaves it: columns fall into exactly one group, and
   * packing loses nothing. This holds for every matrix that can be quantized.
   */
  lemma RestoredElement(w: seq<real>, sh: Shape, k: nat)
    requires Fits(w, sh) && ShapeMatches(sh) && k < |w|
    ensures Unpacked4(w, sh, k) == Restored(w[k], GroupOf(w, sh, k))
  {
    hide Codes, Scales, Zeros, Packed, Groups, MinOf, MaxOf, Scale, ZeroPoint, Dequantized, Quantized, Nibble,
         WellShaped, GroupsStored;
    hide Quantization, Unpacking, Width, ShapeMatches, Code, GroupOf;
    FlatIndex(sh, k);
    QuantizedShape(w, sh);
    Tensors(w, sh);
    FlatStays(w, sh, k / sh.cols, k % sh.cols);
    CodesSurvive(w, sh, k);
    EntriesOf(w, sh, k);
    UnpackingIs(Quantization(w, sh).value, k / sh.cols, k % sh.cols, k % sh.cols / sh.groupSize);
  }

  lemma Tensors(w: seq<real>, sh: Shape)
    requires Fits(w, sh) && ShapeMatches(sh)
    ensures Quantization(w, sh).Some?
    ensures var q := Quantization(w, sh).value;
      q.qweight == Packed(Codes(w, sh)) && q.scales == Scales(w, sh) && q.zeros == Some(Zeros(w, sh))
  {
    hide Codes, Scales, Zeros, Packed, Groups, ShapeMatches;
  }

  lemma CodesSurvive(w: seq<real>, sh: Shape, k: nat)
    requires Fits(w, sh) && k < |w|
    ensures k < 2 * |Packed(Codes(w, sh))| && Nibble(Packed(Codes(w, sh)), k) as nat == Code(w, sh, k)
  {
    hide Code, Packed, Nibble, Groups;
    var codes := Codes(w, sh);
    CodeByte(Code(w, sh, k));
    UnpackPack(codes);
    assert Unpacked(Packed(codes), |codes|)[k] == Masked(codes)[k];
  }

  lemma EntriesOf(w: seq<real>, sh: Shape, k: nat)
    requires Fits(w, sh) && k < |w|
    ensures var lo, hi := MinOf(GroupOf(w, sh, k)), MaxOf(GroupOf(w, sh, k));
      && SlotOf(sh, k) < |Scales(w, sh)| == |Zeros(w, sh)|
      && Scales(w, sh)[SlotOf(sh, k)] == Scale(lo, hi) && Zeros(w, sh)[SlotOf(sh, k)] == ZeroPoint(lo, Scale(lo, hi))
      && Code(w, sh, k) == Quantized(w[k], Scale(lo, hi), ZeroPoint(lo, Scale(lo, hi)))
  {
    hide Group, Groups, MinOf, MaxOf, Scale, ZeroPoint, Quantized;
    FlatIndex(sh, k);
    GroupSlot(sh, k / sh.cols, k % sh.cols / sh.groupSize);
  }

  /** Element `k` comes back within half a step of its group's scale. */
  ghost predicate WithinHalfStep(w: seq<real>, sh: Shape, k: nat)
    requires Fits(w, sh) && ShapeMatches(sh) && k < |w|
  {
    Abs(Unpacked4(w, sh, k) - w[k]) <= Scale(MinOf(GroupOf(w, sh, k)), MaxOf(GroupOf(w, sh, k))) / 2.0
  }

  /**
   * Whole-matrix error bound, for every matrix that can be quantized: quantizing and unpacking leaves every element
   * within half a step of its group's scale if and only if every group's range stays near zero.
   */
  lemma MatrixCloseIff(w: seq<real>, sh: Shape)
    requires Fits(w, sh) && ShapeMatches(sh) && Finite(w)
    ensures (forall k | 0 <= k < |w| :: WithinHalfStep(w, sh, k))
      <==> (forall k | 0 <= k < |w| :: NearZero(GroupOf(w, sh, k)))
  {
    hide MinOf, MaxOf, Scale, Restored, NearZero, Abs, Unpacked4;
    forall k | 0 <= k < |w|
      ensures Close(w[k], GroupOf(w, sh, k)) <==> WithinHalfStep(w, sh, k)
    {
      RestoredElement(w, sh, k);
    }
    if forall k | 0 <= k < |w| :: Close(w[k], GroupOf(w, sh, k)) {
      forall k | 0 <= k < |w|
        ensures NearZero(GroupOf(w, sh, k))
      {
        CloseGroup(w, sh, k);
      }
    }
    if forall k | 0 <= k < |w| :: NearZero(GroupOf(w, sh, k)) {
      forall k | 0 <= k < |w|
        ensures Close(w[k], GroupOf(w, sh, k))
      {
        OwnGroup(w, sh, k);
        InOwnGroup(w, sh, k);
        GroupCloseIff(GroupOf(w, sh, k));
      }
    }
  }

  lemma BeforeEnd(sh: Shape, g: nat, col: nat)
    requires col < sh.cols && col < g * sh.groupSize + sh.groupSize
    ensures col < GroupEnd(sh, g)
  {
  }

  lemma InOwnGroup(w: seq<real>, sh: Shape, k: nat)
    requires Fits(w, sh) && k < |w|
    ensures w[k] in GroupOf(w, sh, k)
  {
    hide Group, GroupEnd;
    FlatIndex(sh, k);
    var row, col := k / sh.cols, k % sh.cols;
    var g := col / sh.groupSize;
    assert col == g * sh.groupSize + col % sh.groupSize;
    BeforeEnd(sh, g, col);
    GroupElement(w, sh, row, g, col);
  }

  /** Elements of the same row whose columns are in the same group. */
  predicate SameGroup(sh: Shape, k: nat, j: nat)
    requires sh.cols >= 1 && sh.groupSize >= 1
  {
    j / sh.cols == k / sh.cols && j % sh.cols / sh.groupSize == k % sh.cols / sh.groupSize
  }

  /** The members of a group are elements of the matrix that have it as their group. */
  lemma GroupMember(w: seq<real>, sh: Shape, k: nat, i: nat) returns (j: nat)
    requires Fits(w, sh) && k < |w| && i < |GroupOf(w, sh, k)|
    ensures j < |w| && w[j] == GroupOf(w, sh, k)[i] && GroupOf(w, sh, j) == GroupOf(w, sh, k)
    ensures SameGroup(sh, k, j)
  {
    hide Group, GroupEnd;
    FlatIndex(sh, k);
    var row, g := k / sh.cols, k % sh.cols / sh.groupSize;
    GroupLength(w, sh, row, g);
    GroupElement(w, sh, row, g, g * sh.groupSize + i);
    ElementSlot(sh, row, g, g * sh.groupSize + i);
    j := row * sh.cols + (g * sh.groupSize + i);
  }

  lemma OwnGroup(w: seq<real>, sh: Shape, k: nat)
    requires Fits(w, sh) && k < |w| && Finite(w)
    ensures GroupOf(w, sh, k) != [] && Finite(GroupOf(w, sh, k))
  {
    hide GroupOf;
    InOwnGroup(w, sh, k);
    var group := GroupOf(w, sh, k);
    forall i | 0 <= i < |group|
      ensures -F32_MAX <= group[i] <= F32_MAX
    {
      var j := GroupMember(w, sh, k, i);
    }
  }

  lemma CloseGroup(w: seq<real>, sh: Shape, k: nat)
    requires Fits(w, sh) && k < |w| && Finite(w)
    requires forall j | 0 <= j < |w| :: Close(w[j], GroupOf(w, sh, j))
    ensures NearZero(GroupOf(w, sh, k))
  {
    hide NearZero, Close, GroupOf;
    OwnGroup(w, sh, k);
    var group := GroupOf(w, sh, k);
    forall i | 0 <= i < |group|
      ensures Close(group[i], group)
    {
      var j := GroupMember(w, sh, k, i);
      assert Close(w[j], GroupOf(w, sh, j));
    }
    GroupCloseIff(group);
  }

  /** `lo` and `hi` are the extreme elements among those grouped with element `k`. */
  ghost predicate Extremes(w: seq<real>, sh: Shape, k: nat, lo: real, hi: real)
    requires Fits(w, sh) && sh.cols >= 1
  {
    && (forall j | 0 <= j < |w| && SameGroup(sh, k, j) :: lo <= w[j] <= hi)
    && (exists j | 0 <= j < |w| && SameGroup(sh, k, j) :: w[j] == lo)
    && (exists j | 0 <= j < |w| && SameGroup(sh, k, j) :: w[j] == hi)
  }

  /**
   * The bound on the whole round trip in terms of the matrix's own elements: those of one group come back within a
   * thirtieth of their range exactly when that range stays near zero; and within one half, when it is at most 1e-10.
   */
  lemma ElementsCloseIff(w: seq<real>, sh: Shape, k: nat, lo: real, hi: real)
    requires Fits(w, sh) && ShapeMatches(sh) && Finite(w) && sh.cols >= 1 && k < |w| && Extremes(w, sh, k, lo, hi)
    ensures hi - lo > 0.0000000001 ==>
      ((forall j | 0 <= j < |w| && SameGroup(sh, k, j) :: Abs(Unpacked4(w, sh, j) - w[j]) <= (hi - lo) / 30.0)
        <==> -15.5 / 15.0 * (hi - lo) <= lo && hi <= 15.5 / 15.0 * (hi - lo))
    ensures hi - lo <= 0.0000000001 ==>
      ((forall j | 0 <= j < |w| && SameGroup(sh, k, j) :: Abs(Unpacked4(w, sh, j) - w[j]) <= 0.5)
        <==> -15.5 <= lo && hi <= 15.5)
  {
    OwnGroup(w, sh, k);
    ExtremesOfGroup(w, sh, k, lo, hi);
    RangeCloseIff(GroupOf(w, sh, k), lo, hi);
    BoundOverGroup(w, sh, k, (hi - lo) / 30.0);
    BoundOverGroup(w, sh, k, 0.5);
  }

  lemma ExtremesOfGroup(w: seq<real>, sh: Shape, k: nat, lo: real, hi: real)
    requires Fits(w, sh) && sh.cols >= 1 && k < |w| && Extremes(w, sh, k, lo, hi)
    ensures var group := GroupOf(w, sh, k); lo in group && hi in group && forall v | v in group :: lo <= v <= hi
  {
    hide GroupOf;
    var group := GroupOf(w, sh, k);
    var a :| 0 <= a < |w| && SameGroup(sh, k, a) && w[a] == lo;
    var b :| 0 <= b < |w| && SameGroup(sh, k, b) && w[b] == hi;
    InSharedGroup(w, sh, k, a);
    InSharedGroup(w, sh, k, b);
    forall v | v in group
      ensures lo <= v <= hi
    {
      var i :| 0 <= i < |group| && group[i] == v;
      var j := GroupMember(w, sh, k, i);
    }
  }

  lemma InSharedGroup(w: seq<real>, sh: Shape, k: nat, j: nat)
    requires Fits(w, sh) && sh.cols >= 1 && k < |w| && j < |w| && SameGroup(sh, k, j)
    ensures GroupOf(w, sh, j) == GroupOf(w, sh, k) && w[j] in GroupOf(w, sh, k)
  {
    InOwnGroup(w, sh, j);
  }

  /** A bound holds of a group's values as restored if and only if it holds of its elements after the round trip. */
  lemma BoundOverGroup(w: seq<real>, sh: Shape, k: nat, bound: real)
    requires Fits(w, sh) && ShapeMatches(sh) && sh.cols >= 1 && k < |w|
    ensures var group := GroupOf(w, sh, k);
      (forall j | 0 <= j < |w| && SameGroup(sh, k, j) :: Abs(Unpacked4(w, sh, j) - w[j]) <= bound)
        <==> (forall v | v in group :: Abs(Restored(v, group) - v) <= bound)
  {
    hide GroupOf, Restored, Abs, Unpacked4, SameGroup;
    var group := GroupOf(w, sh, k);
    if forall j | 0 <= j < |w| && SameGroup(sh, k, j) :: Abs(Unpacked4(w, sh, j) - w[j]) <= bound {
      forall v | v in group
        ensures Abs(Restored(v, group) - v) <= bound
      {
        var i :| 0 <= i < |group| && group[i] == v;
        var j := GroupMember(w, sh, k, i);
        RestoredElement(w, sh, j);
      }
    }
    if forall v | v in group :: Abs(Restored(v, group) - v) <= bound {
      forall j | 0 <= j < |w| && SameGroup(sh, k, j)
        ensures Abs(Unpacked4(w, sh, j) - w[j]) <= bound
      {
        InSharedGroup(w, sh, k, j);
        RestoredElement(w, sh, j);
      }
    }
  }

  /** A layer that stores no zero points is restored as if every zero point were 8. */
  lemma NoZerosMeansEight(q: QuantizedMatrix, row: nat, col: nat)
    requires WellShaped(q) && q.zeros == None && row < q.rows && col < Width(q)
    ensures var q8 := q.(zeros := Some(seq(|q.scales|, _ => 8)));
      WellShaped(q8) && Unpacking(q, row, col) == Unpacking(q8, row, col)
  {
    var q8 := q.(zeros := Some(seq(|q.scales|, _ => 8)));
    Dimensions(q);
    hide Dequantized, Nibble, Unpacking, WellShaped, GroupsStored;
    ShapedWithZeros(q, q8);
    var g := col / q.groupSize;
    if g < GroupsStored(q) {
      UnpackingIs(q, row, col, g);
      UnpackingIs(q8, row, col, g);
    } else {
      UnpackingBeyond(q, row, col);
      UnpackingBeyond(q8, row, col);
    }
  }

  lemma ShapedWithZeros(q: QuantizedMatrix, r: QuantizedMatrix)
    requires WellShaped(q) && r == q.(zeros := r.zeros) && (r.zeros.Some? ==> |r.zeros.value| == |q.scales|)
    ensures WellShaped(r) && GroupsStored(r) == GroupsStored(q)
  {
    hide GroupsStored;
    assert GroupsStored(r) == GroupsStored(q) by {
      SameStored(q, r);
    }
  }

  lemma SameStored(q: QuantizedMatrix, r: QuantizedMatrix)
    requires r.rows == q.rows && r.scales == q.scales
    ensures GroupsStored(r) == GroupsStored(q)
  {
  }

  lemma UnpackingBeyond(q: QuantizedMatrix, row: nat, col: nat)
    requires WellShaped(q) && row < q.rows && col < Width(q) && col / q.groupSize >= GroupsStored(q)
    ensures Unpacking(q, row, col) == 0.0
  {
    hide GroupsStored;
  }
}
