/**
  The limits on a ComfyUI workflow. Its nodes come in the order in which a map happens to be
  walked. Arithmetic is on 64-bit integers, so every operation is proved not to overflow.
*/
module Workload {

  newtype int64 = x: int | -0x8000_0000_0000_0000 <= x < 0x8000_0000_0000_0000

  const MAX_NODES := 768
  const MAX_SAMPLERS := 24
  const MAX_OUTPUTS := 32
  const MAX_BATCH: int64 := 32
  const MAX_STEPS: int64 := 250
  const MAX_FRAMES: int64 := 3600
  const MAX_DIMENSION: int64 := 16384
  const MAX_PIXEL_FRAMES: int64 := 8_000_000_000

  datatype Field = Width | Height | BatchSize | Steps | Frames | NumFrames

  /** A literal number, or anything else: a link to another node, a string, NaN, an infinity. */
  datatype Value = Number(r: real) | Other

  /** What the check reads of a node: whether its class is blank, and whether it names a sampler
      or an output. */
  datatype Node = Node(blank: bool, sampler: bool, output: bool, inputs: map<Field, Value>)

  /** Whether the input is missing or a literal integer that fits. */
  predicate Readable(n: Node, f: Field) {
    f in n.inputs ==>
      && n.inputs[f].Number?
      && n.inputs[f].r.Floor as real == n.inputs[f].r
      && -0x8000_0000_0000_0000 <= n.inputs[f].r.Floor < 0x8000_0000_0000_0000
  }

  function Input(n: Node, f: Field): int64
    requires Readable(n, f)
  {
    if f in n.inputs then n.inputs[f].r.Floor as int64 else 0
  }

  predicate AllReadable(n: Node) {
    && Readable(n, Width) && Readable(n, Height) && Readable(n, BatchSize)
    && Readable(n, Steps) && Readable(n, Frames) && Readable(n, NumFrames)
  }

  function OrOne(v: int64): int64 {
    if v == 0 then 1 else v
  }

  function FrameCount(n: Node): int64
    requires AllReadable(n)
  {
    OrOne(if Input(n, Frames) > Input(n, NumFrames) then Input(n, Frames) else Input(n, NumFrames))
  }

  /** A node within the limits that concern it alone. */
  predicate Bounded(n: Node) {
    && !n.blank && AllReadable(n)
    && 0 <= Input(n, Width) <= MAX_DIMENSION && 0 <= Input(n, Height) <= MAX_DIMENSION
    && 0 <= OrOne(Input(n, BatchSize)) <= MAX_BATCH && 0 <= Input(n, Steps) <= MAX_STEPS
    && 0 <= FrameCount(n) <= MAX_FRAMES
  }

  /** The exact amount of pixels a node asks for, over all frames and batch items. */
  function PixelFrames(n: Node): (size: nat) {
    if !Bounded(n) then 0
    else
      Product(Input(n, Width) as int, Input(n, Height) as int, OrOne(Input(n, BatchSize)) as int, FrameCount(n) as int)
  }

  function Product(w: nat, h: nat, b: nat, f: nat): nat {
    w * h * b * f
  }

  function Sum(nodes: seq<Node>, weight: Node -> nat): nat {
    if nodes == [] then 0 else Sum(nodes[..|nodes| - 1], weight) + weight(nodes[|nodes| - 1])
  }

  function IsSampler(n: Node): nat { if n.sampler then 1 else 0 }

  function IsOutput(n: Node): nat { if n.output then 1 else 0 }

  /** The policy: every node within its limits, and the exact totals within theirs. */
  ghost predicate Acceptable(nodes: seq<Node>) {
    && 0 < |nodes| <= 768
    && (forall n <- nodes :: Bounded(n))
    && Sum(nodes, PixelFrames) <= 8_000_000_000
    && Sum(nodes, IsSampler) <= 24 && Sum(nodes, IsOutput) <= 32
  }

  lemma {:induction false} SumGrows(nodes: seq<Node>, weight: Node -> nat, i: nat)
    requires i <= |nodes|
    ensures Sum(nodes[..i], weight) <= Sum(nodes, weight)
  {
    if i == |nodes| {
      assert nodes[..i] == nodes;
    } else {
      var front := nodes[..|nodes| - 1];
      assert front[..i] == nodes[..i];
      SumGrows(front, weight, i);
    }
  }

  /** The division guards compare exactly: they let a product pass just when it is within the limit. */
  lemma GuardsAreExact(requested: int, batch: int, frames: int, limit: int)
    requires requested >= 0 && batch > 0 && frames > 0 && limit >= 0
    ensures requested > limit / batch || requested * batch > limit / frames <==> requested * batch * frames > limit
  {
    var product := requested * batch;
    DivisionGuard(requested, batch, limit);
    MulMono(0, requested, batch);
    DivisionGuard(product, frames, limit);
    MulMono(1, frames, product);
  }

  lemma MulMono(a: int, a': int, b: int)
    requires a <= a' && b >= 0
    ensures a * b <= a' * b && b * a <= b * a'
  {
  }

  lemma DivisionGuard(a: int, b: int, limit: int)
    requires a >= 0 && b > 0 && limit >= 0
    ensures a > limit / b <==> a * b > limit
  {
    assert limit == limit / b * b + limit % b;
    if a > limit / b {
      assert a * b >= (limit / b + 1) * b;
    } else {
      assert a * b <= limit / b * b;
    }
  }

  /** No intermediate product leaves the 64-bit range. */
  lemma ProductBounds(w: nat, h: nat, b: nat, f: nat)
    requires w <= 16384 && h <= 16384 && b <= 32 && f <= 3600
    ensures w * h <= 0x1000_0000 && w * h * b <= 0x2_0000_0000 && w * h * b * f <= 30923764531200
    ensures Product(w, h, b, f) == w * h * b * f && ((w == 0 || h == 0) ==> Product(w, h, b, f) == 0)
  {
    MulMono(w, 16384, h);
    var area := w * h;
    MulMono(b, 32, area);
    var images := area * b;
    MulMono(f, 3600, images);
  }

  /** The size of one node, or nothing if it alone is too large. */
  method NodeSize(n: Node) returns (fits: bool, size: int64)
    requires Bounded(n)
    ensures fits <==> PixelFrames(n) <= MAX_PIXEL_FRAMES as int
    ensures fits ==> size as int == PixelFrames(n)
  {
    var width, height := Input(n, Width), Input(n, Height);
    var batch, frames := OrOne(Input(n, BatchSize)), FrameCount(n);
    assert 0 <= width <= MAX_DIMENSION && 0 <= height <= MAX_DIMENSION;
    assert 0 < batch <= MAX_BATCH && 0 < frames <= MAX_FRAMES;
    assert PixelFrames(n) == Product(width as int, height as int, batch as int, frames as int);
    hide Bounded, PixelFrames, Product, Input, FrameCount, OrOne;
    ProductBounds(width as int, height as int, batch as int, frames as int);
    if width > 0 && height > 0 {
      fits, size := SizeOf(width, height, batch, frames);
    } else {
      fits, size := true, 0;
    }
  }

  /** The guards and the product, as computed. */
  method SizeOf(width: int64, height: int64, batch: int64, frames: int64) returns (fits: bool, size: int64)
    requires 0 < width <= MAX_DIMENSION && 0 < height <= MAX_DIMENSION
    requires 0 < batch <= MAX_BATCH && 0 < frames <= MAX_FRAMES
    ensures var product := Product(width as int, height as int, batch as int, frames as int);
            (fits <==> product <= MAX_PIXEL_FRAMES as int) && (fits ==> size as int == product)
  {
    ProductBounds(width as int, height as int, batch as int, frames as int);
    hide Product;
    var requested := width * height;
    GuardsAreExact(requested as int, batch as int, frames as int, MAX_PIXEL_FRAMES as int);
    var images := requested * batch;
    if requested > MAX_PIXEL_FRAMES / batch || images > MAX_PIXEL_FRAMES / frames {
      return false, 0;
    }
    return true, images * frames;
  }

  /** validateComfyPromptWorkload accepts exactly the acceptable workflows. */
  method Validate(nodes: seq<Node>) returns (ok: bool)
    ensures ok <==> Acceptable(nodes)
  {
    hide Bounded, PixelFrames;
    if |nodes| == 0 || |nodes| > MAX_NODES {
      return false;
    }
    var samplers, outputs := 0, 0;
    var total: int64 := 0;
    for i := 0 to |nodes|
      invariant samplers == Sum(nodes[..i], IsSampler) && outputs == Sum(nodes[..i], IsOutput)
      invariant total as int == Sum(nodes[..i], PixelFrames) && 0 <= total <= MAX_PIXEL_FRAMES
      invariant forall k :: 0 <= k < i ==> Bounded(nodes[k])
    {
      var n := nodes[i];
      assert nodes[..i + 1][..i] == nodes[..i];
      SumGrows(nodes, PixelFrames, i + 1);
      if n.sampler {
        samplers := samplers + 1;
      }
      if n.output {
        outputs := outputs + 1;
      }
      if !Bounded(n) {
        return false;
      }
      var fits, size := NodeSize(n);
      if !fits {
        return false;
      }
      total := total + size;
      if total > MAX_PIXEL_FRAMES {
        return false;
      }
    }
    assert nodes[..|nodes|] == nodes;
    return samplers <= MAX_SAMPLERS && outputs <= MAX_OUTPUTS;
  }

  // ---- The order of the map does not matter ----

  lemma {:induction false} SumTakesOut(nodes: seq<Node>, weight: Node -> nat, i: nat)
    requires i < |nodes|
    ensures Sum(nodes, weight) == weight(nodes[i]) + Sum(nodes[..i] + nodes[i + 1..], weight)
  {
    var rest := nodes[..i] + nodes[i + 1..];
    if i == |nodes| - 1 {
      assert rest == nodes[..i];
    } else {
      var front := nodes[..|nodes| - 1];
      SumTakesOut(front, weight, i);
      assert rest[..|rest| - 1] == front[..i] + front[i + 1..];
      assert rest[|rest| - 1] == nodes[|nodes| - 1];
    }
  }

  lemma {:induction false} SumIgnoresOrder(a: seq<Node>, b: seq<Node>, weight: Node -> nat)
    requires multiset(a) == multiset(b)
    ensures Sum(a, weight) == Sum(b, weight)
    decreases |a|
  {
    if a == [] {
      assert |multiset(b)| == 0;
    } else {
      var x := a[|a| - 1];
      assert a == a[..|a| - 1] + [x];
      assert x in multiset(b);
      var i :| 0 <= i < |b| && b[i] == x;
      assert b == b[..i] + [x] + b[i + 1..];
      assert multiset(b[..i] + b[i + 1..]) == multiset(b) - multiset{x} == multiset(a[..|a| - 1]);
      SumTakesOut(b, weight, i);
      SumIgnoresOrder(a[..|a| - 1], b[..i] + b[i + 1..], weight);
    }
  }

  /** Walking the same nodes in another order gives the same verdict. */
  lemma VerdictIgnoresOrder(a: seq<Node>, b: seq<Node>)
    requires multiset(a) == multiset(b)
    ensures Acceptable(a) <==> Acceptable(b)
  {
    SumIgnoresOrder(a, b, PixelFrames);
    SumIgnoresOrder(a, b, IsSampler);
    SumIgnoresOrder(a, b, IsOutput);
    assert |a| == |multiset(a)| == |multiset(b)| == |b|;
    assert forall n :: n in a <==> n in multiset(a);
    assert forall n :: n in b <==> n in multiset(b);
  }

  /** What a node asks for. Of the two frame inputs the larger one counts; missing frames, batch sizes and
      zeros of both count as one. A node without a width or a height, which is not an image, asks for nothing. */
  lemma PixelFramesExactly(n: Node)
    requires Bounded(n)
    ensures var frames, numFrames := Input(n, Frames) as int, Input(n, NumFrames) as int;
            var batch := Input(n, BatchSize) as int; var area := Input(n, Width) as int * Input(n, Height) as int;
            PixelFrames(n) ==
              area * (if batch > 0 then batch else 1)
                   * (if frames <= 0 && numFrames <= 0 then 1 else if frames > numFrames then frames else numFrames)
  {
  }

  /** Every limit of a node but that on its frames. */
  predicate BoundedButFrames(n: Node) {
    && !n.blank && AllReadable(n)
    && 0 <= Input(n, Width) <= 16384 && 0 <= Input(n, Height) <= 16384
    && 0 <= Input(n, BatchSize) <= 32 && 0 <= Input(n, Steps) <= 250
  }

  function Whole(k: int): Value {
    Number(k as real)
  }

  /** A whole number that fits. */
  ghost predicate Literal(v: Value) {
    exists k: int :: v == Whole(k) && -0x8000_0000_0000_0000 <= k < 0x8000_0000_0000_0000
  }

  lemma ReadableExactly(n: Node, f: Field)
    ensures Readable(n, f) <==> (f in n.inputs ==> Literal(n.inputs[f]))
  {
    if f in n.inputs && Literal(n.inputs[f]) {
      var k: int :| n.inputs[f] == Whole(k) && -0x8000_0000_0000_0000 <= k < 0x8000_0000_0000_0000;
      assert (k as real).Floor == k;
    }
    if f in n.inputs && Readable(n, f) {
      assert n.inputs[f] == Whole(n.inputs[f].r.Floor);
    }
  }

  /** The limits on one node, in numbers: every input that is read is a whole literal, none is negative or
      over its limit, except that the smaller of the two frame inputs may be negative. */
  lemma LimitsExactly(n: Node)
    ensures Bounded(n) <==>
              && !n.blank
              && (forall f | f in n.inputs :: Literal(n.inputs[f]))
              && AllReadable(n)
              && 0 <= Input(n, Width) <= 16384 && 0 <= Input(n, Height) <= 16384
              && 0 <= Input(n, BatchSize) <= 32 && 0 <= Input(n, Steps) <= 250
              && Input(n, Frames) <= 3600 && Input(n, NumFrames) <= 3600
              && (Input(n, Frames) >= 0 || Input(n, NumFrames) >= 0)
  {
    forall f
      ensures Readable(n, f) <==> (f in n.inputs ==> Literal(n.inputs[f]))
    {
      ReadableExactly(n, f);
    }
    assert AllReadable(n) <==> forall f | f in n.inputs :: Literal(n.inputs[f]) by {
      hide Readable, Literal;
      if AllReadable(n) {
        forall f | f in n.inputs
          ensures Literal(n.inputs[f])
        {
          assert f == Width || f == Height || f == BatchSize || f == Steps || f == Frames || f == NumFrames;
        }
      }
    }
    hide Literal, Readable;
  }

  /** The frame limit reads the larger of two inputs: a negative frame count is refused exactly when the
      other input is negative as well or too large; with the other one missing it counts as one frame. */
  lemma NegativeFramesExactly(n: Node)
    requires BoundedButFrames(n) && Input(n, Frames) < 0
    ensures Bounded(n) <==> 0 <= Input(n, NumFrames) <= 3600
    ensures NumFrames !in n.inputs ==> Bounded(n) && FrameCount(n) == 1
  {
  }

  /** A workflow of one node with a negative frame count is accepted, as one frame. */
  lemma NegativeFramesPass(frames: int)
    requires -0x8000_0000_0000_0000 <= frames < 0
    ensures var inputs := map[Width := Number(64.0), Height := Number(64.0), Frames := Number(frames as real)];
            var n := Node(false, false, false, inputs);
            Acceptable([n]) && PixelFrames(n) == 4096
  {
    var inputs := map[Width := Number(64.0), Height := Number(64.0), Frames := Number(frames as real)];
    var n := Node(false, false, false, inputs);
    assert (frames as real).Floor == frames;
    assert Bounded(n);
    hide Bounded;
    SumOfOne(n, PixelFrames);
    SumOfOne(n, IsSampler);
    SumOfOne(n, IsOutput);
  }

  lemma SumOfOne(n: Node, weight: Node -> nat)
    ensures Sum([n], weight) == weight(n)
  {
    assert [n][..0] == [];
  }
}
