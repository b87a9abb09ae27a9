/** Splitting a model's layers over pipeline ranks, and why running the stages in rank order is running the model. */
module Pipeline {
  import opened Types

  datatype PipelineContext = PipelineContext(rank: nat, worldSize: nat, startLayer: nat, endLayer: nat) {

    predicate IsFirstStage() {
      rank == 0
    }

    predicate IsLastStage()
      requires worldSize >= 1
    {
      rank == worldSize - 1
    }

    predicate ShouldProcessLayer(index: nat) {
      startLayer <= index < endLayer
    }
  }

  /** The context of one rank: contiguous blocks of layers, the last ones possibly short or empty. */
  function NewContext(rank: nat, worldSize: nat, totalLayers: nat): PipelineContext
    requires worldSize >= 1
  {
    var layersPerGpu := CeilDiv(totalLayers, worldSize);
    var startLayer := rank * layersPerGpu;
    PipelineContext(rank, worldSize, startLayer,
                    if startLayer + layersPerGpu < totalLayers then startLayer + layersPerGpu else totalLayers)
  }

  /** Where rank `r` starts within the layers, ranks past the end starting at the end. */
  function Boundary(r: nat, worldSize: nat, totalLayers: nat): (b: nat)
    requires worldSize >= 1
    ensures b <= totalLayers
  {
    var start := r * CeilDiv(totalLayers, worldSize);
    if start < totalLayers then start else totalLayers
  }

  /** The ranks together reach the last layer. */
  lemma RanksSuffice(rank: nat, worldSize: nat, totalLayers: nat)
    requires worldSize >= 1 && rank >= worldSize
    ensures rank * CeilDiv(totalLayers, worldSize) >= totalLayers
  {
    var n, a := CeilDiv(totalLayers, worldSize), totalLayers + worldSize - 1;
    assert a == n * worldSize + a % worldSize;
    MulMonotone(worldSize, rank, n);
  }

  lemma Boundaries(rank: nat, worldSize: nat, totalLayers: nat)
    requires worldSize >= 1
    ensures Boundary(0, worldSize, totalLayers) == 0
    ensures rank >= worldSize ==> Boundary(rank, worldSize, totalLayers) == totalLayers
    ensures Boundary(rank, worldSize, totalLayers) <= Boundary(rank + 1, worldSize, totalLayers)
    ensures var ctx := NewContext(rank, worldSize, totalLayers);
      && Boundary(rank + 1, worldSize, totalLayers) == ctx.endLayer
      && (ctx.startLayer < ctx.endLayer ==> Boundary(rank, worldSize, totalLayers) == ctx.startLayer)
      && (ctx.startLayer >= ctx.endLayer ==> Boundary(rank, worldSize, totalLayers) == ctx.endLayer)
  {
    hide CeilDiv;
    if rank >= worldSize {
      RanksSuffice(rank, worldSize, totalLayers);
    }
    var n := CeilDiv(totalLayers, worldSize);
    assert (rank + 1) * n == rank * n + n;
  }

  lemma {:induction false} BoundariesAscend(r: nat, q: nat, worldSize: nat, totalLayers: nat)
    requires worldSize >= 1 && r <= q
    ensures Boundary(r, worldSize, totalLayers) <= Boundary(q, worldSize, totalLayers)
    decreases q - r
  {
    if r < q {
      Boundaries(r, worldSize, totalLayers);
      BoundariesAscend(r + 1, q, worldSize, totalLayers);
    }
  }

  lemma {:induction false} OwnerBelow(layer: nat, r: nat, worldSize: nat, totalLayers: nat) returns (rank: nat)
    requires worldSize >= 1 && layer < Boundary(r, worldSize, totalLayers)
    ensures rank < r && NewContext(rank, worldSize, totalLayers).ShouldProcessLayer(layer)
    decreases r
  {
    Boundaries(0, worldSize, totalLayers);
    if layer >= Boundary(r - 1, worldSize, totalLayers) {
      rank := r - 1;
      Boundaries(rank, worldSize, totalLayers);
    } else {
      rank := OwnerBelow(layer, r - 1, worldSize, totalLayers);
    }
  }

  /** Every layer is processed by exactly one rank. */
  lemma LayerHasOneRank(layer: nat, worldSize: nat, totalLayers: nat)
    requires worldSize >= 1 && layer < totalLayers
    ensures exists rank: nat :: rank < worldSize && NewContext(rank, worldSize, totalLayers).ShouldProcessLayer(layer)
    ensures forall r: nat, q: nat | NewContext(r, worldSize, totalLayers).ShouldProcessLayer(layer)
                       && NewContext(q, worldSize, totalLayers).ShouldProcessLayer(layer) :: r == q
  {
    Boundaries(worldSize, worldSize, totalLayers);
    var rank := OwnerBelow(layer, worldSize, worldSize, totalLayers);
    forall r: nat, q: nat | NewContext(r, worldSize, totalLayers).ShouldProcessLayer(layer)
               && NewContext(q, worldSize, totalLayers).ShouldProcessLayer(layer)
      ensures r == q
    {
      Boundaries(r, worldSize, totalLayers);
      Boundaries(q, worldSize, totalLayers);
      if r < q {
        BoundariesAscend(r + 1, q, worldSize, totalLayers);
      } else if q < r {
        BoundariesAscend(q + 1, r, worldSize, totalLayers);
      }
    }
  }

  /**
   * With `k` the least layer count for which the ranks suffice, no rank has more than `k` layers, and every rank with a
   * nonempty successor has exactly `k`.
   */
  lemma StageSize(rank: nat, worldSize: nat, totalLayers: nat, k: nat)
    requires worldSize >= 1 && LeastCover(k, worldSize, totalLayers)
    ensures var ctx, next := NewContext(rank, worldSize, totalLayers), NewContext(rank + 1, worldSize, totalLayers);
      ctx.endLayer - ctx.startLayer <= k && (next.startLayer < next.endLayer ==> ctx.endLayer - ctx.startLayer == k)
  {
    CeilIsLeast(totalLayers, worldSize);
    LeastUnique(k, CeilDiv(totalLayers, worldSize), worldSize, totalLayers);
    hide CeilDiv, LeastCover;
    assert (rank + 1) * k == rank * k + k;
  }

  lemma {:induction false} SplitLength(bounds: seq<nat>, k: int, n: nat)
    requires n < |bounds| && forall r | 0 <= r < n :: bounds[r + 1] - bounds[r] <= k
    ensures bounds[n] <= bounds[0] + n * k
  {
    if n > 0 {
      SplitLength(bounds, k, n - 1);
      assert n * k == (n - 1) * k + k;
    }
  }

  /** No split of the layers over the ranks has a smaller largest part. */
  lemma NoSplitIsFlatter(bounds: seq<nat>, worldSize: nat, totalLayers: nat, k: nat)
    requires worldSize >= 1 && LeastCover(k, worldSize, totalLayers)
    requires |bounds| == worldSize + 1 && bounds[0] == 0 && bounds[worldSize] == totalLayers
    ensures exists r | 0 <= r < worldSize :: bounds[r + 1] - bounds[r] >= k
  {
    if forall r | 0 <= r < worldSize :: bounds[r + 1] - bounds[r] <= k - 1 {
      SplitLength(bounds, k - 1, worldSize);
    }
  }

  // ---------------------------------------------------------------- stages

  /** The parts of a model; a state holds the activations and whatever the layers keep beside them. */
  datatype Parts<!T> = Parts(embed: T -> T, layer: (nat, T) -> T, norm: T -> T, head: T -> T)

  /** Layers `from` to `to`, in order. */
  function RunLayers<T>(parts: Parts<T>, start: nat, end: nat, x: T): T
    requires start <= end
    decreases end - start
  {
    if start == end then x else parts.layer(end - 1, RunLayers(parts, start, end - 1, x))
  }

  lemma {:induction false} RunLayersSplit<T>(parts: Parts<T>, a: nat, b: nat, c: nat, x: T)
    requires a <= b <= c
    ensures RunLayers(parts, a, c, x) == RunLayers(parts, b, c, RunLayers(parts, a, b, x))
    decreases c - b
  {
    if b < c {
      RunLayersSplit(parts, a, b, c - 1, x);
    }
  }

  /** The undivided model. */
  function WholeModel<T>(parts: Parts<T>, totalLayers: nat, x: T): T {
    parts.head(parts.norm(RunLayers(parts, 0, totalLayers, parts.embed(x))))
  }

  /** One rank's model: which layers it holds, and whether it has the embedding and the output parts. */
  datatype Stage = Stage(embedTokens: bool, layers: seq<nat>, norm: bool, lmHead: bool)

  function Indices(start: nat, end: nat): (s: seq<nat>)
    ensures |s| == if start < end then end - start else 0
  {
    if start < end then seq(end - start, i requires 0 <= i < end - start => start + i) else []
  }

  function StageOf(ctx: PipelineContext): Stage
    requires ctx.worldSize >= 1
  {
    Stage(ctx.IsFirstStage(), Indices(ctx.startLayer, ctx.endLayer), ctx.IsLastStage(), ctx.IsLastStage())
  }

  /** Builds a rank's stage; a start past the end gives no layers. */
  method NewStage(ctx: PipelineContext) returns (stage: Stage)
    requires ctx.worldSize >= 1
    ensures stage == StageOf(ctx)
  {
    var layers := [];
    var layerIdx := ctx.startLayer;
    while layerIdx < ctx.endLayer
      invariant layers == Indices(ctx.startLayer, layerIdx)
      invariant ctx.startLayer <= layerIdx
      invariant layerIdx <= ctx.endLayer || layers == []
      invariant layerIdx > ctx.endLayer ==> layerIdx == ctx.startLayer
    {
      layers := layers + [layerIdx];
      layerIdx := layerIdx + 1;
    }
    stage := Stage(ctx.IsFirstStage(), layers, ctx.IsLastStage(), ctx.IsLastStage());
  }

  /** What one rank computes. */
  function StageMeaning<T>(parts: Parts<T>, ctx: PipelineContext, x: T): T
    requires ctx.worldSize >= 1
  {
    var x1 := if ctx.IsFirstStage() then parts.embed(x) else x;
    var x2 := if ctx.startLayer < ctx.endLayer then RunLayers(parts, ctx.startLayer, ctx.endLayer, x1) else x1;
    if ctx.IsLastStage() then parts.head(parts.norm(x2)) else x2
  }

  method Forward<T>(parts: Parts<T>, stage: Stage, ghost ctx: PipelineContext, x0: T) returns (x: T)
    requires ctx.worldSize >= 1 && stage == StageOf(ctx)
    ensures x == StageMeaning(parts, ctx, x0)
  {
    x := x0;
    if stage.embedTokens {
      x := parts.embed(x);
    }
    ghost var x1 := x;
    for i := 0 to |stage.layers|
      invariant x == RunLayers(parts, ctx.startLayer, ctx.startLayer + i, x1)
    {
      x := parts.layer(stage.layers[i], x);
    }
    if stage.norm {
      x := parts.norm(x);
    }
    if stage.lmHead {
      x := parts.head(x);
    }
  }

  /** Ranks 0 up to `n`, one after the other, each on its predecessor's output. */
  function RunRanks<T>(parts: Parts<T>, n: nat, worldSize: nat, totalLayers: nat, x: T): T
    requires worldSize >= 1
  {
    if n == 0 then x
    else StageMeaning(parts, NewContext(n - 1, worldSize, totalLayers),
      RunRanks(parts, n - 1, worldSize, totalLayers, x))
  }

  /** A rank runs the layers between its boundaries; the first embeds before, the last finishes after. */
  lemma StageIsRange<T>(parts: Parts<T>, rank: nat, worldSize: nat, totalLayers: nat, x: T)
    requires worldSize >= 1
    ensures Boundary(rank, worldSize, totalLayers) <= Boundary(rank + 1, worldSize, totalLayers)
    ensures var y := RunLayers(parts, Boundary(rank, worldSize, totalLayers),
      Boundary(rank + 1, worldSize, totalLayers),
                               if rank == 0 then parts.embed(x) else x);
      StageMeaning(parts, NewContext(rank, worldSize, totalLayers), x) ==
        if rank == worldSize - 1 then parts.head(parts.norm(y)) else y
  {
    hide Boundary, CeilDiv;
    Boundaries(rank, worldSize, totalLayers);
  }

  lemma {:induction false} RanksSoFar<T>(parts: Parts<T>, n: nat, worldSize: nat, totalLayers: nat, x: T)
    requires worldSize >= 1 && 1 <= n <= worldSize
    ensures var y := RunLayers(parts, 0, Boundary(n, worldSize, totalLayers), parts.embed(x));
      RunRanks(parts, n, worldSize, totalLayers, x) == if n == worldSize then parts.head(parts.norm(y)) else y
  {
    hide Boundary, CeilDiv, NewContext, StageMeaning;
    StageIsRange(parts, n - 1, worldSize, totalLayers, RunRanks(parts, n - 1, worldSize, totalLayers, x));
    Boundaries(0, worldSize, totalLayers);
    if n > 1 {
      RanksSoFar(parts, n - 1, worldSize, totalLayers, x);
      RunLayersSplit(parts, 0, Boundary(n - 1, worldSize, totalLayers), Boundary(n, worldSize, totalLayers),
        parts.embed(x));
    }
  }

  /** The pipeline computes what the undivided model computes, for every layer count and number of ranks. */
  lemma PipelineMeansModel<T>(parts: Parts<T>, worldSize: nat, totalLayers: nat, x: T)
    requires worldSize >= 1
    ensures RunRanks(parts, worldSize, worldSize, totalLayers, x) == WholeModel(parts, totalLayers, x)
  {
    RanksSoFar(parts, worldSize, worldSize, totalLayers, x);
    Boundaries(worldSize, worldSize, totalLayers);
  }

  /** A model that only records what happens: the embedding, each layer by its index, the norm and the head. */
  datatype Event = Embedded | Layer(index: nat) | Normed | Projected

  function Recorder(): Parts<seq<Event>> {
    Parts((s: seq<Event>) => s + [Embedded], (i: nat, s: seq<Event>) => s + [Layer(i)],
      (s: seq<Event>) => s + [Normed], (s: seq<Event>) => s + [Projected])
  }

  function LayerEvents(n: nat): seq<Event> {
    seq(n, i requires 0 <= i < n => Layer(i))
  }

  lemma {:induction false} LayersRecorded(n: nat, s: seq<Event>)
    ensures RunLayers(Recorder(), 0, n, s) == s + LayerEvents(n)
  {
    if n > 0 {
      LayersRecorded(n - 1, s);
      assert LayerEvents(n) == LayerEvents(n - 1) + [Layer(n - 1)];
    }
  }

  /**
   * All ranks in order embed once, then run every layer exactly once and in order, then norm and project once, whatever
   * the number of ranks.
   */
  lemma PipelineTrace(worldSize: nat, totalLayers: nat, s: seq<Event>)
    requires worldSize >= 1
    ensures RunRanks(Recorder(), worldSize, worldSize, totalLayers, s)
      == s + [Embedded] + LayerEvents(totalLayers) + [Normed] + [Projected]
  {
    PipelineMeansModel(Recorder(), worldSize, totalLayers, s);
    hide RunRanks, RunLayers, LayerEvents;
    LayersRecorded(totalLayers, s + [Embedded]);
    WholeRecorded(totalLayers, s);
    hide WholeModel, Recorder;
  }

  lemma WholeRecorded(totalLayers: nat, s: seq<Event>)
    ensures WholeModel(Recorder(), totalLayers, s)
      == RunLayers(Recorder(), 0, totalLayers, s + [Embedded]) + [Normed] + [Projected]
  {
    hide RunLayers;
  }
}
