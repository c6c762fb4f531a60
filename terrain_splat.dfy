/** The integer skeleton of terrain splatting: substitution of the default
    detail texture IDs, fetching and filling in the four detail textures,
    the 256x256 layer map with its clamp, and the index arithmetic of the
    2048x2048 compositor. Colours, noise and blend values are parameters. */
module Splat {
  import opened Wrappers

  /** A 128-bit asset UUID, read as an unsigned integer. */
  type Uuid = x: nat | x < 0x1_0000_0000_0000_0000_0000_0000_0000_0000

  /** `UUID.Zero`: the "no texture" ID. */
  const ZeroId: Uuid := 0

  const DirtDetail: Uuid := 0x0bc58228_74a0_7e83_89bc_5c23464bcec5
  const GrassDetail: Uuid := 0x63338ede_0037_c4fd_855b_015d77112fc8
  const MountainDetail: Uuid := 0x303cd381_8560_7579_23f1_f0a880799740
  const RockDetail: Uuid := 0x53a2f406_4895_1d13_d541_d2e3b86bc19c

  /** DEFAULT_TERRAIN_DETAIL, lowest layer first. */
  const DefaultDetail: seq<Uuid> := [DirtDetail, GrassDetail, MountainDetail, RockDetail]

  /** An ARGB colour. */
  datatype Color = Color(a: nat, r: nat, g: nat, b: nat)

  /** DEFAULT_TERRAIN_COLOR, lowest layer first. */
  const DefaultColor: seq<Color> :=
    [Color(255, 164, 136, 117), Color(255, 65, 87, 47), Color(255, 157, 145, 131), Color(255, 125, 128, 130)]

  /** Side of the composited output and of a full-size detail texture. */
  const OutputSize: nat := 2048
  /** Side of the layer map (RegionSize). */
  const MapSize: nat := 256
  /** Side of a resized detail texture, and of the block read from every
      detail texture. */
  const DetailSize: nat := 256

  // ---------------------------------------------------------------------
  // Default ID substitution

  /** The IDs after substitution: a zero ID becomes the layer's default. */
  function Substituted(ids: seq<Uuid>): (r: seq<Uuid>)
    requires |ids| == 4
    ensures |r| == 4
    ensures forall i :: 0 <= i < 4 ==> r[i] != ZeroId
    ensures forall i :: 0 <= i < 4 && ids[i] != ZeroId ==> r[i] == ids[i]
  {
    seq(4, i requires 0 <= i < 4 => if ids[i] == ZeroId then DefaultDetail[i] else ids[i])
  }

  /** Substituting twice changes nothing more. */
  lemma SubstitutedIdempotent(ids: seq<Uuid>)
    requires |ids| == 4
    ensures Substituted(Substituted(ids)) == Substituted(ids)
  {
  }

  /** The loop over `textureIDs`, writing the caller's array in place. */
  method SubstituteDefaultIds(ids: array<Uuid>)
    requires ids.Length == 4
    modifies ids
    ensures ids[..] == Substituted(old(ids[..]))
  {
    var i := 0;
    while i < ids.Length
      invariant 0 <= i <= 4
      invariant forall k :: 0 <= k < i ==> ids[k] == Substituted(old(ids[..]))[k]
      invariant forall k :: i <= k < 4 ==> ids[k] == old(ids[k])
    {
      if ids[i] == ZeroId {
        ids[i] := DefaultDetail[i];
      }
      i := i + 1;
    }
  }

  // ---------------------------------------------------------------------
  // Detail textures

  /** Where a detail bitmap came from; the pixels themselves are not modelled. */
  datatype Origin = Decoded(data: seq<bv8>) | SolidFill(color: Color) | Resized(from: Bitmap)
  datatype Bitmap = Bitmap(width: nat, height: nat, origin: Origin)

  /** The states a texture request reports to its callback. */
  datatype TextureRequestState = Pending | Started | Progress | Finished | Timeout | Aborted | NotFound

  /** A downloaded texture asset; its data may be missing. */
  datatype AssetTexture = AssetTexture(assetData: Option<seq<bv8>>)

  /** One callback invocation. */
  datatype Response = Response(state: TextureRequestState, asset: Option<AssetTexture>)

  /** The signal the fetch loop waits on. */
  class DoneSignal {
    var isSet: bool
    constructor ()
      ensures !isSet
    {
      isSet := false;
    }
  }

  /** Whether a callback reaches the decoder: a finished request with data. */
  predicate Stores(r: Response)
  {
    r.state == Finished && r.asset.Some? && r.asset.value.assetData.Some?
  }

  /** Whether a callback stores an image: it reaches the decoder and the
      decoder accepts the data. */
  predicate StoresDecoded(r: Response, decode: seq<bv8> -> Option<Bitmap>)
  {
    Stores(r) && decode(r.asset.value.assetData.value).Some?
  }

  /** The texture download callback for slot `i`. A finished request with
      data is decoded; `decode` gives None where the JPEG2000 decoder
      throws. A decoded image is stored and the signal raised; when the
      decoder throws, neither happens and the callback reports the throw.
      Any other response only raises the signal. */
  method TextureDownloadCallback(detail: array<Option<Bitmap>>, i: nat, done: DoneSignal,
                                 response: Response, decode: seq<bv8> -> Option<Bitmap>)
    returns (threw: bool)
    requires i < detail.Length
    modifies detail, done
    ensures threw <==> Stores(response) && !StoresDecoded(response, decode)
    ensures threw ==> done.isSet == old(done.isSet)
    ensures !threw ==> done.isSet
    ensures StoresDecoded(response, decode) ==> detail[i] == decode(response.asset.value.assetData.value)
    ensures !StoresDecoded(response, decode) ==> detail[i] == old(detail[i])
    ensures forall k :: 0 <= k < detail.Length && k != i ==> detail[k] == old(detail[k])
  {
    threw := false;
    if response.state == Finished && response.asset.Some? && response.asset.value.assetData.Some? {
      var img := decode(response.asset.value.assetData.value);
      if img.None? {
        return true;
      }
      detail[i] := img;
    }
    done.isSet := true;
  }

  /** The slot a sequence of callbacks leaves, starting from `start`: it is
      filled exactly when it was filled already or some callback stored a
      decoded image. */
  function AfterCallbacks(start: Option<Bitmap>, calls: seq<Response>, decode: seq<bv8> -> Option<Bitmap>): (r: Option<Bitmap>)
    ensures r.Some? <==> start.Some? || exists k :: 0 <= k < |calls| && StoresDecoded(calls[k], decode)
    decreases |calls|
  {
    if calls == [] then start
    else
      var first := if StoresDecoded(calls[0], decode) then decode(calls[0].asset.value.assetData.value) else start;
      assert forall k :: 0 <= k < |calls| - 1 ==> calls[1..][k] == calls[k + 1];
      AfterCallbacks(first, calls[1..], decode)
  }

  /** The fetch loop: for each layer in order, reset the signal, request the
      texture by its (substituted) ID and wait. `callbacks(id)` are the
      callback invocations that arrive for that request before the loop
      moves on; none arrive when the wait times out. A callback whose
      decoder throws leaves the slot as it was (the exception stays on the
      network thread, and the wait runs out). */
  method FetchTextures(ids: array<Uuid>, detail: array<Option<Bitmap>>, done: DoneSignal,
                       callbacks: Uuid -> seq<Response>, decode: seq<bv8> -> Option<Bitmap>)
    requires ids.Length == 4 && detail.Length == 4
    modifies detail, done
    ensures forall i :: 0 <= i < 4 ==> detail[i] == AfterCallbacks(old(detail[i]), callbacks(ids[i]), decode)
  {
    var i := 0;
    while i < 4
      invariant 0 <= i <= 4
      invariant forall k :: 0 <= k < i ==> detail[k] == AfterCallbacks(old(detail[k]), callbacks(ids[k]), decode)
      invariant forall k :: i <= k < 4 ==> detail[k] == old(detail[k])
    {
      done.isSet := false;
      var calls := callbacks(ids[i]);
      var c := 0;
      while c < |calls|
        invariant 0 <= c <= |calls|
        invariant AfterCallbacks(detail[i], calls[c..], decode) == AfterCallbacks(old(detail[i]), calls, decode)
        invariant forall k :: 0 <= k < i ==> detail[k] == AfterCallbacks(old(detail[k]), callbacks(ids[k]), decode)
        invariant forall k :: i < k < 4 ==> detail[k] == old(detail[k])
      {
        assert calls[c..][1..] == calls[c + 1..];
        var threw := TextureDownloadCallback(detail, i, done, calls[c], decode);
        c := c + 1;
      }
      i := i + 1;
    }
  }

  /** What the fill-in leaves in slot i: a missing texture becomes a 2048
      square of the layer's default colour, a full-size one is kept, and any
      other size is resized to 256x256. */
  function FilledSlot(slot: Option<Bitmap>, i: nat): (r: Bitmap)
    requires i < 4
    ensures slot.None? ==> r.origin == SolidFill(DefaultColor[i])
    ensures slot.Some? && slot.value.width == OutputSize && slot.value.height == OutputSize ==> r == slot.value
    ensures slot.Some? && (slot.value.width != OutputSize || slot.value.height != OutputSize) ==>
              r.origin == Resized(slot.value)
  {
    match slot
    case None => Bitmap(OutputSize, OutputSize, SolidFill(DefaultColor[i]))
    case Some(b) =>
      if b.width != OutputSize || b.height != OutputSize then Bitmap(DetailSize, DetailSize, Resized(b))
      else b
  }

  /** Every filled slot is square and at least 256 wide, so the compositor's
      256x256 lock rectangle lies inside it. */
  lemma FilledSlotCoversLockRect(slot: Option<Bitmap>, i: nat)
    requires i < 4
    ensures var r := FilledSlot(slot, i);
            r.width == r.height && (r.width == OutputSize || r.width == DetailSize)
            && DetailSize <= r.width
  {
  }

  /** The fill-in loop over the four slots. */
  method FillMissingTextures(detail: array<Option<Bitmap>>)
    requires detail.Length == 4
    modifies detail
    ensures forall i :: 0 <= i < 4 ==> detail[i] == Some(FilledSlot(old(detail[i]), i))
  {
    var i := 0;
    while i < 4
      invariant 0 <= i <= 4
      invariant forall k :: 0 <= k < i ==> detail[k] == Some(FilledSlot(old(detail[k]), k))
      invariant forall k :: i <= k < 4 ==> detail[k] == old(detail[k])
    {
      if detail[i].None? {
        detail[i] := Some(Bitmap(OutputSize, OutputSize, SolidFill(DefaultColor[i])));
      } else if detail[i].value.width != OutputSize || detail[i].value.height != OutputSize {
        detail[i] := Some(Bitmap(DetailSize, DetailSize, Resized(detail[i].value)));
      }
      i := i + 1;
    }
  }

  // ---------------------------------------------------------------------
  // Layer map

  /** A 32-bit float: NaN, an infinity, or a finite value. */
  datatype Single = NaN | PositiveInfinity | NegativeInfinity | Finite(value: real)

  /** NaN becomes 0, then the value is clamped to [0, 3]. */
  function ClampLayer(v: Single): (r: real)
    ensures 0.0 <= r <= 3.0
    ensures v.Finite? && 0.0 <= v.value <= 3.0 ==> r == v.value
    ensures v.NaN? || v.NegativeInfinity? || (v.Finite? && v.value <= 0.0) ==> r == 0.0
    ensures v.PositiveInfinity? || (v.Finite? && v.value >= 3.0) ==> r == 3.0
  {
    match v
    case NaN => 0.0
    case PositiveInfinity => 3.0
    case NegativeInfinity => 0.0
    case Finite(x) => if x > 3.0 then 3.0 else if x < 0.0 then 0.0 else x
  }

  /** The clamp is monotone on finite values. */
  lemma ClampLayerMonotone(x: real, y: real)
    requires x <= y
    ensures ClampLayer(Finite(x)) <= ClampLayer(Finite(y))
  {
  }

  /** `newY * 256 + newX` for a cell of the layer map. */
  function LayerIndex(newX: nat, newY: nat): nat
  {
    newY * MapSize + newX
  }

  /** The layer-map index is a bijection from the 256x256 grid onto [0, 65536). */
  lemma LayerIndexBijection(newX: nat, newY: nat, k: nat)
    requires k < MapSize * MapSize
    ensures newX < MapSize && newY < MapSize ==> LayerIndex(newX, newY) < MapSize * MapSize
    ensures LayerIndex(k % MapSize, k / MapSize) == k
    ensures newX < MapSize && newY < MapSize && LayerIndex(newX, newY) == k ==>
              newX == k % MapSize && newY == k / MapSize
  {
  }

  /** The layer-map loop over a square heightmap of side 256 * d. `formula`
      stands for the noise and height-band arithmetic applied to a cell's
      coordinates and height; only its NaN handling and clamp are modelled.
      `written` records the index of every store in order: it is 0, 1, ...,
      65535, so every index is written exactly once. */
  method BuildLayerMap(heightmap: array2<real>, formula: (nat, nat, real) -> Single)
    returns (layermap: array<real>, ghost written: seq<nat>)
    requires heightmap.Length0 == heightmap.Length1
    requires heightmap.Length0 >= MapSize && heightmap.Length0 % MapSize == 0
    ensures fresh(layermap) && layermap.Length == MapSize * MapSize
    ensures |written| == MapSize * MapSize && forall k :: 0 <= k < |written| ==> written[k] == k
    ensures forall newX, newY :: 0 <= newX < MapSize && 0 <= newY < MapSize ==>
              layermap[LayerIndex(newX, newY)] == ClampLayer(formula(newX, newY, heightmap[newX, newY]))
    ensures LayerMap(layermap[..])
  {
    var side := heightmap.Length0;
    var diff := side / MapSize;
    layermap := new real[MapSize * MapSize];
    written := [];
    var y := 0;
    ghost var row := 0;
    while y < side
      invariant 0 <= row <= MapSize && y == row * diff
      invariant |written| == row * MapSize && forall k :: 0 <= k < |written| ==> written[k] == k
      invariant forall newX, newY :: 0 <= newX < MapSize && 0 <= newY < row ==>
                  layermap[LayerIndex(newX, newY)] == ClampLayer(formula(newX, newY, heightmap[newX, newY]))
    {
      StrideStep(row, diff);
      assert y / diff == row && y % diff == 0;
      ghost var rowWrites := FillLayerRow(heightmap, formula, layermap, y, diff);
      written := written + rowWrites;
      StrideStep(row + 1, diff);
      assert (row + 1) * diff == y + diff;
      y := y + diff;
      row := row + 1;
    }
    StrideStep(row, diff);
    assert row == MapSize;
    forall newX, newY | 0 <= newX < MapSize && 0 <= newY < MapSize
      ensures 0.0 <= layermap[..][LayerIndex(newX, newY)] <= 3.0
    {
      var v := formula(newX, newY, heightmap[newX, newY]);
      assert layermap[LayerIndex(newX, newY)] == ClampLayer(v);
    }
    ClampedCellsMakeLayerMap(layermap[..]);
  }

  /** One pass of the inner loop: row `newY = y / diff` of the layer map.
      Other rows are left as they were. */
  method FillLayerRow(heightmap: array2<real>, formula: (nat, nat, real) -> Single,
                      layermap: array<real>, y: nat, diff: nat)
    returns (ghost written: seq<nat>)
    requires heightmap.Length0 == heightmap.Length1 == MapSize * diff && diff >= 1
    requires layermap.Length == MapSize * MapSize
    requires y % diff == 0 && y < heightmap.Length0
    modifies layermap
    ensures y / diff < MapSize
    ensures |written| == MapSize && forall k :: 0 <= k < MapSize ==> written[k] == LayerIndex(k, y / diff)
    ensures forall newX :: 0 <= newX < MapSize ==>
              layermap[LayerIndex(newX, y / diff)] == ClampLayer(formula(newX, y / diff, heightmap[newX, y / diff]))
    ensures forall k :: 0 <= k < layermap.Length && (k < LayerIndex(0, y / diff) || LayerIndex(0, y / diff + 1) <= k) ==>
              layermap[k] == old(layermap[k])
  {
    var side := heightmap.Length0;
    var newY := y / diff;
    assert newY < MapSize by { StrideStep(newY, diff); assert y == newY * diff; }
    var base := LayerIndex(0, newY);
    assert LayerIndex(0, newY + 1) == base + MapSize <= layermap.Length;
    var x := 0;
    ghost var col := 0;
    written := [];
    while x < side
      invariant 0 <= col <= MapSize && x == col * diff
      invariant |written| == col && forall k :: 0 <= k < col ==> written[k] == base + k
      invariant forall newX :: 0 <= newX < col ==>
                  layermap[base + newX] == ClampLayer(formula(newX, newY, heightmap[newX, newY]))
      invariant forall k :: 0 <= k < layermap.Length && (k < base || base + MapSize <= k) ==>
                  layermap[k] == old(layermap[k])
    {
      StrideStep(col, diff);
      var newX := x / diff;
      FillLayerCell(heightmap, formula, layermap, newX, newY);
      written := written + [base + newX];
      assert (col + 1) * diff == x + diff;
      x := x + diff;
      col := col + 1;
    }
    StrideStep(col, diff);
  }

  /** One layer-map cell: `layermap[newY * 256 + newX]` gets the clamped
      layer value of `heightmap[newX, newY]`; no other cell changes. */
  method FillLayerCell(heightmap: array2<real>, formula: (nat, nat, real) -> Single,
                       layermap: array<real>, newX: nat, newY: nat)
    requires newX < MapSize && newY < MapSize && newX < heightmap.Length0 && newY < heightmap.Length1
    requires layermap.Length == MapSize * MapSize
    modifies layermap
    ensures layermap[LayerIndex(newX, newY)] == ClampLayer(formula(newX, newY, heightmap[newX, newY]))
    ensures forall k :: 0 <= k < layermap.Length && k != LayerIndex(newX, newY) ==> layermap[k] == old(layermap[k])
  {
    var height := heightmap[newX, newY];
    layermap[newY * MapSize + newX] := ClampLayer(formula(newX, newY, height));
  }

  /** A map whose every cell holds a clamped value is a layer map. */
  lemma ClampedCellsMakeLayerMap(m: seq<real>)
    requires |m| == MapSize * MapSize
    requires forall newX, newY :: 0 <= newX < MapSize && 0 <= newY < MapSize ==>
               0.0 <= m[LayerIndex(newX, newY)] <= 3.0
    ensures LayerMap(m)
  {
    forall k | 0 <= k < |m|
      ensures 0.0 <= m[k] <= 3.0
    {
      LayerIndexBijection(0, 0, k);
    }
  }

  /** The strided loop counter `c * d` divides back to `c`, and stays below
      the side `256 * d` exactly while `c < 256`. */
  lemma StrideStep(c: nat, d: nat)
    requires d >= 1
    ensures (c * d) / d == c && (c * d) % d == 0
    ensures c * d < MapSize * d <==> c < MapSize
  {
    var q, r := (c * d) / d, (c * d) % d;
    assert c * d == d * q + r && 0 <= r < d;
    assert d * (c - q) == r by {
      assert d * (c - q) == d * c - d * q;
    }
    MulSign(d, c - q);
    MulSign(d, MapSize - c);
    assert MapSize * d - c * d == d * (MapSize - c);
  }

  /** The sign of `d * k` follows the sign of k, in steps of at least d. */
  lemma MulSign(d: nat, k: int)
    requires d >= 1
    ensures k >= 1 ==> d * k >= d
    ensures k <= -1 ==> d * k + d <= 0
  {
    if k >= 1 {
      MulAtLeast(d, k);
    } else if k <= -1 {
      MulAtLeast(d, -k);
      assert d * k + d * -k == 0;
    }
  }

  /** A positive multiple of d is at least d. */
  lemma {:induction false} MulAtLeast(d: nat, k: nat)
    requires d >= 1 && k >= 1
    ensures d * k >= d
    decreases k
  {
    if k > 1 {
      MulAtLeast(d, k - 1);
      assert d * k == d * (k - 1) + d;
    }
  }

  // ---------------------------------------------------------------------
  // Compositor indices

  /** `outputSize / RegionSize` = 2048 / 256: output pixels per layer-map
      cell. */
  const Ratio: nat := 8

  /** The five layer-map indices the compositor reads for output pixel
      (x, y): the pixel's own cell, and the cells of its right, left, lower
      and upper neighbours, clamped to the image with min/max. */
  datatype Taps = Taps(centre: nat, right: nat, left: nat, down: nat, up: nat)

  function Min(a: int, b: int): int { if a < b then a else b }
  function Max(a: int, b: int): int { if a < b then b else a }

  function TapsAt(x: nat, y: nat): Taps
  {
    var cx, cy := x / Ratio, y / Ratio;
    var rx, lx := Min(OutputSize - 1, x + 1) / Ratio, Max(0, x - 1) / Ratio;
    var dy, uy := Min(OutputSize - 1, y + 1) / Ratio, Max(0, y - 1) / Ratio;
    assert 0 <= rx && 0 <= lx && 0 <= dy && 0 <= uy;
    Taps(cy * MapSize + cx, cy * MapSize + rx, cy * MapSize + lx, dy * MapSize + cx, uy * MapSize + cx)
  }

  /** For every output pixel, all five indices lie in the layer map, and each
      neighbour is the centre cell or the adjacent cell in the same row or
      column: the clamps stop reads from wrapping to another row. */
  lemma {:induction false} TapsInRange(x: nat, y: nat)
    requires x < OutputSize && y < OutputSize
    ensures var t := TapsAt(x, y);
            && t.centre < MapSize * MapSize && t.right < MapSize * MapSize && t.left < MapSize * MapSize
            && t.down < MapSize * MapSize && t.up < MapSize * MapSize
            && (t.right == t.centre || t.right == t.centre + 1)
            && (t.left == t.centre || t.left + 1 == t.centre)
            && (t.down == t.centre || t.down == t.centre + MapSize)
            && (t.up == t.centre || t.up + MapSize == t.centre)
            && t.centre == LayerIndex(x / Ratio, y / Ratio)
  {
    assert Ratio == 8;
    var cx := x / 8;
    var cy := y / 8;
    assert cx < MapSize && cy < MapSize;
    var rx := Min(OutputSize - 1, x + 1) / 8;
    assert rx == cx || (rx == cx + 1 && cx + 1 < MapSize);
    var lx := Max(0, x - 1) / 8;
    assert lx == cx || lx + 1 == cx;
    var dy := Min(OutputSize - 1, y + 1) / 8;
    assert dy == cy || (dy == cy + 1 && cy + 1 < MapSize);
    var uy := Max(0, y - 1) / 8;
    assert uy == cy || uy + 1 == cy;
  }

  /** The two textures blended at a layer value: `l0 = floor(layer)` and
      `l1 = min(l0 + 1, 3)`. */
  function SelectLayers(layer: real): (r: (int, int))
    requires 0.0 <= layer <= 3.0
    ensures 0 <= r.0 <= r.1 <= 3
    ensures r.0 as real <= layer < r.0 as real + 1.0
    ensures r.1 == r.0 <==> r.0 == 3
    ensures r.0 < 3 ==> r.1 == r.0 + 1
  {
    var l0 := layer.Floor;
    (l0, Min(l0 + 1, 3))
  }

  /** Everything the blend of one output pixel reads: the five layer
      values, the selected texture indices of each, and the texel position
      (x % 256, y % 256) inside the 256x256 block of each detail texture. */
  datatype Sample = Sample(layer: real, layerX: real, layerXX: real, layerY: real, layerYY: real,
                           l0: int, l1: int, lX: int, lXX: int, lY: int, lYY: int,
                           texelX: nat, texelY: nat)

  /** A layer map as BuildLayerMap leaves it. */
  ghost predicate LayerMap(m: seq<real>)
  {
    |m| == MapSize * MapSize && forall k :: 0 <= k < |m| ==> 0.0 <= m[k] <= 3.0
  }

  function SampleAt(m: seq<real>, x: nat, y: nat): (s: Sample)
    requires LayerMap(m) && x < OutputSize && y < OutputSize
    ensures 0 <= s.l0 <= s.l1 <= 3
    ensures 0 <= s.lX <= 3 && 0 <= s.lXX <= 3 && 0 <= s.lY <= 3 && 0 <= s.lYY <= 3
    ensures s.texelX < DetailSize && s.texelY < DetailSize
  {
    TapsInRange(x, y);
    var t := TapsAt(x, y);
    var sel := SelectLayers(m[t.centre]);
    Sample(m[t.centre], m[t.right], m[t.left], m[t.down], m[t.up],
           sel.0, sel.1, m[t.right].Floor, m[t.left].Floor, m[t.down].Floor, m[t.up].Floor,
           x % DetailSize, y % DetailSize)
  }

  /** The output pixel slot `y * 2048 + x` (the row stride of a 24-bit
      2048-wide bitmap, in pixels). */
  function PixelIndex(x: nat, y: nat): nat
  {
    y * OutputSize + x
  }

  /** The compositing loop: every output pixel is the blend of its sample.
      The blend arithmetic and its byte casts are a parameter. */
  method Composite<Pixel>(layermap: array<real>, blend: Sample -> Pixel, fill: Pixel)
    returns (output: array<Pixel>)
    requires LayerMap(layermap[..])
    ensures fresh(output) && output.Length == OutputSize * OutputSize
    ensures forall x, y :: 0 <= x < OutputSize && 0 <= y < OutputSize ==>
              output[PixelIndex(x, y)] == blend(SampleAt(layermap[..], x, y))
  {
    output := new Pixel[OutputSize * OutputSize](_ => fill);
    var m := layermap[..];
    var y := 0;
    while y < OutputSize
      invariant 0 <= y <= OutputSize
      invariant forall i, j :: 0 <= i < OutputSize && 0 <= j < y ==>
                  output[PixelIndex(i, j)] == blend(SampleAt(m, i, j))
    {
      CompositeRow(m, blend, output, y);
      y := y + 1;
    }
  }

  /** The inner loop of the compositing pass: row y of the output. Other
      rows are left as they were. */
  method CompositeRow<Pixel>(m: seq<real>, blend: Sample -> Pixel, output: array<Pixel>, y: nat)
    requires LayerMap(m) && output.Length == OutputSize * OutputSize && y < OutputSize
    modifies output
    ensures forall i :: 0 <= i < OutputSize ==> output[PixelIndex(i, y)] == blend(SampleAt(m, i, y))
    ensures forall k :: 0 <= k < output.Length && (k < PixelIndex(0, y) || PixelIndex(0, y + 1) <= k) ==>
              output[k] == old(output[k])
  {
    var x := 0;
    while x < OutputSize
      invariant 0 <= x <= OutputSize
      invariant forall i :: 0 <= i < x ==> output[PixelIndex(i, y)] == blend(SampleAt(m, i, y))
      invariant forall k :: 0 <= k < output.Length && (k < PixelIndex(0, y) || PixelIndex(0, y + 1) <= k) ==>
                  output[k] == old(output[k])
    {
      ComposePixel(m, blend, output, x, y);
      x := x + 1;
    }
  }

  /** One output pixel; every other pixel is left as it was. */
  method ComposePixel<Pixel>(m: seq<real>, blend: Sample -> Pixel, output: array<Pixel>, x: nat, y: nat)
    requires LayerMap(m) && output.Length == OutputSize * OutputSize && x < OutputSize && y < OutputSize
    modifies output
    ensures output[PixelIndex(x, y)] == blend(SampleAt(m, x, y))
    ensures forall k :: 0 <= k < output.Length && k != PixelIndex(x, y) ==> output[k] == old(output[k])
  {
    output[PixelIndex(x, y)] := blend(SampleAt(m, x, y));
  }

  /** Splat's skeleton: substitute IDs in the caller's array, fetch the
      four textures by the substituted IDs, fill in missing ones, build the
      layer map, then composite. The final 270-degree rotation is not
      modelled. */
  method Splat<Pixel>(ids: array<Uuid>, heightmap: array2<real>, done: DoneSignal,
                      callbacks: Uuid -> seq<Response>, decode: seq<bv8> -> Option<Bitmap>,
                      formula: (nat, nat, real) -> Single, blend: Sample -> Pixel, fill: Pixel)
    returns (detail: array<Option<Bitmap>>, output: array<Pixel>)
    requires ids.Length == 4
    requires heightmap.Length0 == heightmap.Length1
    requires heightmap.Length0 >= MapSize && heightmap.Length0 % MapSize == 0
    modifies ids, done
    ensures ids[..] == Substituted(old(ids[..]))
    ensures fresh(detail) && detail.Length == 4
    ensures forall i :: 0 <= i < 4 ==>
              detail[i] == Some(FilledSlot(AfterCallbacks(None, callbacks(ids[i]), decode), i))
    ensures fresh(output) && output.Length == OutputSize * OutputSize
    ensures forall x, y :: 0 <= x < OutputSize && 0 <= y < OutputSize ==>
              output[PixelIndex(x, y)] == blend(SampleAt(LayerMapOf(heightmap, formula), x, y))
  {
    SubstituteDefaultIds(ids);
    detail := new Option<Bitmap>[4](_ => None);
    FetchTextures(ids, detail, done, callbacks, decode);
    FillMissingTextures(detail);
    var layermap, written := BuildLayerMap(heightmap, formula);
    forall k | 0 <= k < MapSize * MapSize
      ensures layermap[k] == LayerMapOf(heightmap, formula)[k]
    {
      LayerIndexBijection(k % MapSize, k / MapSize, k);
    }
    assert layermap[..] == LayerMapOf(heightmap, formula);
    output := Composite(layermap, blend, fill);
  }

  /** The layer map of a heightmap, cell by cell: cell (newX, newY) at
      `LayerIndex(newX, newY)` holds the clamped layer value of
      `heightmap[newX, newY]`. */
  ghost function LayerMapOf(heightmap: array2<real>, formula: (nat, nat, real) -> Single): (m: seq<real>)
    requires heightmap.Length0 >= MapSize && heightmap.Length1 >= MapSize
    reads heightmap
    ensures LayerMap(m)
  {
    seq(MapSize * MapSize, k requires 0 <= k < MapSize * MapSize reads heightmap =>
          ClampLayer(formula(k % MapSize, k / MapSize, heightmap[k % MapSize, k / MapSize])))
  }
}
