/**
 * Per-region terrain: the 256x256 height table filled from 16x16 land
 * patches, the 4x4 mesh tiles of 65x65 vertices built from it, and the flags
 * that throttle mesh rebuilds and guard texture passes.
 *
 * Heights are `real` (the source's `float`). The two work items that the
 * source hands to the thread pool are the methods `BuildTerrain` and
 * `ComposeTexture`; `Update` reports whether it dispatched each one.
 */
module Terrain {
  import opened Wrappers
  import Scheduler

  const RegionSize: nat := 256
  const PatchSide: nat := 16          // land patches are 16x16 samples
  const TilesPerSide: nat := 4        // terrainSize / 16 / 4
  const QuadsPerSide: nat := 64
  const VertsPerSide: nat := 65
  const VertexCount: nat := 4225      // 65 * 65
  const TriIndexCount: nat := 24576   // 64 * 64 * 2 * 3
  const RebuildInterval: real := 10.0 // seconds of quiescence between rebuilds

  /** A land patch as libomv stores it: its 16x16 samples, if decoded. */
  datatype TerrainPatch = TerrainPatch(data: Option<seq<real>>)

  /** The simulator as the terrain sees it: `Sim.Terrain`, 256 patch slots. */
  datatype Simulator = Simulator(terrain: Option<seq<Option<TerrainPatch>>>)

  predicate WellFormedTerrain(t: seq<Option<TerrainPatch>>)
  {
    && |t| == 256
    && forall n :: 0 <= n < |t| && t[n].Some? && t[n].value.data.Some? ==> |t[n].value.data.value| == 256
  }

  // ---------------------------------------------------------------------
  // Height table addressing
  // ---------------------------------------------------------------------

  /** Patch holding cell (x, y): `(x / 16) * 16 + y / 16`. */
  function PatchNumber(x: nat, y: nat): nat
  {
    (x / 16) * 16 + y / 16
  }

  /** Sample of that patch for cell (x, y): `(x % 16) * 16 + y % 16`. */
  function SampleIndex(x: nat, y: nat): nat
  {
    (x % 16) * 16 + y % 16
  }

  /** Height copied into `heightTable[x, y]`: the sample, or 0 when the
      patch or its data is missing. */
  function HeightAt(t: seq<Option<TerrainPatch>>, x: nat, y: nat): real
    requires WellFormedTerrain(t) && x < 256 && y < 256
  {
    PatchAddressing(x, y);
    var n := PatchNumber(x, y);
    if t[n].Some? && t[n].value.data.Some? then t[n].value.data.value[SampleIndex(x, y)] else 0.0
  }

  /** The cell addressing is a bijection between the 256x256 cells and the
      (patch, sample) pairs of 256 patches of 256 samples: both indices are in
      [0, 256), and the cell is recovered from the pair. */
  lemma PatchAddressing(x: nat, y: nat)
    requires x < 256 && y < 256
    ensures PatchNumber(x, y) < 256 && SampleIndex(x, y) < 256
    ensures (PatchNumber(x, y) / 16) * 16 + SampleIndex(x, y) / 16 == x
    ensures (PatchNumber(x, y) % 16) * 16 + SampleIndex(x, y) % 16 == y
  {
    var n, k := PatchNumber(x, y), SampleIndex(x, y);
    assert n / 16 == x / 16 && n % 16 == y / 16 by { DivModUnique(n, x / 16, y / 16); }
    assert k / 16 == x % 16 && k % 16 == y % 16 by { DivModUnique(k, x % 16, y % 16); }
  }

  /** Every (patch, sample) pair is read for exactly one cell. */
  lemma PatchAddressingOnto(n: nat, k: nat)
    requires n < 256 && k < 256
    ensures var x, y := (n / 16) * 16 + k / 16, (n % 16) * 16 + k % 16;
            x < 256 && y < 256 && PatchNumber(x, y) == n && SampleIndex(x, y) == k
  {
    var x, y := (n / 16) * 16 + k / 16, (n % 16) * 16 + k % 16;
    assert x / 16 == n / 16 && x % 16 == k / 16 by { DivModUnique(x, n / 16, k / 16); }
    assert y / 16 == n % 16 && y % 16 == k % 16 by { DivModUnique(y, n % 16, k % 16); }
  }

  lemma DivModUnique(v: nat, q: nat, r: nat)
    requires r < 16 && v == q * 16 + r
    ensures v / 16 == q && v % 16 == r
  {
  }

  // ---------------------------------------------------------------------
  // Tile geometry
  // ---------------------------------------------------------------------

  datatype Vector3 = Vector3(x: real, y: real, z: real)
  datatype Vector2 = Vector2(u: real, v: real)

  const Up: Vector3 := Vector3(0.0, 1.0, 0.0)

  /** `PatchMesh`: one tile's buffers. */
  datatype PatchMesh = PatchMesh(vertices: seq<Vector3>, normals: seq<Vector3>, uvs: seq<Vector2>, tris: seq<int>)

  /** `Mathf.Clamp(g, 0, 255)`. */
  function ClampCell(g: int): (r: nat)
    ensures r <= 255
    ensures 0 <= g <= 255 ==> r == g
  {
    if g < 0 then 0 else if g > 255 then 255 else g
  }

  /** Vertex slot of grid point (x, y): `x + y * 65`. */
  function VertexSlot(x: nat, y: nat): nat
  {
    x + y * 65
  }

  /** Index-buffer slot of corner k of quad (x, y): `(x + y * 64) * 6 + k`. */
  function TriSlot(x: nat, y: nat, k: nat): nat
  {
    (x + y * 64) * 6 + k
  }

  /** Vertex index stored at corner k of quad (x, y): triangles
      (a, a+65, a+1) and (a+65, a+66, a+1) with a = x + y * 65. */
  function QuadCorner(x: nat, y: nat, k: nat): nat
    requires k < 6
  {
    var a := VertexSlot(x, y);
    [a, a + 65, a + 1, a + 65, a + 66, a + 1][k]
  }

  /** The global column or row a tile's local coordinate samples. */
  function GlobalCell(tile: nat, local: nat): nat
  {
    ClampCell(local + tile * 64)
  }

  /** Vertex (x, height, y), the height read transposed as
      `heightTable[globalY, globalX]`. */
  function VertexAt(h: array2<real>, tileX: nat, tileY: nat, x: nat, y: nat): Vector3
    requires h.Length0 == 256 && h.Length1 == 256
    reads h
  {
    Vector3(x as real, h[GlobalCell(tileY, y), GlobalCell(tileX, x)], y as real)
  }

  /** UV: the unclamped global cell divided by 255. */
  function UvAt(tileX: nat, tileY: nat, x: nat, y: nat): Vector2
  {
    Vector2((x + tileX * 64) as real / 255.0, (y + tileY * 64) as real / 255.0)
  }

  /** The vertex slots are a bijection between the 65x65 grid and [0, 4225). */
  lemma VertexSlotBijection(x: nat, y: nat, i: nat)
    ensures x < 65 && y < 65 ==> VertexSlot(x, y) < VertexCount
    ensures x < 65 && y < 65 ==> VertexSlot(x, y) % 65 == x && VertexSlot(x, y) / 65 == y
    ensures i < VertexCount ==> i % 65 < 65 && i / 65 < 65 && VertexSlot(i % 65, i / 65) == i
  {
  }

  /** Every slot of a tile's index buffer belongs to exactly one quad corner:
      quad (x, y) owns slots `(x + y*64)*6 .. +5`, and the slots of distinct
      corners differ. */
  lemma TriSlotBijection(x: nat, y: nat, k: nat, s: nat)
    ensures x < 64 && y < 64 && k < 6 ==>
              TriSlot(x, y, k) < TriIndexCount
              && TriSlot(x, y, k) % 6 == k && (TriSlot(x, y, k) / 6) % 64 == x && (TriSlot(x, y, k) / 6) / 64 == y
    ensures s < TriIndexCount ==>
              (s / 6) % 64 < 64 && (s / 6) / 64 < 64 && TriSlot((s / 6) % 64, (s / 6) / 64, s % 6) == s
  {
    if x < 64 && y < 64 && k < 6 {
      var q := x + y * 64;
      assert TriSlot(x, y, k) / 6 == q && TriSlot(x, y, k) % 6 == k;
    }
  }

  /** Every index a quad writes names a vertex of the 65x65 grid, and the
      two triangles share the diagonal (a+65, a+1). */
  lemma QuadCornersInRange(x: nat, y: nat)
    requires x < 64 && y < 64
    ensures forall k :: 0 <= k < 6 ==> QuadCorner(x, y, k) < VertexCount
    ensures QuadCorner(x, y, 1) == QuadCorner(x, y, 3) && QuadCorner(x, y, 2) == QuadCorner(x, y, 5)
    ensures QuadCorner(x, y, 0) == VertexSlot(x, y) && QuadCorner(x, y, 4) == VertexSlot(x + 1, y + 1)
  {
  }

  /** The clamp changes a sampled coordinate only on the far edge of the last
      tile, where the unclamped value is 256. */
  lemma ClampOnlyAtFarEdge(tile: nat, local: nat)
    requires tile < TilesPerSide && local < VertsPerSide
    ensures local + tile * 64 <= 256
    ensures GlobalCell(tile, local) != local + tile * 64 <==> tile == 3 && local == 64
  {
  }

  // ---------------------------------------------------------------------
  // Rebuild gating and texture guard, as a step model of the flags
  // ---------------------------------------------------------------------

  datatype Flags = Flags(
    modified: bool,
    inProgress: bool,
    elapsed: real,           // terrainTimeSinceUpdate
    fetching: bool,          // fetchingTerrainTexture
    textureNeedsUpdate: bool)

  /** Field initialisers: `Modified = true`, everything else false or 0. */
  const InitialFlags: Flags := Flags(true, false, 0.0, false, false)

  datatype FrameResult = FrameResult(flags: Flags, rebuildDispatched: bool, textureDispatched: bool)

  /** The rebuild condition, with the frame time already added. */
  predicate RebuildDue(f: Flags)
  {
    f.modified && f.elapsed > RebuildInterval && !f.inProgress
  }

  /** `ResetTerrain`'s effect on the flags. */
  function AfterReset(f: Flags): Flags
  {
    f.(fetching := false, modified := true)
  }

  /** The mesh work item's completion. */
  function AfterMeshWork(f: Flags): Flags
  {
    f.(inProgress := false, modified := false, textureNeedsUpdate := true, elapsed := 0.0)
  }

  /** The texture work item's completion. */
  function AfterTextureWork(f: Flags): Flags
  {
    f.(fetching := false, textureNeedsUpdate := false)
  }

  /** `UpdateTerrainTexture` when a pass is needed. */
  function TexturePass(f: Flags): FrameResult
  {
    if f.textureNeedsUpdate && !f.fetching then FrameResult(f.(fetching := true), false, true)
    else FrameResult(f, false, false)
  }

  /** One `Update` with frame time `dt`; `hasTerrain` says whether
      `Sim.Terrain` is there when the rebuild would be dispatched. */
  function Frame(f: Flags, dt: real, hasTerrain: bool): FrameResult
  {
    var f1 := f.(elapsed := f.elapsed + dt);
    if RebuildDue(f1) then
      var t := TexturePass(AfterReset(f1.(inProgress := true)));
      FrameResult(t.flags, hasTerrain, t.textureDispatched)
    else TexturePass(f1)
  }

  /** A rebuild is dispatched exactly when `Modified`, more than 10 s since the
      last one, none in progress, and the terrain is there; starting one
      sets `terrainInProgress` and `Modified`, and without terrain nothing
      clears `terrainInProgress` again. A texture pass is dispatched only when
      none is being fetched, and dispatching sets the guard. */
  lemma FrameGating(f: Flags, dt: real, hasTerrain: bool)
    ensures var r := Frame(f, dt, hasTerrain);
            var due := f.modified && f.elapsed + dt > 10.0 && !f.inProgress;
            && (r.rebuildDispatched <==> due && hasTerrain)
            && (due ==> r.flags.inProgress && r.flags.modified)
            && (!due ==> r.flags.inProgress == f.inProgress && r.flags.modified == f.modified)
            && (r.textureDispatched ==> r.flags.fetching && r.flags.textureNeedsUpdate)
            && (r.textureDispatched <==> f.textureNeedsUpdate && (due || !f.fetching))
            && r.flags.elapsed == f.elapsed + dt
  {
  }

  // ---------------------------------------------------------------------
  // The region over time: frames, land-patch events, work-item completions
  // ---------------------------------------------------------------------

  /** The flags plus the number of mesh and texture work items in flight. */
  datatype Region = Region(flags: Flags, meshJobs: nat, textureJobs: nat)

  datatype Event =
    | FrameEvent(dt: real, hasTerrain: bool)
    | LandPatch               // Terrain_LandPatchReceived: Modified = true
    | MeshWorkDone            // a mesh work item finishes
    | TextureWorkDone         // a texture work item finishes

  const InitialRegion: Region := Region(InitialFlags, 0, 0)

  function Step(r: Region, e: Event): Region
  {
    match e
    case FrameEvent(dt, has) =>
      var o := Frame(r.flags, dt, has);
      Region(o.flags, r.meshJobs + (if o.rebuildDispatched then 1 else 0),
             r.textureJobs + (if o.textureDispatched then 1 else 0))
    case LandPatch => r.(flags := r.flags.(modified := true))
    case MeshWorkDone =>
      if r.meshJobs == 0 then r else Region(AfterMeshWork(r.flags), r.meshJobs - 1, r.textureJobs)
    case TextureWorkDone =>
      if r.textureJobs == 0 then r else Region(AfterTextureWork(r.flags), r.meshJobs, r.textureJobs - 1)
  }

  function Run(r: Region, events: seq<Event>): Region
    decreases |events|
  {
    if events == [] then r else Run(Step(r, events[0]), events[1..])
  }

  /** At most one mesh rebuild is in flight, and only while
      `terrainInProgress` is set. */
  predicate MeshGuard(r: Region)
  {
    r.meshJobs <= 1 && (r.meshJobs == 1 ==> r.flags.inProgress)
  }

  /** Every event keeps at most one mesh rebuild in flight. */
  lemma {:induction false} MeshGuardHolds(r: Region, events: seq<Event>)
    requires MeshGuard(r)
    ensures MeshGuard(Run(r, events))
    decreases |events|
  {
    if events != [] {
      MeshGuardHolds(Step(r, events[0]), events[1..]);
    }
  }

  /** A region whose rebuild started while `Sim.Terrain` was missing stays
      stuck: `terrainInProgress` is never cleared and no later frame
      dispatches a rebuild, whatever happens afterwards. */
  lemma {:induction false} StuckWithoutTerrain(r: Region, events: seq<Event>)
    requires r.flags.inProgress && r.meshJobs == 0
    ensures Run(r, events).flags.inProgress && Run(r, events).meshJobs == 0
    decreases |events|
  {
    if events != [] {
      var r' := Step(r, events[0]);
      assert r'.flags.inProgress && r'.meshJobs == 0;
      StuckWithoutTerrain(r', events[1..]);
    }
  }

  /** The frame that started such a rebuild is the one that leaves it stuck. */
  lemma MissingTerrainStartsStuck(r: Region, dt: real)
    requires MeshGuard(r) && RebuildDue(r.flags.(elapsed := r.flags.elapsed + dt))
    ensures var r' := Step(r, FrameEvent(dt, false)); r'.flags.inProgress && r'.meshJobs == 0
  {
  }

  /** A land patch that arrives while a rebuild is in flight sets `Modified`,
      but the rebuild's completion clears it again, so no later frame
      rebuilds for that patch unless another one arrives. */
  lemma PatchDuringRebuildCleared(r: Region, dt: real, hasTerrain: bool)
    requires r.meshJobs == 1
    ensures var r' := Step(Step(r, LandPatch), MeshWorkDone);
            !r'.flags.modified && !r'.flags.inProgress &&
            !Step(r', FrameEvent(dt, hasTerrain)).flags.inProgress
  {
  }

  /** `ResetTerrain` clears `fetchingTerrainTexture` even while a texture
      pass is in flight, so the same frame can dispatch a second one: a
      reachable run from the initial region ends with two in flight. */
  lemma ResetAllowsSecondTexturePass()
    ensures Run(InitialRegion, [FrameEvent(11.0, true), MeshWorkDone, FrameEvent(0.0, true),
                                LandPatch, FrameEvent(11.0, true)]).textureJobs == 2
  {
    var r1 := Step(InitialRegion, FrameEvent(11.0, true));
    assert r1 == Region(Flags(true, true, 11.0, false, false), 1, 0);
    var r2 := Step(r1, MeshWorkDone);
    assert r2 == Region(Flags(false, false, 0.0, false, true), 0, 0);
    var r3 := Step(r2, FrameEvent(0.0, true));
    assert r3 == Region(Flags(false, false, 0.0, true, true), 0, 1);
    var r4 := Step(r3, LandPatch);
    var r5 := Step(r4, FrameEvent(11.0, true));
    assert r5.textureJobs == 2;
    var es := [FrameEvent(11.0, true), MeshWorkDone, FrameEvent(0.0, true), LandPatch, FrameEvent(11.0, true)];
    assert es[1..][1..][1..][1..][1..] == [];
  }

  /** The guard as evidently intended: a rebuild resets `Modified` but leaves
      `fetchingTerrainTexture` to the pass that set it. */
  function FrameGuarded(f: Flags, dt: real, hasTerrain: bool): FrameResult
  {
    var f1 := f.(elapsed := f.elapsed + dt);
    if RebuildDue(f1) then
      var t := TexturePass(f1.(inProgress := true, modified := true));
      FrameResult(t.flags, hasTerrain, t.textureDispatched)
    else TexturePass(f1)
  }

  function StepGuarded(r: Region, e: Event): Region
  {
    match e
    case FrameEvent(dt, has) =>
      var o := FrameGuarded(r.flags, dt, has);
      Region(o.flags, r.meshJobs + (if o.rebuildDispatched then 1 else 0),
             r.textureJobs + (if o.textureDispatched then 1 else 0))
    case _ => Step(r, e)
  }

  function RunGuarded(r: Region, events: seq<Event>): Region
    decreases |events|
  {
    if events == [] then r else RunGuarded(StepGuarded(r, events[0]), events[1..])
  }

  /** One texture pass in flight exactly while the guard is set. */
  predicate TextureGuard(r: Region)
  {
    r.textureJobs == (if r.flags.fetching then 1 else 0)
  }

  /** With the guarded reset, every run from a guarded region keeps at most
      one texture pass (and one mesh rebuild) in flight. */
  lemma {:induction false} GuardedRegionKeepsOneTexturePass(r: Region, events: seq<Event>)
    requires TextureGuard(r) && MeshGuard(r)
    ensures TextureGuard(RunGuarded(r, events)) && MeshGuard(RunGuarded(r, events))
    ensures RunGuarded(r, events).textureJobs <= 1
    decreases |events|
  {
    if events != [] {
      GuardedRegionKeepsOneTexturePass(StepGuarded(r, events[0]), events[1..]);
    }
  }

  // ---------------------------------------------------------------------
  // The region terrain object
  // ---------------------------------------------------------------------

  class RegionTerrain {
    var fetchingTerrainTexture: bool
    var terrainTextureNeedsUpdate: bool
    var hasTerrainImage: bool           // terrainImage != null
    var modified: bool
    var terrainInProgress: bool
    const heightTable: array2<real>
    var terrainTimeSinceUpdate: real
    var sim: Simulator

    function CurrentFlags(): Flags
      reads this
    {
      Flags(modified, terrainInProgress, terrainTimeSinceUpdate, fetchingTerrainTexture, terrainTextureNeedsUpdate)
    }

    predicate Valid()
      reads this
    {
      heightTable.Length0 == RegionSize && heightTable.Length1 == RegionSize
    }

    constructor (sim: Simulator)
      ensures Valid() && fresh(heightTable) && this.sim == sim
      ensures CurrentFlags() == InitialFlags && !hasTerrainImage
    {
      this.sim := sim;
      fetchingTerrainTexture, terrainTextureNeedsUpdate, hasTerrainImage := false, false, false;
      modified, terrainInProgress, terrainTimeSinceUpdate := true, false, 0.0;
      heightTable := new real[256, 256];
    }

    /** Per-frame gating. */
    method Update(dt: real) returns (rebuildDispatched: bool, textureDispatched: bool)
      requires Valid()
      modifies this
      ensures Valid() && sim == old(sim)
      ensures FrameResult(CurrentFlags(), rebuildDispatched, textureDispatched) == Frame(old(CurrentFlags()), dt, sim.terrain.Some?)
      ensures hasTerrainImage == (old(hasTerrainImage) && !RebuildDue(old(CurrentFlags()).(elapsed := old(terrainTimeSinceUpdate) + dt)))
    {
      terrainTimeSinceUpdate := terrainTimeSinceUpdate + dt;
      rebuildDispatched := false;
      if modified && terrainTimeSinceUpdate > RebuildInterval {
        if !terrainInProgress {
          terrainInProgress := true;
          ResetTerrain();
          rebuildDispatched := UpdateTerrain();
        }
      }
      textureDispatched := false;
      if terrainTextureNeedsUpdate {
        textureDispatched := UpdateTerrainTexture();
      }
    }

    /** Disposes the last texture image and re-arms the flags. */
    method ResetTerrain()
      modifies this
      ensures !hasTerrainImage && !fetchingTerrainTexture && modified
      ensures CurrentFlags() == AfterReset(old(CurrentFlags()))
      ensures sim == old(sim)
    {
      if hasTerrainImage {
        hasTerrainImage := false;
      }
      fetchingTerrainTexture := false;
      modified := true;
    }

    /** Returns without dispatching when `Sim.Terrain` is null; the mesh work
        item (`BuildTerrain`) is dispatched otherwise. */
    method UpdateTerrain() returns (dispatched: bool)
      ensures dispatched == sim.terrain.Some?
    {
      if sim.terrain.None? {
        return false;
      }
      dispatched := true;
    }

    /** Dispatches a texture work item (`ComposeTexture`) unless one is
        being fetched; the guard is set before dispatch. */
    method UpdateTerrainTexture() returns (dispatched: bool)
      modifies this
      ensures dispatched == !old(fetchingTerrainTexture)
      ensures fetchingTerrainTexture
      ensures CurrentFlags() == old(CurrentFlags()).(fetching := true)
      ensures hasTerrainImage == old(hasTerrainImage) && sim == old(sim)
    {
      dispatched := false;
      if !fetchingTerrainTexture {
        fetchingTerrainTexture := true;
        dispatched := true;
      }
    }

    /** Copies every cell from its land patch, 0 where the patch or its data
        is missing. */
    method FillHeightTable(t: seq<Option<TerrainPatch>>)
      requires Valid() && WellFormedTerrain(t)
      modifies heightTable
      ensures forall x, y :: 0 <= x < 256 && 0 <= y < 256 ==> heightTable[x, y] == HeightAt(t, x, y)
    {
      var x := 0;
      while x < 256
        invariant 0 <= x <= 256
        invariant forall i, j :: 0 <= i < x && 0 <= j < 256 ==> heightTable[i, j] == HeightAt(t, i, j)
      {
        var y := 0;
        while y < 256
          invariant 0 <= y <= 256
          invariant forall i, j :: 0 <= i < x && 0 <= j < 256 ==> heightTable[i, j] == HeightAt(t, i, j)
          invariant forall j :: 0 <= j < y ==> heightTable[x, j] == HeightAt(t, x, j)
        {
          var z := 0.0;
          var patchNr := (x / 16) * 16 + y / 16;
          PatchAddressing(x, y);
          if t[patchNr].Some? && t[patchNr].value.data.Some? {
            var data := t[patchNr].value.data.value;
            z := data[(x % 16) * 16 + y % 16];
          }
          heightTable[x, y] := z;
          y := y + 1;
        }
        x := x + 1;
      }
    }

    /** The mesh work item: fill the height table, build all 4x4 tiles, queue
        the apply step on the main thread, then (before that step has run)
        clear the rebuild flags and request a texture pass. */
    method BuildTerrain(loom: Scheduler.Loom, apply: Scheduler.Action) returns (tiles: array2<PatchMesh>)
      requires Valid() && sim.terrain.Some? && WellFormedTerrain(sim.terrain.value)
      modifies this, heightTable, loom
      ensures Valid() && sim == old(sim) && hasTerrainImage == old(hasTerrainImage)
      ensures CurrentFlags() == AfterMeshWork(old(CurrentFlags()))
      ensures loom.actions == old(loom.actions) + [apply] && loom.delayed == old(loom.delayed)
      ensures loom.currentActions == old(loom.currentActions) && loom.currentDelayed == old(loom.currentDelayed)
      ensures forall x, y :: 0 <= x < 256 && 0 <= y < 256 ==> heightTable[x, y] == HeightAt(sim.terrain.value, x, y)
      ensures fresh(tiles) && tiles.Length0 == TilesPerSide && tiles.Length1 == TilesPerSide
      ensures forall tx, ty :: 0 <= tx < 4 && 0 <= ty < 4 ==> TileBuilt(tiles[tx, ty], heightTable, tx, ty)
    {
      FillHeightTable(sim.terrain.value);
      tiles := BuildTiles(heightTable);
      loom.QueueOnMainThread(apply);
      terrainInProgress := false;
      modified := false;
      terrainTextureNeedsUpdate := true;
      terrainTimeSinceUpdate := 0.0;
    }

    /** The texture work item's bookkeeping after compositing: queue the
        apply step, then clear the guard and the request. */
    method ComposeTexture(loom: Scheduler.Loom, apply: Scheduler.Action)
      modifies this, loom
      ensures CurrentFlags() == AfterTextureWork(old(CurrentFlags()))
      ensures hasTerrainImage && sim == old(sim)
      ensures loom.actions == old(loom.actions) + [apply] && loom.delayed == old(loom.delayed)
      ensures loom.currentActions == old(loom.currentActions) && loom.currentDelayed == old(loom.currentDelayed)
    {
      hasTerrainImage := true;
      loom.QueueOnMainThread(apply);
      fetchingTerrainTexture := false;
      terrainTextureNeedsUpdate := false;
    }
  }

  /** Builds the 4x4 tiles from a filled height table. */
  method BuildTiles(h: array2<real>) returns (tiles: array2<PatchMesh>)
    requires h.Length0 == 256 && h.Length1 == 256
    ensures fresh(tiles) && tiles.Length0 == TilesPerSide && tiles.Length1 == TilesPerSide
    ensures forall tx, ty :: 0 <= tx < 4 && 0 <= ty < 4 ==> TileBuilt(tiles[tx, ty], h, tx, ty)
  {
    tiles := new PatchMesh[4, 4];
    var tileY := 0;
    while tileY < 4
      invariant 0 <= tileY <= 4
      invariant forall tx, ty :: 0 <= tx < 4 && 0 <= ty < tileY ==> TileBuilt(tiles[tx, ty], h, tx, ty)
    {
      var tileX := 0;
      while tileX < 4
        invariant 0 <= tileX <= 4
        invariant forall tx, ty :: 0 <= tx < 4 && 0 <= ty < tileY ==> TileBuilt(tiles[tx, ty], h, tx, ty)
        invariant forall tx :: 0 <= tx < tileX ==> TileBuilt(tiles[tx, tileY], h, tx, tileY)
      {
        var mesh := BuildTile(h, tileX, tileY);
        tiles[tileX, tileY] := mesh;
        tileX := tileX + 1;
      }
      tileY := tileY + 1;
    }
  }

  /** What a finished tile holds: buffer sizes 4225/4225/4225/24576, every
      vertex, normal and uv at its slot, every quad's six indices at its slots. */
  ghost predicate TileBuilt(m: PatchMesh, h: array2<real>, tileX: nat, tileY: nat)
    requires h.Length0 == 256 && h.Length1 == 256
    reads h
  {
    && |m.vertices| == VertexCount && |m.normals| == VertexCount
    && |m.uvs| == VertexCount && |m.tris| == TriIndexCount
    && (forall x, y :: 0 <= x < 65 && 0 <= y < 65 ==>
          m.vertices[VertexSlot(x, y)] == VertexAt(h, tileX, tileY, x, y)
          && m.normals[VertexSlot(x, y)] == Up
          && m.uvs[VertexSlot(x, y)] == UvAt(tileX, tileY, x, y))
    && (forall x, y, k :: 0 <= x < 64 && 0 <= y < 64 && 0 <= k < 6 ==>
          m.tris[TriSlot(x, y, k)] == QuadCorner(x, y, k))
  }

  /** Builds one tile's buffers in place. */
  method BuildTile(h: array2<real>, tileX: nat, tileY: nat) returns (mesh: PatchMesh)
    requires h.Length0 == 256 && h.Length1 == 256 && tileX < 4 && tileY < 4
    ensures TileBuilt(mesh, h, tileX, tileY)
  {
    var vertices := new Vector3[VertexCount];
    var normals := new Vector3[VertexCount];
    var uvs := new Vector2[VertexCount];
    var tris := new int[TriIndexCount];
    FillVertices(h, tileX, tileY, vertices, normals, uvs);
    FillTriangles(tris);
    mesh := PatchMesh(vertices[..], normals[..], uvs[..], tris[..]);
  }

  method FillVertices(h: array2<real>, tileX: nat, tileY: nat,
                      vertices: array<Vector3>, normals: array<Vector3>, uvs: array<Vector2>)
    requires h.Length0 == 256 && h.Length1 == 256 && tileX < 4 && tileY < 4
    requires vertices.Length == VertexCount && normals.Length == VertexCount && uvs.Length == VertexCount
    requires vertices != normals
    modifies vertices, normals, uvs
    ensures forall x, y :: 0 <= x < 65 && 0 <= y < 65 ==>
              vertices[VertexSlot(x, y)] == VertexAt(h, tileX, tileY, x, y)
              && normals[VertexSlot(x, y)] == Up
              && uvs[VertexSlot(x, y)] == UvAt(tileX, tileY, x, y)
  {
    var y := 0;
    while y < 65
      invariant 0 <= y <= 65
      invariant forall i, j :: 0 <= i < 65 && 0 <= j < y ==>
                  vertices[VertexSlot(i, j)] == VertexAt(h, tileX, tileY, i, j)
                  && normals[VertexSlot(i, j)] == Up
                  && uvs[VertexSlot(i, j)] == UvAt(tileX, tileY, i, j)
    {
      FillVertexRow(h, tileX, tileY, vertices, normals, uvs, y);
      y := y + 1;
    }
  }

  /** The inner loop of the vertex pass: row y of the tile. Other rows are
      left as they were. */
  method FillVertexRow(h: array2<real>, tileX: nat, tileY: nat,
                       vertices: array<Vector3>, normals: array<Vector3>, uvs: array<Vector2>, y: nat)
    requires h.Length0 == 256 && h.Length1 == 256 && tileX < 4 && tileY < 4 && y < 65
    requires vertices.Length == VertexCount && normals.Length == VertexCount && uvs.Length == VertexCount
    requires vertices != normals
    modifies vertices, normals, uvs
    ensures forall i :: 0 <= i < 65 ==>
              vertices[VertexSlot(i, y)] == VertexAt(h, tileX, tileY, i, y)
              && normals[VertexSlot(i, y)] == Up
              && uvs[VertexSlot(i, y)] == UvAt(tileX, tileY, i, y)
    ensures forall k :: 0 <= k < VertexCount && (k < VertexSlot(0, y) || VertexSlot(0, y + 1) <= k) ==>
              vertices[k] == old(vertices[k]) && normals[k] == old(normals[k]) && uvs[k] == old(uvs[k])
  {
    var x := 0;
    while x < 65
      invariant 0 <= x <= 65
      invariant forall i :: 0 <= i < x ==>
                  vertices[VertexSlot(i, y)] == VertexAt(h, tileX, tileY, i, y)
                  && normals[VertexSlot(i, y)] == Up
                  && uvs[VertexSlot(i, y)] == UvAt(tileX, tileY, i, y)
      invariant forall k :: 0 <= k < VertexCount && (k < VertexSlot(0, y) || VertexSlot(0, y + 1) <= k) ==>
                  vertices[k] == old(vertices[k]) && normals[k] == old(normals[k]) && uvs[k] == old(uvs[k])
    {
      FillVertex(h, tileX, tileY, vertices, normals, uvs, x, y);
      x := x + 1;
    }
  }

  /** Vertex (x, y) of the tile: its position, its normal and its uv; every
      other slot is left as it was. */
  method FillVertex(h: array2<real>, tileX: nat, tileY: nat,
                    vertices: array<Vector3>, normals: array<Vector3>, uvs: array<Vector2>, x: nat, y: nat)
    requires h.Length0 == 256 && h.Length1 == 256 && x < 65 && y < 65
    requires vertices.Length == VertexCount && normals.Length == VertexCount && uvs.Length == VertexCount
    requires vertices != normals
    modifies vertices, normals, uvs
    ensures vertices[VertexSlot(x, y)] == VertexAt(h, tileX, tileY, x, y)
    ensures normals[VertexSlot(x, y)] == Up && uvs[VertexSlot(x, y)] == UvAt(tileX, tileY, x, y)
    ensures forall k :: 0 <= k < VertexCount && k != VertexSlot(x, y) ==>
              vertices[k] == old(vertices[k]) && normals[k] == old(normals[k]) && uvs[k] == old(uvs[k])
  {
    var i := x + y * 65;
    var globalX := ClampCell(x + tileX * 64);
    var globalY := ClampCell(y + tileY * 64);
    var height := h[globalY, globalX];
    var u := (x + tileX * 64) as real / 255.0;
    var v := (y + tileY * 64) as real / 255.0;
    vertices[i] := Vector3(x as real, height, y as real);
    normals[i] := Up;
    uvs[i] := Vector2(u, v);
  }

  method FillTriangles(tris: array<int>)
    requires tris.Length == TriIndexCount
    modifies tris
    ensures forall x, y, k :: 0 <= x < 64 && 0 <= y < 64 && 0 <= k < 6 ==>
              tris[TriSlot(x, y, k)] == QuadCorner(x, y, k)
  {
    var y := 0;
    while y < 64
      invariant 0 <= y <= 64
      invariant forall i, j, k :: 0 <= i < 64 && 0 <= j < y && 0 <= k < 6 ==>
                  tris[TriSlot(i, j, k)] == QuadCorner(i, j, k)
    {
      var x := 0;
      while x < 64
        invariant 0 <= x <= 64
        invariant forall i, j, k :: 0 <= i < 64 && 0 <= j < y && 0 <= k < 6 ==>
                    tris[TriSlot(i, j, k)] == QuadCorner(i, j, k)
        invariant forall i, k :: 0 <= i < x && 0 <= k < 6 ==> tris[TriSlot(i, y, k)] == QuadCorner(i, y, k)
      {
        FillQuad(tris, x, y);
        x := x + 1;
      }
      y := y + 1;
    }
  }

  /** The six index writes of quad (x, y); the rest of the buffer is left
      as it was. */
  method FillQuad(tris: array<int>, x: nat, y: nat)
    requires tris.Length == TriIndexCount && x < 64 && y < 64
    modifies tris
    ensures forall k :: 0 <= k < 6 ==> tris[TriSlot(x, y, k)] == QuadCorner(x, y, k)
    ensures forall n :: 0 <= n < tris.Length && (n < TriSlot(x, y, 0) || TriSlot(x, y, 0) + 6 <= n) ==>
              tris[n] == old(tris[n])
  {
    var i := (x + y * 64) * 6;
    tris[i + 0] := x + y * 65;
    tris[i + 1] := x + (y + 1) * 65;
    tris[i + 2] := x + 1 + y * 65;
    tris[i + 3] := x + (y + 1) * 65;
    tris[i + 4] := x + 1 + (y + 1) * 65;
    tris[i + 5] := x + 1 + y * 65;
  }
}
