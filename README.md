# Radunity core, modelled in Dafny

Radunity is a Unity viewer for OpenSimulator / Second Life grids. This project
models its sequential core and proves properties about it:

- **Scheduler** (`loom.dfy`, from `Assets/Core/Loom.cs`): the main-thread
  scheduler. It keeps an immediate list and a delayed list. The one-shot
  `Initialize` sets it up. Each frame `Update` first drains a snapshot of the
  immediate list in FIFO order, then extracts and runs the delayed items that
  are due. Actions are opaque tokens. What running one does is an `Effect`:
  the posts it makes, and whether it throws.
- **Terrain** (`region_terrain.dfy`, from `Assets/Core/RegionTerrain.cs`):
  - the per-region terrain object: its rebuild and texture flags, and the
    per-frame gating;
  - the 256×256 height table, filled from 16×16 land patches;
  - the 4×4 mesh tiles, each with 65×65 vertices and 24576 triangle indices;
  - a step model of a region over time (frames, land patches, finished work
    items).
- **Splat** (`terrain_splat.dfy`, from `Assets/Core/TerrainSplat.cs`): the
  integer skeleton of terrain splatting:
  - in-place substitution of the default detail IDs;
  - the download callback, and fill-in of missing detail textures;
  - the layer-map loop with its NaN handling and clamp to [0, 3];
  - the 5-tap index selection of the compositor.
- **Perlin** (`perlin.dfy`, from the `Perlin` class in the same file): the
  permutation table (identity, shuffle by swaps, duplication) and the lattice
  indexing of the noise functions.
- **Login** (`login_options.dfy`, from `Assets/Core/LoginOptions.cs`):
  - the login options record with `FullName` and `IsPasswordMD5`;
  - the start-location parser (`int.TryParse` modelled as `ParseInt32`);
  - the saved-login map conversion.
- **Credentials** (`credentials.dfy`): the credential normalisation shared by
  `Instance.BeginLogin` and `Program.BeginLogin`:
  - `Trim`, and the split on runs of '.' or ' ';
  - the "Resident" fallback and the blank-field check;
  - the password choice and the start string.
- **Session** (`instance.dfy`, from `Assets/Core/Instance.cs`): the
  Login → LoggedIn → Running state machine, and the login-progress and
  land-patch handlers.
- **Entry** (`program.dfy`, from `Assets/Program.cs`): the standalone program
  component with its status tracking and `BeginLogin`.

Everything outside the program is a parameter of the model:

- Time is a parameter (`now`, `dt`).
- The random generator's outputs are the shuffle's `draws`.
- A texture download is the sequence of callback responses for its ID.
- JPEG2000 decoding is `decode`. It returns `None` where the decoder throws.
- The noise formula is `formula`, and pixel blending is `blend`.
- The grid's start-URI builder is `startUri`.
- MD5 appears only as `Md5Of(input)`, which records the UTF-16 code units
  that would be hashed.
- A Dafny `char` is a Unicode scalar value. Where the source reads a
  string's `Length` or cuts it with `Substring`, the model works on its
  UTF-16 encoding `Login.Utf16`. A character above U+FFFF is two units
  there, as in a .NET string.
- Floats are `real`. The layer value is a `Single`, which also has NaN and
  the infinities.

## Model

| member | source | states |
|---|---|---|
| Scheduler.Loom.constructor | Assets/Core/Loom.cs:20-23 | All four lists start empty. |
| Scheduler.Loom.QueueOnMainThread | Assets/Core/Loom.cs:47-50 | Appends the action to the end of `_actions`; `_delayed` is unchanged. |
| Scheduler.Loom.QueueOnMainThreadAfter | Assets/Core/Loom.cs:52-77 | Time 0 appends to `_actions` only; any other time appends `{now + time, action}` to `_delayed` only. |
| Scheduler.Loom.Submit | Assets/Core/Loom.cs:52-77 | A series of posts leaves the queues as the `EnqueueAll` specification says. |
| Scheduler.Loom.Invoke | Assets/Core/Loom.cs:106-109 | Running an action in a drain applies its posts and reports whether it threw. |
| Scheduler.Loom.RunAction | Assets/Core/Loom.cs:84-94 | The guarded runner keeps what the action enqueued and only reports (logs) an exception, never propagates it. |
| Scheduler.Loom.RunAll | Assets/Core/Loom.cs:106-109 | Running a list equals `RunList`: in order, stopping after the first action that throws. |
| Scheduler.Loom.Update | Assets/Core/Loom.cs:98-121 | One frame equals `Tick`: `_currentActions` is the old `_actions`, phase 1 runs it against an emptied list, and phase 2 (only if phase 1 did not throw) extracts the due delayed items into `_currentDelayed` and runs them. |
| Scheduler.FirstThrow | Assets/Core/Loom.cs:106-109 | The index of the first action that throws: every earlier one does not throw, and the one at the index does. |
| Scheduler.RunListRunsPrefix | Assets/Core/Loom.cs:106-109 | A drain aborts iff some action throws. It then ran exactly the prefix up to and including that action; otherwise it ran the whole list in order. |
| Scheduler.EnqueueAllShape | Assets/Core/Loom.cs:52-77 | Posts append their zero-delay actions to `_actions` in order and only append to `_delayed`. |
| Scheduler.RunListDefersNewActions | Assets/Core/Loom.cs:100-109 | After a drain, `_actions` is the old list followed by exactly the immediate posts of the actions that ran; none of them ran in that drain. |
| Scheduler.TickPhase1 | Assets/Core/Loom.cs:100-109 | A phase 1 without exceptions runs exactly the old immediate list in submission order and leaves only what those actions posted. |
| Scheduler.DuePendingPartition | Assets/Core/Loom.cs:110-116 | Due items are exactly those with `time <= now`, pending items exactly those with `time > now`, and the two multisets add up to the delayed list. |
| Scheduler.DueMembers | Assets/Core/Loom.cs:110-116 | An item is due exactly when it is in the delayed list and `time <= now`. |
| Scheduler.PendingMembers | Assets/Core/Loom.cs:110-116 | An item stays pending exactly when it is in the delayed list and `time > now`. |
| Scheduler.DuePendingMultiset | Assets/Core/Loom.cs:110-116 | Due and pending items together are the delayed list, as a multiset. |
| Scheduler.RemoveFirst | Assets/Core/Loom.cs:114-115 | `List.Remove` deletes one occurrence if present, and otherwise changes nothing. |
| Scheduler.RemoveDueLeavesPending | Assets/Core/Loom.cs:110-116 | Removing each extracted item from `_delayed` leaves exactly the pending items, in their order. |
| Scheduler.DueBoundary | Assets/Core/Loom.cs:113 | An item due exactly now is run (the comparison is `<=`); a later one stays. |
| Scheduler.LoomRuntime.constructor | Assets/Core/Loom.cs:16-18 | Not initialised, no current scheduler. |
| Scheduler.LoomRuntime.Initialize | Assets/Core/Loom.cs:33-45 | Only the first call made while playing sets `initialized` and binds a fresh, empty scheduler; a call while not playing, or any later call, changes nothing. |
| Scheduler.LoomRuntime.QueueOnMainThread | Assets/Core/Loom.cs:25-31 | The static post goes through `Current`: it throws iff no scheduler is bound yet, and otherwise enqueues on the bound scheduler as `Enqueue` says (the post of lines 52-77). |
| Scheduler.InitializeBindsOnce | Assets/Core/Loom.cs:33-45 | Over any series of calls, the scheduler is bound at most once, exactly once iff some call is made while playing and it was not yet initialised. |
| Terrain.PatchAddressing | Assets/Core/RegionTerrain.cs:93-98 | The patch number and the sample index are in [0, 256), and together they determine the cell (x, y). |
| Terrain.PatchAddressingOnto | Assets/Core/RegionTerrain.cs:93-98 | Every (patch, sample) pair is addressed by exactly one cell, so the fill reads each sample once. |
| Terrain.ClampCell | Assets/Core/RegionTerrain.cs:123-124 | `Mathf.Clamp(g, 0, 255)`: the result is ≤ 255, and in-range values are kept. |
| Terrain.VertexSlotBijection | Assets/Core/RegionTerrain.cs:116-120 | `x + y*65` is a bijection between the 65×65 grid and [0, 4225). |
| Terrain.TriSlotBijection | Assets/Core/RegionTerrain.cs:136-150 | Quad (x, y) owns slots `(x + y*64)*6 .. +5`, and every slot of the 24576 belongs to exactly one quad corner. |
| Terrain.QuadCornersInRange | Assets/Core/RegionTerrain.cs:142-148 | All six indices are < 4225, and the two triangles `(a, a+65, a+1)` and `(a+65, a+66, a+1)` share their diagonal. |
| Terrain.ClampOnlyAtFarEdge | Assets/Core/RegionTerrain.cs:121-124 | The clamp changes a sampled coordinate only on the last tile's far edge, where it is 256. |
| Terrain.FrameGating | Assets/Core/RegionTerrain.cs:53-72 | A rebuild is dispatched iff `Modified`, more than 10 s elapsed, none in progress, and the terrain is there. Starting one sets `terrainInProgress` and `Modified`. A texture pass is dispatched iff one is needed and the guard is clear (or a reset has just cleared it). |
| Terrain.MeshGuardHolds | Assets/Core/RegionTerrain.cs:57-64 | Over any run of events, at most one mesh rebuild is in flight, and only while `terrainInProgress` is set. |
| Terrain.StuckWithoutTerrain | Assets/Core/RegionTerrain.cs:59-63 | Once a rebuild has started without `Sim.Terrain`, `terrainInProgress` is never cleared and no later rebuild is dispatched. |
| Terrain.MissingTerrainStartsStuck | Assets/Core/RegionTerrain.cs:84 | A frame that starts a rebuild while `Sim.Terrain` is null leaves the region in that stuck state. |
| Terrain.PatchDuringRebuildCleared | Assets/Core/RegionTerrain.cs:197-200 | A land patch that sets `Modified` while a rebuild is in flight is cleared by that rebuild's completion, and the next frame starts no rebuild. |
| Terrain.ResetAllowsSecondTexturePass | Assets/Core/RegionTerrain.cs:237-247 | As written, a reachable run ends with two texture passes in flight (see Findings). |
| Terrain.GuardedRegionKeepsOneTexturePass | Assets/Core/RegionTerrain.cs:205-234 | With the guard left to the pass that set it, at most one texture pass is in flight on every run. |
| Terrain.RegionTerrain.constructor | Assets/Core/RegionTerrain.cs:10-30 | The field defaults: `Modified` is true, the other flags are false, the timer is 0, and there is no image. |
| Terrain.RegionTerrain.Update | Assets/Core/RegionTerrain.cs:53-72 | One frame equals `Frame` on the flags. The image is dropped exactly when a rebuild starts. |
| Terrain.RegionTerrain.ResetTerrain | Assets/Core/RegionTerrain.cs:237-247 | The image is gone, `fetchingTerrainTexture` is false and `Modified` is true. |
| Terrain.RegionTerrain.UpdateTerrain | Assets/Core/RegionTerrain.cs:82-86 | The mesh work item is dispatched iff `Sim.Terrain` is not null. |
| Terrain.RegionTerrain.UpdateTerrainTexture | Assets/Core/RegionTerrain.cs:205-210 | A texture pass is dispatched iff the guard was clear. The guard is set either way, and nothing else changes. |
| Terrain.RegionTerrain.FillHeightTable | Assets/Core/RegionTerrain.cs:88-102 | Every cell holds its patch's sample `(x%16)*16 + y%16`, or 0 when the patch or its data is missing. |
| Terrain.RegionTerrain.BuildTerrain | Assets/Core/RegionTerrain.cs:86-202 | The mesh work item fills the table, builds all 4×4 tiles, posts the apply action, then clears `terrainInProgress` and `Modified`, requests a texture pass and resets the timer. |
| Terrain.RegionTerrain.ComposeTexture | Assets/Core/RegionTerrain.cs:210-233 | The texture work item stores an image, posts the apply action, and clears the guard and `terrainTextureNeedsUpdate`. |
| Terrain.BuildTiles | Assets/Core/RegionTerrain.cs:104-160 | 4×4 tiles, each built from the height table. |
| Terrain.BuildTile | Assets/Core/RegionTerrain.cs:109-158 | Buffers of 4225/4225/4225/24576 entries, with every vertex, normal, uv and triangle index at its slot. |
| Terrain.FillVertices | Assets/Core/RegionTerrain.cs:116-134 | Vertex `(x, heightTable[globalY, globalX], y)` (read transposed), normal up, and uv = unclamped global cell / 255, at slot `x + y*65`. |
| Terrain.FillVertexRow | Assets/Core/RegionTerrain.cs:118-134 | One pass of the inner loop fills row y: all 65 vertices, normals and uvs. The other rows are unchanged. |
| Terrain.FillVertex | Assets/Core/RegionTerrain.cs:120-132 | Slot `x + y*65` gets the vertex (x, transposed height, y), the up normal and the unclamped uv. No other slot changes. |
| Terrain.FillTriangles | Assets/Core/RegionTerrain.cs:136-150 | Every quad's six indices are at its six slots. |
| Terrain.FillQuad | Assets/Core/RegionTerrain.cs:140-148 | Quad (x, y)'s six slots get the corners of triangles (a, a+65, a+1) and (a+65, a+66, a+1). The rest of the buffer is unchanged. |
| Perlin.Swap | Assets/Core/TerrainSplat.cs:461-463 | Exchanges two entries and keeps every other one. |
| Perlin.SwapPermutes | Assets/Core/TerrainSplat.cs:459-464 | A swap keeps the multiset of entries. |
| Perlin.ShufflePermutes | Assets/Core/TerrainSplat.cs:459-464 | The shuffle permutes its input. |
| Perlin.TableEntriesInRange | Assets/Core/TerrainSplat.cs:440-475 | Every entry of a finished table lies in [0, B). |
| Perlin.BuildPermutation | Assets/Core/TerrainSplat.cs:440-475 | `p[0..B)` is the shuffle of the identity, and `p[k] == p[k mod B]` for all k < 2B+2, so `p` is a permutation table. |
| Perlin.FillIdentity | Assets/Core/TerrainSplat.cs:445-447 | After the first loop, `p[0..B)` is the identity. |
| Perlin.ShuffleInPlace | Assets/Core/TerrainSplat.cs:459-464 | The in-place swap loop computes `Shuffle`, with j = draw mod B, and leaves the upper half unchanged. |
| Perlin.SwapEntries | Assets/Core/TerrainSplat.cs:461-463 | The three assignments through `k` exchange `p[i]` and `p[j]`. Nothing else changes. |
| Perlin.Duplicate | Assets/Core/TerrainSplat.cs:466-475 | Copies the first B+2 entries above B, making the table B-periodic and keeping the prefix. |
| Perlin.LatticeCell | Assets/Core/TerrainSplat.cs:503 | `(int)t & BM` is in [0, BM] and congruent to t mod B, also for negative t. |
| Perlin.NextCell | Assets/Core/TerrainSplat.cs:504 | `(b + 1) & BM` wraps from BM to 0. |
| Perlin.CornerHashes | Assets/Core/TerrainSplat.cs:502-520 | The four corner hashes lie in [0, B). |
| Perlin.CellCorners | Assets/Core/TerrainSplat.cs:514-520 | The four hashes of a lattice cell lie in [0, B). |
| Perlin.LatticeLookupsInBounds | Assets/Core/TerrainSplat.cs:477-592 | Every lookup `p[i+by]`, `g2[b]`, `g3[b+bz]` and `g1[p[bx]]` is within the 2B+2 entries. |
| Perlin.CornerHashesPeriodic | Assets/Core/TerrainSplat.cs:496-520 | Shifting a lattice coordinate by any multiple of B gives the same corners, so the noise is periodic. |
| Perlin.LatticeCellShift | Assets/Core/TerrainSplat.cs:503 | Shifting a coordinate by any multiple of B keeps its lattice cell `t & BM`. |
| Splat.Substituted | Assets/Core/TerrainSplat.cs:93-97 | No zero ID remains, and nonzero IDs are kept. |
| Splat.SubstitutedIdempotent | Assets/Core/TerrainSplat.cs:93-97 | Substituting twice is substituting once. |
| Splat.SubstituteDefaultIds | Assets/Core/TerrainSplat.cs:93-97 | The caller's array is rewritten in place to `Substituted` of its old contents. |
| Splat.TextureDownloadCallback | Assets/Core/TerrainSplat.cs:308-320 | A Finished response with asset data is decoded. A decoded image is stored and done is signalled. If the decoder throws (`None`), the throw is reported, nothing is stored and done is not signalled. Any other response only signals done. No other slot changes. |
| Splat.AfterCallbacks | Assets/Core/TerrainSplat.cs:100-111 | After a series of responses, a slot is filled iff it was filled or some response carried data that decoded to an image. |
| Splat.FetchTextures | Assets/Core/TerrainSplat.cs:100-111 | Every slot holds what its ID's responses left in it. Data the decoder rejects leaves the slot as it was, so it later gets the solid fill. |
| Splat.FilledSlot | Assets/Core/TerrainSplat.cs:116-132 | A missing texture becomes a 2048×2048 solid image of that layer's default colour. A 2048×2048 image is kept; any other is resized to 256×256. |
| Splat.FilledSlotCoversLockRect | Assets/Core/TerrainSplat.cs:116-132 | Every filled slot is at least 256×256, the rectangle the compositor locks. |
| Splat.FillMissingTextures | Assets/Core/TerrainSplat.cs:116-132 | All four slots become non-null, each as `FilledSlot` says. |
| Splat.ClampLayer | Assets/Core/TerrainSplat.cs:183-185 | The result lies in [0, 3]. NaN, -∞ and values ≤ 0 give 0; +∞ and values ≥ 3 give 3; values in between are kept. |
| Splat.ClampLayerMonotone | Assets/Core/TerrainSplat.cs:185 | The clamp is monotone. |
| Splat.LayerIndexBijection | Assets/Core/TerrainSplat.cs:185 | `newY*256 + newX` is a bijection from the 256×256 grid onto [0, 65536). |
| Splat.BuildLayerMap | Assets/Core/TerrainSplat.cs:136-188 | For side 256·d, the stores go to indices 0, 1, …, 65535, each exactly once. Cell (newX, newY) holds the clamped layer of `heightmap[newX, newY]`. |
| Splat.FillLayerRow | Assets/Core/TerrainSplat.cs:141-186 | One pass of the inner loop writes row `y/d` at its 256 indices and leaves the other rows alone. |
| Splat.FillLayerCell | Assets/Core/TerrainSplat.cs:143-185 | Cell `newY*256 + newX` gets the clamped layer of `heightmap[newX, newY]`. No other cell changes. |
| Splat.TapsInRange | Assets/Core/TerrainSplat.cs:236-240 | The centre and the four clamped neighbour indices are < 65536, and a neighbour is the centre cell or its adjacent cell without wrapping rows. |
| Splat.SelectLayers | Assets/Core/TerrainSplat.cs:243-244 | `l0 = floor(layer)` and `l1 = min(l0+1, 3)` satisfy 0 ≤ l0 ≤ l1 ≤ 3; l1 = l0 iff l0 = 3. |
| Splat.SampleAt | Assets/Core/TerrainSplat.cs:236-262 | All five layer indices are in [0, 3], and the texel coordinates `x % 256`, `y % 256` are in range. |
| Splat.Composite | Assets/Core/TerrainSplat.cs:232-290 | Every one of the 2048×2048 output pixels is the blend of its sample. |
| Splat.CompositeRow | Assets/Core/TerrainSplat.cs:234-289 | One pass of the inner loop sets every pixel of row y to the blend of its sample. Other rows are unchanged. |
| Splat.ComposePixel | Assets/Core/TerrainSplat.cs:236-288 | Pixel (x, y) becomes the blend of its sample. No other pixel changes. |
| Splat.Splat | Assets/Core/TerrainSplat.cs:83-303 | IDs are substituted in place, each slot is filled from its downloads (a slot whose data does not decode gets the solid fill), and every output pixel is the blend of the sample of the heightmap's layer map. |
| Login.LoginOptions.FullName | Assets/Core/LoginOptions.cs:49-58 | "" iff either name is null or empty, and first + " " + last otherwise. |
| Login.NewLoginOptionsDefaults | Assets/Core/LoginOptions.cs:16-24 | A fresh object has start location Home, last exit Normal, and empty version, channel, custom location and custom URI. |
| Login.IsPasswordMD5 | Assets/Core/LoginOptions.cs:32-35 | True only for a password that is 35 UTF-16 units long and starts with "$1$". |
| Login.IsPasswordMD5Exactly | Assets/Core/LoginOptions.cs:32-35 | True iff the password is "$1$" followed by a string of exactly 32 UTF-16 units. |
| Login.AstralDigestAccepted | Assets/Core/LoginOptions.cs:34 | `Length` counts units: "$1$", 30 letters and one U+1F600 make 34 characters but 35 units, and the test accepts the string. |
| Login.Utf16Char | Assets/Core/LoginOptions.cs:34 | A character below U+10000 is one unit, itself. Any other is a high surrogate then a low surrogate, and the pair gives the character back. |
| Login.Utf16 | Assets/Core/LoginOptions.cs:34 | A string is never shorter in units than in characters. |
| Login.Utf16Append | Assets/Core/LoginOptions.cs:34 | The encoding of a concatenation is the concatenation of the encodings. |
| Login.Utf16Bmp | Assets/Core/LoginOptions.cs:34 | A string below U+10000 has one unit per character, equal to that character. |
| Login.SplitOn | Assets/Core/LoginOptions.cs:188 | `String.Split(c)` gives at least one part, and no part contains c. |
| Login.JoinSplitOn | Assets/Core/LoginOptions.cs:188 | Joining the parts with c gives the string back. |
| Login.SplitOnCons | Assets/Core/LoginOptions.cs:188 | A leading separator opens an empty first part; any other leading character joins the first part. |
| Login.SplitOnJoin | Assets/Core/LoginOptions.cs:188 | Splitting joined separator-free parts gives the parts back. |
| Login.NoSeparatorOnePiece | Assets/Core/LoginOptions.cs:186 | A string without '/' is one piece. |
| Login.SeparatorTwoPieces | Assets/Core/LoginOptions.cs:194-199 | A string with a '/' has at least two pieces, so index 1 always exists. |
| Login.ParseInt32 | Assets/Core/LoginOptions.cs:199 | A successful `int.TryParse` gives a 32-bit value. |
| Login.ParseSigned | Assets/Core/LoginOptions.cs:199 | Once the surrounding white space is removed, a successful parse gives a 32-bit value. |
| Login.ParseShowInt | Assets/Core/LoginOptions.cs:199 | Every 32-bit value's decimal text parses back to it. |
| Login.ParseShowNonNegative | Assets/Core/LoginOptions.cs:199 | The decimal text of a non-negative 32-bit value parses back to it. |
| Login.ParseShowNegative | Assets/Core/LoginOptions.cs:199 | The text "-" followed by the digits of a negative 32-bit value's magnitude parses back to the value. |
| Login.ParseSignedNegative | Assets/Core/LoginOptions.cs:199 | A minus sign followed by digits worth at most 2^31 parses to the negated value. |
| Login.GetSim | Assets/Core/LoginOptions.cs:184-190 | The whole string without a '/', and otherwise the text before the first '/'. |
| Login.Coordinate | Assets/Core/LoginOptions.cs:192-241 | Segment `index` parsed, or the default when there is no '/', too few segments, or no parse. |
| Login.XSegmentExists | Assets/Core/LoginOptions.cs:192-205 | With a '/', X is the parse of segment 1, or 128 when it does not parse. |
| Login.ParseFormattedLocation | Assets/Core/LoginOptions.cs:184-241 | "sim/x/y/z" parses back to sim, x, y and z. |
| Login.FormattedLocationSplits | Assets/Core/LoginOptions.cs:184-190 | "sim/x/y/z" with no '/' in sim splits at '/' into exactly its four parts. |
| Login.RegionOnlyLocation | Assets/Core/LoginOptions.cs:184-241 | A location without '/' gives the defaults 128, 128 and 0. |
| Login.ToOSD | Assets/Core/LoginOptions.cs:118-128 | A map with exactly the six saved-login keys. |
| Login.FromOSD | Assets/Core/LoginOptions.cs:130-149 | Null iff the input is not a map; `location_type` defaults to 1 when it is absent. |
| Login.FromToOSD | Assets/Core/LoginOptions.cs:118-149 | Reading back a stored login gives it unchanged. |
| Login.FromOSDReadsOnlySavedKeys | Assets/Core/LoginOptions.cs:130-149 | Extra keys in the map do not change the result. |
| Credentials.TrimStart | Assets/Core/Instance.cs:177 | Removes exactly the leading white space. |
| Credentials.TrimEnd | Assets/Core/Instance.cs:177 | Removes exactly the trailing white space. |
| Credentials.Trim | Assets/Core/Instance.cs:177 | Neither end of the result is white space. |
| Credentials.TrimRemovesOnlyEnds | Assets/Core/Instance.cs:177 | The result is a contiguous slice, and everything cut off is white space. |
| Credentials.TrimNoOp | Assets/Core/Instance.cs:177 | A string without white space at either end is unchanged. |
| Credentials.TrimIdempotent | Assets/Core/Instance.cs:177 | Trimming twice is trimming once. |
| Credentials.SplitNameRuns | Assets/Core/Instance.cs:177 | `Regex.Split(s, "[. ]+")` gives at least one part, no part contains a separator, inner parts are nonempty, and the first part is nonempty unless s starts with a separator. |
| Credentials.OnePiece | Assets/Core/Instance.cs:177 | A string without separators is one part. |
| Credentials.TwoPieces | Assets/Core/Instance.cs:177 | "first last" splits into exactly [first, last]. |
| Credentials.NormaliseName | Assets/Core/Instance.cs:177-189 | Two parts give first and last name; any other count gives the whole trimmed name and "Resident". |
| Credentials.NameRoundTrip | Assets/Core/Instance.cs:177-189 | Normalising `FullName` of two name words gives those words back. |
| Credentials.SingleWordIsResident | Assets/Core/Instance.cs:183-189 | A one-word user name gets the last name "Resident". |
| Credentials.TrailingDotGivesEmptyLastName | Assets/Core/Instance.cs:177-189 | "word." splits into [word, ""], so the last name is empty. |
| Credentials.ChoosePassword | Assets/Core/Instance.cs:277-291 | An MD5-shaped password is sent as is. Otherwise MD5 is applied to its first min(Length, 16) UTF-16 units. |
| Credentials.PasswordTailIgnored | Assets/Core/Instance.cs:283-286 | Two plain passwords that agree on their first 16 characters are hashed the same. |
| Credentials.BmpPasswordPrefix | Assets/Core/Instance.cs:283-290 | For a plain password below U+10000, the hashed units are its first min(length, 16) characters. |
| Credentials.AstralRunLength | Assets/Core/Instance.cs:283 | n characters above U+FFFF are 2n units long. |
| Credentials.AstralPasswordCut | Assets/Core/Instance.cs:283-286 | Nine characters above U+FFFF (e.g. U+1F600) are 18 units. The cut at 16 units hashes exactly the first eight. |
| Credentials.StartString | Assets/Core/Instance.cs:261-275 | Home gives "home", and Last gives "last". |
| Credentials.CustomStartParsesLocation | Assets/Core/Instance.cs:266-272 | A custom "sim/x/y/z" location reaches the start-URI builder as (sim, x, y, z). |
| Credentials.OptionsFor | Assets/Core/Instance.cs:176-249 | The options hold the normalised names, the password, channel "Radunity", version "Radunity 1.0.0", start location Last, the grid, and last exit Normal. |
| Credentials.BeginLogin | Assets/Core/Instance.cs:172-304 | Multiple sims are enabled iff the platform is not "SecondLife". No request is made iff a field is blank, and the status is then "One or more fields are blank." Otherwise the request carries the chosen password, "last", acceptance of the terms of service, the grid URI and Normal. |
| Credentials.RefusedExactly | Assets/Core/Instance.cs:177-257 | The login is refused iff the password is empty, the trimmed name is empty, or the name splits into two parts with an empty one. |
| Credentials.NameRefused | Assets/Core/Instance.cs:177-189 | The normalised name has an empty part exactly when the trimmed name is empty, or it splits into two parts and one of them is empty. |
| Credentials.IssuedRequestShape | Assets/Core/Instance.cs:259-302 | Every request asks for "last", accepts the terms of service, has nonempty names, and hashes at most 16 UTF-16 units. |
| Session.NextState | Assets/Core/Instance.cs:100-169 | Login moves (only to LoggedIn) iff the recorded status is Success; every other state goes to Running. |
| Session.LoginNeverReentered | Assets/Core/Instance.cs:100-169 | Once Login is left it is never re-entered, and after one more frame the state is Running for good. |
| Session.SuccessLeadsToRunning | Assets/Core/Instance.cs:104-130 | A Success followed by at least one more frame ends in Running. |
| Session.NoSuccessStaysAtLogin | Assets/Core/Instance.cs:104-123 | Without a Success the instance stays at Login. |
| Session.Region.constructor | Assets/Core/Region.cs:8-17 | A new region component has its simulator and no terrain. |
| Session.Region.Start | Assets/Core/Region.cs:33 | `Start` creates the region's terrain for its simulator. |
| Session.Instance.constructor | Assets/Core/Instance.cs:60-79 | Status None, state Login, no login screen, no current region, single sim. |
| Session.Instance.Update | Assets/Core/Instance.cs:100-170 | At Login: the screen exists afterwards, `lastLoginStatus` is copied iff it changed (and only then logged), and the state follows `NextState`. LoggedIn destroys the screen. Test posts the sim-changed action. |
| Session.Instance.LoginProgress | Assets/Core/Instance.cs:404-407 | The event replaces the status and nothing else. |
| Session.Instance.BeginLogin | Assets/Core/Instance.cs:172-304 | The status and request are those of `Credentials.BeginLogin`, and MULTIPLE_SIMS is set when it asks. |
| Session.Instance.TerrainLandPatchReceived | Assets/Core/Instance.cs:379-386 | Posts the land-patch action on the scheduler's immediate list. |
| Session.Instance.SimChangedAction | Assets/Core/Instance.cs:388-402 | A fresh region for the new simulator becomes current; its terrain does not exist yet. |
| Session.Instance.LandPatchAction | Assets/Core/Instance.cs:381-385 | Nothing happens without a current region. It throws iff the current region has no terrain yet; otherwise it sets `Modified` and leaves the other terrain fields unchanged. |
| Session.Instance.SimChangeThenLandPatch | Assets/Core/Instance.cs:379-402 | A land-patch action right after a sim change throws (see Findings). |
| Session.Instance.LandPatchActionGuarded | Assets/Core/Instance.cs:381-385 | With the null check extended to the terrain: it never throws, and it marks an existing terrain modified and nothing else. |
| Session.Instance.SimChangeStartThenLandPatch | Assets/Core/Instance.cs:379-402 | After a sim change and the region's `Start`, the land-patch action marks the new terrain modified. |
| Entry.Program.constructor | Assets/Program.cs:40-42 | Status None and single sim. |
| Entry.Program.Update | Assets/Program.cs:66-73 | `lastLoginStatus` equals the status afterwards, and a change is logged iff it differed. |
| Entry.Program.LoginProgress | Assets/Program.cs:249-252 | The event replaces the status. |
| Entry.Program.BeginLogin | Assets/Program.cs:75-207 | Same normalisation as the instance; any request asks for "last". |
| Entry.UpdateTwice | Assets/Program.cs:66-73 | A second frame without a progress event logs nothing. |

## Left out

- Floating point. The noise values, the gradient tables g1, g2 and g3,
  `normalize2`, `normalize3`, `s_curve`, turbulence, `Bilinear`, the height
  band arithmetic, the colour blend and its byte casts, and `SplatSimple` are
  left out. Reals stand for floats; `formula` and `blend` are parameters.
- Concurrency. The thread pool, the locks, the `AutoResetEvent`, the 60 s
  wait and thread identity are left out. Each queue operation is one step,
  and the two terrain work items are the methods `BuildTerrain` and
  `ComposeTexture`. They run whenever the caller runs them; the step model
  in `region_terrain.dfy` covers their interleaving with frames.
- Splat.FetchTextures: the callbacks for one ID all run before the next ID
  is requested. A callback that arrives after its 60 s wait has timed out,
  and then writes into a slot during a later request, is not modelled.
- Imaging and encoding. System.Drawing (resizing, tiling, the rotation of
  the output, `LockBits` and the pointer reads), JPEG2000 decoding and PNG
  encoding are left out. Images are `Bitmap` values that record their size
  and where they came from.
- Unity. Mesh, collider, renderer and material application, `Texture2D`,
  GameObject creation and `Destroy`, `Input`, the camera, and the running
  state's movement input are left out. Time is a parameter.
- The UI (LoginScreen, GUIBase), the camera (SLCamera), the logger, and the
  water and sun set-up in Region are left out.
- Network and library calls. `client.Network.BeginLogin`, the grid list,
  `DefaultLoginParams`, `Grid.StartLocation` (the parameter `startUri`) and
  MD5 (recorded as `Md5Of(input)`) are left out, and so is the file-system
  set-up.
- Login.AsString, Login.AsInteger: the OSD conversions between value types
  are approximated (a missing key reads as "" or 0, an integer reads as its
  decimal text, a string reads as 0 when it does not parse).
- Login.ParseInt32: `int.TryParse` is modelled under the invariant culture,
  with white space U+0009–U+000D and space, an optional sign, and ASCII
  digits. Culture-specific signs and trailing NUL characters are not
  accepted.
- Login.IsPasswordMD5: the prefix test is an ordinal comparison with "$1$".
  `String.StartsWith(string)` compares under the current culture, where
  ignorable characters such as U+00AD may be skipped, so a few passwords
  the source accepts are rejected here.
- Login.IsPasswordMD5Exactly: states the ordinal prefix test, for the same
  reason as Login.IsPasswordMD5.
- Credentials.Trim: uses the `Char.IsWhiteSpace` set of the .NET 4 runtime.
  Strings are sequences of Unicode scalar values. Trimming and splitting
  give the same pieces as on UTF-16 units, because every white-space and
  separator character is below U+D800 and no surrogate matches one.
- Strings that hold an unpaired surrogate cannot be written as Dafny
  strings. Such user names and passwords are not modelled.
- Credentials.ChoosePassword: when the 16-unit cut falls inside a surrogate
  pair, the last unit hashed is a lone high surrogate. `Md5Of` records that
  unit; how the MD5 helper encodes it to bytes is outside the model.
- Splat.Splat: the 270° rotation of the output is not applied.
- Session.Instance.Update: the Running state's camera and movement updates
  are left out; the state and the screen are what the model keeps.
- `Network_SimChanged` is modelled by its posted action
  (`SimChangedAction`). Destroying the previous region object is not
  modelled.
- Two behaviours of the code are modelled as written:
  - `Utils.Clamp` sends `+∞` to 3 (Assets/Core/TerrainSplat.cs:183-185);
  - every downloaded texture that is not 2048×2048 is resized to 256×256
    (Assets/Core/TerrainSplat.cs:127-130).

## Findings

| source | as written | input that shows it | evidently intended | confidence | as-written member | corrected member |
|---|---|---|---|---|---|---|
| Assets/Core/RegionTerrain.cs:237-247 | `ResetTerrain` clears `fetchingTerrainTexture` while a texture pass may still be running, so the same `Update` dispatches a second pass beside it. | Frame of 11 s (rebuild), mesh work done, frame (texture pass 1 starts), land patch, frame of 11 s: rebuild and texture pass 2 start, two passes in flight. | The guard is cleared only by the pass that set it, so at most one pass is in flight. | medium, not executed | Terrain.ResetAllowsSecondTexturePass | Terrain.GuardedRegionKeepsOneTexturePass |
| Assets/Core/Instance.cs:381-385 | The land-patch action checks only `CurrentSim` for null. The region's `Terrain` is created in `Region.Start` (Assets/Core/Region.cs:33), a frame after the sim-changed action creates the region. | A sim-changed action followed in the same drain by a land-patch action: `Terrain` is null and the action throws. That aborts the rest of the drain (`Scheduler.RunListRunsPrefix`). | Skip the update when the region has no terrain yet. | medium, not executed | Session.Instance.SimChangeThenLandPatch | Session.Instance.LandPatchActionGuarded |
