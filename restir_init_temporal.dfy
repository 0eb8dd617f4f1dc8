/** The `RestirInitTemporal` render pass: a two-stage ReSTIR pipeline. Each frame
    with a scene bound it rebuilds the stage variables, makes sure the four
    reservoir buffers match the output size, dispatches the init+temporal stage
    and then the spatial+finalize stage, and advances its frame state. Without a
    scene it only clears its outputs. */
module RestirInitTemporal {
  import opened Falcor
  import opened Channels

  // ---------------------------------------------------------------------------
  // Constants

  const InitSamplesShaderFile: ShaderFile := ShaderFile("RenderPasses/RestirInitTemporal/RestirInitialSamples.rt.slang")
  const SpatialShaderFile: ShaderFile := ShaderFile("RenderPasses/RestirInitTemporal/RestirSpatial.rt.slang")
  const FinalizeShaderFile: ShaderFile := ShaderFile("RenderPasses/RestirInitTemporal/RestirFinalize.rt.slang")

  const MaxPayloadSizeBytes: nat := 96
  const MaxRecursionDepth: nat := 2

  const EntryRayGen: string := "rayGen"
  const EntryShadowMiss: string := "shadowMiss"
  const EntryShadowAnyHit: string := "shadowAnyHit"
  const EntryIndirectMiss: string := "indirectMiss"
  const EntryIndirectAnyHit: string := "indirectAnyHit"
  const EntryIndirectClosestHit: string := "indirectClosestHit"

  const InputChannels: seq<Channel> := [
    Channel("vbuffer", "gVBuffer", true),
    Channel("viewW", "gViewW", true),
    Channel("motionVector", "gMotionVector", true)]

  const OutputChannels: seq<Channel> := [Channel("outputColor", "gOutputColor", false)]

  /** The outputs the pass declares to the render graph (and clears without a scene). */
  const TemporalOutputChannels: seq<Channel> := [Channel("outputColor", "gOutputColor", false)]

  // ---------------------------------------------------------------------------
  // Binding tables and stage records built by `setScene`

  /** The init+temporal table: shadow and indirect rays, on every triangle mesh. */
  function InitSamplesAndTemporalTable(scene: Scene): (t: BindingTable)
    ensures t.Valid()
    ensures t.missCount == 2 && t.rayTypeCount == 2 && t.geometryCount == scene.GeometryCount()
    ensures t.rayGen == EntryRayGen
    ensures t.Miss(0) == Some(EntryShadowMiss) && t.Miss(1) == Some(EntryIndirectMiss)
    ensures forall i :: i >= 2 ==> t.Miss(i) == None
    ensures forall g :: (t.Hit(0, g) ==
      if scene.HasGeometry(g, TriangleMesh) then Some(HitGroup("", EntryShadowAnyHit)) else None)
    ensures forall g :: (t.Hit(1, g) ==
      if scene.HasGeometry(g, TriangleMesh) then Some(HitGroup(EntryIndirectClosestHit, EntryIndirectAnyHit)) else None)
    ensures forall rt, g :: rt >= 2 ==> t.Hit(rt, g) == None
  {
    var ids := scene.GeometryIDs(TriangleMesh);
    var hits := [HitGroupAssignment(0, ids, HitGroup("", EntryShadowAnyHit)),
                 HitGroupAssignment(1, ids, HitGroup(EntryIndirectClosestHit, EntryIndirectAnyHit))];
    assert hits[..1] == [hits[0]] && [hits[0]][..0] == [];
    assert forall g :: LatestHit(hits[..1], 0, g) == (if g in ids then Some(hits[0].group) else None);
    assert forall rt, g :: rt != 0 ==> LatestHit(hits[..1], rt, g) == None;
    assert forall g :: LatestHit(hits, 0, g) == if g in ids then Some(hits[0].group) else None;
    assert forall g :: LatestHit(hits, 1, g) == if g in ids then Some(hits[1].group) else None;
    assert forall rt, g :: rt != 0 && rt != 1 ==> LatestHit(hits, rt, g) == None;
    BindingTable(2, 2, scene.GeometryCount(), EntryRayGen, map[0 := EntryShadowMiss, 1 := EntryIndirectMiss], hits)
  }

  /** The table of the spatial+finalize stage and of the finalize stage: shadow rays
      only, on every triangle mesh. */
  function ShadowOnlyTable(scene: Scene): (t: BindingTable)
    ensures t.Valid()
    ensures t.missCount == 1 && t.rayTypeCount == 1 && t.geometryCount == scene.GeometryCount()
    ensures t.rayGen == EntryRayGen
    ensures t.Miss(0) == Some(EntryShadowMiss)
    ensures forall i :: i >= 1 ==> t.Miss(i) == None
    ensures forall g :: (t.Hit(0, g) ==
      if scene.HasGeometry(g, TriangleMesh) then Some(HitGroup("", EntryShadowAnyHit)) else None)
    ensures forall rt, g :: rt >= 1 ==> t.Hit(rt, g) == None
  {
    var ids := scene.GeometryIDs(TriangleMesh);
    var hits := [HitGroupAssignment(0, ids, HitGroup("", EntryShadowAnyHit))];
    assert hits[..0] == [];
    assert forall rt, g :: LatestHit(hits[..0], rt, g) == None;
    assert forall g :: LatestHit(hits, 0, g) == if g in ids then Some(hits[0].group) else None;
    assert forall rt, g :: rt != 0 ==> LatestHit(hits, rt, g) == None;
    BindingTable(1, 1, scene.GeometryCount(), EntryRayGen, map[0 := EntryShadowMiss], hits)
  }

  /** A freshly built stage: program with the scene's defines and the pass's payload
      and recursion budget, its table, and no variables yet. */
  function StageTrace(scene: Scene, shaderFile: ShaderFile, table: BindingTable): PassTrace {
    PassTrace(Some(Program(shaderFile, MaxPayloadSizeBytes, MaxRecursionDepth, scene.defines)), Some(table), None)
  }

  /** The stage record a `prepare…Program` call leaves: reset to null, then rebuilt
      when a scene is bound. */
  function InitTraceFor(s: Option<Scene>): PassTrace {
    if s.None? then NullTrace else StageTrace(s.value, InitSamplesShaderFile, InitSamplesAndTemporalTable(s.value))
  }

  function SpatialTraceFor(s: Option<Scene>): PassTrace {
    if s.None? then NullTrace else StageTrace(s.value, SpatialShaderFile, ShadowOnlyTable(s.value))
  }

  function FinalizeTraceFor(s: Option<Scene>): PassTrace {
    if s.None? then NullTrace else StageTrace(s.value, FinalizeShaderFile, ShadowOnlyTable(s.value))
  }

  /** A stage record built for `shaderFile`, whatever defines and variables it has
      gained since. */
  ghost predicate Built(t: PassTrace, shaderFile: ShaderFile) {
    t.program.Some? && t.program.value.shaderFile == shaderFile &&
    t.program.value.maxPayloadSize == MaxPayloadSizeBytes &&
    t.program.value.maxRecursionDepth == MaxRecursionDepth &&
    t.table.Some?
  }

  /** A stage record whose program has gained the defines `d`. */
  function WithDefines(t: PassTrace, d: map<string, string>): PassTrace
    requires t.program.Some?
  {
    t.(program := Some(AddDefines(t.program.value, d)))
  }

  // ---------------------------------------------------------------------------
  // Frame state

  datatype FrameState = FrameState(
    frameCount: uint32,
    clearBuffers: bool,
    initLights: bool,
    temporalReuse: bool,
    spatialReuse: bool,
    directLight: bool,
    indirectLight: bool)

  /** The member initialisers of the pass. */
  const InitialFrame: FrameState := FrameState(0, false, true, true, true, true, true)

  /** Frame state after a frame with a scene bound: counter advanced (wrapping),
      the one-shot clear consumed, lights initialised; toggles untouched. */
  function FrameAfterExecute(f: FrameState): FrameState {
    f.(frameCount := WrapIncrement(f.frameCount), clearBuffers := false, initLights := false)
  }

  /** The Clear Buffers button: arms the clear (and light re-initialisation) only
      when no clear is already pending. */
  function FrameAfterClearButton(f: FrameState): FrameState {
    if !f.clearBuffers then f.(clearBuffers := true, initLights := true) else f
  }

  function FrameAfterSetScene(f: FrameState): FrameState {
    f.(initLights := true)
  }

  // ---------------------------------------------------------------------------
  // Reservoir storage

  type Dim = (uint32, uint32)

  /** `mBufferDim` and the four reservoir buffer handles. */
  datatype Reservoirs = Reservoirs(
    dim: Dim,
    temporalDI: Option<Buffer>,
    temporalGI: Option<Buffer>,
    spatialDI: Option<Buffer>,
    spatialGI: Option<Buffer>)

  const NoReservoirs: Reservoirs := Reservoirs((0, 0), None, None, None, None)

  /** The storage invariant: either nothing allocated yet, or all four buffers
      present with one element per pixel of the stored dimensions. */
  predicate Consistent(r: Reservoirs) {
    (r.temporalDI.None? && r.temporalGI.None? && r.spatialDI.None? && r.spatialGI.None?) ||
    (r.temporalDI.Some? && r.temporalGI.Some? && r.spatialDI.Some? && r.spatialGI.Some? &&
     var n := WrapMultiply(r.dim.0, r.dim.1);
     r.temporalDI.value.elementCount == n && r.temporalGI.value.elementCount == n &&
     r.spatialDI.value.elementCount == n && r.spatialGI.value.elementCount == n)
  }

  /** Every buffer handle was issued before `next`. */
  predicate IdsBelow(r: Reservoirs, next: nat) {
    (r.temporalDI.Some? ==> r.temporalDI.value.id < next) &&
    (r.temporalGI.Some? ==> r.temporalGI.value.id < next) &&
    (r.spatialDI.Some? ==> r.spatialDI.value.id < next) &&
    (r.spatialGI.Some? ==> r.spatialGI.value.id < next)
  }

  /** The allocation test of `allocateReservoir`. */
  predicate NeedsAllocation(r: Reservoirs, x: uint32, y: uint32) {
    r.temporalDI.None? || r.dim.0 != x || r.dim.1 != y
  }

  /** Storage after `allocateReservoir(x, y)`, new handles numbered from `firstId`. */
  function Allocate(r: Reservoirs, x: uint32, y: uint32, firstId: nat): Reservoirs {
    if !NeedsAllocation(r, x, y) then r
    else
      var n := WrapMultiply(x, y);
      Reservoirs((x, y),
        Some(Buffer(firstId, n, LayoutRef(Init, "gTemporalReservoir_DI"))),
        Some(Buffer(firstId + 1, n, LayoutRef(Init, "gTemporalReservoir_GI"))),
        Some(Buffer(firstId + 2, n, LayoutRef(Spatial, "gSpatialReservoir_DI"))),
        Some(Buffer(firstId + 3, n, LayoutRef(Spatial, "gSpatialReservoir_GI"))))
  }

  function CreatedBuffers(r: Reservoirs, x: uint32, y: uint32): nat {
    if NeedsAllocation(r, x, y) then 4 else 0
  }

  /** The buffer creations `allocateReservoir(x, y)` issues, in source order. */
  function AllocationEvents(r: Reservoirs, x: uint32, y: uint32, firstId: nat): seq<Event> {
    if !NeedsAllocation(r, x, y) then []
    else
      var a := Allocate(r, x, y, firstId);
      [CreateBuffer(a.temporalDI.value), CreateBuffer(a.temporalGI.value),
       CreateBuffer(a.spatialDI.value), CreateBuffer(a.spatialGI.value)]
  }

  /** Allocation leaves storage consistent, sized for (x, y), one element per pixel
      (as a 32-bit product), with handles below the advanced counter. */
  lemma AllocateEstablishes(r: Reservoirs, x: uint32, y: uint32, firstId: nat)
    requires Consistent(r) && IdsBelow(r, firstId)
    ensures var a := Allocate(r, x, y, firstId);
      Consistent(a) && a.dim == (x, y) && !NeedsAllocation(a, x, y) &&
      a.temporalDI.Some? && a.temporalDI.value.elementCount == WrapMultiply(x, y) &&
      IdsBelow(a, firstId + CreatedBuffers(r, x, y))
    ensures NeedsAllocation(r, x, y) ==> Fresh(Allocate(r, x, y, firstId), r)
  {
  }

  /** The handles of the buffers present in the storage. */
  function Handles(r: Reservoirs): set<nat> {
    (if r.temporalDI.Some? then {r.temporalDI.value.id} else {}) +
    (if r.temporalGI.Some? then {r.temporalGI.value.id} else {}) +
    (if r.spatialDI.Some? then {r.spatialDI.value.id} else {}) +
    (if r.spatialGI.Some? then {r.spatialGI.value.id} else {})
  }

  /** Storage `a` holds four buffers with four distinct handles, none of them a
      handle of the storage `r` it replaced. */
  predicate Fresh(a: Reservoirs, r: Reservoirs) {
    a.temporalDI.Some? && a.temporalGI.Some? && a.spatialDI.Some? && a.spatialGI.Some? &&
    a.temporalDI.value.id != a.temporalGI.value.id && a.temporalDI.value.id != a.spatialDI.value.id &&
    a.temporalDI.value.id != a.spatialGI.value.id && a.temporalGI.value.id != a.spatialDI.value.id &&
    a.temporalGI.value.id != a.spatialGI.value.id && a.spatialDI.value.id != a.spatialGI.value.id &&
    Handles(a) !! Handles(r)
  }

  /** A second call with the same dimensions changes nothing. */
  lemma AllocateIdempotent(r: Reservoirs, x: uint32, y: uint32, firstId: nat, laterId: nat)
    ensures var a := Allocate(r, x, y, firstId);
      Allocate(a, x, y, laterId) == a && CreatedBuffers(a, x, y) == 0 &&
      AllocationEvents(a, x, y, laterId) == []
  {
  }

  // ---------------------------------------------------------------------------
  // What each dispatch receives

  /** The constant-buffer writes of the init+temporal stage. */
  function InitUniforms(v: ProgramVars, f: FrameState): ProgramVars {
    v.(uniforms := v.uniforms["gFrameCount" := UInt(f.frameCount)]["gInitialSamples" := Flag(f.initLights)]
      ["gEnableTemporal" := Flag(f.temporalReuse)]["gClearBuffers" := Flag(f.clearBuffers)])
  }

  /** The constant-buffer writes of the spatial+finalize stage. */
  function SpatialUniforms(v: ProgramVars, f: FrameState): ProgramVars {
    v.(uniforms := v.uniforms["gFrameCount" := UInt(f.frameCount)]["gEnableSpatial" := Flag(f.spatialReuse)]
      ["gDirectLight" := Flag(f.directLight)]["gIndirectLight" := Flag(f.indirectLight)]
      ["gClearBuffers" := Flag(f.clearBuffers)])
  }

  /** Both stages bind all four reservoir buffers. */
  function BindReservoirs(v: ProgramVars, r: Reservoirs): ProgramVars {
    v.(resources := v.resources["gTemporalReservoir_DI" := BufferRef(r.temporalDI)]
      ["gTemporalReservoir_GI" := BufferRef(r.temporalGI)]
      ["gSpatialReservoir_DI" := BufferRef(r.spatialDI)]
      ["gSpatialReservoir_GI" := BufferRef(r.spatialGI)])
  }

  function InitDispatchVars(v: ProgramVars, f: FrameState, r: Reservoirs, rd: RenderData): ProgramVars {
    BindReservoirs(Bound(InputChannels, InitUniforms(v, f), rd, true), r)
  }

  function SpatialDispatchVars(v: ProgramVars, f: FrameState, r: Reservoirs, rd: RenderData): ProgramVars {
    BindReservoirs(Bound(OutputChannels, Bound(InputChannels, SpatialUniforms(v, f), rd, true), rd, true), r)
  }

  /** The spatial+finalize stage does not read the init-lights flag. */
  lemma SpatialVarsIgnoreInitLights(v: ProgramVars, f: FrameState, r: Reservoirs, rd: RenderData)
    ensures forall b :: SpatialDispatchVars(v, f.(initLights := b), r, rd) == SpatialDispatchVars(v, f, r, rd)
  {
  }

  /** The stage order of `prepareVars`. */
  const PreparedStages: seq<Stage> := [Init, Spatial, Finalize]

  function PrepareEvents(stages: seq<Stage>): seq<Event> {
    if stages == [] then [] else PrepareEvents(stages[..|stages| - 1]) + [PrepareStageVars(stages[|stages| - 1])]
  }

  /** Everything a frame with scene `s` bound asks of the framework: the light
      collection, the three rebuilt variable sets, the buffer creations, and the two
      dispatches over (width, height, 1) with the variables they were given. The
      variables are freshly created each frame, from the shader members
      `initMembers` and `spatialMembers`. */
  function FrameEvents(s: Scene, f: FrameState, r: Reservoirs, firstId: nat, rd: RenderData,
                       initMembers: set<string>, spatialMembers: set<string>): seq<Event>
  {
    var a := Allocate(r, rd.width, rd.height, firstId);
    LightCollectionEvents(s) + PrepareEvents(PreparedStages) + AllocationEvents(r, rd.width, rd.height, firstId) +
    [Raytrace(Init, rd.width, rd.height, 1, InitDispatchVars(CreateVars(initMembers), f, a, rd)),
     Raytrace(Spatial, rd.width, rd.height, 1, SpatialDispatchVars(CreateVars(spatialMembers), f, a, rd))]
  }

  /** Appending a frame's calls piece by piece builds the same log as appending
      them all at once. */
  lemma FrameLogAssociates(c: seq<Event>, l: seq<Event>, p: seq<Event>, a: seq<Event>, x: Event, y: Event)
    ensures c + l + p + a + [x] + [y] == c + (l + p + a + [x, y])
  {
    assert l + p + a + [x, y] == l + p + a + [x] + [y];
  }

  // ---------------------------------------------------------------------------
  // The pass

  /** The five stage records of the pass, by stage. Only init, spatial and
      finalize are ever built; temporal and update-shade stay null. */
  datatype Tracers = Tracers(
    init: PassTrace,
    temporal: PassTrace,
    spatial: PassTrace,
    finalize: PassTrace,
    updateShade: PassTrace)

  const NullTracers: Tracers := Tracers(NullTrace, NullTrace, NullTrace, NullTrace, NullTrace)

  /** The record of stage `st` (the ray-tracing stages of this pass only). */
  function TraceOf(t: Tracers, st: Stage): PassTrace {
    match st
    case Init => t.init
    case Temporal => t.temporal
    case Spatial => t.spatial
    case Finalize => t.finalize
    case UpdateShade => t.updateShade
    case Tracer => NullTrace
  }

  /** The stage records match the bound scene: the three reachable stages all null
      without one, all built with one; temporal and update-shade never built. */
  ghost predicate StagesBuilt(t: Tracers, scene: Option<Scene>) {
    t.temporal == NullTrace && t.updateShade == NullTrace &&
    (scene.None? ==> t.init == NullTrace && t.spatial == NullTrace && t.finalize == NullTrace) &&
    (scene.Some? ==>
      Built(t.init, InitSamplesShaderFile) &&
      Built(t.spatial, SpatialShaderFile) &&
      Built(t.finalize, FinalizeShaderFile))
  }

  /** The pass object. Its members are grouped as the header declares them: the
      frame flags and counter, the scene, the reservoir buffers with their size,
      and the stage records. Two further fields stand for the device: the next
      fresh buffer handle and the calls made into the framework so far. */
  class RestirInitTemporalPass {
    var frame: FrameState
    var scene: Option<Scene>
    var reservoirs: Reservoirs
    var tracers: Tracers

    /** The device's next fresh buffer handle. */
    var nextBufferId: nat
    /** The calls made into the framework so far, oldest first. */
    var calls: seq<Event>

    /** Shader reflection: the members each shader library declares. */
    const reflection: map<ShaderFile, set<string>>
    /** The defines of the uniform sample generator. */
    const sampleGeneratorDefines: map<string, string>

    function Members(shaderFile: ShaderFile): set<string> {
      if shaderFile in reflection then reflection[shaderFile] else {}
    }

    ghost predicate Valid()
      reads this
    {
      StagesBuilt(tracers, scene) && Consistent(reservoirs) && IdsBelow(reservoirs, nextBufferId)
    }

    constructor (reflection: map<ShaderFile, set<string>>, sampleGeneratorDefines: map<string, string>)
      ensures Valid()
      ensures frame == InitialFrame && reservoirs == NoReservoirs && scene == None && tracers == NullTracers
      ensures calls == []
      ensures this.reflection == reflection && this.sampleGeneratorDefines == sampleGeneratorDefines
    {
      frame := InitialFrame;
      scene := None;
      reservoirs := NoReservoirs;
      tracers := NullTracers;
      nextBufferId := 0;
      calls := [];
      this.reflection := reflection;
      this.sampleGeneratorDefines := sampleGeneratorDefines;
    }

    /** `compile` does nothing. */
    method Compile()
      ensures unchanged(this)
    {
    }

    /** The mouse handler never consumes an event. */
    method OnMouseEvent() returns (consumed: bool)
      ensures !consumed
    {
      consumed := false;
    }

    /** The keyboard handler never consumes an event. */
    method OnKeyEvent() returns (consumed: bool)
      ensures !consumed
    {
      consumed := false;
    }

    /** The Clear Buffers button of `renderUI`, pressed or not this frame. */
    method RenderUI(clearBuffersPressed: bool)
      requires Valid()
      modifies this`frame
      ensures Valid()
      ensures frame == if clearBuffersPressed then FrameAfterClearButton(old(frame)) else old(frame)
    {
      if clearBuffersPressed {
        if !frame.clearBuffers {
          frame := frame.(clearBuffers := true);
          frame := frame.(initLights := true);
        }
      }
    }

    method SetScene(s: Option<Scene>)
      requires Valid()
      modifies this`scene, this`frame, this`tracers
      ensures Valid() && scene == s
      ensures frame == FrameAfterSetScene(old(frame))
      ensures tracers == old(tracers).(init := InitTraceFor(s), spatial := SpatialTraceFor(s), finalize := FinalizeTraceFor(s))
    {
      scene := s;
      frame := frame.(initLights := true);
      PrepareInitSamplesAndTemporalProgram();
      PrepareSpatialResamplingAndFinalizeProgram();
      PrepareCopyTemporalProgram();
    }

    method PrepareInitSamplesAndTemporalProgram()
      modifies this`tracers, this`frame
      ensures tracers == old(tracers).(init := InitTraceFor(scene))
      ensures frame == old(frame).(initLights := true)
    {
      tracers := tracers.(init := NullTrace);
      frame := frame.(initLights := true);
      if scene.Some? {
        var ids := scene.value.GeometryIDs(TriangleMesh);
        var table := CreateTable(2, 2, scene.value.GeometryCount());
        table := SetRayGen(table, EntryRayGen);
        table := SetMiss(table, 0, EntryShadowMiss);
        table := SetMiss(table, 1, EntryIndirectMiss);
        table := SetHitGroup(table, 0, ids, HitGroup("", EntryShadowAnyHit));
        table := SetHitGroup(table, 1, ids, HitGroup(EntryIndirectClosestHit, EntryIndirectAnyHit));
        assert table == InitSamplesAndTemporalTable(scene.value);
        var program := Program(InitSamplesShaderFile, MaxPayloadSizeBytes, MaxRecursionDepth, scene.value.defines);
        tracers := tracers.(init := PassTrace(Some(program), Some(table), None));
      }
    }

    method PrepareSpatialResamplingAndFinalizeProgram()
      modifies this`tracers
      ensures tracers == old(tracers).(spatial := SpatialTraceFor(scene))
    {
      tracers := tracers.(spatial := NullTrace);
      if scene.Some? {
        var ids := scene.value.GeometryIDs(TriangleMesh);
        var table := CreateTable(1, 1, scene.value.GeometryCount());
        table := SetRayGen(table, EntryRayGen);
        table := SetMiss(table, 0, EntryShadowMiss);
        table := SetHitGroup(table, 0, ids, HitGroup("", EntryShadowAnyHit));
        assert table == ShadowOnlyTable(scene.value);
        var program := Program(SpatialShaderFile, MaxPayloadSizeBytes, MaxRecursionDepth, scene.value.defines);
        tracers := tracers.(spatial := PassTrace(Some(program), Some(table), None));
      }
    }

    /** Despite its name, builds the finalize stage record. */
    method PrepareCopyTemporalProgram()
      modifies this`tracers
      ensures tracers == old(tracers).(finalize := FinalizeTraceFor(scene))
    {
      tracers := tracers.(finalize := NullTrace);
      if scene.Some? {
        var ids := scene.value.GeometryIDs(TriangleMesh);
        var table := CreateTable(1, 1, scene.value.GeometryCount());
        table := SetRayGen(table, EntryRayGen);
        table := SetMiss(table, 0, EntryShadowMiss);
        table := SetHitGroup(table, 0, ids, HitGroup("", EntryShadowAnyHit));
        assert table == ShadowOnlyTable(scene.value);
        var program := Program(FinalizeShaderFile, MaxPayloadSizeBytes, MaxRecursionDepth, scene.value.defines);
        tracers := tracers.(finalize := PassTrace(Some(program), Some(table), None));
      }
    }

    /** A stage record after `prepareVars`: sample-generator defines added and fresh
        variables created from its program. */
    function Prepared(t: PassTrace): PassTrace
      requires t.program.Some?
    {
      PassTrace(Some(AddDefines(t.program.value, sampleGeneratorDefines)), t.table,
                Some(CreateVars(Members(t.program.value.shaderFile))))
    }

    /** `prepareVars`: for the init, spatial and finalize records, in that order. */
    method PrepareVars()
      requires tracers.init.program.Some? && tracers.spatial.program.Some? && tracers.finalize.program.Some?
      modifies this`tracers, this`calls
      ensures tracers == old(tracers).(init := Prepared(old(tracers.init)), spatial := Prepared(old(tracers.spatial)),
                                       finalize := Prepared(old(tracers.finalize)))
      ensures calls == old(calls) + PrepareEvents(PreparedStages)
    {
      var stages := PreparedStages;
      for i := 0 to |stages|
        invariant forall j :: 0 <= j < i ==>
          TraceOf(old(tracers), stages[j]).program.Some? &&
          TraceOf(tracers, stages[j]) == Prepared(TraceOf(old(tracers), stages[j]))
        invariant forall j :: i <= j < |stages| ==> TraceOf(tracers, stages[j]) == TraceOf(old(tracers), stages[j])
        invariant tracers.temporal == old(tracers.temporal) && tracers.updateShade == old(tracers.updateShade)
        invariant calls == old(calls) + PrepareEvents(stages[..i])
      {
        assert stages[..i + 1][..i] == stages[..i];
        var stage := stages[i];
        if stage == Init {
          tracers := tracers.(init := Prepared(tracers.init));
        } else if stage == Spatial {
          tracers := tracers.(spatial := Prepared(tracers.spatial));
        } else {
          tracers := tracers.(finalize := Prepared(tracers.finalize));
        }
        calls := calls + [PrepareStageVars(stage)];
      }
      assert stages[..|stages|] == stages;
    }

    /** `allocateReservoir`: the buffer layouts are read from the init and spatial
        variables, so those must exist whenever allocation happens. */
    method AllocateReservoir(bufferX: uint32, bufferY: uint32)
      requires NeedsAllocation(reservoirs, bufferX, bufferY) ==> tracers.init.vars.Some? && tracers.spatial.vars.Some?
      modifies this`reservoirs, this`nextBufferId, this`calls
      ensures reservoirs == Allocate(old(reservoirs), bufferX, bufferY, old(nextBufferId))
      ensures nextBufferId == old(nextBufferId) + CreatedBuffers(old(reservoirs), bufferX, bufferY)
      ensures calls == old(calls) + AllocationEvents(old(reservoirs), bufferX, bufferY, old(nextBufferId))
    {
      var allocate := reservoirs.temporalDI.None?;
      allocate := allocate || reservoirs.dim.0 != bufferX || reservoirs.dim.1 != bufferY;
      if allocate {
        reservoirs := reservoirs.(dim := (bufferX, bufferY));
        var sampleCount := WrapMultiply(bufferX, bufferY);
        var id := nextBufferId;
        reservoirs := reservoirs.(temporalDI := Some(Buffer(id, sampleCount, LayoutRef(Init, "gTemporalReservoir_DI"))));
        reservoirs := reservoirs.(temporalGI := Some(Buffer(id + 1, sampleCount, LayoutRef(Init, "gTemporalReservoir_GI"))));
        reservoirs := reservoirs.(spatialDI := Some(Buffer(id + 2, sampleCount, LayoutRef(Spatial, "gSpatialReservoir_DI"))));
        reservoirs := reservoirs.(spatialGI := Some(Buffer(id + 3, sampleCount, LayoutRef(Spatial, "gSpatialReservoir_GI"))));
        nextBufferId := id + 4;
        calls := calls + [CreateBuffer(reservoirs.temporalDI.value), CreateBuffer(reservoirs.temporalGI.value),
                          CreateBuffer(reservoirs.spatialDI.value), CreateBuffer(reservoirs.spatialGI.value)];
      }
    }

    method ExecuteInitSamplesAndTemporalProgram(rd: RenderData)
      requires scene.Some? && tracers.init.vars.Some?
      modifies this`tracers, this`calls, this`frame
      ensures tracers == old(tracers).(init := old(tracers.init).(vars := Some(InitDispatchVars(old(tracers.init.vars.value), old(frame), reservoirs, rd))))
      ensures calls == old(calls) + [Raytrace(Init, rd.width, rd.height, 1, tracers.init.vars.value)]
      ensures frame == old(frame).(initLights := false)
    {
      var v := tracers.init.vars.value;
      v := v.(uniforms := v.uniforms["gFrameCount" := UInt(frame.frameCount)]);
      v := v.(uniforms := v.uniforms["gInitialSamples" := Flag(frame.initLights)]);
      v := v.(uniforms := v.uniforms["gEnableTemporal" := Flag(frame.temporalReuse)]);
      v := v.(uniforms := v.uniforms["gClearBuffers" := Flag(frame.clearBuffers)]);
      v := BindChannels(InputChannels, v, rd, true);
      v := BindReservoirs(v, reservoirs);
      tracers := tracers.(init := tracers.init.(vars := Some(v)));
      calls := calls + [Raytrace(Init, rd.width, rd.height, 1, v)];
      frame := frame.(initLights := false);
    }

    method ExecuteSpatialResamplingAndFinalizeProgram(rd: RenderData)
      requires scene.Some? && tracers.spatial.vars.Some?
      modifies this`tracers, this`calls
      ensures tracers == old(tracers).(spatial := old(tracers.spatial).(vars := Some(SpatialDispatchVars(old(tracers.spatial.vars.value), frame, reservoirs, rd))))
      ensures calls == old(calls) + [Raytrace(Spatial, rd.width, rd.height, 1, tracers.spatial.vars.value)]
    {
      var v := tracers.spatial.vars.value;
      v := v.(uniforms := v.uniforms["gFrameCount" := UInt(frame.frameCount)]);
      v := v.(uniforms := v.uniforms["gEnableSpatial" := Flag(frame.spatialReuse)]);
      v := v.(uniforms := v.uniforms["gDirectLight" := Flag(frame.directLight)]);
      v := v.(uniforms := v.uniforms["gIndirectLight" := Flag(frame.indirectLight)]);
      v := v.(uniforms := v.uniforms["gClearBuffers" := Flag(frame.clearBuffers)]);
      v := BindChannels(InputChannels, v, rd, true);
      v := BindChannels(OutputChannels, v, rd, true);
      v := BindReservoirs(v, reservoirs);
      tracers := tracers.(spatial := tracers.spatial.(vars := Some(v)));
      calls := calls + [Raytrace(Spatial, rd.width, rd.height, 1, v)];
    }

    /** The preparation half of `execute`: build the light collection when the
        scene's render settings ask for emissive lights, add the input-validity
        defines to the three programs and rebuild the variables (the guard tests
        the temporal record, which is never built, so this happens every frame). */
    method PrepareFrame(rd: RenderData)
      requires scene.Some? && StagesBuilt(tracers, scene)
      modifies this`tracers, this`calls
      ensures StagesBuilt(tracers, scene)
      ensures calls == old(calls) + LightCollectionEvents(scene.value) + PrepareEvents(PreparedStages)
      ensures var inputDefines := ValidResourceDefines(InputChannels, rd);
        tracers == old(tracers).(
          init := Prepared(WithDefines(old(tracers.init), inputDefines)),
          spatial := Prepared(WithDefines(old(tracers.spatial), inputDefines)),
          finalize := Prepared(WithDefines(old(tracers.finalize), inputDefines)))
    {
      if scene.value.settingsUseEmissiveLights {
        calls := calls + [BuildLightCollection];
      }
      ghost var c1 := calls;
      assert c1 == old(calls) + LightCollectionEvents(scene.value);

      var inputDefines := ValidResourceDefines(InputChannels, rd);
      tracers := tracers.(init := tracers.init.(program := Some(AddDefines(tracers.init.program.value, inputDefines))));
      tracers := tracers.(spatial := tracers.spatial.(program := Some(AddDefines(tracers.spatial.program.value, inputDefines))));
      tracers := tracers.(finalize := tracers.finalize.(program := Some(AddDefines(tracers.finalize.program.value, inputDefines))));

      if tracers.temporal.vars.None? {
        PrepareVars();
      }
    }

    /** The dispatch half of `execute`: size the reservoirs for the output, run the
        init+temporal stage and then the spatial+finalize stage on freshly
        prepared variables, and consume the clear request. */
    method DispatchFrame(rd: RenderData)
      requires scene.Some? && Consistent(reservoirs) && IdsBelow(reservoirs, nextBufferId)
      requires tracers.init.vars == Some(CreateVars(Members(InitSamplesShaderFile)))
      requires tracers.spatial.vars == Some(CreateVars(Members(SpatialShaderFile)))
      modifies this`frame, this`reservoirs, this`tracers, this`nextBufferId, this`calls
      ensures frame == old(frame).(clearBuffers := false, initLights := false)
      ensures reservoirs == Allocate(old(reservoirs), rd.width, rd.height, old(nextBufferId))
      ensures nextBufferId == old(nextBufferId) + CreatedBuffers(old(reservoirs), rd.width, rd.height)
      ensures Consistent(reservoirs) && IdsBelow(reservoirs, nextBufferId)
      ensures tracers == old(tracers).(
        init := old(tracers.init).(vars := Some(InitDispatchVars(CreateVars(Members(InitSamplesShaderFile)), old(frame), reservoirs, rd))),
        spatial := old(tracers.spatial).(vars := Some(SpatialDispatchVars(CreateVars(Members(SpatialShaderFile)), old(frame), reservoirs, rd))))
      ensures calls == old(calls) + AllocationEvents(old(reservoirs), rd.width, rd.height, old(nextBufferId)) +
        [Raytrace(Init, rd.width, rd.height, 1, InitDispatchVars(CreateVars(Members(InitSamplesShaderFile)), old(frame), reservoirs, rd))] +
        [Raytrace(Spatial, rd.width, rd.height, 1, SpatialDispatchVars(CreateVars(Members(SpatialShaderFile)), old(frame), reservoirs, rd))]
    {
      ghost var f0, r0, id0 := frame, reservoirs, nextBufferId;
      AllocateReservoir(rd.width, rd.height);
      AllocateEstablishes(r0, rd.width, rd.height, id0);
      ExecuteInitSamplesAndTemporalProgram(rd);
      ExecuteSpatialResamplingAndFinalizeProgram(rd);
      SpatialVarsIgnoreInitLights(CreateVars(Members(SpatialShaderFile)), f0, reservoirs, rd);
      frame := frame.(clearBuffers := false);
    }

    /** One frame. Without a scene: clear the declared outputs and nothing else.
        With a scene: add the input-validity defines to the three programs, rebuild
        the variables (the guard tests the temporal record, which is never built,
        so this happens every frame), size the reservoirs, run both stages, consume
        the clear request and advance the counter. */
    method Execute(rd: RenderData)
      requires Valid()
      modifies this`frame, this`reservoirs, this`tracers, this`nextBufferId, this`calls
      ensures Valid()
      ensures old(scene).None? ==>
        frame == old(frame) && reservoirs == old(reservoirs) && tracers == old(tracers) &&
        nextBufferId == old(nextBufferId) && calls == old(calls) + ClearEvents(TemporalOutputChannels, rd)
      ensures old(scene).Some? ==>
        frame == FrameAfterExecute(old(frame)) &&
        reservoirs == Allocate(old(reservoirs), rd.width, rd.height, old(nextBufferId)) &&
        nextBufferId == old(nextBufferId) + CreatedBuffers(old(reservoirs), rd.width, rd.height)
      ensures old(scene).Some? ==>
        calls == old(calls) + FrameEvents(old(scene).value, old(frame), old(reservoirs), old(nextBufferId), rd,
                                          Members(InitSamplesShaderFile), Members(SpatialShaderFile))
      ensures old(scene).Some? ==>
        var inputDefines := ValidResourceDefines(InputChannels, rd);
        tracers.init.program == Some(AddDefines(AddDefines(old(tracers.init.program.value), inputDefines), sampleGeneratorDefines)) &&
        tracers.spatial.program == Some(AddDefines(AddDefines(old(tracers.spatial.program.value), inputDefines), sampleGeneratorDefines)) &&
        tracers.finalize.program == Some(AddDefines(AddDefines(old(tracers.finalize.program.value), inputDefines), sampleGeneratorDefines)) &&
        tracers.finalize.vars == Some(CreateVars(Members(FinalizeShaderFile)))
      ensures old(scene).Some? ==>
        tracers.init.table == old(tracers.init.table) && tracers.spatial.table == old(tracers.spatial.table) &&
        tracers.finalize.table == old(tracers.finalize.table) &&
        tracers.temporal == old(tracers.temporal) && tracers.updateShade == old(tracers.updateShade) &&
        tracers.init.vars == Some(InitDispatchVars(CreateVars(Members(InitSamplesShaderFile)), old(frame), reservoirs, rd)) &&
        tracers.spatial.vars == Some(SpatialDispatchVars(CreateVars(Members(SpatialShaderFile)), old(frame), reservoirs, rd))
    {
      if scene.None? {
        var cleared := ClearOutputs(TemporalOutputChannels, rd);
        calls := calls + cleared;
        return;
      }

      ghost var s := scene.value;
      PrepareFrame(rd);
      DispatchFrame(rd);
      FrameLogAssociates(old(calls), LightCollectionEvents(s), PrepareEvents(PreparedStages),
        AllocationEvents(old(reservoirs), rd.width, rd.height, old(nextBufferId)),
        Raytrace(Init, rd.width, rd.height, 1, InitDispatchVars(CreateVars(Members(InitSamplesShaderFile)), old(frame), reservoirs, rd)),
        Raytrace(Spatial, rd.width, rd.height, 1, SpatialDispatchVars(CreateVars(Members(SpatialShaderFile)), old(frame), reservoirs, rd)));

      frame := frame.(frameCount := WrapIncrement(frame.frameCount));
    }
  }
}
