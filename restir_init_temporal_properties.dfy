/** What the `RestirInitTemporal` model promises over one frame and over many:
    the order of the framework calls, what each dispatch is given, how the frame
    flags and the counter evolve, and when the reservoirs are reallocated. */
module RestirInitTemporalProperties {
  import opened Falcor
  import opened Channels
  import opened RestirInitTemporal

  // ---------------------------------------------------------------------------
  // One frame without a scene

  /** Without a scene the frame only clears the declared output, when the graph
      supplies it; nothing is dispatched. */
  lemma UnboundFrameOnlyClears(rd: RenderData)
    ensures var e := ClearEvents(TemporalOutputChannels, rd);
      (forall i :: 0 <= i < |e| ==> e[i].ClearTexture? && !e[i].Raytrace?) &&
      (|e| == 1 <==> "outputColor" in rd.textures) &&
      ("outputColor" in rd.textures ==> e == [ClearTexture(rd.textures["outputColor"])])
  {
    var c := TemporalOutputChannels;
    assert c[..0] == [];
    ClearEventsMeaning(c, rd);
  }

  // ---------------------------------------------------------------------------
  // One frame with a scene: the calls

  /** The shape of a frame's calls: the optional light collection, the three
      variable rebuilds (init, spatial, finalize), the buffer creations, then
      exactly two dispatches, the init+temporal stage first and the
      spatial+finalize stage second, each over (width, height, 1). */
  lemma FrameCallOrder(s: Scene, f: FrameState, r: Reservoirs, firstId: nat, rd: RenderData,
                       initMembers: set<string>, spatialMembers: set<string>)
    ensures var e := FrameEvents(s, f, r, firstId, rd, initMembers, spatialMembers);
      var l := |LightCollectionEvents(s)|;
      var b := CreatedBuffers(r, rd.width, rd.height);
      |e| == l + 3 + b + 2 &&
      (l == 1 <==> s.settingsUseEmissiveLights) &&
      (l == 1 ==> e[0] == BuildLightCollection) &&
      e[l] == PrepareStageVars(Init) && e[l + 1] == PrepareStageVars(Spatial) && e[l + 2] == PrepareStageVars(Finalize) &&
      (forall i :: l + 3 <= i < l + 3 + b ==> e[i].CreateBuffer?) &&
      e[|e| - 2].Raytrace? && e[|e| - 2].stage == Init &&
      e[|e| - 1].Raytrace? && e[|e| - 1].stage == Spatial &&
      e[|e| - 2].width == rd.width && e[|e| - 2].height == rd.height && e[|e| - 2].depth == 1 &&
      e[|e| - 1].width == rd.width && e[|e| - 1].height == rd.height && e[|e| - 1].depth == 1 &&
      (forall i :: 0 <= i < |e| - 2 ==> !e[i].Raytrace?)
  {
    var stages := PreparedStages;
    assert stages[..2] == [Init, Spatial] && stages[..2][..1] == [Init] && [Init][..0] == [];
    assert PrepareEvents([Init]) == [PrepareStageVars(Init)];
    assert PrepareEvents(stages[..2]) == [PrepareStageVars(Init), PrepareStageVars(Spatial)];
  }

  // ---------------------------------------------------------------------------
  // One frame with a scene: what the two dispatches are given

  /** Both dispatches receive the same frame counter and the same clear request
      (the values at the start of the frame), and each stage its own toggles. */
  lemma DispatchesShareFrameState(vi: ProgramVars, vs: ProgramVars, f: FrameState, r: Reservoirs, rd: RenderData)
    ensures var iv := InitDispatchVars(vi, f, r, rd).uniforms;
      var sv := SpatialDispatchVars(vs, f, r, rd).uniforms;
      "gFrameCount" in iv && "gFrameCount" in sv && iv["gFrameCount"] == sv["gFrameCount"] == UInt(f.frameCount) &&
      "gClearBuffers" in iv && "gClearBuffers" in sv && iv["gClearBuffers"] == sv["gClearBuffers"] == Flag(f.clearBuffers) &&
      "gInitialSamples" in iv && iv["gInitialSamples"] == Flag(f.initLights) &&
      "gEnableTemporal" in iv && iv["gEnableTemporal"] == Flag(f.temporalReuse) &&
      "gEnableSpatial" in sv && sv["gEnableSpatial"] == Flag(f.spatialReuse) &&
      "gDirectLight" in sv && sv["gDirectLight"] == Flag(f.directLight) &&
      "gIndirectLight" in sv && sv["gIndirectLight"] == Flag(f.indirectLight)
  {
    var u := InitUniforms(vi, f);
    var w := SpatialUniforms(vs, f);
    BoundKeepsUniforms(InputChannels, u, rd, true);
    BoundKeepsUniforms(InputChannels, w, rd, true);
    BoundKeepsUniforms(OutputChannels, Bound(InputChannels, w, rd, true), rd, true);
  }

  /** Both dispatches bind the four reservoir buffers of the current storage. */
  lemma DispatchesBindReservoirs(vi: ProgramVars, vs: ProgramVars, f: FrameState, r: Reservoirs, rd: RenderData)
    ensures var ir := InitDispatchVars(vi, f, r, rd).resources;
      var sr := SpatialDispatchVars(vs, f, r, rd).resources;
      forall m :: m in [ir, sr] ==>
        "gTemporalReservoir_DI" in m && m["gTemporalReservoir_DI"] == BufferRef(r.temporalDI) &&
        "gTemporalReservoir_GI" in m && m["gTemporalReservoir_GI"] == BufferRef(r.temporalGI) &&
        "gSpatialReservoir_DI" in m && m["gSpatialReservoir_DI"] == BufferRef(r.spatialDI) &&
        "gSpatialReservoir_GI" in m && m["gSpatialReservoir_GI"] == BufferRef(r.spatialGI)
  {
  }

  /** The init+temporal dispatch binds each input its program declares to the
      graph's texture for it (null when absent); inputs it does not declare stay
      unbound. */
  lemma InitDispatchBindsInputs(v: ProgramVars, f: FrameState, r: Reservoirs, rd: RenderData)
    requires v.resources == map[]
    ensures var res := InitDispatchVars(v, f, r, rd).resources;
      forall c :: c in InputChannels ==>
        (c.texname in v.members ==> c.texname in res && res[c.texname] == TextureRef(GetTexture(rd, c.name))) &&
        (c.texname !in v.members ==> c.texname !in res)
  {
    var u := InitUniforms(v, f);
    assert DistinctTexnames(InputChannels);
    BoundKeepsUniforms(InputChannels, u, rd, true);
    BoundMeaning(InputChannels, u, rd, true);
    forall c | c in InputChannels && c.texname !in v.members
      ensures c.texname !in Bound(InputChannels, u, rd, true).resources
    {
      BoundKeepsOthers(InputChannels, u, rd, true, c.texname);
    }
  }

  // ---------------------------------------------------------------------------
  // Frame flags over several calls

  /** A clear request from the button reaches both dispatches of the next frame
      and is consumed by it; pressing again while it is pending changes nothing. */
  lemma ClearRequestConsumedOnce(f: FrameState)
    ensures var g := FrameAfterClearButton(f);
      g.clearBuffers && (!f.clearBuffers ==> g.initLights) &&
      FrameAfterClearButton(g) == g &&
      !FrameAfterExecute(g).clearBuffers &&
      g.frameCount == f.frameCount
    ensures f.clearBuffers ==> FrameAfterClearButton(f) == f
  {
  }

  /** `setScene` asks the next frame to start from fresh initial samples; the
      frame after that does not, and the counter is not reset. */
  lemma SceneChangeRestartsSamples(f: FrameState, v: ProgramVars)
    ensures var g := FrameAfterSetScene(f);
      g.frameCount == f.frameCount && g.clearBuffers == f.clearBuffers &&
      InitUniforms(v, g).uniforms["gInitialSamples"] == Flag(true) &&
      InitUniforms(v, FrameAfterExecute(g)).uniforms["gInitialSamples"] == Flag(false)
  {
  }

  /** The frame state after `n` frames with a scene bound. */
  function RunFrames(f: FrameState, n: nat): FrameState {
    if n == 0 then f else FrameAfterExecute(RunFrames(f, n - 1))
  }

  /** After `n` frames the counter has advanced by `n` modulo 2^32, and after at
      least one frame no clear is pending and no light initialisation is asked
      for; the toggles never change. */
  lemma {:induction false} RunFramesCounter(f: FrameState, n: nat)
    ensures RunFrames(f, n).frameCount == (f.frameCount + n) % UINT32_LIMIT
    ensures n > 0 ==> !RunFrames(f, n).clearBuffers && !RunFrames(f, n).initLights
    ensures RunFrames(f, n).temporalReuse == f.temporalReuse && RunFrames(f, n).spatialReuse == f.spatialReuse
    ensures RunFrames(f, n).directLight == f.directLight && RunFrames(f, n).indirectLight == f.indirectLight
  {
    if n > 0 {
      RunFramesCounter(f, n - 1);
      var k := f.frameCount + n - 1;
      assert (k % UINT32_LIMIT + 1) % UINT32_LIMIT == (k + 1) % UINT32_LIMIT;
    }
  }

  /** Starting from the member initialisers, frame `n` (counting from 0) sees
      counter `n` modulo 2^32; only the first frame asks for initial samples. */
  lemma FramesFromStart(n: nat)
    ensures RunFrames(InitialFrame, n).frameCount == n % UINT32_LIMIT
    ensures RunFrames(InitialFrame, n).initLights <==> n == 0
  {
    RunFramesCounter(InitialFrame, n);
  }

  // ---------------------------------------------------------------------------
  // Reservoir storage over several frames

  /** Storage and the next buffer handle after one `allocateReservoir` per entry
      of `dims`, in order. */
  function AllocateAll(r: Reservoirs, dims: seq<Dim>, id: nat): (Reservoirs, nat)
    decreases |dims|
  {
    if dims == [] then (r, id)
    else
      var d := dims[|dims| - 1];
      var (r', id') := AllocateAll(r, dims[..|dims| - 1], id);
      (Allocate(r', d.0, d.1, id'), id' + CreatedBuffers(r', d.0, d.1))
  }

  /** Allocation leaves the storage sized for the last request. */
  lemma AllocatedForLast(r: Reservoirs, x: uint32, y: uint32, id: nat)
    ensures Allocate(r, x, y, id).dim == (x, y) && Allocate(r, x, y, id).temporalDI.Some?
  {
  }

  /** Every size change reallocates: when each requested size differs from the
      one before it (and the first from the stored one, or nothing was stored),
      every request creates four buffers. */
  lemma {:induction false} EveryResizeReallocates(r: Reservoirs, dims: seq<Dim>, id: nat)
    requires dims != [] ==> NeedsAllocation(r, dims[0].0, dims[0].1)
    requires forall i :: 0 < i < |dims| ==> dims[i] != dims[i - 1]
    ensures AllocateAll(r, dims, id).1 == id + 4 * |dims|
  {
    if dims != [] {
      var init := dims[..|dims| - 1];
      EveryResizeReallocates(r, init, id);
      var (r', id') := AllocateAll(r, init, id);
      if init != [] {
        AllocatedForLastOfAll(r, init, id);
        assert dims[|dims| - 1] != dims[|dims| - 2];
      }
    }
  }

  /** After at least one request the storage is sized for the last one. */
  lemma {:induction false} AllocatedForLastOfAll(r: Reservoirs, dims: seq<Dim>, id: nat)
    requires dims != []
    ensures AllocateAll(r, dims, id).0.dim == dims[|dims| - 1]
    ensures AllocateAll(r, dims, id).0.temporalDI.Some?
  {
    var d := dims[|dims| - 1];
    var (r', id') := AllocateAll(r, dims[..|dims| - 1], id);
    AllocatedForLast(r', d.0, d.1, id');
  }

  /** An unchanged size allocates at most once: repeating the same request any
      number of times creates buffers only on the first. */
  lemma {:induction false} SameSizeAllocatesOnce(r: Reservoirs, d: Dim, dims: seq<Dim>, id: nat)
    requires dims != [] && forall i :: 0 <= i < |dims| ==> dims[i] == d
    ensures AllocateAll(r, dims, id).1 == id + CreatedBuffers(r, d.0, d.1)
  {
    var init := dims[..|dims| - 1];
    if init != [] {
      SameSizeAllocatesOnce(r, d, init, id);
      AllocatedForLastOfAll(r, init, id);
    } else {
      assert AllocateAll(r, init, id) == (r, id);
    }
  }

  /** The example of a window resized from A to B and back to A: three
      allocations, twelve buffers, starting from empty storage. */
  lemma ResizeBackAndForth(a: Dim, b: Dim)
    requires a != b
    ensures AllocateAll(NoReservoirs, [a, b, a], 0).1 == 12
  {
    EveryResizeReallocates(NoReservoirs, [a, b, a], 0);
  }

  // ---------------------------------------------------------------------------
  // A scene change followed by two frames, on the pass object

  /** After `setScene` the next frame's init dispatch asks for initial samples and
      the frame after does not; both frames end with the two dispatches; the
      second frame, at the same size, creates no buffers; the counter is not
      reset by the scene change and advances once per frame. */
  method SceneChangeThenTwoFrames(pass: RestirInitTemporalPass, s: Scene, rd: RenderData)
    returns (first: seq<Event>, second: seq<Event>)
    requires pass.Valid()
    modifies pass
    ensures pass.calls == old(pass.calls) + first + second
    ensures |first| >= 2 && first[|first| - 2].Raytrace? && first[|first| - 2].stage == Init
    ensures |second| >= 2 && second[|second| - 2].Raytrace? && second[|second| - 2].stage == Init
    ensures "gInitialSamples" in first[|first| - 2].vars.uniforms
    ensures first[|first| - 2].vars.uniforms["gInitialSamples"] == Flag(true)
    ensures "gInitialSamples" in second[|second| - 2].vars.uniforms
    ensures second[|second| - 2].vars.uniforms["gInitialSamples"] == Flag(false)
    ensures forall e :: e in second ==> !e.CreateBuffer?
    ensures pass.frame.frameCount == WrapIncrement(WrapIncrement(old(pass.frame.frameCount)))
  {
    pass.SetScene(Some(s));
    var c0 := pass.calls;
    ghost var f1 := pass.frame;
    ghost var r1 := pass.reservoirs;
    ghost var id1 := pass.nextBufferId;
    pass.Execute(rd);
    var c1 := pass.calls;
    first := c1[|c0|..];
    ghost var im := pass.Members(InitSamplesShaderFile);
    ghost var sm := pass.Members(SpatialShaderFile);
    assert first == FrameEvents(s, f1, r1, id1, rd, im, sm);
    FirstDispatchFlags(s, f1, r1, id1, rd, im, sm);
    ghost var f2 := pass.frame;
    ghost var r2 := pass.reservoirs;
    ghost var id2 := pass.nextBufferId;
    pass.Execute(rd);
    second := pass.calls[|c1|..];
    assert second == FrameEvents(s, f2, r2, id2, rd, im, sm);
    FirstDispatchFlags(s, f2, r2, id2, rd, im, sm);
    AllocateIdempotent(r1, rd.width, rd.height, id1, id2);
    NoCreationsWhenSized(s, f2, r2, id2, rd, im, sm);
  }

  /** The init dispatch of a frame is its second-to-last call and carries the
      frame's initial-samples request. */
  lemma FirstDispatchFlags(s: Scene, f: FrameState, r: Reservoirs, firstId: nat, rd: RenderData,
                           initMembers: set<string>, spatialMembers: set<string>)
    ensures var e := FrameEvents(s, f, r, firstId, rd, initMembers, spatialMembers);
      |e| >= 2 && e[|e| - 2].Raytrace? && e[|e| - 2].stage == Init &&
      "gInitialSamples" in e[|e| - 2].vars.uniforms &&
      e[|e| - 2].vars.uniforms["gInitialSamples"] == Flag(f.initLights)
  {
    var a := Allocate(r, rd.width, rd.height, firstId);
    var v := CreateVars(initMembers);
    FrameCallOrder(s, f, r, firstId, rd, initMembers, spatialMembers);
    DispatchesShareFrameState(v, CreateVars(spatialMembers), f, a, rd);
  }

  /** A frame whose storage already has the render size creates no buffers. */
  lemma NoCreationsWhenSized(s: Scene, f: FrameState, r: Reservoirs, firstId: nat, rd: RenderData,
                             initMembers: set<string>, spatialMembers: set<string>)
    requires !NeedsAllocation(r, rd.width, rd.height)
    ensures forall e :: e in FrameEvents(s, f, r, firstId, rd, initMembers, spatialMembers) ==> !e.CreateBuffer?
  {
    var stages := PreparedStages;
    assert stages[..2] == [Init, Spatial] && stages[..2][..1] == [Init] && [Init][..0] == [];
    assert PrepareEvents([Init]) == [PrepareStageVars(Init)];
    assert PrepareEvents(stages[..2]) == [PrepareStageVars(Init), PrepareStageVars(Spatial)];
  }
}
