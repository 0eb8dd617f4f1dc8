/** The `Restir` render pass: a single ray-tracing stage. Each frame with a scene
    bound it adds the bounce and light defines to its program, creates the
    program variables the first time only, binds its channels, dispatches one
    ray-tracing launch over the output size and advances its frame counter.
    Without a scene it only clears its output. */
module Restir {
  import opened Falcor
  import opened Channels

  // ---------------------------------------------------------------------------
  // Constants

  const RtShaderFile: ShaderFile := ShaderFile("RenderPasses/Restir/Restir.rt.slang")

  const MaxPayloadSizeBytes: nat := 72
  const MaxRecursionDepth: nat := 2

  const EntryRayGen: string := "rayGen"
  const EntryScatterMiss: string := "scatterMiss"
  const EntryShadowMiss: string := "shadowMiss"
  const EntryScatterClosestHit: string := "scatterTriangleMeshClosestHit"
  const EntryScatterAnyHit: string := "scatterTriangleMeshAnyHit"
  const EntryShadowAnyHit: string := "shadowTriangleMeshAnyHit"

  const InputChannels: seq<Channel> := [
    Channel("vbuffer", "gVBuffer", false),
    Channel("viewW", "gViewW", true)]

  const OutputChannels: seq<Channel> := [Channel("color", "gOutputColor", false)]

  // ---------------------------------------------------------------------------
  // The stage record built by `setScene`

  /** The binding table: scatter rays (ray type 0) and shadow rays (ray type 1),
      on every triangle mesh. */
  function RestirTable(scene: Scene): (t: BindingTable)
    ensures t.Valid()
    ensures t.missCount == 2 && t.rayTypeCount == 2 && t.geometryCount == scene.GeometryCount()
    ensures t.rayGen == EntryRayGen
    ensures t.Miss(0) == Some(EntryScatterMiss) && t.Miss(1) == Some(EntryShadowMiss)
    ensures forall i :: i >= 2 ==> t.Miss(i) == None
    ensures forall g :: (t.Hit(0, g) ==
      if scene.HasGeometry(g, TriangleMesh) then Some(HitGroup(EntryScatterClosestHit, EntryScatterAnyHit)) else None)
    ensures forall g :: (t.Hit(1, g) ==
      if scene.HasGeometry(g, TriangleMesh) then Some(HitGroup("", EntryShadowAnyHit)) else None)
    ensures forall rt, g :: rt >= 2 ==> t.Hit(rt, g) == None
  {
    var ids := scene.GeometryIDs(TriangleMesh);
    var hits := [HitGroupAssignment(0, ids, HitGroup(EntryScatterClosestHit, EntryScatterAnyHit)),
                 HitGroupAssignment(1, ids, HitGroup("", EntryShadowAnyHit))];
    assert hits[..1] == [hits[0]] && [hits[0]][..0] == [];
    assert forall g :: LatestHit(hits[..1], 0, g) == (if g in ids then Some(hits[0].group) else None);
    assert forall rt, g :: rt != 0 ==> LatestHit(hits[..1], rt, g) == None;
    assert forall g :: LatestHit(hits, 0, g) == if g in ids then Some(hits[0].group) else None;
    assert forall g :: LatestHit(hits, 1, g) == if g in ids then Some(hits[1].group) else None;
    assert forall rt, g :: rt != 0 && rt != 1 ==> LatestHit(hits, rt, g) == None;
    BindingTable(2, 2, scene.GeometryCount(), EntryRayGen, map[0 := EntryScatterMiss, 1 := EntryShadowMiss], hits)
  }

  /** The stage record `setScene` leaves: null without a scene; otherwise a
      program with the scene's defines and the pass's budgets, the table, and no
      variables yet. */
  function TracerFor(s: Option<Scene>): PassTrace {
    if s.None? then NullTrace
    else PassTrace(Some(Program(RtShaderFile, MaxPayloadSizeBytes, MaxRecursionDepth, s.value.defines)),
                   Some(RestirTable(s.value)), None)
  }

  // ---------------------------------------------------------------------------
  // Defines added by `execute`

  /** The define value of a boolean query, as `execute` writes it. */
  function Flag01(b: bool): string {
    if b then "1" else "0"
  }

  /** The bounce limit and the four light switches, as `execute` adds them. */
  function LightDefines(s: Scene, maxBounces: uint32): map<string, string> {
    map["MAX_BOUNCES" := DecimalString(maxBounces),
        "USE_ANALYTIC_LIGHTS" := Flag01(s.useAnalyticLights),
        "USE_EMISSIVE_LIGHTS" := Flag01(s.useEmissiveLights),
        "USE_ENV_LIGHT" := Flag01(s.useEnvLight),
        "USE_ENV_BACKGROUND" := Flag01(s.useEnvBackground)]
  }

  /** The light defines are exactly five; each USE_ define is "1" when the scene's
      query holds and "0" otherwise, and MAX_BOUNCES reads back as the bounce
      limit. */
  lemma LightDefinesMeaning(s: Scene, maxBounces: uint32)
    ensures var d := LightDefines(s, maxBounces);
      d.Keys == {"MAX_BOUNCES", "USE_ANALYTIC_LIGHTS", "USE_EMISSIVE_LIGHTS", "USE_ENV_LIGHT", "USE_ENV_BACKGROUND"} &&
      DecimalValue(d["MAX_BOUNCES"]) == maxBounces &&
      (d["USE_ANALYTIC_LIGHTS"] == (if s.useAnalyticLights then "1" else "0")) &&
      (d["USE_EMISSIVE_LIGHTS"] == (if s.useEmissiveLights then "1" else "0")) &&
      (d["USE_ENV_LIGHT"] == (if s.useEnvLight then "1" else "0")) &&
      (d["USE_ENV_BACKGROUND"] == (if s.useEnvBackground then "1" else "0"))
  {
    DecimalRoundTrip(maxBounces);
  }

  /** The program after one frame's defines: the light defines, then the input
      validity defines, then the output validity defines. */
  function FrameProgram(p: Program, s: Scene, maxBounces: uint32, rd: RenderData): Program {
    AddDefines(AddDefines(AddDefines(p, LightDefines(s, maxBounces)), ValidResourceDefines(InputChannels, rd)),
               ValidResourceDefines(OutputChannels, rd))
  }

  /** Five single-define updates, one after another, are one merge of the five. */
  lemma AddFiveDefines(p: Program, k1: string, v1: string, k2: string, v2: string, k3: string, v3: string,
                       k4: string, v4: string, k5: string, v5: string)
    ensures AddDefine(AddDefine(AddDefine(AddDefine(AddDefine(p, k1, v1), k2, v2), k3, v3), k4, v4), k5, v5) ==
      AddDefines(p, map[k1 := v1, k2 := v2, k3 := v3, k4 := v4, k5 := v5])
  {
    var d := map[k1 := v1, k2 := v2, k3 := v3, k4 := v4, k5 := v5];
    assert p.defines[k1 := v1][k2 := v2][k3 := v3][k4 := v4][k5 := v5] == p.defines + d;
  }

  /** No light define is named like a validity define: those all start with 'i'. */
  lemma LightDefinesNotValidity(s: Scene, maxBounces: uint32, channels: seq<Channel>, rd: RenderData)
    requires DistinctTexnames(channels)
    ensures forall k :: k in LightDefines(s, maxBounces) ==> k !in ValidResourceDefines(channels, rd)
  {
    ValidResourceDefinesMeaning(channels, rd);
    forall k | k in ValidResourceDefines(channels, rd)
      ensures k[0] == 'i'
    {
      var c :| c in channels && c.texname != "" && k == ValidDefineName(c.texname);
    }
  }

  /** The channels of the pass, inputs then outputs. */
  const AllChannels: seq<Channel> := InputChannels + OutputChannels

  /** The frame's validity defines are those of all the pass's channels. */
  lemma FrameProgramMerged(p: Program, s: Scene, maxBounces: uint32, rd: RenderData)
    ensures FrameProgram(p, s, maxBounces, rd).defines ==
      p.defines + LightDefines(s, maxBounces) + ValidResourceDefines(AllChannels, rd)
    ensures DistinctTexnames(AllChannels)
  {
    ValidResourceDefinesConcat(InputChannels, OutputChannels, rd);
    var l, i, o := LightDefines(s, maxBounces), ValidResourceDefines(InputChannels, rd), ValidResourceDefines(OutputChannels, rd);
    assert p.defines + l + i + o == p.defines + l + (i + o);
    assert AllChannels == [Channel("vbuffer", "gVBuffer", false), Channel("viewW", "gViewW", true),
                           Channel("color", "gOutputColor", false)];
  }

  /** The light defines of the frame survive the validity defines added after
      them: each USE_ define is "1" when the scene's query holds and "0"
      otherwise, and MAX_BOUNCES reads back as the bounce limit. */
  lemma FrameProgramLightDefines(p: Program, s: Scene, maxBounces: uint32, rd: RenderData)
    ensures var d := FrameProgram(p, s, maxBounces, rd).defines;
      (forall k :: k in LightDefines(s, maxBounces) ==> k in d && d[k] == LightDefines(s, maxBounces)[k]) &&
      (d["USE_ANALYTIC_LIGHTS"] == (if s.useAnalyticLights then "1" else "0")) &&
      (d["USE_EMISSIVE_LIGHTS"] == (if s.useEmissiveLights then "1" else "0")) &&
      (d["USE_ENV_LIGHT"] == (if s.useEnvLight then "1" else "0")) &&
      (d["USE_ENV_BACKGROUND"] == (if s.useEnvBackground then "1" else "0")) &&
      d["MAX_BOUNCES"] == DecimalString(maxBounces) && DecimalValue(d["MAX_BOUNCES"]) == maxBounces
  {
    FrameProgramMerged(p, s, maxBounces, rd);
    LightDefinesNotValidity(s, maxBounces, AllChannels, rd);
    LightDefinesMeaning(s, maxBounces);
  }

  /** The validity defines of the frame: one per channel of the pass, "1" exactly
      when the graph supplies that channel's resource. */
  lemma FrameProgramValidityDefines(p: Program, s: Scene, maxBounces: uint32, rd: RenderData)
    ensures var d := FrameProgram(p, s, maxBounces, rd).defines;
      forall c :: c in AllChannels && c.texname != "" ==>
        ValidDefineName(c.texname) in d &&
        d[ValidDefineName(c.texname)] == if c.name in rd.textures then "1" else "0"
  {
    FrameProgramMerged(p, s, maxBounces, rd);
    ValidResourceDefinesMeaning(AllChannels, rd);
  }

  // ---------------------------------------------------------------------------
  // What the dispatch receives

  /** The variables the launch receives: the frame counter written, then the
      input and output channels bound, without a membership test. */
  function DispatchVars(v: ProgramVars, frameCount: uint32, rd: RenderData): ProgramVars {
    Bound(OutputChannels, Bound(InputChannels, v.(uniforms := v.uniforms["gFrameCount" := UInt(frameCount)]), rd, false), rd, false)
  }

  /** Every channel of the pass is bound to the graph's texture for it (null when
      the graph has none), the counter is the frame's, and nothing else changes. */
  lemma DispatchVarsMeaning(v: ProgramVars, frameCount: uint32, rd: RenderData)
    ensures var r := DispatchVars(v, frameCount, rd);
      r.members == v.members &&
      r.uniforms == v.uniforms["gFrameCount" := UInt(frameCount)] &&
      (forall c :: c in InputChannels + OutputChannels ==>
        c.texname in r.resources && r.resources[c.texname] == TextureRef(GetTexture(rd, c.name))) &&
      (forall k :: k !in {"gVBuffer", "gViewW", "gOutputColor"} ==>
        (k in r.resources <==> k in v.resources) && (k in v.resources ==> r.resources[k] == v.resources[k]))
  {
    var u := v.(uniforms := v.uniforms["gFrameCount" := UInt(frameCount)]);
    var all := InputChannels + OutputChannels;
    BoundConcat(InputChannels, OutputChannels, u, rd, false);
    assert DistinctTexnames(all);
    BoundMeaning(all, u, rd, false);
    BoundKeepsUniforms(all, u, rd, false);
    forall k | k !in {"gVBuffer", "gViewW", "gOutputColor"}
      ensures k in Bound(all, u, rd, false).resources <==> k in v.resources
      ensures k in v.resources ==> Bound(all, u, rd, false).resources[k] == v.resources[k]
    {
      BoundKeepsOthers(all, u, rd, false, k);
    }
  }

  /** Everything a frame with scene `s` bound asks of the framework: the light
      collection, the variable creation when there were none, and the launch. */
  function FrameEvents(s: Scene, prepare: bool, vars: ProgramVars, rd: RenderData): seq<Event> {
    LightCollectionEvents(s) + (if prepare then [PrepareStageVars(Tracer)] else []) +
    [Raytrace(Tracer, rd.width, rd.height, 1, vars)]
  }

  /** Appending a frame's calls piece by piece builds the same log as appending
      them all at once. */
  lemma FrameLogAssociates(c: seq<Event>, l: seq<Event>, p: seq<Event>, x: Event)
    ensures c + l + p + [x] == c + (l + p + [x])
  {
    assert c + l + p == c + (l + p);
  }

  // ---------------------------------------------------------------------------
  // The pass

  /** The pass object: its scene, its stage record and its frame counter. Two
      further fields stand for the device: the calls made into the framework so
      far. The bounce limit, the shader reflection and the sample generator's
      defines are fixed at construction. */
  class RestirPass {
    var scene: Option<Scene>
    var tracer: PassTrace
    var frameCount: uint32
    /** The calls made into the framework so far, oldest first. */
    var calls: seq<Event>

    const maxBounces: uint32
    /** Shader reflection: the members each shader library declares. */
    const reflection: map<ShaderFile, set<string>>
    /** The defines of the uniform sample generator. */
    const sampleGeneratorDefines: map<string, string>

    function Members(shaderFile: ShaderFile): set<string> {
      if shaderFile in reflection then reflection[shaderFile] else {}
    }

    /** The stage record is null without a scene and built with one. */
    ghost predicate Valid()
      reads this
    {
      (scene.None? ==> tracer == NullTrace) &&
      (scene.Some? ==> tracer.program.Some? && tracer.program.value.shaderFile == RtShaderFile && tracer.table.Some?)
    }

    constructor (maxBounces: uint32, reflection: map<ShaderFile, set<string>>, sampleGeneratorDefines: map<string, string>)
      ensures Valid()
      ensures scene == None && tracer == NullTrace && frameCount == 0 && calls == []
      ensures this.maxBounces == maxBounces && this.reflection == reflection
      ensures this.sampleGeneratorDefines == sampleGeneratorDefines
    {
      scene := None;
      tracer := NullTrace;
      frameCount := 0;
      calls := [];
      this.maxBounces := maxBounces;
      this.reflection := reflection;
      this.sampleGeneratorDefines := sampleGeneratorDefines;
    }

    /** `renderUI` draws no widget and changes nothing. */
    method RenderUI()
      ensures unchanged(this)
    {
    }

    /** `setScene`: reset the stage record and rebuild it for the new scene. The
        frame counter is left as it is. */
    method SetScene(s: Option<Scene>)
      modifies this`scene, this`tracer
      ensures Valid() && scene == s && tracer == TracerFor(s)
    {
      tracer := NullTrace;
      scene := s;
      if scene.Some? {
        var ids := scene.value.GeometryIDs(TriangleMesh);
        var table := CreateTable(2, 2, scene.value.GeometryCount());
        table := SetRayGen(table, EntryRayGen);
        table := SetMiss(table, 0, EntryScatterMiss);
        table := SetMiss(table, 1, EntryShadowMiss);
        table := SetHitGroup(table, 0, ids, HitGroup(EntryScatterClosestHit, EntryScatterAnyHit));
        table := SetHitGroup(table, 1, ids, HitGroup("", EntryShadowAnyHit));
        assert table == RestirTable(scene.value);
        var program := Program(RtShaderFile, MaxPayloadSizeBytes, MaxRecursionDepth, scene.value.defines);
        tracer := PassTrace(Some(program), Some(table), None);
      }
    }

    /** `prepareVars`: add the sample generator's defines and create the variables. */
    method PrepareVars()
      requires tracer.program.Some?
      modifies this`tracer, this`calls
      ensures tracer == PassTrace(Some(AddDefines(old(tracer.program.value), sampleGeneratorDefines)), old(tracer.table),
                                  Some(CreateVars(Members(old(tracer.program.value.shaderFile)))))
      ensures calls == old(calls) + [PrepareStageVars(Tracer)]
    {
      var program := AddDefines(tracer.program.value, sampleGeneratorDefines);
      tracer := PassTrace(Some(program), tracer.table, Some(CreateVars(Members(program.shaderFile))));
      calls := calls + [PrepareStageVars(Tracer)];
    }

    /** The define half of `execute`: the bounce limit, the four light switches,
        then the validity defines of the inputs and of the outputs. */
    method AddFrameDefines(rd: RenderData)
      requires scene.Some? && tracer.program.Some?
      modifies this`tracer
      ensures tracer == old(tracer).(program := Some(FrameProgram(old(tracer.program.value), scene.value, maxBounces, rd)))
    {
      var p := tracer.program.value;
      p := AddDefine(p, "MAX_BOUNCES", DecimalString(maxBounces));
      p := AddDefine(p, "USE_ANALYTIC_LIGHTS", Flag01(scene.value.useAnalyticLights));
      p := AddDefine(p, "USE_EMISSIVE_LIGHTS", Flag01(scene.value.useEmissiveLights));
      p := AddDefine(p, "USE_ENV_LIGHT", Flag01(scene.value.useEnvLight));
      p := AddDefine(p, "USE_ENV_BACKGROUND", Flag01(scene.value.useEnvBackground));
      AddFiveDefines(old(tracer.program.value),
        "MAX_BOUNCES", DecimalString(maxBounces),
        "USE_ANALYTIC_LIGHTS", Flag01(scene.value.useAnalyticLights),
        "USE_EMISSIVE_LIGHTS", Flag01(scene.value.useEmissiveLights),
        "USE_ENV_LIGHT", Flag01(scene.value.useEnvLight),
        "USE_ENV_BACKGROUND", Flag01(scene.value.useEnvBackground));
      p := AddDefines(p, ValidResourceDefines(InputChannels, rd));
      p := AddDefines(p, ValidResourceDefines(OutputChannels, rd));
      tracer := tracer.(program := Some(p));

    }

    /** One frame. Without a scene: clear the output and nothing else. With a
        scene: add the frame's defines, create the variables if there are none,
        bind, launch over (width, height, 1) and advance the counter (wrapping). */
    method Execute(rd: RenderData)
      requires Valid()
      modifies this`tracer, this`calls, this`frameCount
      ensures Valid()
      ensures old(scene).None? ==>
        tracer == old(tracer) && frameCount == old(frameCount) && calls == old(calls) + ClearEvents(OutputChannels, rd)
      ensures old(scene).Some? ==>
        var prepare := old(tracer.vars).None?;
        var p := FrameProgram(old(tracer.program.value), old(scene).value, maxBounces, rd);
        var v := if prepare then CreateVars(Members(RtShaderFile)) else old(tracer.vars.value);
        tracer == PassTrace(Some(if prepare then AddDefines(p, sampleGeneratorDefines) else p), old(tracer.table),
                            Some(DispatchVars(v, old(frameCount), rd))) &&
        frameCount == WrapIncrement(old(frameCount)) &&
        calls == old(calls) + FrameEvents(old(scene).value, prepare, tracer.vars.value, rd)
    {
      if scene.None? {
        var cleared := ClearOutputs(OutputChannels, rd);
        calls := calls + cleared;
        return;
      }

      if scene.value.settingsUseEmissiveLights {
        calls := calls + [BuildLightCollection];
      }
      ghost var c1 := calls;
      assert c1 == old(calls) + LightCollectionEvents(scene.value);

      AddFrameDefines(rd);

      ghost var prepare := tracer.vars.None?;
      if tracer.vars.None? {
        PrepareVars();
      }
      ghost var c2 := calls;
      assert c2 == c1 + if prepare then [PrepareStageVars(Tracer)] else [];

      var v := tracer.vars.value;
      v := v.(uniforms := v.uniforms["gFrameCount" := UInt(frameCount)]);
      v := BindChannels(InputChannels, v, rd, false);
      v := BindChannels(OutputChannels, v, rd, false);
      tracer := tracer.(vars := Some(v));
      calls := calls + [Raytrace(Tracer, rd.width, rd.height, 1, v)];
      FrameLogAssociates(old(calls), LightCollectionEvents(scene.value), if prepare then [PrepareStageVars(Tracer)] else [],
                         Raytrace(Tracer, rd.width, rd.height, 1, v));
      frameCount := WrapIncrement(frameCount);
    }
  }
}
