/** What the `Restir` model promises over one frame and over consecutive frames:
    the calls of a frame, the variables being created once, and the per-frame
    defines and bindings being safe to repeat. */
module RestirProperties {
  import opened Falcor
  import opened Channels
  import opened Restir

  /** Without a scene the frame only clears the output, when the graph supplies
      it; nothing is dispatched. */
  lemma UnboundFrameOnlyClears(rd: RenderData)
    ensures var e := ClearEvents(OutputChannels, rd);
      (forall i :: 0 <= i < |e| ==> e[i].ClearTexture? && !e[i].Raytrace?) &&
      (|e| == 1 <==> "color" in rd.textures) &&
      ("color" in rd.textures ==> e == [ClearTexture(rd.textures["color"])])
  {
    var c := OutputChannels;
    assert c[..0] == [];
    ClearEventsMeaning(c, rd);
  }

  /** A frame with a scene launches exactly once, as its last call, over
      (width, height, 1) with the variables it bound; the variables are created
      in that frame exactly when `prepare` holds. */
  lemma FrameCallOrder(s: Scene, prepare: bool, vars: ProgramVars, rd: RenderData)
    ensures var e := FrameEvents(s, prepare, vars, rd);
      |e| == |LightCollectionEvents(s)| + (if prepare then 1 else 0) + 1 &&
      e[|e| - 1] == Raytrace(Tracer, rd.width, rd.height, 1, vars) &&
      (forall i :: 0 <= i < |e| - 1 ==> !e[i].Raytrace?) &&
      (PrepareStageVars(Tracer) in e <==> prepare) &&
      (BuildLightCollection in e <==> s.settingsUseEmissiveLights)
  {
    var e := FrameEvents(s, prepare, vars, rd);
    if prepare {
      assert e[|e| - 2] == PrepareStageVars(Tracer);
    }
  }

  /** The defines are added again every frame; adding them a second time with the
      same scene and the same graph inputs changes nothing. */
  lemma FrameProgramIdempotent(p: Program, s: Scene, maxBounces: uint32, rd: RenderData)
    ensures FrameProgram(FrameProgram(p, s, maxBounces, rd), s, maxBounces, rd) == FrameProgram(p, s, maxBounces, rd)
  {
    ThreeMergesIdempotent(p, LightDefines(s, maxBounces), ValidResourceDefines(InputChannels, rd),
                          ValidResourceDefines(OutputChannels, rd));
  }

  /** Merging the same three define maps a second time changes nothing. */
  lemma ThreeMergesIdempotent(p: Program, a: map<string, string>, b: map<string, string>, c: map<string, string>)
    ensures var q := AddDefines(AddDefines(AddDefines(p, a), b), c);
      AddDefines(AddDefines(AddDefines(q, a), b), c) == q
  {
    var q := AddDefines(AddDefines(AddDefines(p, a), b), c);
    assert q.defines + a + b + c == q.defines;
  }

  /** The variables are kept from frame to frame and bound again: what a frame
      launches with depends only on the variables as created, this frame's
      counter and this frame's textures, not on earlier frames' bindings. */
  lemma {:induction false} DispatchVarsRebind(v: ProgramVars, earlier: uint32, now: uint32, rd0: RenderData, rd: RenderData)
    ensures DispatchVars(DispatchVars(v, earlier, rd0), now, rd) == DispatchVars(v, now, rd)
  {
    var a := DispatchVars(DispatchVars(v, earlier, rd0), now, rd);
    var b := DispatchVars(v, now, rd);
    DispatchVarsMeaning(v, earlier, rd0);
    DispatchVarsMeaning(DispatchVars(v, earlier, rd0), now, rd);
    DispatchVarsMeaning(v, now, rd);
    assert a.uniforms == b.uniforms;
    forall k
      ensures k in a.resources <==> k in b.resources
      ensures k in a.resources ==> a.resources[k] == b.resources[k]
    {
      if k in {"gVBuffer", "gViewW", "gOutputColor"} {
        var c := if k == "gVBuffer" then InputChannels[0] else if k == "gViewW" then InputChannels[1] else OutputChannels[0];
        assert c in InputChannels + OutputChannels && c.texname == k;
      }
    }
  }

  /** Two consecutive frames with a scene bound: the variables are created by
      the first frame at most, never by the second; each frame ends with its one
      launch; the counter advances once per frame. */
  method TwoFrames(pass: RestirPass, rd: RenderData) returns (first: seq<Event>, second: seq<Event>)
    requires pass.Valid() && pass.scene.Some?
    modifies pass
    ensures pass.calls == old(pass.calls) + first + second
    ensures PrepareStageVars(Tracer) in first <==> old(pass.tracer.vars).None?
    ensures PrepareStageVars(Tracer) !in second
    ensures |first| >= 1 && first[|first| - 1].Raytrace? && |second| >= 1 && second[|second| - 1].Raytrace?
    ensures pass.frameCount == WrapIncrement(WrapIncrement(old(pass.frameCount)))
  {
    ghost var s := pass.scene.value;
    ghost var prepare := pass.tracer.vars.None?;
    ghost var f0 := pass.frameCount;
    var c0 := pass.calls;
    pass.Execute(rd);
    var c1 := pass.calls;
    ghost var v1 := pass.tracer.vars.value;
    first := c1[|c0|..];
    assert first == FrameEvents(s, prepare, v1, rd);
    FrameCallOrder(s, prepare, v1, rd);
    pass.Execute(rd);
    second := pass.calls[|c1|..];
    assert second == FrameEvents(s, false, pass.tracer.vars.value, rd);
    FrameCallOrder(s, false, pass.tracer.vars.value, rd);
  }
}
