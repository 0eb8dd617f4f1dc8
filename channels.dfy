/** Binding a pass's channels to its program variables, and clearing its outputs
    when no scene is bound. Both passes do these by looping over a channel list. */
module Channels {
  import opened Falcor

  /** One binding step: a channel with a shader variable name is bound to the
      graph's texture of that name (null when absent). When `checkMember` holds,
      the variable must also be a member of the program. */
  function BindOne(v: ProgramVars, c: Channel, rd: RenderData, checkMember: bool): ProgramVars {
    if Binds(c, v, checkMember)
    then v.(resources := v.resources[c.texname := TextureRef(GetTexture(rd, c.name))])
    else v
  }

  /** The variables after binding `channels` in list order. */
  function Bound(channels: seq<Channel>, v: ProgramVars, rd: RenderData, checkMember: bool): ProgramVars
  {
    if channels == [] then v
    else BindOne(Bound(channels[..|channels| - 1], v, rd, checkMember), channels[|channels| - 1], rd, checkMember)
  }

  predicate Binds(c: Channel, v: ProgramVars, checkMember: bool) {
    c.texname != "" && (!checkMember || c.texname in v.members)
  }

  /** No two channels of the list share a shader variable name. */
  predicate DistinctTexnames(channels: seq<Channel>) {
    forall i, j :: 0 <= i < j < |channels| ==> channels[i].texname != channels[j].texname
  }

  /** Binding never touches the uniforms or the member set. */
  lemma {:induction false} BoundKeepsUniforms(channels: seq<Channel>, v: ProgramVars, rd: RenderData, checkMember: bool)
    ensures Bound(channels, v, rd, checkMember).uniforms == v.uniforms
    ensures Bound(channels, v, rd, checkMember).members == v.members
  {
    if channels != [] {
      BoundKeepsUniforms(channels[..|channels| - 1], v, rd, checkMember);
    }
  }

  /** A variable name that no binding channel of the list writes. */
  predicate Untouched(channels: seq<Channel>, v: ProgramVars, checkMember: bool, k: string) {
    forall c :: c in channels && Binds(c, v, checkMember) ==> c.texname != k
  }

  /** What binding means, first half: every bound channel's variable refers to the
      graph's texture for that channel. */
  lemma {:induction false} BoundMeaning(channels: seq<Channel>, v: ProgramVars, rd: RenderData, checkMember: bool)
    requires DistinctTexnames(channels)
    ensures forall c :: c in channels && Binds(c, v, checkMember) ==>
      c.texname in Bound(channels, v, rd, checkMember).resources &&
      Bound(channels, v, rd, checkMember).resources[c.texname] == TextureRef(GetTexture(rd, c.name))
  {
    if channels != [] {
      var init := channels[..|channels| - 1];
      var last := channels[|channels| - 1];
      assert DistinctTexnames(init);
      BoundMeaning(init, v, rd, checkMember);
      BoundKeepsUniforms(init, v, rd, checkMember);
      forall c | c in channels && Binds(c, v, checkMember)
        ensures c.texname in Bound(channels, v, rd, checkMember).resources
        ensures Bound(channels, v, rd, checkMember).resources[c.texname] == TextureRef(GetTexture(rd, c.name))
      {
        var i :| 0 <= i < |channels| && channels[i] == c;
        if i < |channels| - 1 {
          assert init[i] == c;
          assert c.texname != last.texname;
        }
      }
    }
  }

  /** What binding means, second half: a variable no binding channel names keeps
      its old binding (or stays unbound). */
  lemma {:induction false} BoundKeepsOthers(channels: seq<Channel>, v: ProgramVars, rd: RenderData, checkMember: bool, k: string)
    requires Untouched(channels, v, checkMember, k)
    ensures k in Bound(channels, v, rd, checkMember).resources <==> k in v.resources
    ensures k in v.resources ==> Bound(channels, v, rd, checkMember).resources[k] == v.resources[k]
  {
    if channels != [] {
      var init := channels[..|channels| - 1];
      assert forall c :: c in init ==> c in channels;
      BoundKeepsOthers(init, v, rd, checkMember, k);
      BoundKeepsUniforms(init, v, rd, checkMember);
    }
  }

  /** Binding one list and then another is binding their concatenation: so binding
      inputs before outputs is binding `inputs + outputs` in order. */
  lemma {:induction false} BoundConcat(a: seq<Channel>, b: seq<Channel>, v: ProgramVars, rd: RenderData, checkMember: bool)
    ensures Bound(b, Bound(a, v, rd, checkMember), rd, checkMember) == Bound(a + b, v, rd, checkMember)
  {
    if b == [] {
      assert a + b == a;
    } else {
      var b' := b[..|b| - 1];
      BoundConcat(a, b', v, rd, checkMember);
      assert (a + b)[..|a + b| - 1] == a + b';
      assert (a + b)[|a + b| - 1] == b[|b| - 1];
    }
  }

  /** The channel loop of `bindChannels` (and of the `bind` lambda loops):
      bind each channel of the list, in order. */
  method BindChannels(channels: seq<Channel>, v: ProgramVars, rd: RenderData, checkMember: bool)
    returns (r: ProgramVars)
    ensures r == Bound(channels, v, rd, checkMember)
    ensures r.uniforms == v.uniforms && r.members == v.members
  {
    r := v;
    for i := 0 to |channels|
      invariant r == Bound(channels[..i], v, rd, checkMember)
    {
      assert channels[..i + 1][..i] == channels[..i];
      r := BindOne(r, channels[i], rd, checkMember);
    }
    assert channels[..|channels|] == channels;
    BoundKeepsUniforms(channels, v, rd, checkMember);
  }

  /** `getValidResourceDefines`: one define `is_valid_<texname>` per channel with a
      shader variable, "1" when the graph supplies the resource and "0" otherwise. */
  function ValidResourceDefines(channels: seq<Channel>, rd: RenderData): (d: map<string, string>)
  {
    if channels == [] then map[]
    else
      var c := channels[|channels| - 1];
      var rest := ValidResourceDefines(channels[..|channels| - 1], rd);
      if c.texname == "" then rest
      else rest[ValidDefineName(c.texname) := if c.name in rd.textures then "1" else "0"]
  }

  /** The define name that reports whether shader variable `texname` has a resource. */
  function ValidDefineName(texname: string): string {
    "is_valid_" + texname
  }

  lemma ValidDefineNameInjective(a: string, b: string)
    requires ValidDefineName(a) == ValidDefineName(b)
    ensures a == b
  {
    assert a == ValidDefineName(a)[9..];
  }

  /** What the validity defines say: one define per channel with a shader variable
      and no other, each "1" or "0" according to whether the graph supplies that
      channel's resource. */
  lemma {:induction false} ValidResourceDefinesMeaning(channels: seq<Channel>, rd: RenderData)
    requires DistinctTexnames(channels)
    ensures forall k :: k in ValidResourceDefines(channels, rd) ==>
      exists c :: c in channels && c.texname != "" && k == ValidDefineName(c.texname)
    ensures forall c :: c in channels && c.texname != "" ==>
      ValidDefineName(c.texname) in ValidResourceDefines(channels, rd) &&
      ValidResourceDefines(channels, rd)[ValidDefineName(c.texname)] == if c.name in rd.textures then "1" else "0"
  {
    if channels != [] {
      var init := channels[..|channels| - 1];
      var last := channels[|channels| - 1];
      assert DistinctTexnames(init);
      ValidResourceDefinesMeaning(init, rd);
      forall c | c in channels && c.texname != ""
        ensures ValidDefineName(c.texname) in ValidResourceDefines(channels, rd)
        ensures ValidResourceDefines(channels, rd)[ValidDefineName(c.texname)] == if c.name in rd.textures then "1" else "0"
      {
        var i :| 0 <= i < |channels| && channels[i] == c;
        if i < |channels| - 1 {
          assert init[i] == c;
          if last.texname != "" && ValidDefineName(last.texname) == ValidDefineName(c.texname) {
            ValidDefineNameInjective(last.texname, c.texname);
            assert false;
          }
        }
      }
      assert forall c :: c in init ==> c in channels;
    }
  }

  /** The validity defines of two lists, one after the other, are those of their
      concatenation. */
  lemma {:induction false} ValidResourceDefinesConcat(a: seq<Channel>, b: seq<Channel>, rd: RenderData)
    ensures ValidResourceDefines(a, rd) + ValidResourceDefines(b, rd) == ValidResourceDefines(a + b, rd)
  {
    if b == [] {
      assert a + b == a;
    } else {
      var b' := b[..|b| - 1];
      ValidResourceDefinesConcat(a, b', rd);
      assert (a + b)[..|a + b| - 1] == a + b';
      assert (a + b)[|a + b| - 1] == b[|b| - 1];
    }
  }

  /** The clears issued for the listed outputs when no scene is bound: one per
      channel whose texture the graph supplies, in list order. */
  function ClearEvents(channels: seq<Channel>, rd: RenderData): seq<Event> {
    if channels == [] then []
    else
      var c := channels[|channels| - 1];
      ClearEvents(channels[..|channels| - 1], rd) +
        (if c.name in rd.textures then [ClearTexture(rd.textures[c.name])] else [])
  }

  /** The clears are exactly the supplied textures of the listed channels, and
      nothing but clears is issued. */
  lemma {:induction false} ClearEventsMeaning(channels: seq<Channel>, rd: RenderData)
    ensures forall e :: e in ClearEvents(channels, rd) ==> e.ClearTexture?
    ensures forall c :: c in channels && c.name in rd.textures ==>
      ClearTexture(rd.textures[c.name]) in ClearEvents(channels, rd)
    ensures forall e :: e in ClearEvents(channels, rd) ==>
      exists c :: c in channels && c.name in rd.textures && e == ClearTexture(rd.textures[c.name])
    ensures |ClearEvents(channels, rd)| <= |channels|
  {
    if channels != [] {
      var init := channels[..|channels| - 1];
      ClearEventsMeaning(init, rd);
      assert forall c :: c in channels ==> c in init || c == channels[|channels| - 1];
      assert forall c :: c in init ==> c in channels;
    }
  }

  /** The loop of `execute` taken when no scene is bound: clear the texture of each
      listed output channel that the graph supplies. */
  method ClearOutputs(channels: seq<Channel>, rd: RenderData) returns (cleared: seq<Event>)
    ensures cleared == ClearEvents(channels, rd)
  {
    cleared := [];
    for i := 0 to |channels|
      invariant cleared == ClearEvents(channels[..i], rd)
    {
      assert channels[..i + 1][..i] == channels[..i];
      var dst := GetTexture(rd, channels[i].name);
      if dst.Some? {
        cleared := cleared + [ClearTexture(dst.value)];
      }
    }
    assert channels[..|channels|] == channels;
  }
}
