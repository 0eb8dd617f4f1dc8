/** The part of the Falcor framework that the two render passes touch, reduced to
    values: 32-bit unsigned arithmetic, scenes, render data, binding tables,
    programs, program variables, and the record of calls a pass makes into the
    framework (clears, dispatches, buffer creation). */
module Falcor {

  // ---------------------------------------------------------------------------
  // 32-bit unsigned integers (`uint` in the passes)

  const UINT32_LIMIT: int := 0x1_0000_0000

  type uint32 = x: int | 0 <= x < UINT32_LIMIT

  /** `++x` on a `uint`: wraps from 2^32 - 1 to 0. */
  function WrapIncrement(x: uint32): (r: uint32)
    ensures r == (x + 1) % UINT32_LIMIT
  {
    if x == UINT32_LIMIT - 1 then 0 else x + 1
  }

  /** `x * y` on two `uint`s: the product modulo 2^32. */
  function WrapMultiply(x: uint32, y: uint32): (r: uint32)
    ensures r == (x * y) % UINT32_LIMIT
    ensures x * y < UINT32_LIMIT ==> r == x * y
  {
    var p := x * y;
    if p < UINT32_LIMIT then p else p % UINT32_LIMIT
  }

  /** `std::to_string` on an unsigned integer: its decimal digits, most
      significant first, without leading zeros. */
  function DecimalString(n: nat): (s: string)
    ensures |s| >= 1
    ensures forall i :: 0 <= i < |s| ==> '0' <= s[i] <= '9'
    ensures s[0] == '0' ==> n == 0
  {
    if n < 10 then [DigitChar(n)] else DecimalString(n / 10) + [DigitChar(n % 10)]
  }

  function DigitChar(d: nat): (c: char)
    requires d < 10
    ensures '0' <= c <= '9'
  {
    ['0', '1', '2', '3', '4', '5', '6', '7', '8', '9'][d]
  }

  /** The value a string of decimal digits denotes. */
  function DecimalValue(s: string): nat
    requires forall i :: 0 <= i < |s| ==> '0' <= s[i] <= '9'
  {
    if s == [] then 0 else 10 * DecimalValue(s[..|s| - 1]) + (s[|s| - 1] - '0') as nat
  }

  /** Reading back the decimal digits gives the number. */
  lemma {:induction false} DecimalRoundTrip(n: nat)
    ensures DecimalValue(DecimalString(n)) == n
  {
    var s := DecimalString(n);
    if n >= 10 {
      DecimalRoundTrip(n / 10);
      assert s[..|s| - 1] == DecimalString(n / 10);
    }
  }

  /** Different numbers give different strings. */
  lemma DecimalStringInjective(m: nat, n: nat)
    requires DecimalString(m) == DecimalString(n)
    ensures m == n
  {
    DecimalRoundTrip(m);
    DecimalRoundTrip(n);
  }

  datatype Option<T> = None | Some(value: T)

  // ---------------------------------------------------------------------------
  // Resources

  /** A texture handle owned by the render graph. */
  datatype Texture = Texture(id: nat)

  /** Where a structured buffer takes its element layout (and so its stride) from:
      a shader variable of one stage's program variables. */
  datatype LayoutRef = LayoutRef(stage: Stage, variable: string)

  /** A structured buffer handle created by the device. */
  datatype Buffer = Buffer(id: nat, elementCount: uint32, layout: LayoutRef)

  /** What a render pass receives each frame: the graph's resources by channel name
      and the default texture dimensions. */
  datatype RenderData = RenderData(textures: map<string, Texture>, width: uint32, height: uint32)

  /** `renderData.getTexture(name)`: null when the graph has no resource of that name. */
  function GetTexture(rd: RenderData, name: string): (t: Option<Texture>)
    ensures t.Some? <==> name in rd.textures
    ensures t.Some? ==> t.value == rd.textures[name]
  {
    if name in rd.textures then Some(rd.textures[name]) else None
  }

  /** A channel description: graph resource name, shader variable name, optional flag. */
  datatype Channel = Channel(name: string, texname: string, optional: bool)

  // ---------------------------------------------------------------------------
  // Scenes

  datatype GeometryType = TriangleMesh | DisplacedTriangleMesh | Curve | SDFGrid | Custom

  /** The scene as the passes query it: one geometry type per geometry ID, the
      render setting that enables emissive lights, the four light queries and the
      scene's shader defines. */
  datatype Scene = Scene(
    geometryTypes: seq<GeometryType>,
    settingsUseEmissiveLights: bool,
    useAnalyticLights: bool,
    useEmissiveLights: bool,
    useEnvLight: bool,
    useEnvBackground: bool,
    defines: map<string, string>)
  {
    /** `getGeometryCount()`. */
    function GeometryCount(): nat {
      |geometryTypes|
    }

    predicate HasGeometry(g: nat, t: GeometryType) {
      g < |geometryTypes| && geometryTypes[g] == t
    }

    /** `getGeometryIDs(t)`: every geometry ID whose type is `t`. */
    function GeometryIDs(t: GeometryType): (ids: set<nat>)
      ensures forall g :: g in ids <==> HasGeometry(g, t)
    {
      set g: nat | g < |geometryTypes| && HasGeometry(g, t)
    }
  }

  /** `getLightCollection` is called when the scene's render settings enable
      emissive lights; its work is not modelled, only the call. */
  function LightCollectionEvents(s: Scene): seq<Event> {
    if s.settingsUseEmissiveLights then [BuildLightCollection] else []
  }

  // ---------------------------------------------------------------------------
  // Binding tables

  /** A hit group: closest-hit entry point (empty when absent) and any-hit entry point. */
  datatype HitGroup = HitGroup(closestHit: string, anyHit: string)

  /** One `setHitGroup` call: the hit group given to a set of geometries for a ray type. */
  datatype HitGroupAssignment = HitGroupAssignment(rayType: nat, ids: set<nat>, group: HitGroup)

  /** An `RtBindingTable` of shape (missCount, rayTypeCount, geometryCount): the
      ray-generation entry, the miss entries by index, and the hit-group
      assignments in the order they were made (a later one overrides an earlier
      one on the geometries they share). */
  datatype BindingTable = BindingTable(
    missCount: nat,
    rayTypeCount: nat,
    geometryCount: nat,
    rayGen: string,
    misses: map<nat, string>,
    hitGroups: seq<HitGroupAssignment>)
  {
    /** Every entry lies inside the table's declared shape. */
    ghost predicate Valid() {
      (forall i :: i in misses ==> i < missCount) &&
      (forall k :: 0 <= k < |hitGroups| ==>
        hitGroups[k].rayType < rayTypeCount && forall g :: g in hitGroups[k].ids ==> g < geometryCount)
    }

    function Miss(i: nat): Option<string> {
      if i in misses then Some(misses[i]) else None
    }

    /** The hit group of geometry `g` for ray type `rayType`: the latest assignment
        that covers it, if any. */
    function Hit(rayType: nat, g: nat): Option<HitGroup> {
      LatestHit(hitGroups, rayType, g)
    }
  }

  function LatestHit(assignments: seq<HitGroupAssignment>, rayType: nat, g: nat): Option<HitGroup> {
    if assignments == [] then None
    else
      var last := assignments[|assignments| - 1];
      if last.rayType == rayType && g in last.ids then Some(last.group)
      else LatestHit(assignments[..|assignments| - 1], rayType, g)
  }

  /** `RtBindingTable::create(missCount, rayTypeCount, geometryCount)`: no entries yet. */
  function CreateTable(missCount: nat, rayTypeCount: nat, geometryCount: nat): (t: BindingTable)
    ensures t.Valid()
    ensures t.missCount == missCount && t.rayTypeCount == rayTypeCount && t.geometryCount == geometryCount
    ensures forall i :: t.Miss(i) == None
    ensures forall r, g :: t.Hit(r, g) == None
  {
    BindingTable(missCount, rayTypeCount, geometryCount, "", map[], [])
  }

  /** `setRayGen(entry)`: only the ray-generation entry changes. */
  function SetRayGen(t: BindingTable, entry: string): (r: BindingTable)
    ensures t.Valid() ==> r.Valid()
    ensures r.rayGen == entry
    ensures r.missCount == t.missCount && r.rayTypeCount == t.rayTypeCount && r.geometryCount == t.geometryCount
    ensures forall i :: r.Miss(i) == t.Miss(i)
    ensures forall rt, g :: r.Hit(rt, g) == t.Hit(rt, g)
  {
    t.(rayGen := entry)
  }

  /** `setMiss(i, entry)`: the framework rejects an index outside the table. */
  function SetMiss(t: BindingTable, i: nat, entry: string): (r: BindingTable)
    requires t.Valid() && i < t.missCount
    ensures r.Valid()
    ensures r.missCount == t.missCount && r.rayTypeCount == t.rayTypeCount
    ensures r.geometryCount == t.geometryCount && r.rayGen == t.rayGen
    ensures r.Miss(i) == Some(entry)
    ensures forall j :: j != i ==> r.Miss(j) == t.Miss(j)
    ensures forall rt, g :: r.Hit(rt, g) == t.Hit(rt, g)
  {
    t.(misses := t.misses[i := entry])
  }

  /** `setHitGroup(rayType, geometryIDs, entry)`: the same hit group for that ray
      type on every listed geometry; the framework rejects IDs outside the table. */
  function SetHitGroup(t: BindingTable, rayType: nat, ids: set<nat>, entry: HitGroup): (r: BindingTable)
    requires t.Valid() && rayType < t.rayTypeCount
    requires forall g :: g in ids ==> g < t.geometryCount
    ensures r.Valid()
    ensures r.missCount == t.missCount && r.rayTypeCount == t.rayTypeCount
    ensures r.geometryCount == t.geometryCount && r.rayGen == t.rayGen
    ensures forall j :: r.Miss(j) == t.Miss(j)
    ensures forall g :: r.Hit(rayType, g) == (if g in ids then Some(entry) else t.Hit(rayType, g))
    ensures forall rt, g :: rt != rayType ==> r.Hit(rt, g) == t.Hit(rt, g)
  {
    var r := t.(hitGroups := t.hitGroups + [HitGroupAssignment(rayType, ids, entry)]);
    assert r.hitGroups[..|r.hitGroups| - 1] == t.hitGroups;
    r
  }

  // ---------------------------------------------------------------------------
  // Programs, variables and per-stage records

  /** The path of a shader library, as given to the program description. */
  datatype ShaderFile = ShaderFile(path: string)

  /** A ray-tracing program: its shader library, its payload and recursion budget,
      and its current defines. */
  datatype Program = Program(
    shaderFile: ShaderFile,
    maxPayloadSize: nat,
    maxRecursionDepth: nat,
    defines: map<string, string>)

  /** `addDefine(name, value)`: one define, replacing any earlier value. */
  function AddDefine(p: Program, name: string, value: string): (r: Program)
    ensures r.shaderFile == p.shaderFile && r.maxPayloadSize == p.maxPayloadSize
    ensures r.maxRecursionDepth == p.maxRecursionDepth
    ensures r.defines.Keys == p.defines.Keys + {name}
    ensures r.defines[name] == value
    ensures forall k :: k in p.defines && k != name ==> r.defines[k] == p.defines[k]
  {
    p.(defines := p.defines[name := value])
  }

  /** `addDefines`: later values replace earlier ones. */
  function AddDefines(p: Program, d: map<string, string>): (r: Program)
    ensures r.shaderFile == p.shaderFile && r.maxPayloadSize == p.maxPayloadSize
    ensures r.maxRecursionDepth == p.maxRecursionDepth
    ensures r.defines.Keys == p.defines.Keys + d.Keys
    ensures forall k :: k in d ==> r.defines[k] == d[k]
    ensures forall k :: k in p.defines && k !in d ==> r.defines[k] == p.defines[k]
  {
    p.(defines := p.defines + d)
  }

  /** One define is a merge of the one-entry map. */
  lemma AddDefineIsMerge(p: Program, name: string, value: string)
    ensures AddDefine(p, name, value) == AddDefines(p, map[name := value])
  {
    assert p.defines[name := value] == p.defines + map[name := value];
  }

  datatype Uniform = UInt(n: uint32) | Flag(b: bool)

  datatype Resource = TextureRef(texture: Option<Texture>) | BufferRef(buffer: Option<Buffer>)

  /** `RtProgramVars`: the shader members its program declares (from reflection),
      the constant-buffer uniforms written so far and the bound resources. */
  datatype ProgramVars = ProgramVars(
    members: set<string>,
    uniforms: map<string, Uniform>,
    resources: map<string, Resource>)

  /** `RtProgramVars::create`: nothing written or bound yet. */
  function CreateVars(members: set<string>): (v: ProgramVars)
    ensures v.members == members && v.uniforms == map[] && v.resources == map[]
  {
    ProgramVars(members, map[], map[])
  }

  /** `PassTrace`: program, binding table and variables, each possibly null. */
  datatype PassTrace = PassTrace(
    program: Option<Program>,
    table: Option<BindingTable>,
    vars: Option<ProgramVars>)

  const NullTrace: PassTrace := PassTrace(None, None, None)

  // ---------------------------------------------------------------------------
  // Calls a pass makes into the framework

  datatype Stage = Init | Temporal | Spatial | Finalize | UpdateShade | Tracer

  datatype Event =
    | ClearTexture(texture: Texture)
    | BuildLightCollection
    | PrepareStageVars(stage: Stage)
    | CreateBuffer(buffer: Buffer)
    | Raytrace(stage: Stage, width: uint32, height: uint32, depth: uint32, vars: ProgramVars)
}
