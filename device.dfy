/**
 * DeviceGFX: the lazily created backend device, the buffer and texture
 * factories, the builtin shader tables filled by BuiltinShaderHelper and the
 * assembly of a shader description in newProgram.
 *
 * The builtin tables are keyed by the hash of a shader's source; the model
 * keys them by the source text itself, an injective stand-in for the hash.
 */
module Device {
  import opened GfxTypes
  import opened Texture

  // ---------------------------------------------------------------------
  // Buffers

  /** backend::BufferType, with room for a value outside the enumeration. */
  datatype BufferType = VertexBuffer | IndexBuffer | OtherBufferType(code: nat)

  /** backend::BufferUsage */
  datatype BufferUsage = StaticUsage | DynamicUsage

  /** gfx::MemoryUsage, produced by UtilsGFX::toMemoryUsage, which the model receives. */
  type MemoryUsage = nat

  /** gfx::BufferInfo */
  datatype BufferInfo = BufferInfo(usage: bv32, memUsage: MemoryUsage, size: U32, stride: U32)

  /**
   * The buffer description of newBuffer(size, stride, type, usage): the
   * VERTEX usage bit exactly for a vertex buffer, the INDEX bit exactly for
   * an index buffer, no other bit, and size and stride as given.
   */
  function NewBufferInfo(size: U32, stride: U32, bufferType: BufferType, usage: BufferUsage,
    toMemoryUsage: BufferUsage -> MemoryUsage): (r: BufferInfo)
    ensures HasFlag(r.usage, BUFFER_USAGE_VERTEX) <==> bufferType == VertexBuffer
    ensures HasFlag(r.usage, BUFFER_USAGE_INDEX) <==> bufferType == IndexBuffer
    ensures r.usage & !(BUFFER_USAGE_VERTEX | BUFFER_USAGE_INDEX) == 0
    ensures bufferType.OtherBufferType? ==> r.usage == BUFFER_USAGE_NONE
    ensures r.memUsage == toMemoryUsage(usage) && r.size == size && r.stride == stride
  {
    var bits := match bufferType
      case VertexBuffer => BUFFER_USAGE_VERTEX
      case IndexBuffer => BUFFER_USAGE_INDEX
      case OtherBufferType(_) => BUFFER_USAGE_NONE;
    BufferInfo(bits, toMemoryUsage(usage), size, stride)
  }

  // ---------------------------------------------------------------------
  // Builtin shader tables

  /** gfx::Type, reduced to the member the backend names. */
  datatype ValueType = Sampler2D | OtherValueType(code: nat)

  /** gfx::Uniform */
  datatype Uniform = Uniform(name: string, utype: ValueType, count: nat)

  /** gfx::UniformSamplerTexture */
  datatype SamplerTexture = SamplerTexture(name: string, ttype: ValueType, count: nat, binding: nat)

  /** The five file-level tables, keyed by shader source. */
  datatype ShaderTables = ShaderTables(
    attributes: map<string, seq<Attribute>>,
    uniforms: map<string, seq<Uniform>>,
    lightCommon: map<string, seq<Uniform>>,
    textures: map<string, seq<SamplerTexture>>,
    names: map<string, string>)

  function EmptyTables(): ShaderTables {
    ShaderTables(map[], map[], map[], map[], map[])
  }

  /** A `find` that yields the empty list when the key is absent. */
  function Lookup<T>(m: map<string, seq<T>>, k: string): seq<T> {
    if k in m then m[k] else []
  }

  /**
   * One step of the code that fills the tables: a BuiltinShaderHelper call
   * (set, attr, uniform, texture, name) or the direct copy of a uniform list
   * into the common-light table.
   */
  datatype TableStep =
    | SetCall(source: string)
    | AttrCall(name: string, format: VertexFormat, isNormalized: bool, location: int)
    | UniformCall(name: string, utype: ValueType, count: nat)
    | TextureCall(name: string, ttype: ValueType, binding: nat)
    | NameCall(name: string)
    | ShareUniforms(target: string, source: string)

  /** attr(name, format) with its defaults: not normalized, location -1. */
  function DefaultAttr(name: string, format: VertexFormat): TableStep {
    AttrCall(name, format, false, -1)
  }

  /** uniform(name, type) with its default count 0. */
  function DefaultUniform(name: string, utype: ValueType): TableStep {
    UniformCall(name, utype, 0)
  }

  /** texture() with its defaults: "u_texture", SAMPLER2D, binding 2. */
  function DefaultTexture(): TableStep {
    TextureCall("u_texture", Sampler2D, 2)
  }

  /** The helper calls that write through the lists or key chosen by the last set. */
  predicate NeedsKey(step: TableStep) {
    step.AttrCall? || step.UniformCall? || step.TextureCall? || step.NameCall?
  }

  /** The tables and the key of the list the helper currently appends to (none before the first set). */
  datatype HelperState = HelperState(tables: ShaderTables, key: Option<string>)

  /** The helper's lists exist: set created all three entries for its key. */
  predicate Attached(s: HelperState) {
    s.key.Some? ==>
      s.key.value in s.tables.attributes && s.key.value in s.tables.uniforms && s.key.value in s.tables.textures
  }

  /** A negative location means "the next one": the current length of the list. */
  function AttrLocation(location: int, length: nat): nat {
    if location < 0 then length else location
  }

  /** The effect of one step on the tables and the helper's key. */
  function Step(s: HelperState, step: TableStep, toAttributeType: VertexFormat -> Format): (r: HelperState)
    requires Attached(s) && (NeedsKey(step) ==> s.key.Some?)
    ensures Attached(r)
    ensures r.key == if step.SetCall? then Some(step.source) else s.key
    ensures r.tables.attributes.Keys == s.tables.attributes.Keys + (if step.SetCall? then {step.source} else {})
    ensures step.SetCall? ==>
      && r.tables.attributes[step.source] == [] && r.tables.uniforms[step.source] == []
      && r.tables.textures[step.source] == []
      && r.tables.uniforms.Keys == s.tables.uniforms.Keys + {step.source}
      && r.tables.textures.Keys == s.tables.textures.Keys + {step.source}
      && (forall k | k in s.tables.attributes && k != step.source :: r.tables.attributes[k] == s.tables.attributes[k])
      && (forall k | k in s.tables.uniforms && k != step.source :: r.tables.uniforms[k] == s.tables.uniforms[k])
      && (forall k | k in s.tables.textures && k != step.source :: r.tables.textures[k] == s.tables.textures[k])
      && r.tables.names == s.tables.names && r.tables.lightCommon == s.tables.lightCommon
  {
    var t := s.tables;
    match step
    case SetCall(source) =>
      HelperState(t.(attributes := t.attributes[source := []], uniforms := t.uniforms[source := []],
        textures := t.textures[source := []]), Some(source))
    case AttrCall(name, format, isNormalized, location) =>
      var k := s.key.value;
      var list := t.attributes[k];
      var a := Attribute(name, AttrLocation(location, |list|), toAttributeType(format), isNormalized);
      s.(tables := t.(attributes := t.attributes[k := list + [a]]))
    case UniformCall(name, utype, count) =>
      var k := s.key.value;
      s.(tables := t.(uniforms := t.uniforms[k := t.uniforms[k] + [Uniform(name, utype, count)]]))
    case TextureCall(name, ttype, binding) =>
      var k := s.key.value;
      s.(tables := t.(textures := t.textures[k := t.textures[k] + [SamplerTexture(name, ttype, 1, binding)]]))
    case NameCall(name) =>
      s.(tables := t.(names := t.names[s.key.value := name]))
    case ShareUniforms(target, source) =>
      var u := Lookup(t.uniforms, source);
      s.(tables := t.(uniforms := t.uniforms[source := u], lightCommon := t.lightCommon[target := u]))
  }

  /** The helper's key after a sequence of steps: the source of the last set, if any. */
  function KeyAfter(key: Option<string>, steps: seq<TableStep>): Option<string>
    decreases |steps|
  {
    if steps == [] then key
    else if steps[|steps| - 1].SetCall? then Some(steps[|steps| - 1].source)
    else KeyAfter(key, steps[..|steps| - 1])
  }

  /** Every step that writes through the helper's lists comes after some set. */
  predicate Bound(key: Option<string>, steps: seq<TableStep>)
    decreases |steps|
  {
    steps == [] ||
    (Bound(key, steps[..|steps| - 1]) && (NeedsKey(steps[|steps| - 1]) ==> KeyAfter(key, steps[..|steps| - 1]).Some?))
  }

  /** The steps performed in order. */
  function Run(s: HelperState, steps: seq<TableStep>, toAttributeType: VertexFormat -> Format): (r: HelperState)
    requires Attached(s) && Bound(s.key, steps)
    ensures Attached(r) && r.key == KeyAfter(s.key, steps)
    ensures s.tables.attributes.Keys <= r.tables.attributes.Keys
    decreases |steps|
  {
    if steps == [] then s
    else Step(Run(s, steps[..|steps| - 1], toAttributeType), steps[|steps| - 1], toAttributeType)
  }

  lemma {:induction false} BoundPrefix(key: Option<string>, steps: seq<TableStep>, i: nat)
    requires Bound(key, steps) && i <= |steps|
    ensures Bound(key, steps[..i])
    decreases |steps|
  {
    if i < |steps| {
      BoundPrefix(key, steps[..|steps| - 1], i);
      assert steps[..|steps| - 1][..i] == steps[..i];
    } else {
      assert steps[..i] == steps;
    }
  }

  /** Every source a set was called for has an attribute list afterwards, empty or not. */
  lemma {:induction false} SetKeepsAttributeEntry(s: HelperState, steps: seq<TableStep>, i: nat,
    toAttributeType: VertexFormat -> Format)
    requires Attached(s) && Bound(s.key, steps)
    requires i < |steps| && steps[i].SetCall?
    ensures steps[i].source in Run(s, steps, toAttributeType).tables.attributes
    decreases |steps|
  {
    var prefix := steps[..|steps| - 1];
    if i < |prefix| {
      assert prefix[i] == steps[i];
      SetKeepsAttributeEntry(s, prefix, i, toAttributeType);
    }
  }

  /** The attr calls with default arguments for the given names and formats. */
  function DefaultAttrs(attrs: seq<(string, VertexFormat)>): (r: seq<TableStep>)
    ensures |r| == |attrs|
  {
    seq(|attrs|, i requires 0 <= i < |attrs| => DefaultAttr(attrs[i].0, attrs[i].1))
  }

  /** After set(source), attr calls are bound to the lists of that source. */
  lemma {:induction false} DefaultAttrsBound(key: Option<string>, source: string, attrs: seq<(string, VertexFormat)>)
    ensures Bound(key, [SetCall(source)] + DefaultAttrs(attrs))
    ensures KeyAfter(key, [SetCall(source)] + DefaultAttrs(attrs)) == Some(source)
    decreases |attrs|
  {
    var steps := [SetCall(source)] + DefaultAttrs(attrs);
    if attrs == [] {
      assert steps == [SetCall(source)];
      assert steps[..|steps| - 1] == [];
      assert Bound(key, steps[..|steps| - 1]);
      assert !NeedsKey(steps[|steps| - 1]);
    } else {
      var init := attrs[..|attrs| - 1];
      DefaultAttrsBound(key, source, init);
      assert steps[..|steps| - 1] == [SetCall(source)] + DefaultAttrs(init);
    }
  }

  /**
   * After set(source), attr calls with default locations number the
   * attributes 0, 1, 2, ... in call order.
   */
  lemma {:induction false} DefaultLocationsAreConsecutive(s: HelperState, source: string,
    attrs: seq<(string, VertexFormat)>, toAttributeType: VertexFormat -> Format)
    requires Attached(s)
    ensures Bound(s.key, [SetCall(source)] + DefaultAttrs(attrs))
    ensures var r := Run(s, [SetCall(source)] + DefaultAttrs(attrs), toAttributeType);
      && source in r.tables.attributes
      && |r.tables.attributes[source]| == |attrs|
      && forall i | 0 <= i < |attrs| ::
           r.tables.attributes[source][i] == Attribute(attrs[i].0, i, toAttributeType(attrs[i].1), false)
    decreases |attrs|
  {
    var steps := [SetCall(source)] + DefaultAttrs(attrs);
    DefaultAttrsBound(s.key, source, attrs);
    if attrs == [] {
      assert steps == [SetCall(source)];
      assert steps[..0] == [];
    } else {
      var init := attrs[..|attrs| - 1];
      var last := attrs[|attrs| - 1];
      var prefix := [SetCall(source)] + DefaultAttrs(init);
      assert steps[..|steps| - 1] == prefix;
      DefaultAttrsBound(s.key, source, init);
      DefaultLocationsAreConsecutive(s, source, init, toAttributeType);
      var mid := Run(s, prefix, toAttributeType);
      assert steps[|steps| - 1] == DefaultAttr(last.0, last.1);
      assert Run(s, steps, toAttributeType) == Step(mid, DefaultAttr(last.0, last.1), toAttributeType);
      DefaultAttrAppends(mid, last.0, last.1, toAttributeType);
    }
  }

  /** An attr call with the default location appends at the next location. */
  lemma DefaultAttrAppends(s: HelperState, name: string, format: VertexFormat, toAttributeType: VertexFormat -> Format)
    requires Attached(s) && s.key.Some?
    ensures var list := s.tables.attributes[s.key.value];
      Step(s, DefaultAttr(name, format), toAttributeType).tables.attributes[s.key.value] ==
        list + [Attribute(name, |list|, toAttributeType(format), false)]
  {
  }

  /** uniform(name, type) with the default count appends one uniform of count 0 to the current list. */
  lemma DefaultUniformAppends(s: HelperState, name: string, utype: ValueType, toAttributeType: VertexFormat -> Format)
    requires Attached(s) && s.key.Some?
    ensures var k := s.key.value;
      Step(s, DefaultUniform(name, utype), toAttributeType).tables.uniforms[k] ==
        s.tables.uniforms[k] + [Uniform(name, utype, 0)]
  {
  }

  /** texture() with its defaults appends one "u_texture" SAMPLER2D entry of count 1 at binding 2. */
  lemma DefaultTextureAppends(s: HelperState, toAttributeType: VertexFormat -> Format)
    requires Attached(s) && s.key.Some?
    ensures var k := s.key.value;
      Step(s, DefaultTexture(), toAttributeType).tables.textures[k] ==
        s.tables.textures[k] + [SamplerTexture("u_texture", Sampler2D, 1, 2)]
  {
  }

  /**
   * What initBuiltinShaderInfo leaves in the tables: nothing changes once the
   * attribute table is non-empty; otherwise the steps run from no key.
   */
  function InitResult(t: ShaderTables, steps: seq<TableStep>, toAttributeType: VertexFormat -> Format): (r: ShaderTables)
    requires Bound(None, steps)
    ensures t.attributes != map[] ==> r == t
    ensures t.attributes.Keys <= r.attributes.Keys
  {
    if t.attributes != map[] then t else Run(HelperState(t, None), steps, toAttributeType).tables
  }

  /** When the steps contain a set, initialising a second time changes nothing. */
  lemma InitIsIdempotent(t: ShaderTables, steps: seq<TableStep>, i: nat, toAttributeType: VertexFormat -> Format)
    requires Bound(None, steps) && i < |steps| && steps[i].SetCall?
    ensures InitResult(InitResult(t, steps, toAttributeType), steps, toAttributeType) == InitResult(t, steps, toAttributeType)
  {
    if t.attributes == map[] {
      SetKeepsAttributeEntry(HelperState(t, None), steps, i, toAttributeType);
    }
  }

  // ---------------------------------------------------------------------
  // Shader description (gfx::ShaderInfo)

  datatype StageKind = VertexStage | FragmentStage

  datatype ShaderStage = ShaderStage(stage: StageKind, source: string)

  datatype UniformBlock = UniformBlock(name: string, members: seq<Uniform>, binding: nat)

  datatype ShaderInfo = ShaderInfo(
    name: string,
    stages: seq<ShaderStage>,
    attributes: seq<Attribute>,
    blocks: seq<UniformBlock>,
    samplerTextures: seq<SamplerTexture>)

  /** The block name for each fixed binding. */
  function BlockName(binding: nat): string {
    if binding == 0 then "VSBlock" else if binding == 1 then "FSBlock" else "CommonLightBlock"
  }

  /** The list a binding takes its members from: vertex uniforms, fragment uniforms, common light. */
  function Members(vsUniforms: seq<Uniform>, fsUniforms: seq<Uniform>, light: seq<Uniform>, binding: nat): seq<Uniform> {
    if binding == 0 then vsUniforms else if binding == 1 then fsUniforms else light
  }

  predicate HasBlock(blocks: seq<UniformBlock>, binding: nat) {
    exists i | 0 <= i < |blocks| :: blocks[i].binding == binding
  }

  /**
   * The uniform blocks of a program: in ascending binding order, a VSBlock
   * (binding 0), FSBlock (1) and CommonLightBlock (2), each present exactly
   * when its list is non-empty and holding that list.
   */
  ghost predicate BlocksFor(blocks: seq<UniformBlock>, vsUniforms: seq<Uniform>, fsUniforms: seq<Uniform>, light: seq<Uniform>) {
    && (forall i, j | 0 <= i < j < |blocks| :: blocks[i].binding < blocks[j].binding)
    && (forall i | 0 <= i < |blocks| ::
          && blocks[i].binding < 3
          && blocks[i] == UniformBlock(BlockName(blocks[i].binding), Members(vsUniforms, fsUniforms, light, blocks[i].binding), blocks[i].binding))
    && (forall b: nat | b < 3 :: HasBlock(blocks, b) <==> Members(vsUniforms, fsUniforms, light, b) != [])
  }

  /** The block list written out: each fixed block in turn, kept when its list is non-empty. */
  function ExpectedBlocks(vsUniforms: seq<Uniform>, fsUniforms: seq<Uniform>, light: seq<Uniform>): seq<UniformBlock> {
    (if vsUniforms != [] then [UniformBlock(BlockName(0), vsUniforms, 0)] else []) +
    (if fsUniforms != [] then [UniformBlock(BlockName(1), fsUniforms, 1)] else []) +
    (if light != [] then [UniformBlock(BlockName(2), light, 2)] else [])
  }

  /** The written-out list has the properties of a program's blocks. */
  lemma ExpectedBlocksMeetSpec(vsUniforms: seq<Uniform>, fsUniforms: seq<Uniform>, light: seq<Uniform>)
    ensures BlocksFor(ExpectedBlocks(vsUniforms, fsUniforms, light), vsUniforms, fsUniforms, light)
  {
    var e := ExpectedBlocks(vsUniforms, fsUniforms, light);
    var n0 := if vsUniforms != [] then 1 else 0;
    var n1 := if fsUniforms != [] then 1 else 0;
    forall b: nat | b < 3
      ensures HasBlock(e, b) <==> Members(vsUniforms, fsUniforms, light, b) != []
    {
      if Members(vsUniforms, fsUniforms, light, b) != [] {
        var i := if b == 0 then 0 else if b == 1 then n0 else n0 + n1;
        assert e[i].binding == b;
      }
    }
  }

  /** The bindings of a block list, in order. */
  function Bindings(blocks: seq<UniformBlock>): (r: seq<nat>)
    ensures |r| == |blocks| && forall i | 0 <= i < |blocks| :: r[i] == blocks[i].binding
  {
    seq(|blocks|, i requires 0 <= i < |blocks| => blocks[i].binding)
  }

  ghost predicate Ascending(a: seq<nat>) {
    forall i, j | 0 <= i < j < |a| :: a[i] < a[j]
  }

  /** Two strictly ascending sequences with the same elements are equal. */
  lemma {:induction false} AscendingDetermined(a: seq<nat>, b: seq<nat>)
    requires Ascending(a) && Ascending(b)
    requires forall x :: x in a <==> x in b
    ensures a == b
    decreases |a|
  {
    assert b != [] ==> b[0] in a;
    if a != [] {
      assert a[0] in a;
      assert b != [];
      assert b[0] in b;
      assert a[0] == b[0];
      forall x
        ensures x in a[1..] <==> x in b[1..]
      {
        assert x in a[1..] <==> x in a && x != a[0];
        assert x in b[1..] <==> x in b && x != b[0];
      }
      AscendingDetermined(a[1..], b[1..]);
      assert a == [a[0]] + a[1..] && b == [b[0]] + b[1..];
    }
  }

  /** Two lists with the properties of a program's blocks are equal. */
  lemma BlocksUnique(blocks: seq<UniformBlock>, other: seq<UniformBlock>,
    vsUniforms: seq<Uniform>, fsUniforms: seq<Uniform>, light: seq<Uniform>)
    requires BlocksFor(blocks, vsUniforms, fsUniforms, light)
    requires BlocksFor(other, vsUniforms, fsUniforms, light)
    ensures blocks == other
  {
    var a, b := Bindings(blocks), Bindings(other);
    forall x
      ensures x in a <==> x in b
    {
      if x in a {
        var i :| 0 <= i < |a| && a[i] == x;
        assert HasBlock(blocks, x);
      }
      if x in b {
        var i :| 0 <= i < |b| && b[i] == x;
        assert HasBlock(other, x);
      }
    }
    AscendingDetermined(a, b);
    assert forall i | 0 <= i < |blocks| :: blocks[i] == other[i];
  }

  /** Any list with the properties of a program's blocks is the written-out one. */
  lemma BlocksDetermined(blocks: seq<UniformBlock>, vsUniforms: seq<Uniform>, fsUniforms: seq<Uniform>, light: seq<Uniform>)
    requires BlocksFor(blocks, vsUniforms, fsUniforms, light)
    ensures blocks == ExpectedBlocks(vsUniforms, fsUniforms, light)
  {
    ExpectedBlocksMeetSpec(vsUniforms, fsUniforms, light);
    BlocksUnique(blocks, ExpectedBlocks(vsUniforms, fsUniforms, light), vsUniforms, fsUniforms, light);
  }

  /** " " and the registered name of a shader, or nothing when it has none. */
  function NameSuffix(names: map<string, string>, k: string): string {
    if k in names then " " + names[k] else ""
  }

  /** The program name: only with more than one block, "[Builtin]" and the known shader names. */
  function ProgramName(blockCount: nat, names: map<string, string>, vertexShader: string, fragmentShader: string): string {
    if blockCount > 1 then "[Builtin]" + NameSuffix(names, vertexShader) + NameSuffix(names, fragmentShader) else ""
  }

  /**
   * `info` is the description newProgram builds for the two sources:
   * vertex then fragment stage; the vertex shader's attributes and the
   * fragment shader's sampler textures; the blocks of BlocksFor; and the
   * name of ProgramName.
   */
  ghost predicate ShaderInfoFor(t: ShaderTables, vertexShader: string, fragmentShader: string, info: ShaderInfo) {
    && info.stages == [ShaderStage(VertexStage, vertexShader), ShaderStage(FragmentStage, fragmentShader)]
    && info.attributes == Lookup(t.attributes, vertexShader)
    && info.samplerTextures == Lookup(t.textures, fragmentShader)
    && BlocksFor(info.blocks, Lookup(t.uniforms, vertexShader), Lookup(t.uniforms, fragmentShader), Lookup(t.lightCommon, fragmentShader))
    && info.name == ProgramName(|info.blocks|, t.names, vertexShader, fragmentShader)
  }

  /** The description is determined by the tables and the two sources. */
  function ExpectedShaderInfo(t: ShaderTables, vertexShader: string, fragmentShader: string): ShaderInfo {
    var blocks := ExpectedBlocks(Lookup(t.uniforms, vertexShader), Lookup(t.uniforms, fragmentShader), Lookup(t.lightCommon, fragmentShader));
    ShaderInfo(
      ProgramName(|blocks|, t.names, vertexShader, fragmentShader),
      [ShaderStage(VertexStage, vertexShader), ShaderStage(FragmentStage, fragmentShader)],
      Lookup(t.attributes, vertexShader),
      blocks,
      Lookup(t.textures, fragmentShader))
  }

  /** The properties of the assembled description pin it down completely. */
  lemma ShaderInfoDetermined(t: ShaderTables, vertexShader: string, fragmentShader: string, info: ShaderInfo)
    requires ShaderInfoFor(t, vertexShader, fragmentShader, info)
    ensures info == ExpectedShaderInfo(t, vertexShader, fragmentShader)
  {
    BlocksDetermined(info.blocks, Lookup(t.uniforms, vertexShader), Lookup(t.uniforms, fragmentShader), Lookup(t.lightCommon, fragmentShader));
  }

  /** Builds the shader description newProgram hands to ProgramGFX, one block at a time. */
  method AssembleShaderInfo(t: ShaderTables, vertexShader: string, fragmentShader: string) returns (info: ShaderInfo)
    ensures ShaderInfoFor(t, vertexShader, fragmentShader, info)
  {
    var stages := [ShaderStage(VertexStage, vertexShader), ShaderStage(FragmentStage, fragmentShader)];
    var attributes := [];
    if vertexShader in t.attributes {
      attributes := t.attributes[vertexShader];
    }
    var blocks := AssembleBlocks(t, vertexShader, fragmentShader);
    var samplerTextures := [];
    if fragmentShader in t.textures {
      samplerTextures := t.textures[fragmentShader];
    }
    var name := AssembleName(t.names, |blocks|, vertexShader, fragmentShader);
    info := ShaderInfo(name, stages, attributes, blocks, samplerTextures);
  }

  /** The uniform blocks, appended in binding order when their lists are found and non-empty. */
  method AssembleBlocks(t: ShaderTables, vertexShader: string, fragmentShader: string) returns (blocks: seq<UniformBlock>)
    ensures BlocksFor(blocks, Lookup(t.uniforms, vertexShader), Lookup(t.uniforms, fragmentShader), Lookup(t.lightCommon, fragmentShader))
  {
    blocks := [];
    if vertexShader in t.uniforms && t.uniforms[vertexShader] != [] {
      blocks := blocks + [UniformBlock("VSBlock", t.uniforms[vertexShader], 0)];
    }
    if fragmentShader in t.uniforms && t.uniforms[fragmentShader] != [] {
      blocks := blocks + [UniformBlock("FSBlock", t.uniforms[fragmentShader], 1)];
    }
    if fragmentShader in t.lightCommon && t.lightCommon[fragmentShader] != [] {
      blocks := blocks + [UniformBlock("CommonLightBlock", t.lightCommon[fragmentShader], 2)];
    }
    var vsUniforms, fsUniforms, light := Lookup(t.uniforms, vertexShader), Lookup(t.uniforms, fragmentShader), Lookup(t.lightCommon, fragmentShader);
    assert blocks == ExpectedBlocks(vsUniforms, fsUniforms, light);
    ExpectedBlocksMeetSpec(vsUniforms, fsUniforms, light);
  }

  /** The program name: set only with more than one block, then extended by each known shader name. */
  method AssembleName(names: map<string, string>, blockCount: nat, vertexShader: string, fragmentShader: string)
    returns (name: string)
    ensures name == ProgramName(blockCount, names, vertexShader, fragmentShader)
  {
    name := "";
    if blockCount > 1 {
      name := "[Builtin]";
      if vertexShader in names {
        name := name + " " + names[vertexShader];
      }
      if fragmentShader in names {
        name := name + " " + names[fragmentShader];
      }
    }
  }

  // ---------------------------------------------------------------------
  // The file-level tables and the helper that fills them

  class ShaderRegistry {
    var attributes: map<string, seq<Attribute>>
    var uniforms: map<string, seq<Uniform>>
    var lightCommon: map<string, seq<Uniform>>
    var textures: map<string, seq<SamplerTexture>>
    var names: map<string, string>

    constructor ()
      ensures Tables() == EmptyTables()
    {
      attributes, uniforms, lightCommon, textures, names := map[], map[], map[], map[], map[];
    }

    function Tables(): ShaderTables
      reads this
    {
      ShaderTables(attributes, uniforms, lightCommon, textures, names)
    }

    /** `lightCommon[target] = uniforms[source]`, the subscript inserting an empty list when absent. */
    method ShareUniforms(target: string, source: string)
      modifies this`uniforms, this`lightCommon
      ensures uniforms == old(uniforms)[source := Lookup(old(uniforms), source)]
      ensures lightCommon == old(lightCommon)[target := Lookup(old(uniforms), source)]
    {
      var u := Lookup(uniforms, source);
      uniforms := uniforms[source := u];
      lightCommon := lightCommon[target := u];
    }
  }

  /**
   * BuiltinShaderHelper: `set` starts the lists of one shader source, and the
   * other calls append to or name the lists it started.
   */
  class BuiltinShaderHelper {
    const registry: ShaderRegistry
    /** UtilsGFX::toAttributeType, which the model receives rather than contains. */
    const toAttributeType: VertexFormat -> Format
    /** The key chosen by the last `set`. */
    var key: Option<string>

    function State(): HelperState
      reads this`key, registry
    {
      HelperState(registry.Tables(), key)
    }

    constructor (registry: ShaderRegistry, toAttributeType: VertexFormat -> Format)
      ensures this.registry == registry && this.toAttributeType == toAttributeType && key == None
    {
      this.registry := registry;
      this.toAttributeType := toAttributeType;
      key := None;
    }

    /** Resets the attribute, uniform and texture lists of `source` and makes them current. */
    method Set(source: string)
      requires Attached(State())
      modifies this`key, registry`attributes, registry`uniforms, registry`textures
      ensures State() == Step(old(State()), SetCall(source), toAttributeType)
    {
      key := Some(source);
      registry.attributes := registry.attributes[source := []];
      registry.uniforms := registry.uniforms[source := []];
      registry.textures := registry.textures[source := []];
    }

    /** Appends an attribute; a negative location becomes the number of attributes so far. */
    method Attr(name: string, format: VertexFormat, isNormalized: bool, location: int)
      requires Attached(State()) && key.Some?
      modifies registry`attributes
      ensures State() == Step(old(State()), AttrCall(name, format, isNormalized, location), toAttributeType)
    {
      var list := registry.attributes[key.value];
      var loc: nat := if location < 0 then |list| else location;
      registry.attributes := registry.attributes[key.value := list + [Attribute(name, loc, toAttributeType(format), isNormalized)]];
    }

    /** Appends a uniform. */
    method AddUniform(name: string, utype: ValueType, count: nat)
      requires Attached(State()) && key.Some?
      modifies registry`uniforms
      ensures State() == Step(old(State()), UniformCall(name, utype, count), toAttributeType)
    {
      var list := registry.uniforms[key.value];
      registry.uniforms := registry.uniforms[key.value := list + [Uniform(name, utype, count)]];
    }

    /** Appends a sampler texture with count 1. */
    method AddTexture(name: string, ttype: ValueType, binding: nat)
      requires Attached(State()) && key.Some?
      modifies registry`textures
      ensures State() == Step(old(State()), TextureCall(name, ttype, binding), toAttributeType)
    {
      var list := registry.textures[key.value];
      registry.textures := registry.textures[key.value := list + [SamplerTexture(name, ttype, 1, binding)]];
    }

    /** Records the display name of the current shader. */
    method Name(name: string)
      requires Attached(State()) && key.Some?
      modifies registry`names
      ensures State() == Step(old(State()), NameCall(name), toAttributeType)
    {
      registry.names := registry.names[key.value := name];
    }
  }

  /**
   * initBuiltinShaderInfo: fills the tables from the builtin table data,
   * unless the attribute table already holds something.
   */
  method InitBuiltinShaderInfo(registry: ShaderRegistry, script: seq<TableStep>, toAttributeType: VertexFormat -> Format)
    requires Bound(None, script)
    modifies registry
    ensures registry.Tables() == InitResult(old(registry.Tables()), script, toAttributeType)
  {
    if registry.attributes != map[] {
      return;
    }
    ghost var s0 := HelperState(registry.Tables(), None);
    var helper := new BuiltinShaderHelper(registry, toAttributeType);
    var i := 0;
    while i < |script|
      invariant 0 <= i <= |script|
      invariant Bound(None, script[..i])
      invariant helper.registry == registry && helper.toAttributeType == toAttributeType
      invariant helper.State() == Run(s0, script[..i], toAttributeType)
    {
      BoundPrefix(None, script, i + 1);
      assert script[..i + 1][..i] == script[..i];
      ApplyStep(helper, script[i]);
      i := i + 1;
    }
    assert script[..i] == script;
  }

  /** One step of the table data: a helper call, or the copy into the common-light table. */
  method ApplyStep(helper: BuiltinShaderHelper, step: TableStep)
    requires Attached(helper.State()) && (NeedsKey(step) ==> helper.key.Some?)
    modifies helper`key, helper.registry
    ensures helper.State() == Step(old(helper.State()), step, helper.toAttributeType)
  {
    match step {
      case SetCall(source) => helper.Set(source);
      case AttrCall(name, format, isNormalized, location) => helper.Attr(name, format, isNormalized, location);
      case UniformCall(name, utype, count) => helper.AddUniform(name, utype, count);
      case TextureCall(name, ttype, binding) => helper.AddTexture(name, ttype, binding);
      case NameCall(name) => helper.Name(name);
      case ShareUniforms(target, source) => helper.registry.ShareUniforms(target, source);
    }
  }

  // ---------------------------------------------------------------------
  // The device

  /** What newTexture returns: a 2D texture, a cube texture, or a null pointer. */
  datatype NewTextureResult =
    | Created2D(texture2D: Texture2DGFX)
    | CreatedCube(textureCube: TextureCubeGFX)
    | NoTexture

  class DeviceGFX {
    /** The graphics device the backend objects are created on. */
    const dev: GfxDevice
    /** The file-level builtin shader tables. */
    const registry: ShaderRegistry
    /** UtilsGFX::toTypes and UtilsGFX::toAttributeType, received rather than contained. */
    const toTypes: PixelFormat -> FormatConversion
    const toAttributeType: VertexFormat -> Format
    /** The table data initBuiltinShaderInfo runs through the helper. */
    const builtinScript: seq<TableStep>

    /** The window the swapchain is created for; 0 is the null pointer. */
    var windowHandle: Handle
    var vsync: bool
    var width: U32
    var height: U32

    constructor (dev: GfxDevice, registry: ShaderRegistry, toTypes: PixelFormat -> FormatConversion,
      toAttributeType: VertexFormat -> Format, builtinScript: seq<TableStep>)
      ensures this.dev == dev && this.registry == registry && this.toTypes == toTypes
      ensures this.toAttributeType == toAttributeType && this.builtinScript == builtinScript
      ensures windowHandle == 0 && vsync && width == 0 && height == 0
    {
      this.dev := dev;
      this.registry := registry;
      this.toTypes := toTypes;
      this.toAttributeType := toAttributeType;
      this.builtinScript := builtinScript;
      windowHandle := 0;
      vsync := true;
      width := 0;
      height := 0;
    }

    /** newTexture: a Texture2DGFX for a 2D descriptor, a TextureCubeGFX for a cube one, otherwise null. */
    method NewTexture(descriptor: TextureDescriptor) returns (r: NewTextureResult)
      requires dev.Valid()
      requires descriptor.textureType == TextureCube ==>
        descriptor.width != 0 && descriptor.height != 0 && descriptor.width == descriptor.height
      modifies dev
      ensures dev.Valid()
      ensures r.Created2D? <==> descriptor.textureType == Texture2D
      ensures r.CreatedCube? <==> descriptor.textureType == TextureCube
      ensures r.Created2D? ==>
        && fresh(r.texture2D) && r.texture2D.Valid() && r.texture2D.dev == dev
        && r.texture2D.width == descriptor.width && r.texture2D.height == descriptor.height
        && r.texture2D.textureFormat == descriptor.textureFormat && r.texture2D.textureUsage == descriptor.textureUsage
      ensures r.CreatedCube? ==>
        && fresh(r.textureCube) && r.textureCube.Valid() && r.textureCube.dev == dev
        && r.textureCube.width == descriptor.width && r.textureCube.height == descriptor.height
        && r.textureCube.textureFormat == descriptor.textureFormat && r.textureCube.textureUsage == descriptor.textureUsage
      ensures r.NoTexture? ==> dev.nextHandle == old(dev.nextHandle) && dev.live == old(dev.live)
    {
      match descriptor.textureType
      case Texture2D =>
        var t := new Texture2DGFX(dev, toTypes, descriptor);
        r := Created2D(t);
      case TextureCube =>
        var t := new TextureCubeGFX(dev, toTypes, descriptor);
        r := CreatedCube(t);
      case OtherTextureType =>
        r := NoTexture;
    }

    /**
     * newProgram: fills the builtin tables on first use, describes the
     * program from them, and yields the description only when the program
     * built from it is valid (the invalid one is deleted and null returned).
     */
    method NewProgram(vertexShader: string, fragmentShader: string, isValid: ShaderInfo -> bool)
      returns (r: Option<ShaderInfo>)
      requires Bound(None, builtinScript)
      modifies registry
      ensures registry.Tables() == InitResult(old(registry.Tables()), builtinScript, toAttributeType)
      ensures var info := ExpectedShaderInfo(registry.Tables(), vertexShader, fragmentShader);
        r == if isValid(info) then Some(info) else None
    {
      InitBuiltinShaderInfo(registry, builtinScript, toAttributeType);
      var info := AssembleShaderInfo(registry.Tables(), vertexShader, fragmentShader);
      ShaderInfoDetermined(registry.Tables(), vertexShader, fragmentShader, info);
      if isValid(info) {
        r := Some(info);
      } else {
        r := None;
      }
    }
  }

  /** The static `DeviceGFX::_instance` and the two static members that use it. */
  class DeviceInstance {
    var instance: DeviceGFX?
    const dev: GfxDevice
    const registry: ShaderRegistry
    const toTypes: PixelFormat -> FormatConversion
    const toAttributeType: VertexFormat -> Format
    const builtinScript: seq<TableStep>

    constructor (dev: GfxDevice, registry: ShaderRegistry, toTypes: PixelFormat -> FormatConversion,
      toAttributeType: VertexFormat -> Format, builtinScript: seq<TableStep>)
      ensures instance == null
      ensures this.dev == dev && this.registry == registry && this.toTypes == toTypes
      ensures this.toAttributeType == toAttributeType && this.builtinScript == builtinScript
    {
      instance := null;
      this.dev := dev;
      this.registry := registry;
      this.toTypes := toTypes;
      this.toAttributeType := toAttributeType;
      this.builtinScript := builtinScript;
    }

    /** getInstance: the first call creates the device with default swapchain values; later calls return it. */
    method GetInstance() returns (d: DeviceGFX)
      modifies this`instance
      ensures instance == d
      ensures old(instance) != null ==> d == old(instance)
      ensures old(instance) == null ==>
        && fresh(d) && d.dev == dev && d.registry == registry && d.builtinScript == builtinScript
        && d.windowHandle == 0 && d.vsync && d.width == 0 && d.height == 0
    {
      if instance == null {
        instance := new DeviceGFX(dev, registry, toTypes, toAttributeType, builtinScript);
      }
      d := instance;
    }

    /** setSwapchainInfo: stores the window, vsync and size on the (possibly new) instance. */
    method SetSwapchainInfo(windowHandle: Handle, vsync: bool, width: U32, height: U32)
      modifies this`instance, instance
      ensures instance != null
      ensures old(instance) != null ==> instance == old(instance)
      ensures old(instance) == null ==> fresh(instance)
      ensures instance.windowHandle == windowHandle && instance.vsync == vsync
      ensures instance.width == width && instance.height == height
    {
      var d := GetInstance();
      d.windowHandle := windowHandle;
      d.vsync := vsync;
      d.width := width;
      d.height := height;
    }

  }
}
