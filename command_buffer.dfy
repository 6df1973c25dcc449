/**
 * CommandBufferGFX: the per-frame orchestrator of the GFX backend. It caches
 * render passes by clear flags, resolves the framebuffer each render pass
 * draws into, keeps the viewport and scissor rectangles, holds the buffers,
 * program state and pipeline it was given (with their reference counts),
 * builds a pipeline state and an input assembler for every draw and frees
 * these transient objects at the end of the frame.
 *
 * The device's command buffer, queue and swapchain calls are recorded, in
 * order, in `commands`; the objects the device creates are fresh handles of
 * a GfxDevice.
 */
module CommandBuffer {
  import opened GfxTypes
  import opened OrderedMap
  import opened RenderPipeline

  // ---------------------------------------------------------------------
  // Render passes

  /** gfx::ColorAttachment; `barrier` says whether the fragment-shader-read barrier is attached. */
  datatype ColorAttachment = ColorAttachment(format: Format, loadOp: LoadOp, barrier: bool)

  datatype DepthStencilAttachment = DepthStencilAttachment(
    format: Format, depthLoadOp: LoadOp, stencilLoadOp: LoadOp, barrier: bool)

  /** gfx::RenderPassInfo: one colour attachment and, when wanted, a depth/stencil attachment. */
  datatype RenderPassInfo = RenderPassInfo(
    colorAttachment: ColorAttachment,
    depthStencilAttachment: Option<DepthStencilAttachment>)

  datatype RenderPass = RenderPass(id: Handle, info: RenderPassInfo)

  /** Clear flags are built from COLOR, DEPTH and STENCIL only. */
  predicate ValidClearFlags(flags: bv32) {
    flags & !CLEAR_ALL == 0
  }

  /** A 32-bit cache key, wrapped so that it can index a map. */
  datatype PassKey = PassKey(bits: bv32)

  /** The cache key: the clear flags, plus bit 31 when there is no depth/stencil attachment. */
  function RenderPassKey(clearFlags: bv32, hasDepthStencil: bool): (r: PassKey)
    ensures ValidClearFlags(clearFlags) ==>
      r.bits == clearFlags | (if hasDepthStencil then 0 else 0x8000_0000)
  {
    PassKey(clearFlags + (if hasDepthStencil then 0 else 1 << 31))
  }

  function KeyFlags(key: PassKey): bv32 {
    key.bits & 0x7FFF_FFFF
  }

  predicate KeyHasDepthStencil(key: PassKey) {
    key.bits & 0x8000_0000 == 0
  }

  /** A key gives back the flags and the depth/stencil choice it was made from. */
  lemma KeyDecodes(clearFlags: bv32, hasDepthStencil: bool)
    requires ValidClearFlags(clearFlags)
    ensures KeyFlags(RenderPassKey(clearFlags, hasDepthStencil)) == clearFlags
    ensures KeyHasDepthStencil(RenderPassKey(clearFlags, hasDepthStencil)) == hasDepthStencil
  {
  }

  /** Two lookups share a cache entry exactly when their flags and depth/stencil choice agree. */
  lemma KeyInjective(f1: bv32, d1: bool, f2: bv32, d2: bool)
    requires ValidClearFlags(f1) && ValidClearFlags(f2)
    ensures RenderPassKey(f1, d1) == RenderPassKey(f2, d2) <==> f1 == f2 && d1 == d2
  {
    KeyDecodes(f1, d1);
    KeyDecodes(f2, d2);
  }

  /**
   * The render pass getRenderPass creates for a cache miss. The colour
   * attachment loads (with a read barrier) when COLOR is not cleared. A
   * depth/stencil attachment exists only when asked for; unless both DEPTH and
   * STENCIL are cleared it gets a read barrier, and each plane loads exactly
   * when its flag is absent.
   */
  function RenderPassInfoFor(clearFlags: bv32, hasDepthStencil: bool, format: Format): (r: RenderPassInfo)
    ensures r.colorAttachment.format == format
    ensures r.colorAttachment.loadOp == (if HasFlag(clearFlags, CLEAR_COLOR) then Clear else Load)
    ensures r.colorAttachment.barrier <==> !HasFlag(clearFlags, CLEAR_COLOR)
    ensures r.depthStencilAttachment.Some? <==> hasDepthStencil
    ensures hasDepthStencil ==>
      && r.depthStencilAttachment.value.format == DepthStencilFormat
      && r.depthStencilAttachment.value.depthLoadOp == (if HasFlag(clearFlags, CLEAR_DEPTH) then Clear else Load)
      && r.depthStencilAttachment.value.stencilLoadOp == (if HasFlag(clearFlags, CLEAR_STENCIL) then Clear else Load)
      && (r.depthStencilAttachment.value.barrier <==> !(HasFlag(clearFlags, CLEAR_DEPTH) && HasFlag(clearFlags, CLEAR_STENCIL)))
  {
    var color :=
      if !HasFlag(clearFlags, CLEAR_COLOR) then ColorAttachment(format, Load, true)
      else ColorAttachment(format, Clear, false);
    var depthStencil :=
      if !hasDepthStencil then None
      else if !HasAllFlags(clearFlags, CLEAR_DEPTH_STENCIL) then
        Some(DepthStencilAttachment(DepthStencilFormat,
          if !HasFlag(clearFlags, CLEAR_DEPTH) then Load else Clear,
          if !HasFlag(clearFlags, CLEAR_STENCIL) then Load else Clear,
          true))
      else Some(DepthStencilAttachment(DepthStencilFormat, Clear, Clear, false));
    RenderPassInfo(color, depthStencil)
  }

  /**
   * One lookup in the render-pass cache: a hit returns the cached pass
   * whatever the format and leaves the cache alone; a miss adds `rp`, built
   * by RenderPassInfoFor, under the key.
   */
  ghost predicate CacheStep(cache0: map<PassKey, RenderPass>, cache: map<PassKey, RenderPass>,
                            clearFlags: bv32, hasDepthStencil: bool, format: Format, rp: RenderPass) {
    var key := RenderPassKey(clearFlags, hasDepthStencil);
    if key in cache0 then cache == cache0 && rp == cache0[key]
    else cache == cache0[key := rp] && rp.info == RenderPassInfoFor(clearFlags, hasDepthStencil, format)
  }

  /** Every cached pass has the attachments its key asks for. */
  ghost predicate CacheConsistent(cache: map<PassKey, RenderPass>) {
    forall k | k in cache ::
      && ValidClearFlags(KeyFlags(k))
      && cache[k].info == RenderPassInfoFor(KeyFlags(k), KeyHasDepthStencil(k), cache[k].info.colorAttachment.format)
  }

  lemma CacheStepKeepsConsistent(cache0: map<PassKey, RenderPass>, cache: map<PassKey, RenderPass>,
                                 clearFlags: bv32, hasDepthStencil: bool, format: Format, rp: RenderPass)
    requires CacheConsistent(cache0) && ValidClearFlags(clearFlags)
    requires CacheStep(cache0, cache, clearFlags, hasDepthStencil, format, rp)
    ensures CacheConsistent(cache)
    ensures cache0.Values <= cache.Values && rp in cache.Values
    ensures rp == cache[RenderPassKey(clearFlags, hasDepthStencil)]
  {
    var key := RenderPassKey(clearFlags, hasDepthStencil);
    KeyDecodes(clearFlags, hasDepthStencil);
    if key !in cache0 {
      forall v | v in cache0.Values
        ensures v in cache.Values
      {
        var k :| k in cache0 && cache0[k] == v;
        assert cache[k] == v;
      }
      assert cache[key] == rp;
    }
  }

  // ---------------------------------------------------------------------
  // Vertex-attribute layout

  /** The gfx attribute made from a layout entry: its location is its index. */
  function ToAttribute(a: VertexAttribute, toAttributeType: VertexFormat -> Format): Attribute {
    Attribute(a.name, a.index, toAttributeType(a.format), a.needToBeNormalized)
  }

  /**
   * The offset-sorted map the layout loop builds: every entry whose index is
   * below `n` is stored under its offset, a later entry replacing an earlier
   * one with the same offset.
   */
  function Collect(attrs: seq<VertexAttribute>, n: nat, toAttributeType: VertexFormat -> Format): (r: Entries<Attribute>)
    ensures StrictlySorted(r)
    ensures forall p | p in r :: p.1.location < n
    decreases |attrs|
  {
    if attrs == [] then []
    else
      var m := Collect(attrs[..|attrs| - 1], n, toAttributeType);
      var a := attrs[|attrs| - 1];
      if a.index >= n then m else Put(m, a.offset, ToAttribute(a, toAttributeType))
  }

  predicate AllKnown(attributes: seq<Attribute>) {
    forall i | 0 <= i < |attributes| :: attributes[i].format != Unknown
  }

  /**
   * The attribute list derived from a program state: empty without a state, a
   * layout, a valid layout or any entries, and empty when a converted format is
   * UNKNOWN; otherwise the collected attributes in ascending offset order.
   */
  function AttributeLayout(state: Option<ProgramStateRef>, toAttributeType: VertexFormat -> Format): (r: seq<Attribute>)
    ensures r != [] ==> state.Some? && state.value.layout.Some? && state.value.layout.value.valid
    ensures r != [] ==> AllKnown(r)
    ensures r != [] ==> forall i | 0 <= i < |r| :: r[i].location < |state.value.layout.value.attributes|
    ensures state.Some? && state.value.layout.Some? && state.value.layout.value.valid ==>
      var attrs := state.value.layout.value.attributes;
      var sorted := Values(Collect(attrs, |attrs|, toAttributeType));
      AllKnown(sorted) ==> r == sorted
  {
    if state.None? || state.value.layout.None? then []
    else
      var layout := state.value.layout.value;
      if !layout.valid || layout.attributes == [] then []
      else
        var entries := Collect(layout.attributes, |layout.attributes|, toAttributeType);
        var dest := Values(entries);
        assert forall i | 0 <= i < |dest| :: entries[i] in entries;
        if AllKnown(dest) then dest else []
  }

  /** Layout entry `a` lands in the map under offset `off`. */
  predicate StoredAt(a: VertexAttribute, n: nat, off: nat) {
    a.index < n && a.offset == off
  }

  /** Looking up an offset in the collected map finds nothing exactly when no in-range entry has that offset. */
  lemma {:induction false} CollectAbsent(attrs: seq<VertexAttribute>, n: nat, toAttributeType: VertexFormat -> Format, off: nat)
    ensures Get(Collect(attrs, n, toAttributeType), off) == None <==>
      forall j | 0 <= j < |attrs| :: !StoredAt(attrs[j], n, off)
    decreases |attrs|
  {
    if attrs != [] {
      var init := attrs[..|attrs| - 1];
      var a := attrs[|attrs| - 1];
      var m := Collect(init, n, toAttributeType);
      if a.index < n {
        GetPut(m, a.offset, ToAttribute(a, toAttributeType), off);
      }
      if StoredAt(a, n, off) {
        assert Get(Collect(attrs, n, toAttributeType), off).Some?;
        assert StoredAt(attrs[|attrs| - 1], n, off);
      } else {
        assert Get(Collect(attrs, n, toAttributeType), off) == Get(m, off);
        CollectAbsent(init, n, toAttributeType, off);
        assert forall j | 0 <= j < |init| :: attrs[j] == init[j];
      }
    }
  }

  /** Otherwise the lookup finds the last in-range entry with that offset: later entries overwrite earlier ones. */
  lemma {:induction false} CollectFindsLast(attrs: seq<VertexAttribute>, n: nat, toAttributeType: VertexFormat -> Format,
    off: nat, j: nat)
    requires j < |attrs| && StoredAt(attrs[j], n, off)
    requires forall k | j < k < |attrs| :: !StoredAt(attrs[k], n, off)
    ensures Get(Collect(attrs, n, toAttributeType), off) == Some(ToAttribute(attrs[j], toAttributeType))
    decreases |attrs|
  {
    var init := attrs[..|attrs| - 1];
    var a := attrs[|attrs| - 1];
    var m := Collect(init, n, toAttributeType);
    if a.index < n {
      GetPut(m, a.offset, ToAttribute(a, toAttributeType), off);
    }
    if j < |init| {
      assert !StoredAt(a, n, off);
      assert forall k | j < k < |init| :: init[k] == attrs[k];
      CollectFindsLast(init, n, toAttributeType, off, j);
    }
  }

  /** A non-empty layout is the value list of a strictly offset-sorted map. */
  lemma LayoutSortedByOffset(state: Option<ProgramStateRef>, toAttributeType: VertexFormat -> Format)
    requires AttributeLayout(state, toAttributeType) != []
    ensures var attrs := state.value.layout.value.attributes;
      var entries := Collect(attrs, |attrs|, toAttributeType);
      && StrictlySorted(entries)
      && AttributeLayout(state, toAttributeType) == Values(entries)
  {
  }

  // ---------------------------------------------------------------------
  // Frame objects

  /** A framebuffer: its render pass, colour texture and optional depth/stencil texture. */
  datatype Framebuffer = Framebuffer(id: Handle, renderPass: RenderPass, color: DeviceTexture, depthStencil: Option<DeviceTexture>)

  datatype Swapchain = Swapchain(id: Handle, info: SwapchainInfo, color: DeviceTexture, depthStencil: DeviceTexture)

  datatype PipelineState = PipelineState(id: Handle, info: PipelineStateInfo)

  datatype InputAssemblerInfo = InputAssemblerInfo(
    attributes: seq<Attribute>, vertexBuffers: seq<Handle>, indexBuffer: Option<Handle>)

  datatype InputAssembler = InputAssembler(id: Handle, info: InputAssemblerInfo)

  datatype DrawInfo = DrawInfo(vertexCount: nat, firstVertex: nat, indexCount: nat, firstIndex: nat)

  /** What the command buffer sends to the device, in order. */
  datatype Command =
    | AcquireCmd(swapchains: seq<Handle>)
    | BeginCmd
    | BeginRenderPassCmd(pass: Handle, framebuffer: Handle, rect: Rect)
    | EndRenderPassCmd
    | SetViewportCmd(viewport: Rect)
    | SetScissorCmd(rect: Rect)
    | BindDescriptorSetCmd(programState: Handle)
    | BindPipelineStateCmd(state: Handle)
    | BindInputAssemblerCmd(inputAssembler: Handle)
    | DrawCmd(info: DrawInfo)
    | EndCmd
    | FlushCmd
    | SubmitCmd
    | PresentCmd

  /** backend::RenderPassDescriptor without its clear values. */
  datatype RenderPassDescriptor = RenderPassDescriptor(
    needColorAttachment: bool,
    colorAttachment: Option<TextureRef>,
    depthTestEnabled: bool,
    depthAttachment: Option<TextureRef>,
    stencilTestEnabled: bool,
    stencilAttachment: Option<TextureRef>,
    needClearColor: bool,
    needClearDepth: bool,
    needClearStencil: bool)

  predicate UsesColorExternal(d: RenderPassDescriptor) {
    d.needColorAttachment && d.colorAttachment.Some?
  }

  predicate UsesDepthStencilExternal(d: RenderPassDescriptor) {
    (d.depthTestEnabled && d.depthAttachment.Some?) || (d.stencilTestEnabled && d.stencilAttachment.Some?)
  }

  /** Only 2D and cube textures have a device texture to attach. */
  predicate Attachable(t: TextureRef) {
    t.kind == Texture2D || t.kind == TextureCube
  }

  /**
   * What applyRenderPassDescriptor asserts: an external depth/stencil
   * attachment comes with an external colour attachment; the colour texture
   * is an RGBA8888 render target with a device texture; the depth/stencil
   * texture (always the depth attachment) is a D24S8 render target.
   */
  predicate AttachmentsValid(d: RenderPassDescriptor) {
    && (UsesDepthStencilExternal(d) ==> UsesColorExternal(d))
    && (UsesColorExternal(d) ==>
          var t := d.colorAttachment.value;
          t.format == Rgba8888 && t.usage == RenderTarget && Attachable(t) && t.handler.Some?)
    && (UsesDepthStencilExternal(d) ==>
          && d.depthAttachment.Some?
          && var t := d.depthAttachment.value;
          t.format == D24S8 && t.usage == RenderTarget && Attachable(t))
  }

  /** The clear flags of a descriptor: one bit per clear request. */
  function ClearFlagsOf(d: RenderPassDescriptor): (r: bv32)
    ensures ValidClearFlags(r)
    ensures HasFlag(r, CLEAR_COLOR) <==> d.needClearColor
    ensures HasFlag(r, CLEAR_DEPTH) <==> d.needClearDepth
    ensures HasFlag(r, CLEAR_STENCIL) <==> d.needClearStencil
  {
    (if d.needClearColor then CLEAR_COLOR else CLEAR_NONE) |
    (if d.needClearDepth then CLEAR_DEPTH else CLEAR_NONE) |
    (if d.needClearStencil then CLEAR_STENCIL else CLEAR_NONE)
  }

  /** The device texture of the external depth/stencil attachment, if any. */
  function DepthStencilTexture(d: RenderPassDescriptor): Option<DeviceTexture>
    requires AttachmentsValid(d)
  {
    if UsesDepthStencilExternal(d) then d.depthAttachment.value.handler else None
  }

  /** The textures a generated framebuffer keeps alive until the end of the frame. */
  function KeptTextures(d: RenderPassDescriptor): seq<TextureRef>
    requires UsesColorExternal(d)
  {
    [d.colorAttachment.value] + (if d.depthAttachment.Some? then [d.depthAttachment.value] else [])
  }

  /** The scissor rectangle for setScissorRect; on Vulkan the y axis points down. */
  function ScissorRectFor(isEnabled: bool, flip: bool, fboHeight: int, x: int, y: int, width: int, height: int): (r: Rect)
    ensures isEnabled && !flip ==> r == Rect(x, y, width, height)
    ensures isEnabled && flip ==> r.x == x && r.width == width && r.height == height && r.y + height == fboHeight - y
    ensures !isEnabled ==> r == Rect(0, 0, 32768, 32768)
  {
    if isEnabled then Rect(x, if flip then fboHeight - y - height else y, width, height)
    else Rect(0, 0, 32768, 32768)
  }

  // ---------------------------------------------------------------------
  // Reference counts

  function BufferId(b: Option<BufferRef>): Option<Handle> {
    if b.Some? then Some(b.value.id) else None
  }

  function StateId(p: Option<ProgramStateRef>): Option<Handle> {
    if p.Some? then Some(p.value.id) else None
  }

  function PipelineId(rp: RenderPipelineGFX?): Option<Handle> {
    if rp != null then Some(rp.id) else None
  }

  /** The references a row of slots holds on object h. */
  function HeldBy(slots: seq<Option<Handle>>, h: Handle): int {
    if slots == [] then 0 else HeldBy(slots[..|slots| - 1], h) + Holds(slots[|slots| - 1], h)
  }

  /** The calls balance out: every object keeps exactly the references the slots hold. */
  ghost predicate Balanced(ops: seq<RefOp>, slots: seq<Option<Handle>>) {
    forall h :: Net(ops, h) == HeldBy(slots, h)
  }

  /** cleanResources: CC_SAFE_RELEASE_NULL on the index buffer, vertex buffer and program state. */
  function ReleaseSlots(index: Option<Handle>, vertex: Option<Handle>, state: Option<Handle>): seq<RefOp> {
    Reassign(index, None) + Reassign(vertex, None) + Reassign(state, None)
  }

  /** Replacing one slot's object changes the references held by the row accordingly. */
  lemma {:induction false} HeldByUpdate(slots: seq<Option<Handle>>, i: nat, next: Option<Handle>, h: Handle)
    requires i < |slots|
    ensures HeldBy(slots[i := next], h) == HeldBy(slots, h) - Holds(slots[i], h) + Holds(next, h)
    decreases |slots|
  {
    var s := slots[i := next];
    assert s[..|s| - 1] == if i == |slots| - 1 then slots[..|slots| - 1] else slots[..|slots| - 1][i := next];
    if i < |slots| - 1 {
      HeldByUpdate(slots[..|slots| - 1], i, next, h);
    }
  }

  /** Slots that all hold nothing account for no reference. */
  lemma {:induction false} EmptySlotsHoldNothing(slots: seq<Option<Handle>>, h: Handle)
    requires forall i | 0 <= i < |slots| :: slots[i].None?
    ensures HeldBy(slots, h) == 0
    decreases |slots|
  {
    if slots != [] {
      EmptySlotsHoldNothing(slots[..|slots| - 1], h);
    }
  }

  /** With no calls made, nothing may be held: the empty log balances four empty slots. */
  lemma NothingHeldBalanced()
    ensures Balanced([], [None, None, None, None])
  {
    forall h ensures HeldBy([None, None, None, None], h) == 0 {
      EmptySlotsHoldNothing([None, None, None, None], h);
    }
  }

  /** Reassigning a slot (release the old object, retain the new one) keeps the calls balanced. */
  lemma ReassignKeepsBalance(ops: seq<RefOp>, slots: seq<Option<Handle>>, i: nat, next: Option<Handle>)
    requires Balanced(ops, slots) && i < |slots|
    ensures Balanced(ops + Reassign(slots[i], next), slots[i := next])
  {
    forall h
      ensures Net(ops + Reassign(slots[i], next), h) == HeldBy(slots[i := next], h)
    {
      NetAppend(ops, Reassign(slots[i], next), h);
      ReassignMovesReference(slots[i], next, h);
      HeldByUpdate(slots, i, next, h);
    }
  }

  /** Releasing the first three slots leaves only the fourth one's reference. */
  lemma ReleaseSlotsKeepsBalance(ops: seq<RefOp>, slots: seq<Option<Handle>>)
    requires Balanced(ops, slots) && |slots| == 4
    ensures Balanced(ops + ReleaseSlots(slots[0], slots[1], slots[2]), [None, None, None, slots[3]])
  {
    var r0, r1, r2 := Reassign(slots[0], None), Reassign(slots[1], None), Reassign(slots[2], None);
    ReassignKeepsBalance(ops, slots, 0, None);
    ReassignKeepsBalance(ops + r0, slots[0 := None], 1, None);
    ReassignKeepsBalance(ops + r0 + r1, slots[0 := None][1 := None], 2, None);
    assert ops + r0 + r1 + r2 == ops + ReleaseSlots(slots[0], slots[1], slots[2]);
    assert slots[0 := None][1 := None][2 := None] == [None, None, None, slots[3]];
  }

  function PipelineIds(s: seq<PipelineState>): set<Handle> {
    set p | p in s :: p.id
  }

  function AssemblerIds(s: seq<InputAssembler>): set<Handle> {
    set p | p in s :: p.id
  }

  function FramebufferIds(s: seq<Framebuffer>): set<Handle> {
    set p | p in s :: p.id
  }

  function SwapchainIds(s: seq<Swapchain>): (r: seq<Handle>)
    ensures |r| == |s|
    ensures forall i | 0 <= i < |r| :: r[i] == s[i].id
  {
    if s == [] then [] else [s[0].id] + SwapchainIds(s[1..])
  }

  /** setUniforms binds the program state's descriptor set, when there is a program state. */
  function UniformCommands(p: Option<ProgramStateRef>): seq<Command> {
    if p.Some? then [BindDescriptorSetCmd(p.value.id)] else []
  }

  /** The attributes a draw uses: the layout's, or the program's own when the layout gives none. */
  function DrawAttributes(state: Option<ProgramStateRef>, program: Program, toAttributeType: VertexFormat -> Format): (r: seq<Attribute>)
    ensures AttributeLayout(state, toAttributeType) == [] ==> r == program.attributes
    ensures AttributeLayout(state, toAttributeType) != [] ==> r == AttributeLayout(state, toAttributeType)
    ensures r != program.attributes ==>
      && state.Some? && state.value.layout.Some? && state.value.layout.value.valid && AllKnown(r)
  {
    var fromLayout := AttributeLayout(state, toAttributeType);
    if fromLayout == [] then program.attributes else fromLayout
  }

  /** What the bound depth/stencil state, if any, contributes to the pipeline-state record. */
  function DepthStencilOf(state: Option<DepthStencilRef>, front: int, back: int): DepthStencilSetting {
    if state.Some? then DepthStencilApplied(state.value.id, front, back) else DepthStencilReset
  }

  /**
   * `info` is `info0` prepared for a draw with the given program, blend
   * descriptor, open pass, depth/stencil setting and cull mode: line width is
   * the dynamic state; shader and pipeline layout come from the program; blend
   * target 0 follows the blend descriptor and nothing else changes.
   */
  ghost predicate PreparedInfo(info0: PipelineStateInfo, info: PipelineStateInfo, program: Program,
    blend: BlendDescriptor, pass: Handle, depthStencil: DepthStencilSetting, cullMode: CullMode)
    requires |info0.blendTargets| >= 1
  {
    && info.dynamicStates == DYNAMIC_LINE_WIDTH
    && info.shader == Some(program.shader)
    && info.renderPass == Some(pass)
    && info.depthStencil == depthStencil
    && info.rasterizer == info0.rasterizer.(cullMode := cullMode)
    && info.pipelineLayout == Some(program.pipelineLayout)
    && info.attributes == info0.attributes && info.primitive == info0.primitive
    && |info.blendTargets| == |info0.blendTargets|
    && info.blendTargets[1..] == info0.blendTargets[1..]
    && TargetFollows(info0.blendTargets[0], info.blendTargets[0], blend)
  }

  /** The swapchain created on the first frame: one swapchain, sized like the window. */
  ghost predicate FirstSwapchain(swapchains: seq<Swapchain>, info: SwapchainInfo, surfaceFormat: Format) {
    && |swapchains| == 1 && swapchains[0].info == info
    && swapchains[0].color.format == surfaceFormat && swapchains[0].depthStencil.format == DepthStencilFormat
    && swapchains[0].color.width == info.width && swapchains[0].color.height == info.height
  }

  function DefaultFBOIds(fbo: Option<Framebuffer>): set<Handle> {
    if fbo.Some? then {fbo.value.id} else {}
  }

  // ---------------------------------------------------------------------
  // The command buffer

  class CommandBufferGFX {
    const dev: GfxDevice
    /** UtilsGFX::toAttributeType, which the model receives rather than contains. */
    const toAttributeType: VertexFormat -> Format

    /** `_renderPasses`: never evicted */
    var renderPasses: map<PassKey, RenderPass>
    /** Transient pools, emptied by endFrame */
    var pstate: seq<PipelineState>
    var inputAssembler: seq<InputAssembler>
    var generatedFBO: seq<Framebuffer>
    var tmpTextures: seq<TextureRef>

    var swapchains: seq<Swapchain>
    var defaultFBO: Option<Framebuffer>
    var currentFBO: Option<Framebuffer>
    var currentFBOSize: Size
    /** `_currentPass`: present between beginRenderPass and endRenderPass */
    var currentPass: Option<RenderPass>
    /** Set by the window-resize listener. */
    var screenResized: bool

    /** Retained objects */
    var indexBuffer: Option<BufferRef>
    var vertexBuffer: Option<BufferRef>
    var programState: Option<ProgramStateRef>
    var renderPipeline: RenderPipelineGFX?
    /** Not retained */
    var depthStencilState: Option<DepthStencilRef>

    var viewport: Rect
    var scissorRect: Rect
    var scissorEnabled: bool
    var cullMode: CullMode
    var stencilReferenceFront: int
    var stencilReferenceBack: int
    /** `_pstateinfo`, carried from draw to draw */
    var pstateInfo: PipelineStateInfo

    var commands: seq<Command>
    /** The retain and release calls made on the retained slots' objects, in order. */
    var refOps: seq<RefOp>

    /** The objects the retained slots hold: index buffer, vertex buffer, program state, pipeline. */
    function Slots(): seq<Option<Handle>>
      reads this`indexBuffer, this`vertexBuffer, this`programState, this`renderPipeline
    {
      [BufferId(indexBuffer), BufferId(vertexBuffer), StateId(programState), PipelineId(renderPipeline)]
    }

    ghost predicate RefsBalanced()
      reads this`refOps, this`indexBuffer, this`vertexBuffer, this`programState, this`renderPipeline
    {
      Balanced(refOps, Slots())
    }

    /** The default framebuffer is a device object already handed out. */
    ghost predicate DefaultFramebufferIssued()
      reads this`defaultFBO, dev`nextHandle
    {
      defaultFBO.Some? ==> defaultFBO.value.id < dev.nextHandle
    }

    ghost predicate Valid()
      reads this`defaultFBO, this`pstateInfo, dev
    {
      && dev.Valid()
      && DefaultFramebufferIssued()
      && |pstateInfo.blendTargets| >= 1
    }

    constructor (dev: GfxDevice, toAttributeType: VertexFormat -> Format)
      requires dev.Valid()
      ensures Valid() && RefsBalanced() && CacheConsistent(renderPasses)
      ensures this.dev == dev && this.toAttributeType == toAttributeType
      ensures renderPasses == map[] && pstate == [] && inputAssembler == [] && generatedFBO == [] && tmpTextures == []
      ensures swapchains == [] && defaultFBO == None && currentFBO == None && currentPass == None && !screenResized
      ensures indexBuffer == None && vertexBuffer == None && programState == None && renderPipeline == null
      ensures pstateInfo == DefaultPipelineStateInfo() && commands == [] && refOps == []
    {
      this.dev := dev;
      this.toAttributeType := toAttributeType;
      renderPasses := map[];
      pstate, inputAssembler, generatedFBO, tmpTextures := [], [], [], [];
      swapchains := [];
      defaultFBO, currentFBO := None, None;
      currentFBOSize := Size(0, 0);
      currentPass := None;
      screenResized := false;
      indexBuffer, vertexBuffer, programState := None, None, None;
      renderPipeline := null;
      depthStencilState := None;
      viewport, scissorRect := Rect(0, 0, 0, 0), Rect(0, 0, 0, 0);
      scissorEnabled := false;
      cullMode := CullNone;
      stencilReferenceFront, stencilReferenceBack := 0, 0;
      pstateInfo := DefaultPipelineStateInfo();
      commands := [];
      refOps := [];
      new;
      assert Slots() == [None, None, None, None];
      NothingHeldBalanced();
    }

    /** The glview_window_resized listener. */
    method OnWindowResized()
      modifies this`screenResized
      ensures screenResized
    {
      screenResized := true;
    }

    // -------------------------------------------------------------------
    // Render passes and framebuffers

    /**
     * Returns the cached pass for (clearFlags, hasDepthStencil) or creates,
     * caches and returns a new one. The format only matters on a miss.
     */
    method GetRenderPass(clearFlags: bv32, hasDepthStencil: bool, format: Format) returns (rp: RenderPass)
      requires dev.Valid() && CacheConsistent(renderPasses) && ValidClearFlags(clearFlags)
      modifies this`renderPasses, dev
      ensures dev.Valid() && CacheConsistent(renderPasses)
      ensures CacheStep(old(renderPasses), renderPasses, clearFlags, hasDepthStencil, format, rp)
      ensures old(renderPasses).Values <= renderPasses.Values && rp in renderPasses.Values
      ensures RenderPassKey(clearFlags, hasDepthStencil) in old(renderPasses) ==>
        dev.nextHandle == old(dev.nextHandle) && dev.live == old(dev.live)
      ensures RenderPassKey(clearFlags, hasDepthStencil) !in old(renderPasses) ==>
        rp.id == old(dev.nextHandle) && dev.nextHandle == rp.id + 1 && dev.live == old(dev.live) + {rp.id}
    {
      var key := RenderPassKey(clearFlags, hasDepthStencil);
      if key in renderPasses {
        rp := renderPasses[key];
        return;
      }
      var info := RenderPassInfoFor(clearFlags, hasDepthStencil, format);
      var h := dev.Create();
      rp := RenderPass(h, info);
      renderPasses := renderPasses[key := rp];
      CacheStepKeepsConsistent(old(renderPasses), renderPasses, clearFlags, hasDepthStencil, format, rp);
    }

    /** The rectangle a render pass draws into: the scissor rect when enabled, else the viewport. */
    function PassRect(): Rect
      reads this`scissorEnabled, this`scissorRect, this`viewport
    {
      if scissorEnabled then scissorRect else viewport
    }

    /**
     * Begins a render pass. With an external colour attachment a new
     * framebuffer is generated for it and for the external depth/stencil
     * attachment, sized like the colour texture, drawn with its own pass;
     * otherwise the default framebuffer is used, with the view's frame size
     * and the cached pass for (clear flags, with depth/stencil) in the default
     * colour format.
     */
    method BeginRenderPass(d: RenderPassDescriptor, frameSize: Size)
      requires Valid() && CacheConsistent(renderPasses) && AttachmentsValid(d)
      requires !UsesColorExternal(d) ==> defaultFBO.Some?
      modifies this`renderPasses, this`currentFBO, this`currentFBOSize, this`currentPass,
        this`generatedFBO, this`tmpTextures, this`commands, dev
      ensures Valid() && CacheConsistent(renderPasses) && currentFBO.Some? && currentPass.Some?
      ensures UsesColorExternal(d) ==>
        && currentFBO.value.id !in old(dev.live) && old(dev.nextHandle) <= currentFBO.value.id
        && currentFBO.value.color == d.colorAttachment.value.handler.value
        && currentFBO.value.depthStencil == DepthStencilTexture(d)
        && CacheStep(old(renderPasses), renderPasses, ClearFlagsOf(d), DepthStencilTexture(d).Some?,
             d.colorAttachment.value.handler.value.format, currentFBO.value.renderPass)
        && currentPass == Some(currentFBO.value.renderPass)
        && generatedFBO == old(generatedFBO) + [currentFBO.value]
        && tmpTextures == old(tmpTextures) + KeptTextures(d)
        && currentFBOSize == Size(currentFBO.value.color.width, currentFBO.value.color.height)
      ensures !UsesColorExternal(d) ==>
        && currentFBO == old(defaultFBO)
        && CacheStep(old(renderPasses), renderPasses, ClearFlagsOf(d), true,
             currentFBO.value.color.format, currentPass.value)
        && generatedFBO == old(generatedFBO) && tmpTextures == old(tmpTextures)
        && currentFBOSize == frameSize
      ensures commands == old(commands) + [BeginRenderPassCmd(currentPass.value.id, currentFBO.value.id, old(PassRect()))]
    {
      var clearFlags := ClearFlagsOf(d);
      ChooseFramebuffer(d, clearFlags, frameSize);
      var rect := PassRect();
      SelectCurrentPass(clearFlags);
      commands := commands + [BeginRenderPassCmd(currentPass.value.id, currentFBO.value.id, rect)];
    }

    /**
     * The pass to draw with: for the default framebuffer, the cached pass for
     * the clear flags with depth/stencil in its colour format; for a generated
     * framebuffer, the pass it was created with.
     */
    method SelectCurrentPass(clearFlags: bv32)
      requires Valid() && CacheConsistent(renderPasses) && ValidClearFlags(clearFlags) && currentFBO.Some?
      modifies this`currentPass, this`renderPasses, dev
      ensures Valid() && CacheConsistent(renderPasses) && currentPass.Some?
      ensures currentFBO == defaultFBO ==>
        CacheStep(old(renderPasses), renderPasses, clearFlags, true, currentFBO.value.color.format, currentPass.value)
      ensures currentFBO != defaultFBO ==>
        && currentPass == Some(currentFBO.value.renderPass) && renderPasses == old(renderPasses)
        && dev.live == old(dev.live) && dev.nextHandle == old(dev.nextHandle)
    {
      if currentFBO == defaultFBO {
        var rp := GetRenderPass(clearFlags, true, currentFBO.value.color.format);
        currentPass := Some(rp);
      } else {
        currentPass := Some(currentFBO.value.renderPass);
      }
    }

    /**
     * Makes the framebuffer to draw into current: a generated one for an
     * external colour attachment, otherwise the default one with the view's
     * frame size.
     */
    method ChooseFramebuffer(d: RenderPassDescriptor, clearFlags: bv32, frameSize: Size)
      requires Valid() && CacheConsistent(renderPasses) && AttachmentsValid(d) && clearFlags == ClearFlagsOf(d)
      requires !UsesColorExternal(d) ==> defaultFBO.Some?
      modifies this`renderPasses, this`currentFBO, this`currentFBOSize, this`generatedFBO, this`tmpTextures, dev
      ensures Valid() && CacheConsistent(renderPasses) && currentFBO.Some?
      ensures UsesColorExternal(d) ==>
        && currentFBO != defaultFBO
        && currentFBO.value.id !in old(dev.live) && old(dev.nextHandle) <= currentFBO.value.id
        && currentFBO.value.color == d.colorAttachment.value.handler.value
        && currentFBO.value.depthStencil == DepthStencilTexture(d)
        && CacheStep(old(renderPasses), renderPasses, clearFlags, DepthStencilTexture(d).Some?,
             d.colorAttachment.value.handler.value.format, currentFBO.value.renderPass)
        && generatedFBO == old(generatedFBO) + [currentFBO.value]
        && tmpTextures == old(tmpTextures) + KeptTextures(d)
        && currentFBOSize == Size(currentFBO.value.color.width, currentFBO.value.color.height)
      ensures !UsesColorExternal(d) ==>
        && currentFBO == defaultFBO && renderPasses == old(renderPasses)
        && generatedFBO == old(generatedFBO) && tmpTextures == old(tmpTextures)
        && currentFBOSize == frameSize
        && dev.live == old(dev.live) && dev.nextHandle == old(dev.nextHandle)
    {
      if UsesColorExternal(d) {
        UseGeneratedFramebuffer(d, clearFlags);
      } else {
        currentFBO := defaultFBO;
        currentFBOSize := frameSize;
      }
    }

    /** Generates the framebuffer of a render pass with an external colour attachment. */
    method UseGeneratedFramebuffer(d: RenderPassDescriptor, clearFlags: bv32)
      requires Valid() && CacheConsistent(renderPasses) && AttachmentsValid(d) && UsesColorExternal(d) && clearFlags == ClearFlagsOf(d)
      modifies this`renderPasses, this`currentFBO, this`currentFBOSize, this`generatedFBO,
        this`tmpTextures, dev
      ensures Valid() && CacheConsistent(renderPasses) && currentFBO.Some? && currentFBO != defaultFBO
      ensures currentFBO.value.id !in old(dev.live) && old(dev.nextHandle) <= currentFBO.value.id
      ensures currentFBO.value.color == d.colorAttachment.value.handler.value
      ensures currentFBO.value.depthStencil == DepthStencilTexture(d)
      ensures CacheStep(old(renderPasses), renderPasses, clearFlags, DepthStencilTexture(d).Some?,
        d.colorAttachment.value.handler.value.format, currentFBO.value.renderPass)
      ensures generatedFBO == old(generatedFBO) + [currentFBO.value]
      ensures tmpTextures == old(tmpTextures) + KeptTextures(d)
      ensures currentFBOSize == Size(currentFBO.value.color.width, currentFBO.value.color.height)
    {
      var color := d.colorAttachment.value.handler.value;
      var depthStencil := DepthStencilTexture(d);
      var rp := GetRenderPass(clearFlags, depthStencil.Some?, color.format);
      var h := dev.Create();
      currentFBO := Some(Framebuffer(h, rp, color, depthStencil));
      generatedFBO := generatedFBO + [currentFBO.value];
      tmpTextures := tmpTextures + KeptTextures(d);
      currentFBOSize := Size(color.width, color.height);
    }

    method EndRenderPass()
      requires Valid()
      modifies this`commands, this`currentPass
      ensures Valid()
      ensures currentPass == None
      ensures commands == old(commands) + [EndRenderPassCmd]
    {
      commands := commands + [EndRenderPassCmd];
      currentPass := None;
    }

    // -------------------------------------------------------------------
    // Frames

    /**
     * Creates the swapchain on the first frame, acquires it, drops the
     * default framebuffer after a resize and rebuilds it from the swapchain
     * when there is none, then begins recording.
     */
    method BeginFrame(info: SwapchainInfo, surfaceFormat: Format)
      requires Valid() && CacheConsistent(renderPasses)
      modifies this`swapchains, this`commands, this`defaultFBO, this`screenResized, this`renderPasses, dev
      ensures Valid() && CacheConsistent(renderPasses) && !screenResized && swapchains != []
      ensures old(swapchains) != [] ==> swapchains == old(swapchains)
      ensures old(swapchains) == [] ==> FirstSwapchain(swapchains, info, surfaceFormat)
      ensures commands == old(commands) + [AcquireCmd(SwapchainIds(swapchains)), BeginCmd]
      ensures !old(screenResized) && old(defaultFBO).Some? ==>
        defaultFBO == old(defaultFBO) && renderPasses == old(renderPasses)
      ensures old(screenResized) || old(defaultFBO).None? ==>
        && defaultFBO.Some? && defaultFBO.value.id !in old(dev.live)
        && defaultFBO.value.color == swapchains[0].color
        && defaultFBO.value.depthStencil == Some(swapchains[0].depthStencil)
        && CacheStep(old(renderPasses), renderPasses, CLEAR_ALL, true, swapchains[0].color.format, defaultFBO.value.renderPass)
        && (old(defaultFBO).Some? ==> old(defaultFBO).value.id !in dev.live)
    {
      CreateSwapchain(info, surfaceFormat);
      commands := commands + [AcquireCmd(SwapchainIds(swapchains))];
      DropDefaultFBOOnResize();
      if defaultFBO.None? {
        ResetDefaultFBO();
      }
      commands := commands + [BeginCmd];
    }

    /**
     * On the first frame, creates the swapchain for the window with its
     * colour and depth/stencil textures; later frames keep the one there is.
     */
    method CreateSwapchain(info: SwapchainInfo, surfaceFormat: Format)
      requires Valid()
      modifies this`swapchains, dev
      ensures Valid() && swapchains != []
      ensures old(swapchains) != [] ==> swapchains == old(swapchains) && dev.live == old(dev.live)
      ensures old(swapchains) == [] ==> FirstSwapchain(swapchains, info, surfaceFormat)
      ensures dev.nextHandle >= old(dev.nextHandle) && AddsOnlyFresh(old(dev.live), old(dev.nextHandle), dev.live)
    {
      if swapchains == [] {
        var s := dev.Create();
        var c := dev.Create();
        var ds := dev.Create();
        swapchains := [Swapchain(s, info,
          DeviceTexture(c, surfaceFormat, info.width, info.height),
          DeviceTexture(ds, DepthStencilFormat, info.width, info.height))];
      }
    }

    /** After a window resize, deletes the default framebuffer and clears the flag. */
    method DropDefaultFBOOnResize()
      requires Valid()
      modifies this`defaultFBO, this`screenResized, dev`live
      ensures Valid() && !screenResized
      ensures old(screenResized) ==> defaultFBO == None && dev.live == old(dev.live) - DefaultFBOIds(old(defaultFBO))
      ensures !old(screenResized) ==> defaultFBO == old(defaultFBO) && dev.live == old(dev.live)
    {
      if screenResized {
        if defaultFBO.Some? {
          dev.Destroy(defaultFBO.value.id);
        }
        defaultFBO := None;
        screenResized := false;
      }
    }

    /** Builds the default framebuffer from the first swapchain's textures. */
    method ResetDefaultFBO()
      requires Valid() && CacheConsistent(renderPasses) && swapchains != []
      modifies this`defaultFBO, this`renderPasses, dev
      ensures Valid() && CacheConsistent(renderPasses)
      ensures defaultFBO.Some? && old(dev.nextHandle) <= defaultFBO.value.id
      ensures defaultFBO.value.color == swapchains[0].color
      ensures defaultFBO.value.depthStencil == Some(swapchains[0].depthStencil)
      ensures CacheStep(old(renderPasses), renderPasses, CLEAR_ALL, true, swapchains[0].color.format, defaultFBO.value.renderPass)
      ensures old(defaultFBO).Some? ==> old(defaultFBO).value.id !in dev.live
      ensures dev.nextHandle >= old(dev.nextHandle) && AddsOnlyFresh(old(dev.live), old(dev.nextHandle), dev.live)
    {
      if defaultFBO.Some? {
        dev.Destroy(defaultFBO.value.id);
        defaultFBO := None;
      }
      var sw := swapchains[0];
      var rp := GetRenderPass(CLEAR_ALL, true, sw.color.format);
      var h := dev.Create();
      defaultFBO := Some(Framebuffer(h, rp, sw.color, Some(sw.depthStencil)));
    }

    /**
     * Ends recording, flushes, submits and presents, then frees every object
     * of the frame's pools, releases the kept textures and makes the default
     * framebuffer current again.
     */
    method EndFrame()
      requires Valid() && currentPass.None?
      modifies this`commands, this`pstate, this`inputAssembler, this`generatedFBO, this`currentFBO,
        this`tmpTextures, dev`live
      ensures Valid()
      ensures commands == old(commands) + [EndCmd, FlushCmd, SubmitCmd, PresentCmd]
      ensures dev.live == old(dev.live) - PipelineIds(old(pstate)) - AssemblerIds(old(inputAssembler))
        - FramebufferIds(old(generatedFBO))
      ensures pstate == [] && inputAssembler == [] && generatedFBO == [] && tmpTextures == []
      ensures currentFBO == defaultFBO
    {
      commands := commands + [EndCmd, FlushCmd, SubmitCmd, PresentCmd];

      FreePipelineStates(dev, pstate);
      pstate := [];
      FreeInputAssemblers(dev, inputAssembler);
      inputAssembler := [];
      FreeGeneratedFramebuffers(dev, generatedFBO);
      generatedFBO := [];
      currentFBO := defaultFBO;
      tmpTextures := [];
    }

    /** Deletes each of the given pipeline states (CC_SAFE_DELETE in a loop). */
    static method FreePipelineStates(dev: GfxDevice, pool: seq<PipelineState>)
      requires dev.Valid()
      modifies dev`live
      ensures dev.Valid()
      ensures dev.live == old(dev.live) - PipelineIds(pool)
    {
      var i := 0;
      while i < |pool|
        invariant 0 <= i <= |pool| && dev.Valid()
        invariant dev.live == old(dev.live) - PipelineIds(pool[..i])
      {
        assert pool[..i + 1] == pool[..i] + [pool[i]];
        dev.Destroy(pool[i].id);
        i := i + 1;
      }
      assert pool[..i] == pool;
    }

    /** Deletes each of the given input assemblers (CC_SAFE_DELETE in a loop). */
    static method FreeInputAssemblers(dev: GfxDevice, pool: seq<InputAssembler>)
      requires dev.Valid()
      modifies dev`live
      ensures dev.Valid()
      ensures dev.live == old(dev.live) - AssemblerIds(pool)
    {
      var i := 0;
      while i < |pool|
        invariant 0 <= i <= |pool| && dev.Valid()
        invariant dev.live == old(dev.live) - AssemblerIds(pool[..i])
      {
        assert pool[..i + 1] == pool[..i] + [pool[i]];
        dev.Destroy(pool[i].id);
        i := i + 1;
      }
      assert pool[..i] == pool;
    }

    /** Deletes each of the given framebuffers (CC_SAFE_DELETE in a loop). */
    static method FreeGeneratedFramebuffers(dev: GfxDevice, pool: seq<Framebuffer>)
      requires dev.Valid()
      modifies dev`live
      ensures dev.Valid()
      ensures dev.live == old(dev.live) - FramebufferIds(pool)
    {
      var i := 0;
      while i < |pool|
        invariant 0 <= i <= |pool| && dev.Valid()
        invariant dev.live == old(dev.live) - FramebufferIds(pool[..i])
      {
        assert pool[..i + 1] == pool[..i] + [pool[i]];
        dev.Destroy(pool[i].id);
        i := i + 1;
      }
      assert pool[..i] == pool;
    }

    // -------------------------------------------------------------------
    // Setters

    method SetRenderPipeline(rp: RenderPipelineGFX?)
      requires RefsBalanced()
      modifies this`renderPipeline, this`refOps
      ensures RefsBalanced()
      ensures rp == null ==> renderPipeline == old(renderPipeline) && refOps == old(refOps)
      ensures rp != null ==> renderPipeline == rp && refOps == old(refOps) + Reassign(PipelineId(old(renderPipeline)), Some(rp.id))
    {
      if rp == null {
        return;
      }
      ReassignKeepsBalance(refOps, Slots(), 3, Some(rp.id));
      refOps := refOps + Reassign(PipelineId(renderPipeline), Some(rp.id));
      renderPipeline := rp;
      assert Slots() == old(Slots())[3 := Some(rp.id)];
    }

    method SetViewport(x: int, y: int, w: U32, h: U32)
      modifies this`viewport, this`commands
      ensures viewport == Rect(x, y, w, h)
      ensures commands == old(commands) + [SetViewportCmd(viewport)]
    {
      viewport := Rect(x, y, w, h);
      commands := commands + [SetViewportCmd(viewport)];
    }

    method SetCullMode(mode: CullMode)
      modifies this`cullMode
      ensures cullMode == mode
    {
      cullMode := mode;
    }

    method SetWinding(winding: Winding)
      modifies this`pstateInfo
      ensures pstateInfo == old(pstateInfo).(rasterizer := old(pstateInfo.rasterizer).(isFrontFaceCCW := winding == CounterClockwise))
    {
      pstateInfo := pstateInfo.(rasterizer := pstateInfo.rasterizer.(isFrontFaceCCW := winding == CounterClockwise));
    }

    method SetIndexBuffer(buffer: Option<BufferRef>)
      requires RefsBalanced()
      modifies this`indexBuffer, this`refOps
      ensures RefsBalanced()
      ensures buffer.None? ==> indexBuffer == old(indexBuffer) && refOps == old(refOps)
      ensures buffer.Some? ==> indexBuffer == buffer && refOps == old(refOps) + Reassign(BufferId(old(indexBuffer)), BufferId(buffer))
    {
      if buffer.None? {
        return;
      }
      ReassignKeepsBalance(refOps, Slots(), 0, BufferId(buffer));
      refOps := refOps + Reassign(BufferId(indexBuffer), BufferId(buffer));
      indexBuffer := buffer;
      assert Slots() == old(Slots())[0 := BufferId(buffer)];
    }

    /** Setting the buffer already held changes nothing. */
    method SetVertexBuffer(buffer: Option<BufferRef>)
      requires RefsBalanced()
      modifies this`vertexBuffer, this`refOps
      ensures RefsBalanced()
      ensures buffer.None? || buffer == old(vertexBuffer) ==> vertexBuffer == old(vertexBuffer) && refOps == old(refOps)
      ensures buffer.Some? && buffer != old(vertexBuffer) ==>
        vertexBuffer == buffer && refOps == old(refOps) + Reassign(BufferId(old(vertexBuffer)), BufferId(buffer))
    {
      if buffer.None? || vertexBuffer == buffer {
        return;
      }
      ReassignKeepsBalance(refOps, Slots(), 1, BufferId(buffer));
      refOps := refOps + Reassign(BufferId(vertexBuffer), BufferId(buffer));
      vertexBuffer := buffer;
      assert Slots() == old(Slots())[1 := BufferId(buffer)];
    }

    /** Unlike the other setters, a null program state is stored. */
    method SetProgramState(state: Option<ProgramStateRef>)
      requires RefsBalanced()
      modifies this`programState, this`refOps
      ensures RefsBalanced()
      ensures programState == state
      ensures refOps == old(refOps) + Reassign(StateId(old(programState)), StateId(state))
    {
      ReassignKeepsBalance(refOps, Slots(), 2, StateId(state));
      refOps := refOps + Reassign(StateId(programState), StateId(state));
      programState := state;
      assert Slots() == old(Slots())[2 := StateId(state)];
    }

    method SetDepthStencilState(state: Option<DepthStencilRef>)
      modifies this`depthStencilState
      ensures depthStencilState == state
    {
      depthStencilState := state;
    }

    /** A line width that is not positive is stored as 1. */
    method SetLineWidth(lineWidth: real)
      modifies this`pstateInfo
      ensures pstateInfo == old(pstateInfo).(rasterizer := old(pstateInfo.rasterizer).(lineWidth := pstateInfo.rasterizer.lineWidth))
      ensures pstateInfo.rasterizer.lineWidth > 0.0
      ensures lineWidth > 0.0 ==> pstateInfo.rasterizer.lineWidth == lineWidth
      ensures lineWidth <= 0.0 ==> pstateInfo.rasterizer.lineWidth == 1.0
    {
      if lineWidth > 0.0 {
        pstateInfo := pstateInfo.(rasterizer := pstateInfo.rasterizer.(lineWidth := lineWidth));
      } else {
        pstateInfo := pstateInfo.(rasterizer := pstateInfo.rasterizer.(lineWidth := 1.0));
      }
    }

    /**
     * Stores and sets the scissor rectangle. An enabled rectangle is flipped
     * vertically within the current framebuffer on Vulkan; a disabled one
     * covers 32768 x 32768.
     */
    method SetScissorRect(isEnabled: bool, x: int, y: int, width: int, height: int)
      modifies this`scissorEnabled, this`scissorRect, this`commands
      ensures scissorEnabled == isEnabled
      ensures scissorRect == ScissorRectFor(isEnabled, dev.api == Vulkan && currentFBO.Some?, currentFBOSize.height, x, y, width, height)
      ensures commands == old(commands) + [SetScissorCmd(scissorRect)]
    {
      scissorEnabled := isEnabled;
      var rect := Rect(0, 0, 0, 0);
      if isEnabled {
        var y := y;
        if dev.api == Vulkan && currentFBO.Some? {
          var h := currentFBOSize.height;
          y := h - y - height;
        }
        rect := Rect(x, y, width, height);
      } else {
        rect := rect.(width := 32768, height := 32768);
      }
      scissorRect := rect;
      commands := commands + [SetScissorCmd(rect)];
    }

    // -------------------------------------------------------------------
    // Drawing

    /**
     * Derives the gfx attribute list from a program state's vertex layout:
     * collects the in-range entries in a map keyed by offset, lists the map's
     * values in key order and gives up on an UNKNOWN format.
     */
    method GetAttributesFromProgramState(state: Option<ProgramStateRef>) returns (r: seq<Attribute>)
      ensures r == AttributeLayout(state, toAttributeType)
    {
      if state.None? || state.value.layout.None? {
        return [];
      }
      var layout := state.value.layout.value;
      var attrs := layout.attributes;
      if layout.valid && attrs != [] {
        var sorted := CollectByOffset(attrs, toAttributeType);
        var dest := ListValues(sorted);
        var ok := AllFormatsKnown(dest);
        if ok {
          return dest;
        }
      }
      return [];
    }

    /** The first loop: every entry whose index is in range is stored under its offset. */
    static method CollectByOffset(attrs: seq<VertexAttribute>, toAttributeType: VertexFormat -> Format)
      returns (sorted: Entries<Attribute>)
      ensures sorted == Collect(attrs, |attrs|, toAttributeType)
    {
      var n := |attrs|;
      sorted := [];
      var i := 0;
      while i < n
        invariant 0 <= i <= n
        invariant sorted == Collect(attrs[..i], n, toAttributeType)
      {
        assert attrs[..i + 1][..i] == attrs[..i];
        var a := attrs[i];
        if a.index < n {
          sorted := Put(sorted, a.offset, ToAttribute(a, toAttributeType));
        }
        i := i + 1;
      }
      assert attrs[..n] == attrs;
    }

    /** The second loop: the map's values in ascending key order. */
    static method ListValues(sorted: Entries<Attribute>) returns (dest: seq<Attribute>)
      ensures dest == Values(sorted)
    {
      dest := [];
      var j := 0;
      while j < |sorted|
        invariant 0 <= j <= |sorted| && |dest| == j
        invariant forall m | 0 <= m < j :: dest[m] == sorted[m].1
      {
        dest := dest + [sorted[j].1];
        j := j + 1;
      }
    }

    /** The third loop: stops at the first UNKNOWN format. */
    static method AllFormatsKnown(dest: seq<Attribute>) returns (ok: bool)
      ensures ok <==> AllKnown(dest)
    {
      ok := true;
      var k := 0;
      while k < |dest|
        invariant 0 <= k <= |dest|
        invariant forall m | 0 <= m < k :: dest[m].format != Unknown
      {
        if dest[k].format == Unknown {
          ok := false;
          break;
        }
        k := k + 1;
      }
    }

    /** Fills the pipeline-state record for a draw, creates its pipeline state and binds it. */
    method PrepareDrawing()
      requires Valid() && currentPass.Some?
      requires renderPipeline != null && renderPipeline.program.Some?
      modifies this`pstateInfo, this`pstate, this`commands, dev
      ensures Valid()
      ensures PreparedInfo(old(pstateInfo), pstateInfo, renderPipeline.program.value, renderPipeline.blendDescriptor,
        currentPass.value.id, DepthStencilOf(depthStencilState, stencilReferenceFront, stencilReferenceBack), cullMode)
      ensures pstate == old(pstate) + [PipelineState(old(dev.nextHandle), pstateInfo)]
      ensures dev.nextHandle == old(dev.nextHandle) + 1 && dev.live == old(dev.live) + {old(dev.nextHandle)}
      ensures commands == old(commands) + UniformCommands(programState) + [BindPipelineStateCmd(old(dev.nextHandle))]
    {
      pstateInfo := pstateInfo.(dynamicStates := DYNAMIC_LINE_WIDTH);
      var program := renderPipeline.program.value;
      pstateInfo := pstateInfo.(shader := Some(program.shader));
      pstateInfo := pstateInfo.(renderPass := Some(currentPass.value.id));
      commands := commands + UniformCommands(programState);
      if depthStencilState.Some? {
        pstateInfo := pstateInfo.(depthStencil :=
          DepthStencilApplied(depthStencilState.value.id, stencilReferenceFront, stencilReferenceBack));
      } else {
        pstateInfo := pstateInfo.(depthStencil := DepthStencilReset);
      }
      pstateInfo := pstateInfo.(rasterizer := pstateInfo.rasterizer.(cullMode := cullMode));
      pstateInfo := pstateInfo.(pipelineLayout := Some(program.pipelineLayout));
      var updated := renderPipeline.DoUpdate(Some(pstateInfo));
      pstateInfo := updated.value;
      var h := dev.Create();
      pstate := pstate + [PipelineState(h, pstateInfo)];
      commands := commands + [BindPipelineStateCmd(h)];
    }

    /** Releases and clears the index buffer, vertex buffer and program state. */
    method CleanResources()
      requires RefsBalanced()
      modifies this`indexBuffer, this`vertexBuffer, this`programState, this`refOps
      ensures RefsBalanced()
      ensures indexBuffer == None && vertexBuffer == None && programState == None
      ensures refOps == old(refOps) + ReleaseSlots(BufferId(old(indexBuffer)), BufferId(old(vertexBuffer)), StateId(old(programState)))
    {
      ReleaseSlotsKeepsBalance(refOps, Slots());
      refOps := refOps + ReleaseSlots(BufferId(indexBuffer), BufferId(vertexBuffer), StateId(programState));
      indexBuffer, vertexBuffer, programState := None, None, None;
      assert Slots() == [None, None, None, old(Slots())[3]];
    }

    /** Stores the draw's attribute list and primitive in the pipeline-state record. */
    method SetDrawAttributes(primitive: PrimitiveType)
      requires Valid()
      requires renderPipeline != null && renderPipeline.program.Some?
      modifies this`pstateInfo
      ensures Valid()
      ensures pstateInfo == old(pstateInfo).(attributes := DrawAttributes(programState, renderPipeline.program.value, toAttributeType),
        primitive := primitive)
    {
      var attributes := GetAttributesFromProgramState(programState);
      if attributes == [] {
        attributes := renderPipeline.program.value.attributes;
      }
      pstateInfo := pstateInfo.(attributes := attributes, primitive := primitive);
    }

    /** Stores the draw's attributes and primitive, then prepares and binds the pipeline state. */
    method PrepareDraw(primitive: PrimitiveType)
      requires Valid() && currentPass.Some?
      requires renderPipeline != null && renderPipeline.program.Some?
      modifies this`pstateInfo, this`pstate, this`commands, dev
      ensures Valid()
      ensures PreparedInfo(
        old(pstateInfo).(attributes := DrawAttributes(programState, renderPipeline.program.value, toAttributeType),
          primitive := primitive),
        pstateInfo, renderPipeline.program.value, renderPipeline.blendDescriptor,
        currentPass.value.id, DepthStencilOf(depthStencilState, stencilReferenceFront, stencilReferenceBack), cullMode)
      ensures pstate == old(pstate) + [PipelineState(old(dev.nextHandle), pstateInfo)]
      ensures dev.nextHandle == old(dev.nextHandle) + 1 && dev.live == old(dev.live) + {old(dev.nextHandle)}
      ensures commands == old(commands) + UniformCommands(programState) + [BindPipelineStateCmd(old(dev.nextHandle))]
    {
      SetDrawAttributes(primitive);
      PrepareDrawing();
    }

    /** Creates the draw's input assembler, binds it and records the draw. */
    method BindAndDraw(info: InputAssemblerInfo, draw: DrawInfo)
      requires Valid()
      modifies this`inputAssembler, this`commands, dev
      ensures Valid()
      ensures inputAssembler == old(inputAssembler) + [InputAssembler(old(dev.nextHandle), info)]
      ensures dev.nextHandle == old(dev.nextHandle) + 1 && dev.live == old(dev.live) + {old(dev.nextHandle)}
      ensures commands == old(commands) + [BindInputAssemblerCmd(old(dev.nextHandle)), DrawCmd(draw)]
    {
      var h := dev.Create();
      inputAssembler := inputAssembler + [InputAssembler(h, info)];
      commands := commands + [BindInputAssemblerCmd(h), DrawCmd(draw)];
    }

    /** Binds a new input assembler, records the draw and releases the per-draw resources. */
    method FinishDraw(info: InputAssemblerInfo, draw: DrawInfo)
      requires Valid() && RefsBalanced()
      modifies this`inputAssembler, this`commands, this`indexBuffer, this`vertexBuffer, this`programState,
        this`refOps, dev
      ensures Valid() && RefsBalanced()
      ensures inputAssembler == old(inputAssembler) + [InputAssembler(old(dev.nextHandle), info)]
      ensures dev.nextHandle == old(dev.nextHandle) + 1 && dev.live == old(dev.live) + {old(dev.nextHandle)}
      ensures commands == old(commands) + [BindInputAssemblerCmd(old(dev.nextHandle)), DrawCmd(draw)]
      ensures indexBuffer == None && vertexBuffer == None && programState == None
      ensures refOps == old(refOps) + ReleaseSlots(BufferId(old(indexBuffer)), BufferId(old(vertexBuffer)), StateId(old(programState)))
    {
      BindAndDraw(info, draw);
      CleanResources();
    }

    /**
     * The part drawArrays and drawElements share: prepare the pipeline state,
     * create and bind an input assembler over the vertex buffer and, for an
     * indexed draw, the index buffer, record the draw and release the
     * per-draw resources.
     */
    method DrawWith(primitive: PrimitiveType, index: Option<Handle>, draw: DrawInfo)
      requires Valid() && RefsBalanced() && currentPass.Some? && vertexBuffer.Some?
      requires renderPipeline != null && renderPipeline.program.Some?
      modifies this`pstateInfo, this`pstate, this`inputAssembler, this`commands,
        this`indexBuffer, this`vertexBuffer, this`programState, this`refOps, dev
      ensures Valid() && RefsBalanced()
      ensures PreparedInfo(
        old(pstateInfo).(attributes := DrawAttributes(old(programState), renderPipeline.program.value, toAttributeType),
          primitive := primitive),
        pstateInfo, renderPipeline.program.value, renderPipeline.blendDescriptor,
        currentPass.value.id, DepthStencilOf(depthStencilState, stencilReferenceFront, stencilReferenceBack), cullMode)
      ensures pstate == old(pstate) + [PipelineState(old(dev.nextHandle), pstateInfo)]
      ensures inputAssembler == old(inputAssembler) + [InputAssembler(old(dev.nextHandle) + 1,
        InputAssemblerInfo(DrawAttributes(old(programState), renderPipeline.program.value, toAttributeType), [old(vertexBuffer).value.handler], index))]
      ensures dev.live == old(dev.live) + {old(dev.nextHandle), old(dev.nextHandle) + 1}
      ensures commands == old(commands) + UniformCommands(old(programState)) + [
        BindPipelineStateCmd(old(dev.nextHandle)), BindInputAssemblerCmd(old(dev.nextHandle) + 1), DrawCmd(draw)]
      ensures indexBuffer == None && vertexBuffer == None && programState == None
      ensures refOps == old(refOps) + ReleaseSlots(BufferId(old(indexBuffer)), BufferId(old(vertexBuffer)), StateId(old(programState)))
    {
      var attributes := DrawAttributes(programState, renderPipeline.program.value, toAttributeType);
      PrepareDraw(primitive);
      FinishDraw(InputAssemblerInfo(attributes, [vertexBuffer.value.handler], index), draw);
    }

    /** A non-indexed draw of `count` vertices from `start`. */
    method DrawArrays(primitive: PrimitiveType, start: nat, count: nat)
      requires Valid() && RefsBalanced() && currentPass.Some? && vertexBuffer.Some?
      requires renderPipeline != null && renderPipeline.program.Some?
      modifies this`pstateInfo, this`pstate, this`inputAssembler, this`commands,
        this`indexBuffer, this`vertexBuffer, this`programState, this`refOps, dev
      ensures Valid() && RefsBalanced()
      ensures PreparedInfo(
        old(pstateInfo).(attributes := DrawAttributes(old(programState), renderPipeline.program.value, toAttributeType),
          primitive := primitive),
        pstateInfo, renderPipeline.program.value, renderPipeline.blendDescriptor,
        currentPass.value.id, DepthStencilOf(depthStencilState, stencilReferenceFront, stencilReferenceBack), cullMode)
      ensures pstate == old(pstate) + [PipelineState(old(dev.nextHandle), pstateInfo)]
      ensures inputAssembler == old(inputAssembler) + [InputAssembler(old(dev.nextHandle) + 1,
        InputAssemblerInfo(DrawAttributes(old(programState), renderPipeline.program.value, toAttributeType), [old(vertexBuffer).value.handler], None))]
      ensures dev.live == old(dev.live) + {old(dev.nextHandle), old(dev.nextHandle) + 1}
      ensures commands == old(commands) + UniformCommands(old(programState)) + [
        BindPipelineStateCmd(old(dev.nextHandle)),
        BindInputAssemblerCmd(old(dev.nextHandle) + 1),
        DrawCmd(DrawInfo(count, start, 0, 0))]
      ensures indexBuffer == None && vertexBuffer == None && programState == None
      ensures refOps == old(refOps) + ReleaseSlots(BufferId(old(indexBuffer)), BufferId(old(vertexBuffer)), StateId(old(programState)))
    {
      DrawWith(primitive, None, DrawInfo(count, start, 0, 0));
    }

    /** An indexed draw of `count` indices starting `offset` bytes into the index buffer. */
    method DrawElements(primitive: PrimitiveType, count: nat, offset: nat)
      requires Valid() && RefsBalanced() && currentPass.Some? && vertexBuffer.Some?
      requires indexBuffer.Some? && indexBuffer.value.stride > 0
      requires renderPipeline != null && renderPipeline.program.Some?
      modifies this`pstateInfo, this`pstate, this`inputAssembler, this`commands,
        this`indexBuffer, this`vertexBuffer, this`programState, this`refOps, dev
      ensures Valid() && RefsBalanced()
      ensures PreparedInfo(
        old(pstateInfo).(attributes := DrawAttributes(old(programState), renderPipeline.program.value, toAttributeType),
          primitive := primitive),
        pstateInfo, renderPipeline.program.value, renderPipeline.blendDescriptor,
        currentPass.value.id, DepthStencilOf(depthStencilState, stencilReferenceFront, stencilReferenceBack), cullMode)
      ensures pstate == old(pstate) + [PipelineState(old(dev.nextHandle), pstateInfo)]
      ensures inputAssembler == old(inputAssembler) + [InputAssembler(old(dev.nextHandle) + 1,
        InputAssemblerInfo(DrawAttributes(old(programState), renderPipeline.program.value, toAttributeType), [old(vertexBuffer).value.handler], Some(old(indexBuffer).value.handler)))]
      ensures dev.live == old(dev.live) + {old(dev.nextHandle), old(dev.nextHandle) + 1}
      ensures commands == old(commands) + UniformCommands(old(programState)) + [
        BindPipelineStateCmd(old(dev.nextHandle)),
        BindInputAssemblerCmd(old(dev.nextHandle) + 1),
        DrawCmd(DrawInfo(0, 0, count, old(offset / indexBuffer.value.stride)))]
      ensures indexBuffer == None && vertexBuffer == None && programState == None
      ensures refOps == old(refOps) + ReleaseSlots(BufferId(old(indexBuffer)), BufferId(old(vertexBuffer)), StateId(old(programState)))
    {
      var index := indexBuffer.value;
      DrawWith(primitive, Some(index.handler), DrawInfo(0, 0, count, offset / index.stride));
    }
  }
}
