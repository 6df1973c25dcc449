/**
 * Vocabulary shared by the GFX rendering backend: opaque device handles, the
 * pixel/vertex formats the backend distinguishes, the bit constants of the
 * device's flag enumerations, the client-side objects the backend receives
 * (buffers, textures, program states) and the pipeline-state record that is
 * rebuilt before every draw.
 *
 * The underlying graphics device is modelled by GfxDevice: an allocator that
 * hands out fresh handles and remembers which handles are still alive.
 */
module GfxTypes {

  datatype Option<+T> = None | Some(value: T)

  /** Identity of an object: a device object or a client object. */
  type Handle = nat

  /** Values that the source stores in `uint32_t`. */
  type U32 = x: int | 0 <= x < 0x1_0000_0000

  // ---------------------------------------------------------------------
  // Enumerations of the graphics device (gfx::...)

  datatype Api = ApiUnknown | Gles2 | Gles3 | Metal | Vulkan | WebGL | WebGL2

  /** gfx::Format, reduced to the members the backend tells apart. */
  datatype Format = Unknown | Rgba8 | Bgra8 | DepthStencilFormat | OtherFormat(code: nat)

  datatype LoadOp = Load | Clear | Discard

  /** gfx::ClearFlagBit */
  const CLEAR_NONE: bv32 := 0
  const CLEAR_COLOR: bv32 := 1
  const CLEAR_DEPTH: bv32 := 2
  const CLEAR_STENCIL: bv32 := 4
  const CLEAR_DEPTH_STENCIL: bv32 := 6
  const CLEAR_ALL: bv32 := 7

  /** gfx::TextureUsageBit */
  const USAGE_TRANSFER_SRC: bv32 := 0x1
  const USAGE_TRANSFER_DST: bv32 := 0x2
  const USAGE_SAMPLED: bv32 := 0x4
  const USAGE_COLOR_ATTACHMENT: bv32 := 0x10
  const USAGE_DEPTH_STENCIL_ATTACHMENT: bv32 := 0x20

  /** gfx::BufferUsageBit */
  const BUFFER_USAGE_NONE: bv32 := 0
  const BUFFER_USAGE_INDEX: bv32 := 0x4
  const BUFFER_USAGE_VERTEX: bv32 := 0x8

  /** gfx::ColorMask */
  const MASK_NONE: bv32 := 0
  const MASK_R: bv32 := 1
  const MASK_G: bv32 := 2
  const MASK_B: bv32 := 4
  const MASK_A: bv32 := 8
  const MASK_ALL: bv32 := 0xF

  /** gfx::DynamicStateFlagBit::LINE_WIDTH */
  const DYNAMIC_LINE_WIDTH: bv32 := 0x4

  /** gfx::TextureFlagBit::GEN_MIPMAP */
  const TEXTURE_FLAG_NONE: bv32 := 0
  const TEXTURE_FLAG_GEN_MIPMAP: bv32 := 0x1

  predicate HasFlag(flags: bv32, bit: bv32) {
    flags & bit != 0
  }

  predicate HasAllFlags(flags: bv32, bits: bv32) {
    flags & bits == bits
  }

  // ---------------------------------------------------------------------
  // Enumerations of the backend's client API (backend::...)

  /** backend::PixelFormat, reduced to the members the backend tells apart. */
  datatype PixelFormat = PixelNone | Rgba8888 | D24S8 | OtherPixelFormat(code: nat)

  datatype TextureUsage = UsageRead | UsageWrite | RenderTarget

  datatype TextureType = Texture2D | TextureCube | OtherTextureType

  /** backend::VertexFormat; its conversion to a gfx::Format is a parameter of the model. */
  type VertexFormat = nat

  /** backend::ColorWriteMask */
  const WRITE_RED: bv32 := 1
  const WRITE_GREEN: bv32 := 2
  const WRITE_BLUE: bv32 := 4
  const WRITE_ALPHA: bv32 := 8

  datatype PrimitiveType = Point | Line | LineStrip | Triangle | TriangleStrip

  datatype CullMode = CullNone | CullBack | CullFront

  datatype Winding = Clockwise | CounterClockwise

  /** Blend factors and operations are kept as the client's enumeration codes. */
  type BlendFactor = nat
  type BlendOperation = nat

  // ---------------------------------------------------------------------
  // Records

  datatype Rect = Rect(x: int, y: int, width: int, height: int)

  datatype Size = Size(width: int, height: int)

  /** A device texture (gfx::Texture): its handle and what it was created with. */
  datatype DeviceTexture = DeviceTexture(id: Handle, format: Format, width: U32, height: U32)

  /** A client texture (backend::TextureBackend) as the command buffer sees it. */
  datatype TextureRef = TextureRef(
    id: Handle,
    kind: TextureType,
    format: PixelFormat,
    usage: TextureUsage,
    handler: Option<DeviceTexture>)

  /**
   * What a swapchain is created with (gfx::SwapchainInfo): the window, whether
   * vsync is on, and the surface size, as DeviceGFX stores them.
   */
  datatype SwapchainInfo = SwapchainInfo(windowHandle: Handle, vsync: bool, width: U32, height: U32)

  /** A client buffer (BufferGFX) with its device buffer and that buffer's stride. */
  datatype BufferRef = BufferRef(id: Handle, handler: Handle, stride: nat)

  /** gfx::Attribute */
  datatype Attribute = Attribute(name: string, location: nat, format: Format, isNormalized: bool)

  /** A linked program (ProgramGFX): its shader, reflected attributes and default pipeline layout. */
  datatype Program = Program(id: Handle, shader: Handle, attributes: seq<Attribute>, pipelineLayout: Handle)

  /** One entry of a client vertex layout (backend::VertexLayout::Attribute). */
  datatype VertexAttribute = VertexAttribute(
    name: string,
    format: VertexFormat,
    index: nat,
    offset: nat,
    needToBeNormalized: bool)

  /** A client vertex layout; `attributes` is listed in the layout's iteration order. */
  datatype VertexLayout = VertexLayout(valid: bool, attributes: seq<VertexAttribute>)

  /** A client program state: the program it binds and its optional vertex layout. */
  datatype ProgramStateRef = ProgramStateRef(id: Handle, program: Program, layout: Option<VertexLayout>)

  datatype DepthStencilRef = DepthStencilRef(id: Handle)

  /** gfx::BlendTarget */
  datatype BlendTarget = BlendTarget(
    blend: nat,
    blendSrc: BlendFactor,
    blendDst: BlendFactor,
    blendEq: BlendOperation,
    blendSrcAlpha: BlendFactor,
    blendDstAlpha: BlendFactor,
    blendAlphaEq: BlendOperation,
    blendColorMask: bv32)

  datatype RasterizerState = RasterizerState(cullMode: CullMode, isFrontFaceCCW: bool, lineWidth: real)

  /** What a bound depth/stencil state contributed to the pipeline-state record. */
  datatype DepthStencilSetting =
    | DepthStencilReset
    | DepthStencilApplied(state: Handle, front: int, back: int)

  /** gfx::PipelineStateInfo, rebuilt before every draw. */
  datatype PipelineStateInfo = PipelineStateInfo(
    shader: Option<Handle>,
    attributes: seq<Attribute>,
    primitive: PrimitiveType,
    dynamicStates: bv32,
    renderPass: Option<Handle>,
    depthStencil: DepthStencilSetting,
    rasterizer: RasterizerState,
    blendTargets: seq<BlendTarget>,
    pipelineLayout: Option<Handle>)

  function DefaultBlendTarget(): BlendTarget {
    BlendTarget(0, 1, 0, 0, 1, 0, 0, MASK_ALL)
  }

  /** A default-constructed pipeline-state record: one blend target, line width 1. */
  function DefaultPipelineStateInfo(): (r: PipelineStateInfo)
    ensures |r.blendTargets| == 1
  {
    PipelineStateInfo(None, [], Triangle, 0, None, DepthStencilReset,
      RasterizerState(CullBack, true, 1.0), [DefaultBlendTarget()], None)
  }

  // ---------------------------------------------------------------------
  // Reference counting (cocos2d::Ref)

  /** A call of retain() or release() on a reference-counted object. */
  datatype RefOp = Retain(obj: Handle) | Release(obj: Handle)

  /** What one call adds to the reference count of object h. */
  function Delta(op: RefOp, h: Handle): int {
    match op
    case Retain(o) => if o == h then 1 else 0
    case Release(o) => if o == h then -1 else 0
  }

  /** Retains minus releases of object h over a sequence of calls. */
  function Net(ops: seq<RefOp>, h: Handle): int {
    if ops == [] then 0 else Net(ops[..|ops| - 1], h) + Delta(ops[|ops| - 1], h)
  }

  /** The calls of consecutive sequences add up. */
  lemma {:induction false} NetAppend(a: seq<RefOp>, b: seq<RefOp>, h: Handle)
    ensures Net(a + b, h) == Net(a, h) + Net(b, h)
    decreases |b|
  {
    if b != [] {
      var b0 := b[..|b| - 1];
      assert (a + b)[..|a + b| - 1] == a + b0;
      assert (a + b)[|a + b| - 1] == b[|b| - 1];
      NetAppend(a, b0, h);
    } else {
      assert a + b == a;
    }
  }

  /** The reference a slot holding `slot` accounts for on object h. */
  function Holds(slot: Option<Handle>, h: Handle): int {
    if slot == Some(h) then 1 else 0
  }

  /**
   * Replacing the object held in a slot: CC_SAFE_RELEASE of the old one,
   * then CC_SAFE_RETAIN of the new one (each skipped for a null pointer).
   */
  function Reassign(held: Option<Handle>, next: Option<Handle>): seq<RefOp> {
    (if held.Some? then [Release(held.value)] else []) +
    (if next.Some? then [Retain(next.value)] else [])
  }

  /** Reassigning a slot moves exactly one reference from the old object to the new one. */
  lemma ReassignMovesReference(held: Option<Handle>, next: Option<Handle>, h: Handle)
    ensures Net(Reassign(held, next), h) == Holds(next, h) - Holds(held, h)
  {
    var r := if held.Some? then [Release(held.value)] else [];
    var t := if next.Some? then [Retain(next.value)] else [];
    NetAppend(r, t, h);
    if held.Some? { assert Net(r, h) == Net([], h) + Delta(r[0], h); }
    if next.Some? { assert Net(t, h) == Net([], h) + Delta(t[0], h); }
  }

  // ---------------------------------------------------------------------
  // The graphics device as an allocator of fresh handles

  /** Every object alive in `live` and not in `live0` was handed out at or after `next0`. */
  ghost predicate AddsOnlyFresh(live0: set<Handle>, next0: nat, live: set<Handle>) {
    forall h | h in live && h !in live0 :: next0 <= h
  }

  class GfxDevice {
    /** gfx::Device::getGfxAPI() */
    const api: Api
    /** The next handle the device will hand out. */
    var nextHandle: nat
    /** Handles of device objects created and not yet destroyed. */
    var live: set<Handle>

    ghost predicate Valid()
      reads this
    {
      forall h | h in live :: h < nextHandle
    }

    constructor (api: Api)
      ensures Valid() && this.api == api && nextHandle == 0 && live == {}
    {
      this.api := api;
      nextHandle := 0;
      live := {};
    }

    /** Creates a device object; its handle was never handed out before. */
    method Create() returns (h: Handle)
      requires Valid()
      modifies this
      ensures Valid()
      ensures h == old(nextHandle) && nextHandle == h + 1
      ensures h !in old(live) && live == old(live) + {h}
    {
      h := nextHandle;
      nextHandle := nextHandle + 1;
      live := live + {h};
    }

    /** Deletes a device object (deleting an unknown handle does nothing). */
    method Destroy(h: Handle)
      requires Valid()
      modifies this`live
      ensures Valid()
      ensures live == old(live) - {h}
    {
      live := live - {h};
    }
  }
}
