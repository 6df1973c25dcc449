/**
 * Texture2DGFX and TextureCubeGFX: translate a backend texture descriptor into
 * the device's texture and sampler descriptions, create the device texture on
 * demand and record the regions uploaded into it.
 */
module Texture {
  import opened GfxTypes

  /** backend::SamplerFilter */
  datatype SamplerFilter =
    Nearest | NearestMipmapNearest | NearestMipmapLinear |
    Linear | LinearMipmapLinear | LinearMipmapNearest | DontCare

  /** gfx::Filter */
  datatype Filter = NoFilter | PointFilter | LinearFilter | AnisotropicFilter

  /** backend::SamplerAddressMode */
  datatype AddressMode = Repeat | MirrorRepeat | ClampToEdge

  datatype SamplerDescriptor = SamplerDescriptor(
    magFilter: SamplerFilter,
    minFilter: SamplerFilter,
    sAddressMode: AddressMode,
    tAddressMode: AddressMode)

  datatype TextureDescriptor = TextureDescriptor(
    textureType: TextureType,
    textureFormat: PixelFormat,
    textureUsage: TextureUsage,
    width: U32,
    height: U32,
    samplerDescriptor: SamplerDescriptor)

  /** gfx::TextureType */
  datatype GfxTextureType = Tex2D | Cube

  /** gfx::TextureInfo */
  datatype TextureInfo = TextureInfo(
    kind: GfxTextureType,
    format: Format,
    width: U32,
    height: U32,
    usage: bv32,
    flags: bv32)

  /**
   * gfx::SamplerInfo. The magnification, minification and address modes are
   * produced by conversions the model does not contain; the record keeps the
   * client values and the flags those conversions are given.
   */
  datatype SamplerInfo = SamplerInfo(
    mipFilter: Filter,
    magFilter: SamplerFilter,
    minFilter: SamplerFilter,
    minFilterMipmapped: bool,
    minFilterPow2: bool,
    addressU: AddressMode,
    addressV: AddressMode,
    addressPow2: bool)

  /** What UtilsGFX::toTypes derives from a pixel format. */
  datatype FormatConversion = FormatConversion(format: Format, isCompressed: bool)

  /** gfx::BufferTextureCopy: the part of the texture one upload writes. */
  datatype Region = Region(
    x: nat, y: nat, width: nat, height: nat,
    mipLevel: nat, baseArrayLayer: nat, layerCount: nat)

  /** One copyBuffersToTexture call. */
  datatype TextureCopy = TextureCopy(texture: Handle, region: Region)

  type CubeFace = x: nat | x < 6

  function DefaultSamplerInfo(): SamplerInfo {
    SamplerInfo(NoFilter, Linear, Linear, false, false, Repeat, Repeat, false)
  }

  // ---------------------------------------------------------------------
  // Pure rules

  /**
   * The mip filter selected by a minification filter: the `*_MIPMAP_NEAREST`
   * filters select POINT, the `*_MIPMAP_LINEAR` filters select LINEAR, and
   * the filters without a mipmap part select NONE.
   */
  function MipmapFilter(filter: SamplerFilter): (r: Filter)
    ensures r == PointFilter <==> filter == NearestMipmapNearest || filter == LinearMipmapNearest
    ensures r == LinearFilter <==> filter == NearestMipmapLinear || filter == LinearMipmapLinear
    ensures r == NoFilter <==> filter == Nearest || filter == Linear || filter == DontCare
  {
    match filter
    case Nearest => NoFilter
    case NearestMipmapNearest => PointFilter
    case NearestMipmapLinear => LinearFilter
    case Linear => NoFilter
    case LinearMipmapLinear => LinearFilter
    case LinearMipmapNearest => PointFilter
    case DontCare => NoFilter
  }

  /** The bit trick of ISPOW2: `(b & (b - 1)) == 0`, which also accepts 0. */
  predicate BitTrick(b: bv32) {
    b & (b - 1) == 0
  }

  /** ISPOW2 on a 32-bit unsigned value. */
  predicate IsPow2(n: U32) {
    BitTrick(n as bv32)
  }

  /** "A power of two" by repeated halving, independent of the bit trick. */
  ghost predicate PowerOfTwo(b: bv32)
    decreases b
  {
    b == 1 || (b > 1 && b & 1 == 0 && PowerOfTwo(b >> 1))
  }

  lemma EvenStep(b: bv32)
    requires b & 1 == 0 && b > 1
    ensures (b >> 1) < b
    ensures BitTrick(b) <==> BitTrick(b >> 1)
  {
  }

  lemma OddStep(b: bv32)
    requires b & 1 == 1 && b > 1
    ensures !BitTrick(b)
  {
  }

  /** The bit trick accepts exactly 0 and the powers of two. */
  lemma {:induction false} BitTrickExactly(b: bv32)
    ensures BitTrick(b) <==> b == 0 || PowerOfTwo(b)
    decreases b
  {
    if b > 1 {
      if b & 1 == 0 {
        EvenStep(b);
        BitTrickExactly(b >> 1);
      } else {
        OddStep(b);
      }
    }
  }

  /** Mipmaps can be generated on every API except WebGL, where both sides must pass ISPOW2. */
  function CanGenerateMipmap(api: Api, w: U32, h: U32): (r: bool)
    ensures api != WebGL ==> r
  {
    if api == WebGL then IsPow2(w) && IsPow2(h) else true
  }

  /** On WebGL a texture can have mipmaps generated iff each side is 0 or a power of two. */
  lemma WebGLMipmapRule(w: U32, h: U32)
    ensures CanGenerateMipmap(WebGL, w, h) <==>
      (w as bv32 == 0 || PowerOfTwo(w as bv32)) && (h as bv32 == 0 || PowerOfTwo(h as bv32))
  {
    BitTrickExactly(w as bv32);
    BitTrickExactly(h as bv32);
  }

  /**
   * The device usage bits for a texture: every texture is SAMPLED; a render
   * target is a depth/stencil attachment when its format is D24S8 and a
   * colour attachment otherwise; any other texture is a transfer destination.
   */
  function UsageBits(usage: TextureUsage, format: PixelFormat): (r: bv32)
    ensures HasFlag(r, USAGE_SAMPLED)
    ensures HasFlag(r, USAGE_DEPTH_STENCIL_ATTACHMENT) <==> usage == RenderTarget && format == D24S8
    ensures HasFlag(r, USAGE_COLOR_ATTACHMENT) <==> usage == RenderTarget && format != D24S8
    ensures HasFlag(r, USAGE_TRANSFER_DST) <==> usage != RenderTarget
    ensures r & !(USAGE_SAMPLED | USAGE_DEPTH_STENCIL_ATTACHMENT | USAGE_COLOR_ATTACHMENT | USAGE_TRANSFER_DST) == 0
  {
    if usage == RenderTarget then
      if format == D24S8 then USAGE_DEPTH_STENCIL_ATTACHMENT | USAGE_SAMPLED
      else USAGE_COLOR_ATTACHMENT | USAGE_SAMPLED
    else USAGE_TRANSFER_DST | USAGE_SAMPLED
  }

  /** Whether a sampler descriptor gives a texture mipmaps: never when compressed. */
  function WantsMipmaps(isCompressed: bool, sampler: SamplerDescriptor): (r: bool)
    ensures r <==> !isCompressed && sampler.minFilter in {NearestMipmapNearest, NearestMipmapLinear, LinearMipmapLinear, LinearMipmapNearest}
  {
    !isCompressed && MipmapFilter(sampler.minFilter) != NoFilter
  }

  /** The sampler description after updateSamplerDescriptor. */
  function SamplerInfoAfter(s: SamplerInfo, sampler: SamplerDescriptor, isCompressed: bool, w: U32, h: U32): SamplerInfo {
    var mip := if isCompressed then s.mipFilter else MipmapFilter(sampler.minFilter);
    var pow2 := IsPow2(w) && IsPow2(h);
    SamplerInfo(mip, sampler.magFilter, sampler.minFilter, WantsMipmaps(isCompressed, sampler), pow2,
      sampler.sAddressMode, sampler.tAddressMode, pow2)
  }

  /** The texture flags after updateSamplerDescriptor: GEN_MIPMAP is added, never removed. */
  function FlagsAfter(flags: bv32, isCompressed: bool, sampler: SamplerDescriptor): (r: bv32)
    ensures HasFlag(r, TEXTURE_FLAG_GEN_MIPMAP) <==>
      HasFlag(flags, TEXTURE_FLAG_GEN_MIPMAP) || WantsMipmaps(isCompressed, sampler)
    ensures r & !TEXTURE_FLAG_GEN_MIPMAP == flags & !TEXTURE_FLAG_GEN_MIPMAP
  {
    if WantsMipmaps(isCompressed, sampler) then flags | TEXTURE_FLAG_GEN_MIPMAP else flags
  }

  /** The region an upload of `w` x `h` texels at (x, y) into mip `level` writes. */
  function UploadRegion(x: nat, y: nat, w: nat, h: nat, level: nat): Region {
    Region(x, y, w, h, level, 0, 1)
  }

  // ---------------------------------------------------------------------
  // Texture2DGFX

  class Texture2DGFX {
    const dev: GfxDevice
    /** UtilsGFX::toTypes, which the model receives rather than contains. */
    const toTypes: PixelFormat -> FormatConversion

    var width: U32
    var height: U32
    var textureFormat: PixelFormat
    var textureUsage: TextureUsage
    var isCompressed: bool
    /** `_info` */
    var info: TextureInfo
    /** `_sinfo` */
    var sinfo: SamplerInfo
    var hasMipmaps: bool
    /** `_texture`, created lazily */
    var texture: Option<DeviceTexture>
    /** `_sampler`: the device interns samplers by their description */
    var sampler: Option<SamplerInfo>
    /** The copies made into the device texture, in order. */
    var uploads: seq<TextureCopy>

    /** The descriptions agree with the texture's own parameters. */
    ghost predicate Valid()
      reads this`info, this`width, this`height, this`textureFormat, this`isCompressed, this`textureUsage,
        this`hasMipmaps
    {
      && info.kind == Tex2D
      && info.width == width && info.height == height
      && info.format == toTypes(textureFormat).format
      && isCompressed == toTypes(textureFormat).isCompressed
      && info.usage == UsageBits(textureUsage, textureFormat)
      && (hasMipmaps ==> HasFlag(info.flags, TEXTURE_FLAG_GEN_MIPMAP))
    }

    /** isParameterValid */
    predicate ParametersValid(): (r: bool)
      reads this`width, this`height, this`textureFormat
      ensures r <==> width * height != 0 && textureFormat != PixelNone
    {
      width != 0 && height != 0 && textureFormat != PixelNone
    }

    /** Whether updateTextureDescriptor fills the texture with zeros. */
    static predicate InitializesWithZeros(d: TextureDescriptor) {
      d.width != 0 && d.height != 0 && d.textureFormat != PixelNone && d.textureFormat != D24S8
    }

    constructor (dev: GfxDevice, toTypes: PixelFormat -> FormatConversion, descriptor: TextureDescriptor)
      requires dev.Valid()
      modifies dev
      ensures Valid() && dev.Valid()
      ensures this.dev == dev && this.toTypes == toTypes
      ensures width == descriptor.width && height == descriptor.height
      ensures textureFormat == descriptor.textureFormat && textureUsage == descriptor.textureUsage
      ensures hasMipmaps == WantsMipmaps(isCompressed, descriptor.samplerDescriptor)
      ensures info.flags == FlagsAfter(TEXTURE_FLAG_NONE, isCompressed, descriptor.samplerDescriptor)
      ensures sinfo == SamplerInfoAfter(DefaultSamplerInfo(), descriptor.samplerDescriptor, isCompressed, width, height)
      ensures InitializesWithZeros(descriptor) ==>
        && texture == Some(DeviceTexture(old(dev.nextHandle), info.format, width, height))
        && uploads == [TextureCopy(texture.value.id, UploadRegion(0, 0, width, height, 0))]
        && sampler == Some(sinfo)
        && dev.live == old(dev.live) + {texture.value.id}
      ensures !InitializesWithZeros(descriptor) ==>
        texture == None && sampler == None && uploads == [] && dev.live == old(dev.live)
    {
      this.dev := dev;
      this.toTypes := toTypes;
      width, height := descriptor.width, descriptor.height;
      textureFormat, textureUsage := descriptor.textureFormat, descriptor.textureUsage;
      isCompressed := false;
      info := TextureInfo(Tex2D, Unknown, 0, 0, 0, TEXTURE_FLAG_NONE);
      sinfo := DefaultSamplerInfo();
      hasMipmaps := false;
      texture := None;
      sampler := None;
      uploads := [];
      new;
      UpdateTextureDescriptor(descriptor);
    }

    /**
     * Copies the descriptor, derives the device descriptions from it and, when
     * the parameters are valid and the format is not D24S8, fills the texture
     * with zeros (creating the device texture first if there is none).
     */
    method UpdateTextureDescriptor(descriptor: TextureDescriptor)
      requires dev.Valid() && info.kind == Tex2D
      modifies this`width, this`height, this`textureFormat, this`textureUsage, this`isCompressed,
        this`info, this`sinfo, this`hasMipmaps, this`texture, this`sampler, this`uploads, dev
      ensures Valid() && dev.Valid()
      ensures width == descriptor.width && height == descriptor.height
      ensures textureFormat == descriptor.textureFormat && textureUsage == descriptor.textureUsage
      ensures hasMipmaps == WantsMipmaps(isCompressed, descriptor.samplerDescriptor)
      ensures info.flags == FlagsAfter(old(info.flags), isCompressed, descriptor.samplerDescriptor)
      ensures sinfo == SamplerInfoAfter(old(sinfo), descriptor.samplerDescriptor, isCompressed, width, height)
      ensures InitializesWithZeros(descriptor) ==>
        && (old(texture).Some? ==> texture == old(texture) && sampler == old(sampler) && dev.live == old(dev.live))
        && (old(texture).None? ==>
              && texture == Some(DeviceTexture(old(dev.nextHandle), info.format, width, height))
              && sampler == Some(sinfo)
              && dev.live == old(dev.live) + {texture.value.id})
        && uploads == old(uploads) + [TextureCopy(texture.value.id, UploadRegion(0, 0, width, height, 0))]
      ensures !InitializesWithZeros(descriptor) ==>
        texture == old(texture) && sampler == old(sampler) && uploads == old(uploads) && dev.live == old(dev.live)
    {
      ApplyDescriptor(descriptor);
      assert ParametersValid() && textureFormat != D24S8 <==> InitializesWithZeros(descriptor);
      ZeroFillIfValid();
    }

    /** The zero fill updateTextureDescriptor does when the parameters are valid and the format is not D24S8. */
    method ZeroFillIfValid()
      requires dev.Valid()
      modifies this`texture, this`sampler, this`uploads, dev
      ensures dev.Valid()
      ensures ParametersValid() && textureFormat != D24S8 ==>
        && (old(texture).Some? ==> texture == old(texture) && sampler == old(sampler) && dev.live == old(dev.live))
        && (old(texture).None? ==>
              && texture == Some(DeviceTexture(old(dev.nextHandle), info.format, info.width, info.height))
              && sampler == Some(sinfo)
              && dev.live == old(dev.live) + {texture.value.id})
        && uploads == old(uploads) + [TextureCopy(texture.value.id, UploadRegion(0, 0, width, height, 0))]
      ensures !(ParametersValid() && textureFormat != D24S8) ==>
        texture == old(texture) && sampler == old(sampler) && uploads == old(uploads) && dev.live == old(dev.live)
    {
      if ParametersValid() && textureFormat != D24S8 {
        InitWithZeros();
      }
    }

    /** The descriptor-copying part of updateTextureDescriptor, shared with cube textures. */
    method ApplyDescriptor(descriptor: TextureDescriptor)
      requires info.kind == Tex2D
      modifies this`width, this`height, this`textureFormat, this`textureUsage, this`isCompressed,
        this`info, this`sinfo, this`hasMipmaps
      ensures Valid()
      ensures width == descriptor.width && height == descriptor.height
      ensures textureFormat == descriptor.textureFormat && textureUsage == descriptor.textureUsage
      ensures hasMipmaps == WantsMipmaps(isCompressed, descriptor.samplerDescriptor)
      ensures info.flags == FlagsAfter(old(info.flags), isCompressed, descriptor.samplerDescriptor)
      ensures sinfo == SamplerInfoAfter(old(sinfo), descriptor.samplerDescriptor, isCompressed, width, height)
    {
      width, height := descriptor.width, descriptor.height;
      textureFormat, textureUsage := descriptor.textureFormat, descriptor.textureUsage;
      var conversion := toTypes(textureFormat);
      info := info.(format := conversion.format);
      isCompressed := conversion.isCompressed;
      UpdateSamplerDescriptor(descriptor.samplerDescriptor);
      info := info.(width := width, height := height);
      info := info.(usage := UsageBits(textureUsage, textureFormat));
    }

    /**
     * Chooses the mip filter from the minification filter (unless the texture
     * is compressed), adds GEN_MIPMAP when mipmaps are wanted and records the
     * remaining sampler settings.
     */
    method UpdateSamplerDescriptor(samplerDescriptor: SamplerDescriptor)
      modifies this`sinfo, this`hasMipmaps, this`info
      ensures hasMipmaps == WantsMipmaps(isCompressed, samplerDescriptor)
      ensures info == old(info).(flags := FlagsAfter(old(info.flags), isCompressed, samplerDescriptor))
      ensures sinfo == SamplerInfoAfter(old(sinfo), samplerDescriptor, isCompressed, width, height)
    {
      hasMipmaps := false;
      if !isCompressed {
        sinfo := sinfo.(mipFilter := MipmapFilter(samplerDescriptor.minFilter));
        hasMipmaps := sinfo.mipFilter != NoFilter;
      }
      assert hasMipmaps == WantsMipmaps(isCompressed, samplerDescriptor);
      if hasMipmaps {
        info := info.(flags := info.flags | TEXTURE_FLAG_GEN_MIPMAP);
      }
      assert info.flags == FlagsAfter(old(info.flags), isCompressed, samplerDescriptor);
      var isPow2 := IsPow2(width) && IsPow2(height);
      sinfo := sinfo.(
        magFilter := samplerDescriptor.magFilter,
        minFilter := samplerDescriptor.minFilter,
        minFilterMipmapped := hasMipmaps,
        minFilterPow2 := isPow2,
        addressU := samplerDescriptor.sAddressMode,
        addressV := samplerDescriptor.tAddressMode,
        addressPow2 := isPow2);
    }

    /** Deletes any device texture and creates a new one, with its sampler, from the descriptions. */
    method ResetTexture()
      requires dev.Valid() && ParametersValid()
      modifies this`texture, this`sampler, dev
      ensures dev.Valid()
      ensures texture == Some(DeviceTexture(old(dev.nextHandle), info.format, info.width, info.height))
      ensures sampler == Some(sinfo)
      ensures dev.live == (if old(texture).Some? then old(dev.live) - {old(texture).value.id} else old(dev.live)) + {texture.value.id}
    {
      if texture.Some? {
        dev.Destroy(texture.value.id);
      }
      sampler := Some(sinfo);
      var h := dev.Create();
      texture := Some(DeviceTexture(h, info.format, info.width, info.height));
    }

    /** Uploads a zero-filled image of the texture's full size into mip level 0. */
    method InitWithZeros()
      requires dev.Valid() && ParametersValid()
      modifies this`texture, this`sampler, this`uploads, dev
      ensures dev.Valid()
      ensures old(texture).Some? ==> texture == old(texture) && sampler == old(sampler) && dev.live == old(dev.live)
      ensures old(texture).None? ==>
        && texture == Some(DeviceTexture(old(dev.nextHandle), info.format, info.width, info.height))
        && sampler == Some(sinfo)
        && dev.live == old(dev.live) + {texture.value.id}
      ensures uploads == old(uploads) + [TextureCopy(texture.value.id, UploadRegion(0, 0, width, height, 0))]
    {
      if texture.None? {
        ResetTexture();
      }
      UpdateData(width, height, 0);
    }

    /** updateData: the same upload as updateSubData at offset (0, 0). */
    method UpdateData(w: nat, h: nat, level: nat)
      requires dev.Valid() && (texture.Some? || ParametersValid())
      modifies this`texture, this`sampler, this`uploads, dev
      ensures dev.Valid()
      ensures old(texture).Some? ==> texture == old(texture) && sampler == old(sampler) && dev.live == old(dev.live)
      ensures old(texture).None? ==>
        && texture == Some(DeviceTexture(old(dev.nextHandle), info.format, info.width, info.height))
        && sampler == Some(sinfo)
        && dev.live == old(dev.live) + {texture.value.id}
      ensures uploads == old(uploads) + [TextureCopy(texture.value.id, UploadRegion(0, 0, w, h, level))]
    {
      UpdateSubData(0, 0, w, h, level);
    }

    /**
     * Creates the device texture if there is none, then copies one region of
     * `w` x `h` texels at (x, y) into mip `level`.
     */
    method UpdateSubData(x: nat, y: nat, w: nat, h: nat, level: nat)
      requires dev.Valid() && (texture.Some? || ParametersValid())
      modifies this`texture, this`sampler, this`uploads, dev
      ensures dev.Valid()
      ensures old(texture).Some? ==> texture == old(texture) && sampler == old(sampler) && dev.live == old(dev.live)
      ensures old(texture).None? ==>
        && texture == Some(DeviceTexture(old(dev.nextHandle), info.format, info.width, info.height))
        && sampler == Some(sinfo)
        && dev.live == old(dev.live) + {texture.value.id}
      ensures uploads == old(uploads) + [TextureCopy(texture.value.id, UploadRegion(x, y, w, h, level))]
    {
      if texture.None? {
        ResetTexture();
      }
      uploads := uploads + [TextureCopy(texture.value.id, UploadRegion(x, y, w, h, level))];
    }

    /** Mipmaps are produced when the data is copied; this call changes nothing. */
    method GenerateMipmaps()
      requires Valid()
      ensures Valid()
    {
      if textureUsage == RenderTarget || isCompressed {
        return;
      }
    }
  }

  // ---------------------------------------------------------------------
  // TextureCubeGFX

  class TextureCubeGFX {
    const dev: GfxDevice
    const toTypes: PixelFormat -> FormatConversion

    var width: U32
    var height: U32
    var textureFormat: PixelFormat
    var textureUsage: TextureUsage
    var isCompressed: bool
    var info: TextureInfo
    var sinfo: SamplerInfo
    var hasMipmaps: bool
    var texture: Option<DeviceTexture>
    var sampler: Option<SamplerInfo>
    var uploads: seq<TextureCopy>

    ghost predicate Valid()
      reads this`info, this`width, this`height, this`textureFormat, this`isCompressed, this`textureUsage,
        this`hasMipmaps, this`texture
    {
      && info.kind == Cube
      && info.width == width && info.height == height
      && info.format == toTypes(textureFormat).format
      && isCompressed == toTypes(textureFormat).isCompressed
      && info.usage == UsageBits(textureUsage, textureFormat)
      && (hasMipmaps ==> HasFlag(info.flags, TEXTURE_FLAG_GEN_MIPMAP))
      && texture.Some?
    }

    /** A cube texture must have non-zero, equal width and height. */
    constructor (dev: GfxDevice, toTypes: PixelFormat -> FormatConversion, descriptor: TextureDescriptor)
      requires dev.Valid()
      requires descriptor.width != 0 && descriptor.height != 0 && descriptor.width == descriptor.height
      modifies dev
      ensures Valid() && dev.Valid()
      ensures this.dev == dev && this.toTypes == toTypes
      ensures width == descriptor.width && height == descriptor.height
      ensures textureFormat == descriptor.textureFormat && textureUsage == descriptor.textureUsage
      ensures hasMipmaps == WantsMipmaps(isCompressed, descriptor.samplerDescriptor)
      ensures info.flags == FlagsAfter(TEXTURE_FLAG_NONE, isCompressed, descriptor.samplerDescriptor)
      ensures sinfo == SamplerInfoAfter(DefaultSamplerInfo(), descriptor.samplerDescriptor, isCompressed, width, height)
      ensures texture == Some(DeviceTexture(old(dev.nextHandle), info.format, width, height))
      ensures sampler == Some(sinfo)
      ensures dev.live == old(dev.live) + {texture.value.id}
      ensures uploads == []
    {
      this.dev := dev;
      this.toTypes := toTypes;
      width, height := descriptor.width, descriptor.height;
      textureFormat, textureUsage := descriptor.textureFormat, descriptor.textureUsage;
      isCompressed := false;
      info := TextureInfo(Cube, Unknown, 0, 0, 0, TEXTURE_FLAG_NONE);
      sinfo := DefaultSamplerInfo();
      hasMipmaps := false;
      texture := None;
      sampler := None;
      uploads := [];
      new;
      UpdateTextureDescriptor(descriptor);
      sampler := Some(sinfo);
      var h := dev.Create();
      texture := Some(DeviceTexture(h, info.format, info.width, info.height));
    }

    /** As for 2D textures, without filling the texture with zeros. */
    method UpdateTextureDescriptor(descriptor: TextureDescriptor)
      requires info.kind == Cube
      modifies this`width, this`height, this`textureFormat, this`textureUsage, this`isCompressed,
        this`info, this`sinfo, this`hasMipmaps
      ensures width == descriptor.width && height == descriptor.height
      ensures textureFormat == descriptor.textureFormat && textureUsage == descriptor.textureUsage
      ensures info.kind == Cube && info.width == width && info.height == height
      ensures info.format == toTypes(textureFormat).format && isCompressed == toTypes(textureFormat).isCompressed
      ensures info.usage == UsageBits(textureUsage, textureFormat)
      ensures hasMipmaps == WantsMipmaps(isCompressed, descriptor.samplerDescriptor)
      ensures info.flags == FlagsAfter(old(info.flags), isCompressed, descriptor.samplerDescriptor)
      ensures sinfo == SamplerInfoAfter(old(sinfo), descriptor.samplerDescriptor, isCompressed, width, height)
    {
      width, height := descriptor.width, descriptor.height;
      textureFormat, textureUsage := descriptor.textureFormat, descriptor.textureUsage;
      var conversion := toTypes(descriptor.textureFormat);
      info := info.(format := conversion.format);
      isCompressed := conversion.isCompressed;
      UpdateSamplerDescriptor(descriptor.samplerDescriptor);
      info := info.(width := width, height := height);
      info := info.(usage := UsageBits(textureUsage, textureFormat));
    }

    method UpdateSamplerDescriptor(samplerDescriptor: SamplerDescriptor)
      modifies this`sinfo, this`hasMipmaps, this`info
      ensures hasMipmaps == WantsMipmaps(isCompressed, samplerDescriptor)
      ensures info == old(info).(flags := FlagsAfter(old(info.flags), isCompressed, samplerDescriptor))
      ensures sinfo == SamplerInfoAfter(old(sinfo), samplerDescriptor, isCompressed, width, height)
    {
      hasMipmaps := false;
      if !isCompressed {
        sinfo := sinfo.(mipFilter := MipmapFilter(samplerDescriptor.minFilter));
        hasMipmaps := sinfo.mipFilter != NoFilter;
      }
      assert hasMipmaps == WantsMipmaps(isCompressed, samplerDescriptor);
      if hasMipmaps {
        info := info.(flags := info.flags | TEXTURE_FLAG_GEN_MIPMAP);
      }
      assert info.flags == FlagsAfter(old(info.flags), isCompressed, samplerDescriptor);
      var isPow2 := IsPow2(width) && IsPow2(height);
      sinfo := sinfo.(
        magFilter := samplerDescriptor.magFilter,
        minFilter := samplerDescriptor.minFilter,
        minFilterMipmapped := hasMipmaps,
        minFilterPow2 := isPow2,
        addressU := samplerDescriptor.sAddressMode,
        addressV := samplerDescriptor.tAddressMode,
        addressPow2 := isPow2);
    }

    /** Copies one full face, as array layer `side`, into the device texture. */
    method UpdateFaceData(side: CubeFace)
      requires Valid()
      modifies this`uploads
      ensures Valid()
      ensures uploads == old(uploads) + [TextureCopy(texture.value.id, Region(0, 0, width, height, 0, side, 1))]
    {
      uploads := uploads + [TextureCopy(texture.value.id, Region(0, 0, width, height, 0, side, 1))];
    }

    method GenerateMipmaps()
      requires Valid()
      ensures Valid()
    {
    }
  }
}
