/**
 * `texture`: the storage format chosen for raw pixels of a given channel count
 * and channel width, the sampling filters chosen from the `linear`/`mipmap`
 * options, and the texture object that records them.
 *
 * The GL driver is not modelled; each GL call is recorded as the choice it
 * makes: the image it stores (`Image`) and the bind/unbind calls it issues
 * (`GlCall`). Pixel data is not modelled.
 */
module TextureUpload {
  import opened Wrappers

  /** The internal format a texture stores: GL_RGB, GL_RGBA or GL_DEPTH_COMPONENT32. */
  datatype InternalFormat = RgbStorage | RgbaStorage | Depth32Storage
  /** The layout of the source pixels: GL_RGB, GL_RGBA, GL_RED or GL_DEPTH_COMPONENT. */
  datatype PixelFormat = RgbPixels | RgbaPixels | RedPixels | DepthPixels
  /** The type of one source channel: GL_UNSIGNED_BYTE, GL_UNSIGNED_SHORT or GL_FLOAT. */
  datatype PixelType = UnsignedByte | UnsignedShort | FloatPixels

  datatype Storage = Storage(internalFormat: InternalFormat, pixelFormat: PixelFormat, pixelType: PixelType)

  const UnsupportedFormat: string := "Unsupported image format!"

  function ChannelsOf(f: PixelFormat): nat {
    match f
    case RgbPixels => 3
    case RgbaPixels => 4
    case RedPixels => 1
    case DepthPixels => 1
  }

  function BitsOf(t: PixelType): nat {
    match t
    case UnsignedByte => 8
    case UnsignedShort => 16
    case FloatPixels => 32
  }

  /** The (channels, bits per channel) pairs an upload accepts. */
  predicate Supported(channels: int, bitsPerChannel: int) {
    || (channels == 3 && bitsPerChannel == 8)
    || (channels == 4 && bitsPerChannel == 8)
    || (channels == 1 && bitsPerChannel == 8)
    || (channels == 1 && bitsPerChannel == 16)
    || (channels == 1 && bitsPerChannel == 32)
  }

  /** The format dispatch of `texture::upload`: a storage choice or the exception's message. */
  function StorageFor(channels: int, bitsPerChannel: int): (r: Result<Storage, string>)
    ensures r.Success? <==> Supported(channels, bitsPerChannel)
    ensures r.Failure? ==> r.error == UnsupportedFormat
    ensures r.Success? ==> ChannelsOf(r.value.pixelFormat) == channels
    ensures r.Success? ==> BitsOf(r.value.pixelType) == bitsPerChannel
    ensures r.Success? ==> (r.value.internalFormat == Depth32Storage <==> bitsPerChannel == 32)
    ensures r.Success? && r.value.internalFormat == Depth32Storage ==>
      r.value.pixelFormat == DepthPixels && r.value.pixelType == FloatPixels
    ensures r.Success? && channels == 1 && bitsPerChannel != 32 ==>
      r.value.internalFormat == RgbStorage && r.value.pixelFormat == RedPixels
    ensures r.Success? && channels != 1 ==>
      r.value.internalFormat == (if channels == 3 then RgbStorage else RgbaStorage)
  {
    if channels == 3 && bitsPerChannel == 8 then
      Success(Storage(RgbStorage, RgbPixels, UnsignedByte))
    else if channels == 4 && bitsPerChannel == 8 then
      Success(Storage(RgbaStorage, RgbaPixels, UnsignedByte))
    else if channels == 1 && bitsPerChannel == 8 then
      Success(Storage(RgbStorage, RedPixels, UnsignedByte))
    else if channels == 1 && bitsPerChannel == 16 then
      Success(Storage(RgbStorage, RedPixels, UnsignedShort))
    else if channels == 1 && bitsPerChannel == 32 then
      Success(Storage(Depth32Storage, DepthPixels, FloatPixels))
    else
      Failure(UnsupportedFormat)
  }

  datatype Filter = Linear | Nearest | LinearMipmapLinear

  /** The sampling state an upload leaves: filters, mipmap generation and the LOD bias it sets, if any. */
  datatype Sampling = Sampling(magFilter: Filter, minFilter: Filter, generateMipmap: bool, lodBias: Option<real>)

  /** The filter choice of `texture::upload` from the `_linear` and `_mipmap` options. */
  function SamplingFor(linear: bool, mipmap: bool): (s: Sampling)
    ensures s.magFilter == Linear
    ensures s.generateMipmap == mipmap
    ensures mipmap ==> s.minFilter == LinearMipmapLinear && s.lodBias == Some(-1.0)
    ensures !mipmap ==> s.minFilter != LinearMipmapLinear && s.lodBias == None
    ensures !mipmap ==> (s.minFilter == Linear <==> linear)
  {
    if !mipmap then
      Sampling(Linear, if linear then Linear else Nearest, false, None)
    else
      Sampling(Linear, LinearMipmapLinear, true, Some(-1.0))
  }

  /** With mipmaps the `linear` option has no effect. */
  lemma MipmapIgnoresLinear(linear: bool)
    ensures SamplingFor(linear, true) == SamplingFor(!linear, true)
  {
  }

  /** What a texture holds after a successful upload: the format of its pixels, its size and its sampling. */
  datatype Image = PixelImage(storage: Storage, width: int, height: int, sampling: Sampling)

  /** What the image decoder reports for an image file: its channel count and size (8 bits per channel). */
  datatype ImageFile = ImageFile(channels: int, width: int, height: int)

  /** The image files that exist, by name, as the decoder would read them. */
  type FileSystem = map<string, ImageFile>

  const FileNotFound: string := "Texture file not found!"

  /** A file that `texture::upload(filename)` accepts: it exists and decodes to a supported format. */
  predicate Loadable(filename: string, files: FileSystem) {
    filename in files && Supported(files[filename].channels, 8)
  }

  /** A GL call that changes the texture binding: selecting a unit, or binding a texture (null unbinds). */
  datatype GlCall = ActiveTexture(slot: int) | BindTexture(tex: Texture?)

  class Texture {
    var linear: bool
    var mipmap: bool
    /** What the last successful upload stored, if any. */
    var image: Option<Image>

    /** A fresh GL texture, holding no image. */
    constructor ()
      ensures image == None
    {
      image := None;
    }

    /** `texture::bind`: the calls that bind this texture to unit `slot`. */
    function Bind(slot: int): (calls: seq<GlCall>)
      ensures |calls| == 2 && calls[0] == ActiveTexture(slot) && calls[1] == BindTexture(this)
    {
      [ActiveTexture(slot), BindTexture(this)]
    }

    /** `texture::unbind`: the call that unbinds the current texture. */
    function Unbind(): (calls: seq<GlCall>)
      ensures calls == [BindTexture(null)]
    {
      [BindTexture(null)]
    }

    /** `texture::set_options`: stores the two flags and nothing else. */
    method SetOptions(linear: bool, mipmap: bool)
      modifies this
      ensures this.linear == linear && this.mipmap == mipmap
      ensures image == old(image)
    {
      this.linear := linear;
      this.mipmap := mipmap;
    }

    /**
     * `texture::upload(channels, bits_per_channel, width, height, data)`: binds
     * to unit 0, stores the image in the chosen format with the sampling the
     * options select, and unbinds; an unsupported format throws after the bind,
     * leaving the texture bound and its image unchanged.
     */
    method Upload(channels: int, bitsPerChannel: int, width: int, height: int)
      returns (r: Outcome<string>, calls: seq<GlCall>)
      modifies this
      ensures linear == old(linear) && mipmap == old(mipmap)
      ensures r.Pass? <==> Supported(channels, bitsPerChannel)
      ensures r.Pass? ==>
        && image == Some(PixelImage(StorageFor(channels, bitsPerChannel).value, width, height,
                                    SamplingFor(linear, mipmap)))
        && calls == Bind(0) + Unbind()
      ensures r.Fail? ==> r.error == UnsupportedFormat && image == old(image) && calls == Bind(0)
    {
      calls := Bind(0);
      var storage := StorageFor(channels, bitsPerChannel);
      if storage.Failure? {
        return Fail(storage.error), calls;
      }
      image := Some(PixelImage(storage.value, width, height, SamplingFor(linear, mipmap)));
      calls := calls + Unbind();
      r := Pass;
    }

    /**
     * `texture::upload(filename)`: a missing file throws before any GL call;
     * otherwise the decoded pixels are uploaded as `channels` channels of
     * 8 bits, so only 1-, 3- and 4-channel files are accepted.
     */
    method UploadFile(filename: string, files: FileSystem) returns (r: Outcome<string>, calls: seq<GlCall>)
      modifies this
      ensures linear == old(linear) && mipmap == old(mipmap)
      ensures r.Pass? <==> Loadable(filename, files)
      ensures filename !in files ==> r == Fail(FileNotFound) && calls == [] && image == old(image)
      ensures filename in files && r.Fail? ==>
        r.error == UnsupportedFormat && image == old(image) && calls == Bind(0)
      ensures r.Pass? ==>
        && image == Some(PixelImage(StorageFor(files[filename].channels, 8).value,
                                    files[filename].width, files[filename].height,
                                    SamplingFor(linear, mipmap)))
        && calls == Bind(0) + Unbind()
    {
      if filename !in files {
        return Fail(FileNotFound), [];
      }
      var f := files[filename];
      r, calls := Upload(f.channels, 8, f.width, f.height);
    }
  }
}
