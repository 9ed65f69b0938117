/** Metal objects as the engine sees them. A texture is a reference object
    with an immutable description: what the engine asked the device for, or
    where a loader found it. Creating one never fails in this model; the
    engine stops the process when it does. */
module Gpu {

  datatype PixelFormat = RGBA8Unorm | BGRA8Unorm | RGBA16Float | Depth32Float | FileFormat(code: nat)

  datatype TextureType = Type2D | Type2DMultisample | Type2DArray | TypeCube

  datatype StorageMode = Private | Shared | Managed

  datatype TextureUsage = RenderTarget | ShaderRead | ShaderWrite

  /** The fields of `MTLTextureDescriptor` the engine sets. */
  datatype TextureDescriptor = TextureDescriptor(
    textureType: TextureType,
    pixelFormat: PixelFormat,
    width: nat,
    height: nat,
    sampleCount: nat,
    mipmapped: bool,
    storageMode: StorageMode,
    usage: set<TextureUsage>,
    arrayLength: nat)

  /** A fresh `MTLTextureDescriptor()`: a 1x1 2D rgba8 texture with one
      sample, one mip level and one slice, read by shaders. The storage mode
      is the iOS default; macOS defaults to managed, which the engine never
      relies on. */
  const DefaultDescriptor := TextureDescriptor(Type2D, RGBA8Unorm, 1, 1, 1, false, Shared, {ShaderRead}, 1)

  /** `MTLTextureDescriptor.texture2DDescriptor(pixelFormat:width:height:mipmapped:)`. */
  function Texture2DDescriptor(pixelFormat: PixelFormat, width: nat, height: nat, mipmapped: bool): TextureDescriptor
  {
    DefaultDescriptor.(pixelFormat := pixelFormat, width := width, height := height, mipmapped := mipmapped)
  }

  /** A drawable size in whole pixels. */
  datatype Size = Size(width: nat, height: nat)

  /** `MTKTextureLoader.Origin` and the loader options the engine passes. */
  datatype LoaderOrigin = BottomLeft | TopLeft
  datatype LoaderOptions = LoaderOptions(origin: LoaderOrigin, srgb: bool, generateMipmaps: bool)

  /** How a texture came to exist. */
  datatype TextureOrigin =
    | Allocated                                           // `device.makeTexture(descriptor:)`
    | FromFile(url: string, options: LoaderOptions)       // `newTexture(URL:options:)`
    | FromCatalog(name: string, scaleFactor: real, bundle: string)  // `newTexture(name:scaleFactor:bundle:)`
    | FromCubeImages(name: string, options: LoaderOptions) // `newTexture(texture: MDLTexture(cubeWithImagesNamed:))`
    | FromSkyGenerator(turbidity: real, sunElevation: real, upperAtmosphereScattering: real,
                       groundAlbedo: real, width: nat, height: nat)  // `MDLSkyCubeTexture`
    | FromBRDFKernel                                      // the BRDF look-up table compute pass

  class Texture {
    const descriptor: TextureDescriptor
    const name: string
    const origin: TextureOrigin

    constructor (descriptor: TextureDescriptor, name: string, origin: TextureOrigin)
      ensures this.descriptor == descriptor && this.name == name && this.origin == origin
    {
      this.descriptor := descriptor;
      this.name := name;
      this.origin := origin;
    }
  }
}
