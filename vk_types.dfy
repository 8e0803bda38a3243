/**
 * The Vulkan values the engine's decision rules read and produce: unsigned
 * 32-bit counts and extents, surface formats, present modes, image layouts,
 * queue-family records, and the error outcomes the engine throws.
 *
 * Enumerations keep the constructors the engine names and one catch-all
 * constructor for every other value a driver may report.
 */
module VkTypes {

  const UINT32_MAX: int := 0xFFFF_FFFF
  const TWO_POW_32: int := 0x1_0000_0000
  const INT32_MAX: int := 0x7FFF_FFFF

  /** A C++ `uint32_t`. */
  type U32 = x: int | 0 <= x <= UINT32_MAX

  /** A C++ `int` (32-bit, two's complement). */
  type I32 = x: int | -0x8000_0000 <= x <= INT32_MAX

  /**
   * `static_cast<uint32_t>` of a signed integer: reduction modulo 2^32.
   * Non-negative values are kept, negative ones wrap to the top of the range.
   */
  function ToU32(x: int): (r: U32)
    ensures 0 <= x <= UINT32_MAX ==> r == x
    ensures -TWO_POW_32 <= x < 0 ==> r == x + TWO_POW_32
    ensures UINT32_MAX < x < 2 * TWO_POW_32 ==> r == x - TWO_POW_32
  {
    x % TWO_POW_32
  }

  /** Conversion of a `uint32_t` to a 32-bit `int` (two's complement wrap). */
  function ToI32(x: U32): (r: I32)
    ensures x <= INT32_MAX ==> r == x
    ensures x > INT32_MAX ==> r < 0 && r == x - TWO_POW_32
    ensures ToU32(r) == x
  {
    if x <= INT32_MAX then x else x - TWO_POW_32
  }

  datatype Format = FormatUndefined | B8G8R8A8Unorm | R8G8B8A8Unorm | OtherFormat(code: nat)

  datatype ColorSpace = SrgbNonlinear | OtherColorSpace(code: nat)

  datatype SurfaceFormat = SurfaceFormat(format: Format, colorSpace: ColorSpace)

  datatype PresentMode = Immediate | Mailbox | Fifo | FifoRelaxed | OtherPresentMode(code: nat)

  datatype Extent2D = Extent2D(width: U32, height: U32)

  /** The fields of `VkSurfaceCapabilitiesKHR` the engine reads. */
  datatype SurfaceCapabilities = SurfaceCapabilities(
    minImageCount: U32,
    maxImageCount: U32,
    currentExtent: Extent2D,
    minImageExtent: Extent2D,
    maxImageExtent: Extent2D)

  datatype ImageLayout =
    | LayoutUndefined
    | TransferDstOptimal
    | ShaderReadOnlyOptimal
    | ColorAttachmentOptimal
    | PresentSrc
    | OtherLayout(code: nat)

  /** The exceptions the engine throws from the modelled operations. */
  datatype Error = RuntimeError(what: string) | InvalidArgument(what: string)

  datatype Result<T> = Ok(value: T) | Fail(error: Error)

  datatype Option<T> = None | Some(value: T)
}
