/**
 * The swapchain settings every renderer derives from what the surface
 * reports: the surface format, the present mode, the image extent and the
 * number of images, and the context record that holds them.
 */
module SwapchainSelect {
  import opened VkTypes

  /** B8G8R8A8_UNORM in the sRGB non-linear colour space. */
  const PreferredFormat := SurfaceFormat(B8G8R8A8Unorm, SrgbNonlinear)

  // ---------------------------------------------------------------- format

  /**
   * The surface format rule: a lone UNDEFINED entry means the surface takes
   * any format, so the preferred pair is used; otherwise the preferred pair if
   * it is offered, else the first format offered.
   */
  function ChosenSurfaceFormat(formats: seq<SurfaceFormat>): (r: SurfaceFormat)
    requires |formats| > 0
    ensures r == PreferredFormat || r == formats[0]
    ensures r in formats || (|formats| == 1 && formats[0].format == FormatUndefined)
    ensures PreferredFormat in formats ==> r == PreferredFormat
  {
    if |formats| == 1 && formats[0].format == FormatUndefined then PreferredFormat
    else if PreferredFormat in formats then PreferredFormat
    else formats[0]
  }

  /** `SelectSwapSurfaceFormat` and its copies: the early-return search loop. */
  method SelectSwapSurfaceFormat(formats: seq<SurfaceFormat>) returns (r: SurfaceFormat)
    requires |formats| > 0
    ensures r == ChosenSurfaceFormat(formats)
  {
    if |formats| == 1 && formats[0].format == FormatUndefined {
      return SurfaceFormat(B8G8R8A8Unorm, SrgbNonlinear);
    }
    for i := 0 to |formats|
      invariant PreferredFormat !in formats[..i]
    {
      if formats[i].format == B8G8R8A8Unorm && formats[i].colorSpace == SrgbNonlinear {
        return formats[i];
      }
    }
    assert formats[..|formats|] == formats;
    return formats[0];
  }

  /**
   * `_GetBeastPreferredSwapchainSurfaceFormatKHR` of the v1.1 refactor as
   * written: its special case tests `size() == 0`, which no list it may index
   * satisfies, so only the search and the first-format fallback remain.
   */
  function BeastPreferredFormatAsWritten(formats: seq<SurfaceFormat>): (r: SurfaceFormat)
    requires |formats| > 0
    ensures PreferredFormat in formats ==> r == PreferredFormat
    ensures r in formats
  {
    if PreferredFormat in formats then PreferredFormat else formats[0]
  }

  /**
   * The refactored function's loop. The `size() == 0` test comes first and
   * is false for every list this is called with, so it is not repeated here.
   */
  method GetBeastPreferredSurfaceFormat(formats: seq<SurfaceFormat>) returns (r: SurfaceFormat)
    requires |formats| > 0
    ensures r == BeastPreferredFormatAsWritten(formats)
  {
    for i := 0 to |formats|
      invariant PreferredFormat !in formats[..i]
    {
      if formats[i].format == B8G8R8A8Unorm && formats[i].colorSpace == SrgbNonlinear {
        return formats[i];
      }
    }
    assert formats[..|formats|] == formats;
    return formats[0];
  }

  /** A surface that reports only UNDEFINED gets UNDEFINED back from the refactored rule. */
  lemma BeastFormatKeepsLoneUndefined()
    ensures var formats := [SurfaceFormat(FormatUndefined, SrgbNonlinear)];
      BeastPreferredFormatAsWritten(formats) == SurfaceFormat(FormatUndefined, SrgbNonlinear)
      && ChosenSurfaceFormat(formats) == PreferredFormat
  {
    var formats := [SurfaceFormat(FormatUndefined, SrgbNonlinear)];
    assert PreferredFormat !in formats by {
      assert formats[0] != PreferredFormat;
    }
  }

  /** The corrected rule never hands UNDEFINED to swapchain creation when the surface accepts any format. */
  lemma ChosenFormatDefinedForAnyFormatSurface(colorSpace: ColorSpace)
    ensures ChosenSurfaceFormat([SurfaceFormat(FormatUndefined, colorSpace)]).format != FormatUndefined
  {
  }

  // ---------------------------------------------------------- present mode

  /** Rank of a present mode in the renderers' preference: MAILBOX, IMMEDIATE, then FIFO. */
  function PresentRank(m: PresentMode): nat {
    match m
    case Mailbox => 2
    case Immediate => 1
    case _ => 0
  }

  /** The renderers' present-mode rule: MAILBOX if offered, else IMMEDIATE if offered, else FIFO. */
  function PreferredPresentMode(modes: seq<PresentMode>): (r: PresentMode)
    ensures r == Mailbox <==> Mailbox in modes
    ensures r == Immediate <==> Mailbox !in modes && Immediate in modes
    ensures r == Fifo <==> Mailbox !in modes && Immediate !in modes
  {
    if Mailbox in modes then Mailbox
    else if Immediate in modes then Immediate
    else Fifo
  }

  /** The chosen mode is offered (or is FIFO, which every surface supports) and no offered mode ranks higher. */
  lemma PreferredPresentModeIsBestRanked(modes: seq<PresentMode>)
    ensures var r := PreferredPresentMode(modes);
      (r in modes || r == Fifo)
      && forall i :: 0 <= i < |modes| ==> PresentRank(modes[i]) <= PresentRank(r)
  {
  }

  /** `SelectSwapSurfacePresentMode`: keep FIFO, note IMMEDIATE, return at the first MAILBOX. */
  method SelectSwapSurfacePresentMode(modes: seq<PresentMode>) returns (r: PresentMode)
    ensures r == PreferredPresentMode(modes)
  {
    var best := Fifo;
    for i := 0 to |modes|
      invariant Mailbox !in modes[..i]
      invariant best == (if Immediate in modes[..i] then Immediate else Fifo)
    {
      if modes[i] == Mailbox {
        return Mailbox;
      } else if modes[i] == Immediate {
        best := Immediate;
      }
    }
    assert modes[..|modes|] == modes;
    return best;
  }

  predicate LowLatency(m: PresentMode) {
    m == Mailbox || m == Immediate
  }

  /** VulkanUtils.h's rule: the first MAILBOX or IMMEDIATE in list order, else FIFO. */
  function FirstLowLatencyMode(modes: seq<PresentMode>): PresentMode {
    if modes == [] then Fifo
    else if LowLatency(modes[0]) then modes[0]
    else FirstLowLatencyMode(modes[1..])
  }

  lemma {:induction false} FirstLowLatencyModeIsFirstMatch(modes: seq<PresentMode>)
    ensures var r := FirstLowLatencyMode(modes);
      (r == Fifo && forall j :: 0 <= j < |modes| ==> !LowLatency(modes[j]))
      || exists k :: 0 <= k < |modes| && modes[k] == r && LowLatency(r)
                     && forall j :: 0 <= j < k ==> !LowLatency(modes[j])
  {
    if modes != [] && !LowLatency(modes[0]) {
      FirstLowLatencyModeIsFirstMatch(modes[1..]);
      var r := FirstLowLatencyMode(modes);
      if r != Fifo || exists j :: 0 <= j < |modes[1..]| && LowLatency(modes[1..][j]) {
        var k :| 0 <= k < |modes[1..]| && modes[1..][k] == r && LowLatency(r)
                 && forall j :: 0 <= j < k ==> !LowLatency(modes[1..][j]);
        assert modes[k + 1] == r;
        assert forall j :: 0 <= j < k + 1 ==> !LowLatency(modes[j]) by {
          forall j | 0 <= j < k + 1 ensures !LowLatency(modes[j]) {
            if j > 0 { assert modes[j] == modes[1..][j - 1]; }
          }
        }
      } else {
        assert forall j :: 0 <= j < |modes| ==> !LowLatency(modes[j]) by {
          forall j | 0 <= j < |modes| ensures !LowLatency(modes[j]) {
            if j > 0 { assert modes[j] == modes[1..][j - 1]; }
          }
        }
      }
    }
  }

  /** The two rules part ways when IMMEDIATE is listed before MAILBOX. */
  lemma PresentRulesDifferOnOrder()
    ensures PreferredPresentMode([Immediate, Mailbox]) == Mailbox
    ensures FirstLowLatencyMode([Immediate, Mailbox]) == Immediate
  {
    assert [Immediate, Mailbox][1] == Mailbox;
  }

  /** `_SelectVulkanSwapchainPresentModeKHR`: the loop that jumps out at the first low-latency mode. */
  method SelectFirstLowLatencyMode(modes: seq<PresentMode>) returns (r: PresentMode)
    ensures r == FirstLowLatencyMode(modes)
  {
    r := Fifo;
    var i := 0;
    while i < |modes|
      invariant 0 <= i <= |modes|
      invariant FirstLowLatencyMode(modes[i..]) == FirstLowLatencyMode(modes)
      invariant r == Fifo
    {
      if modes[i] == Mailbox {
        r := modes[i];
        break;
      } else if modes[i] == Immediate {
        r := modes[i];
        break;
      }
      assert modes[i..][1..] == modes[i + 1..];
      i := i + 1;
    }
  }

  // ---------------------------------------------------------------- extent

  function Min(a: int, b: int): int { if a <= b then a else b }
  function Max(a: int, b: int): int { if a >= b then a else b }

  /** `std::max(lo, std::min(hi, x))`. */
  function ClampAxis(lo: U32, hi: U32, x: U32): (r: U32)
    ensures lo <= r
    ensures lo <= hi ==> r <= hi
    ensures lo <= x <= hi ==> r == x
  {
    Max(lo, Min(hi, x))
  }

  /**
   * `SelectSwapExtent` and its copies: the surface's current extent unless
   * its width is the UINT32_MAX sentinel, otherwise the window size (a C++
   * `int`, cast to `uint32_t`) clamped into the supported range per axis.
   */
  function SelectSwapExtent(caps: SurfaceCapabilities, windowWidth: int, windowHeight: int): (r: Extent2D)
    ensures caps.currentExtent.width != UINT32_MAX ==> r == caps.currentExtent
    ensures caps.currentExtent.width == UINT32_MAX ==>
      caps.minImageExtent.width <= r.width && caps.minImageExtent.height <= r.height
    ensures caps.currentExtent.width == UINT32_MAX && caps.minImageExtent.width <= caps.maxImageExtent.width ==>
      r.width <= caps.maxImageExtent.width
    ensures caps.currentExtent.width == UINT32_MAX && caps.minImageExtent.height <= caps.maxImageExtent.height ==>
      r.height <= caps.maxImageExtent.height
    ensures caps.currentExtent.width == UINT32_MAX
      && caps.minImageExtent.width <= windowWidth <= caps.maxImageExtent.width
      && caps.minImageExtent.height <= windowHeight <= caps.maxImageExtent.height
      ==> r == Extent2D(windowWidth, windowHeight)
  {
    if caps.currentExtent.width != UINT32_MAX then caps.currentExtent
    else
      Extent2D(
        ClampAxis(caps.minImageExtent.width, caps.maxImageExtent.width, ToU32(windowWidth)),
        ClampAxis(caps.minImageExtent.height, caps.maxImageExtent.height, ToU32(windowHeight)))
  }

  /**
   * A negative window size is not rejected: the cast turns it into a huge
   * width, which the clamp then takes to the maximum extent.
   */
  lemma NegativeWindowWidthClampsToMaximum(caps: SurfaceCapabilities)
    requires caps.currentExtent.width == UINT32_MAX
    requires caps.minImageExtent.width <= caps.maxImageExtent.width < INT32_MAX
    ensures SelectSwapExtent(caps, -1, 0).width == caps.maxImageExtent.width
  {
  }

  // ----------------------------------------------------------- image count

  /**
   * The image-count rule: one more than the minimum (in `uint32_t`, so it
   * wraps), lowered to the maximum when a maximum exists and is exceeded.
   */
  function SwapchainImageCount(caps: SurfaceCapabilities): (r: U32)
    ensures caps.maxImageCount > 0 ==> r <= caps.maxImageCount
    ensures caps.minImageCount < UINT32_MAX
      && (caps.maxImageCount == 0 || caps.minImageCount < caps.maxImageCount)
      ==> r == caps.minImageCount + 1
    ensures caps.minImageCount < UINT32_MAX && caps.minImageCount <= caps.maxImageCount
      ==> caps.minImageCount <= r
    ensures caps.maxImageCount > 0 && ToU32(caps.minImageCount + 1) > caps.maxImageCount ==> r == caps.maxImageCount
    ensures 0 < caps.maxImageCount <= caps.minImageCount < UINT32_MAX ==> r == caps.maxImageCount
    ensures caps.minImageCount == UINT32_MAX ==> r == 0
  {
    var count := ToU32(caps.minImageCount + 1);
    if caps.maxImageCount > 0 && count > caps.maxImageCount then caps.maxImageCount else count
  }

  // ------------------------------------------------------- swapchain context

  /** The per-swapchain record that VulkanUtils.h fills and VulkanContext.cpp recreates. */
  class SwapchainContext {
    var capabilities: SurfaceCapabilities
    var surfaceFormat: SurfaceFormat
    var presentMode: PresentMode
    var width: U32
    var height: U32
    var minImageCount: U32
    /** How many times the swapchain objects were destroyed and created again. */
    var recreations: nat

    constructor (caps: SurfaceCapabilities)
      ensures capabilities == caps && recreations == 0
    {
      capabilities := caps;
      surfaceFormat := PreferredFormat;
      presentMode := Fifo;
      width, height, minImageCount := 0, 0, 0;
      recreations := 0;
    }

    /** The capabilities, format, present mode and extent selected from the surface answers and window size. */
    predicate SelectedFrom(caps: SurfaceCapabilities, formats: seq<SurfaceFormat>, modes: seq<PresentMode>,
                           windowWidth: I32, windowHeight: I32)
      reads this
      requires |formats| > 0
    {
      capabilities == caps
      && surfaceFormat == ChosenSurfaceFormat(formats)
      && presentMode == FirstLowLatencyMode(modes)
      && Extent2D(width, height) == SelectSwapExtent(caps, windowWidth, windowHeight)
    }

    /** The state `Configure` leaves behind: the selections plus the requested image count. */
    predicate ConfiguredFrom(caps: SurfaceCapabilities, formats: seq<SurfaceFormat>, modes: seq<PresentMode>,
                             windowWidth: I32, windowHeight: I32)
      reads this
      requires |formats| > 0
    {
      SelectedFrom(caps, formats, modes, windowWidth, windowHeight)
      && minImageCount == SwapchainImageCount(caps)
    }

    /**
     * `ConfigurationVulkanSwapchainContextDetail`. The surface query results
     * and the window's extent come in as parameters; reading `formats[0]` of
     * an empty list is undefined in the source, hence the precondition.
     */
    method Configure(caps: SurfaceCapabilities, formats: seq<SurfaceFormat>, modes: seq<PresentMode>,
                     windowWidth: I32, windowHeight: I32)
      requires |formats| > 0
      modifies this
      ensures ConfiguredFrom(caps, formats, modes, windowWidth, windowHeight)
      ensures recreations == old(recreations)
    {
      width := ToU32(windowWidth);
      height := ToU32(windowHeight);
      capabilities := caps;
      surfaceFormat := SelectSwapSurfaceFormat(formats);
      presentMode := SelectFirstLowLatencyMode(modes);
      if capabilities.currentExtent.width != UINT32_MAX {
        width := capabilities.currentExtent.width;
        height := capabilities.currentExtent.height;
      } else {
        var w := Max(capabilities.minImageExtent.width, Min(capabilities.maxImageExtent.width, ToU32(windowWidth)));
        var h := Max(capabilities.minImageExtent.height, Min(capabilities.maxImageExtent.height, ToU32(windowHeight)));
        width := w;
        height := h;
      }
      minImageCount := ToU32(capabilities.minImageCount + 1);
      if capabilities.maxImageCount > 0 && minImageCount > capabilities.maxImageCount {
        minImageCount := capabilities.maxImageCount;
      }
    }

    /**
     * `RecreateSwapchainContextKHR`: `newWidth` and `newHeight` only gate the
     * call, and a zero one (the unsigned `<= 0` test) leaves everything as it
     * is. Otherwise the swapchain is destroyed and created again: the
     * selections are made afresh from the surface answers and the window's
     * stored extent (`windowWidth`, `windowHeight`), and `minImageCount` is
     * then overwritten with the number of images the driver actually created,
     * which comes in as `createdImageCount`.
     */
    method Recreate(newWidth: U32, newHeight: U32, caps: SurfaceCapabilities, formats: seq<SurfaceFormat>,
                    modes: seq<PresentMode>, windowWidth: I32, windowHeight: I32, createdImageCount: U32)
      returns (recreated: bool)
      requires |formats| > 0
      modifies this
      ensures recreated <==> newWidth != 0 && newHeight != 0
      ensures !recreated ==> unchanged(this)
      ensures recreated ==> SelectedFrom(caps, formats, modes, windowWidth, windowHeight)
      ensures recreated ==> minImageCount == createdImageCount
      ensures recreated ==> recreations == old(recreations) + 1
    {
      if newWidth <= 0 || newHeight <= 0 {
        return false;
      }
      recreations := recreations + 1;
      Configure(caps, formats, modes, windowWidth, windowHeight);
      minImageCount := createdImageCount;
      return true;
    }
  }

  /**
   * `ConfigurationSwapchainKHRSupportDetails` of the v1.1 refactor: the
   * capabilities are always stored, a format and a present mode only when
   * the surface reports at least one.
   */
  class SwapchainSupportDetails {
    var capabilities: SurfaceCapabilities
    var surfaceFormat: SurfaceFormat
    var presentMode: PresentMode

    constructor (caps: SurfaceCapabilities, format: SurfaceFormat, mode: PresentMode)
      ensures capabilities == caps && surfaceFormat == format && presentMode == mode
    {
      capabilities, surfaceFormat, presentMode := caps, format, mode;
    }

    method Configure(caps: SurfaceCapabilities, formats: seq<SurfaceFormat>, modes: seq<PresentMode>)
      modifies this
      ensures capabilities == caps
      ensures surfaceFormat == if |formats| > 0 then BeastPreferredFormatAsWritten(formats) else old(surfaceFormat)
      ensures presentMode == if |modes| > 0 then PreferredPresentMode(modes) else old(presentMode)
    {
      capabilities := caps;
      if |formats| > 0 {
        surfaceFormat := GetBeastPreferredSurfaceFormat(formats);
      }
      if |modes| > 0 {
        presentMode := SelectSwapSurfacePresentMode(modes);
      }
    }
  }
}
