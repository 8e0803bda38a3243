/**
 * What the engine asks for when it creates a logical device: the device
 * extensions and layers it appends, and one queue create info per recorded
 * queue family.
 */
module DeviceSetup {
  import opened VkTypes
  import opened QueueFamilies

  /** `VK_KHR_SWAPCHAIN_EXTENSION_NAME`. */
  const SWAPCHAIN_EXTENSION_NAME: string := "VK_KHR_swapchain"

  datatype ExtensionProperties = ExtensionProperties(specVersion: nat)

  // ------------------------------------------------------------ extensions

  /**
   * `GetRequiredEnableDeviceExtensions` of the renderers: appends the
   * swapchain extension only when the device's extension table has it.
   */
  method GetRequiredEnableDeviceExtensions(supports: map<string, ExtensionProperties>, required: seq<string>)
    returns (r: seq<string>)
    ensures |r| >= |required| && r[..|required|] == required
    ensures |r| == |required| + 1 <==> SWAPCHAIN_EXTENSION_NAME in supports
    ensures |r| <= |required| + 1
    ensures forall i :: |required| <= i < |r| ==> r[i] == SWAPCHAIN_EXTENSION_NAME && r[i] in supports
  {
    r := required;
    if SWAPCHAIN_EXTENSION_NAME in supports {
      r := r + [SWAPCHAIN_EXTENSION_NAME];
    }
  }

  /**
   * `GetVulkanDeviceRequiredExtensions` of VulkanUtils.h and the v1.1
   * refactor: appends the swapchain extension without asking the device.
   */
  method GetVulkanDeviceRequiredExtensions(required: seq<string>) returns (r: seq<string>)
    ensures |r| == |required| + 1 && r[..|required|] == required
    ensures r[|required|] == SWAPCHAIN_EXTENSION_NAME
  {
    r := required + [SWAPCHAIN_EXTENSION_NAME];
  }

  /** `GetVulkanDeviceRequiredLayers`: appends nothing. */
  method GetVulkanDeviceRequiredLayers(required: seq<string>) returns (r: seq<string>)
    ensures r == required
  {
    r := required;
  }

  // ---------------------------------------------------- queue create infos

  /** The fields of `VkDeviceQueueCreateInfo` the engine sets (priority is always 1.0). */
  datatype QueueCreateInfo = QueueCreateInfo(queueFamilyIndex: nat, queueCount: nat)

  /** As written everywhere: one entry for the graphics family, then one for the present family. */
  function QueueCreateInfos(indices: Indices): (r: seq<QueueCreateInfo>)
    ensures |r| == 2
    ensures forall i :: 0 <= i < |r| ==> r[i].queueCount == 1
    ensures r[0].queueFamilyIndex == indices.graphics && r[1].queueFamilyIndex == indices.present
  {
    [QueueCreateInfo(indices.graphics, 1), QueueCreateInfo(indices.present, 1)]
  }

  /**
   * The `uniqueQueueFamilies` loop of the renderers' device creation: one
   * create info per entry of the (undeduplicated) family list.
   */
  method BuildQueueCreateInfos(indices: Indices) returns (infos: seq<QueueCreateInfo>)
    ensures infos == QueueCreateInfos(indices)
  {
    var uniqueQueueFamilies := [indices.graphics, indices.present];
    infos := [];
    for i := 0 to |uniqueQueueFamilies|
      invariant |infos| == i
      invariant forall j :: 0 <= j < i ==> infos[j] == QueueCreateInfo(uniqueQueueFamilies[j], 1)
    {
      infos := infos + [QueueCreateInfo(uniqueQueueFamilies[i], 1)];
    }
  }

  /**
   * `GetVulkanDeviceCreateRequiredQueueFamilyAndQueueCreateInfo`: scans a
   * fresh indices struct with the Utils rule and appends the two entries to
   * the caller's list.
   */
  method GetDeviceCreateRequiredQueueCreateInfos(families: seq<QueueFamily>, infos: seq<QueueCreateInfo>)
    returns (r: seq<QueueCreateInfo>)
    ensures r == infos + QueueCreateInfos(Scan(Utils, families, Zero))
  {
    var queueFamilyIndices := new QueueFamilyIndices();
    queueFamilyIndices.FindInPlace(families);
    r := infos + [QueueCreateInfo(queueFamilyIndices.graphicsQueueFamily, 1)];
    r := r + [QueueCreateInfo(queueFamilyIndices.presentQueueFamily, 1)];
  }

  /** Every queue family index in the list is different (a valid-usage rule of `VkDeviceCreateInfo`). */
  predicate DistinctFamilies(infos: seq<QueueCreateInfo>) {
    forall i, j :: 0 <= i < j < |infos| ==> infos[i].queueFamilyIndex != infos[j].queueFamilyIndex
  }

  /**
   * A device whose families 0 and 1 both do graphics and present gets the
   * same family for both roles, and the list names it twice.
   */
  lemma QueueCreateInfosRepeatSharedFamily()
    ensures var f := QueueFamily(1, GRAPHICS_BIT, true);
      var indices := Scan(Renderer, [f, f], Zero);
      indices == Indices(1, 1) && !DistinctFamilies(QueueCreateInfos(indices))
  {
    var f := QueueFamily(1, GRAPHICS_BIT, true);
    assert ScanFrom(Renderer, [f, f], 1, Zero) == Indices(1, 1);
    assert QueueCreateInfos(Indices(1, 1))[0].queueFamilyIndex == QueueCreateInfos(Indices(1, 1))[1].queueFamilyIndex;
  }

  /** The evidently intended list: one entry per distinct family, graphics first. */
  function UniqueQueueCreateInfos(indices: Indices): (r: seq<QueueCreateInfo>)
    ensures 1 <= |r| <= 2 && DistinctFamilies(r)
    ensures forall i :: 0 <= i < |r| ==> r[i].queueCount == 1
    ensures r[0].queueFamilyIndex == indices.graphics
    ensures exists i :: 0 <= i < |r| && r[i].queueFamilyIndex == indices.present
    ensures forall i :: 0 <= i < |r| ==> r[i].queueFamilyIndex in {indices.graphics, indices.present}
  {
    if indices.graphics == indices.present then [QueueCreateInfo(indices.graphics, 1)]
    else QueueCreateInfos(indices)
  }

  /** When the two roles use different families, the corrected list is the one the source builds. */
  lemma UniqueMatchesWrittenWhenFamiliesDiffer(indices: Indices)
    ensures indices.graphics != indices.present <==> UniqueQueueCreateInfos(indices) == QueueCreateInfos(indices)
  {
    if indices.graphics == indices.present {
      assert |UniqueQueueCreateInfos(indices)| == 1;
    }
  }
}
