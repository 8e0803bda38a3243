/**
 * The name table of `VkResult` codes (`_VkResultKeyMap` in VkUtils.h and
 * its copy `_VulkanResultKeyMapping` in VulkanUtils.h) and the lookup the
 * engine's error logging uses.
 *
 * The map is built from an initializer list in which several aliases share
 * a numeric value with an earlier entry. Insertion keeps the first entry for
 * a key, so an alias's code reports the name listed first. Codes are the
 * numeric values of the enumerators in the Vulkan headers.
 */
module ResultNames {

  datatype Entry = Entry(code: int, name: string)

  /** The entries listed before the beta-extension entry. */
  function BaseEntries(): seq<Entry> {
    [
      Entry(0, "VK_SUCCESS"),
      Entry(1, "VK_NOT_READY"),
      Entry(2, "VK_TIMEOUT"),
      Entry(3, "VK_EVENT_SET"),
      Entry(4, "VK_EVENT_RESET"),
      Entry(5, "VK_INCOMPLETE"),
      Entry(-1, "VK_ERROR_OUT_OF_HOST_MEMORY"),
      Entry(-2, "VK_ERROR_OUT_OF_DEVICE_MEMORY"),
      Entry(-3, "VK_ERROR_INITIALIZATION_FAILED"),
      Entry(-4, "VK_ERROR_DEVICE_LOST"),
      Entry(-5, "VK_ERROR_MEMORY_MAP_FAILED"),
      Entry(-6, "VK_ERROR_LAYER_NOT_PRESENT"),
      Entry(-7, "VK_ERROR_EXTENSION_NOT_PRESENT"),
      Entry(-8, "VK_ERROR_FEATURE_NOT_PRESENT"),
      Entry(-9, "VK_ERROR_INCOMPATIBLE_DRIVER"),
      Entry(-10, "VK_ERROR_TOO_MANY_OBJECTS"),
      Entry(-11, "VK_ERROR_FORMAT_NOT_SUPPORTED"),
      Entry(-12, "VK_ERROR_FRAGMENTED_POOL"),
      Entry(-13, "VK_ERROR_UNKNOWN"),
      Entry(-1_000_069_000, "VK_ERROR_OUT_OF_POOL_MEMORY"),
      Entry(-1_000_072_003, "VK_ERROR_INVALID_EXTERNAL_HANDLE"),
      Entry(-1_000_161_000, "VK_ERROR_FRAGMENTATION"),
      Entry(-1_000_257_000, "VK_ERROR_INVALID_OPAQUE_CAPTURE_ADDRESS"),
      Entry(1_000_297_000, "VK_PIPELINE_COMPILE_REQUIRED"),
      Entry(-1_000_000_000, "VK_ERROR_SURFACE_LOST_KHR"),
      Entry(-1_000_000_001, "VK_ERROR_NATIVE_WINDOW_IN_USE_KHR"),
      Entry(1_000_001_003, "VK_SUBOPTIMAL_KHR"),
      Entry(-1_000_001_004, "VK_ERROR_OUT_OF_DATE_KHR"),
      Entry(-1_000_003_001, "VK_ERROR_INCOMPATIBLE_DISPLAY_KHR"),
      Entry(-1_000_011_001, "VK_ERROR_VALIDATION_FAILED_EXT"),
      Entry(-1_000_012_000, "VK_ERROR_INVALID_SHADER_NV"),
      Entry(-1_000_023_000, "VK_ERROR_IMAGE_USAGE_NOT_SUPPORTED_KHR"),
      Entry(-1_000_023_001, "VK_ERROR_VIDEO_PICTURE_LAYOUT_NOT_SUPPORTED_KHR"),
      Entry(-1_000_023_002, "VK_ERROR_VIDEO_PROFILE_OPERATION_NOT_SUPPORTED_KHR"),
      Entry(-1_000_023_003, "VK_ERROR_VIDEO_PROFILE_FORMAT_NOT_SUPPORTED_KHR"),
      Entry(-1_000_023_004, "VK_ERROR_VIDEO_PROFILE_CODEC_NOT_SUPPORTED_KHR"),
      Entry(-1_000_023_005, "VK_ERROR_VIDEO_STD_VERSION_NOT_SUPPORTED_KHR"),
      Entry(-1_000_158_000, "VK_ERROR_INVALID_DRM_FORMAT_MODIFIER_PLANE_LAYOUT_EXT"),
      Entry(-1_000_174_001, "VK_ERROR_NOT_PERMITTED_KHR"),
      Entry(-1_000_255_000, "VK_ERROR_FULL_SCREEN_EXCLUSIVE_MODE_LOST_EXT"),
      Entry(1_000_268_000, "VK_THREAD_IDLE_KHR"),
      Entry(1_000_268_001, "VK_THREAD_DONE_KHR"),
      Entry(1_000_268_002, "VK_OPERATION_DEFERRED_KHR"),
      Entry(1_000_268_003, "VK_OPERATION_NOT_DEFERRED_KHR")
    ]
  }

  /** The entry guarded by `VK_ENABLE_BETA_EXTENSIONS`. */
  function BetaEntries(): seq<Entry> {
    [
      Entry(-1_000_299_000, "VK_ERROR_INVALID_VIDEO_STD_PARAMETERS_KHR")
    ]
  }

  /** The entries listed after the beta-extension entry, aliases included. */
  function LateEntries(): seq<Entry> {
    [
      Entry(-1_000_338_000, "VK_ERROR_COMPRESSION_EXHAUSTED_EXT"),
      Entry(1_000_482_000, "VK_ERROR_INCOMPATIBLE_SHADER_BINARY_EXT"),
      Entry(-1_000_069_000, "VK_ERROR_OUT_OF_POOL_MEMORY_KHR"),
      Entry(-1_000_072_003, "VK_ERROR_INVALID_EXTERNAL_HANDLE_KHR"),
      Entry(-1_000_161_000, "VK_ERROR_FRAGMENTATION_EXT"),
      Entry(-1_000_174_001, "VK_ERROR_NOT_PERMITTED_EXT"),
      Entry(-1_000_257_000, "VK_ERROR_INVALID_DEVICE_ADDRESS_EXT"),
      Entry(-1_000_257_000, "VK_ERROR_INVALID_OPAQUE_CAPTURE_ADDRESS_KHR"),
      Entry(1_000_297_000, "VK_PIPELINE_COMPILE_REQUIRED_EXT"),
      Entry(1_000_297_000, "VK_ERROR_PIPELINE_COMPILE_REQUIRED_EXT"),
      Entry(2_147_483_647, "VK_RESULT_MAX_ENUM")
    ]
  }

  /** The initializer list as compiled, with or without beta extensions. */
  function ResultNameTable(betaExtensions: bool): seq<Entry> {
    BaseEntries() + (if betaExtensions then BetaEntries() else []) + LateEntries()
  }

  /** The map an initializer list builds: entries inserted in order, an existing key kept. */
  function FirstWins(entries: seq<Entry>): map<int, string>
    decreases |entries|
  {
    if entries == [] then map[]
    else
      var m := FirstWins(entries[..|entries| - 1]);
      var e := entries[|entries| - 1];
      if e.code in m then m else m[e.code := e.name]
  }

  /** The keys of the built map are exactly the codes listed. */
  lemma {:induction false} FirstWinsKeys(entries: seq<Entry>)
    ensures FirstWins(entries).Keys == set i | 0 <= i < |entries| :: entries[i].code
    decreases |entries|
  {
    if entries != [] {
      var prefix := entries[..|entries| - 1];
      FirstWinsKeys(prefix);
      assert forall i :: 0 <= i < |prefix| ==> prefix[i] == entries[i];
      var all := set i | 0 <= i < |entries| :: entries[i].code;
      var before := set i | 0 <= i < |prefix| :: prefix[i].code;
      assert all == before + {entries[|entries| - 1].code} by {
        forall c | c in all ensures c in before + {entries[|entries| - 1].code} {
          var i :| 0 <= i < |entries| && entries[i].code == c;
          if i < |prefix| { assert prefix[i].code == c; }
        }
      }
    }
  }

  /** A code's name is the name of the first entry that lists the code. */
  lemma {:induction false} FirstWinsIsFirstListed(entries: seq<Entry>, i: nat)
    requires i < |entries|
    requires forall j :: 0 <= j < i ==> entries[j].code != entries[i].code
    ensures entries[i].code in FirstWins(entries)
    ensures FirstWins(entries)[entries[i].code] == entries[i].name
    decreases |entries|
  {
    var prefix := entries[..|entries| - 1];
    if i < |entries| - 1 {
      assert forall j :: 0 <= j <= i ==> prefix[j] == entries[j];
      FirstWinsIsFirstListed(prefix, i);
    } else {
      FirstWinsKeys(prefix);
      assert forall j :: 0 <= j < |prefix| ==> prefix[j] == entries[j];
    }
  }

  /** Every name in the map is the name of an entry that lists its key. */
  lemma {:induction false} FirstWinsNamesComeFromEntries(entries: seq<Entry>, code: int)
    requires code in FirstWins(entries)
    ensures exists i :: 0 <= i < |entries| && entries[i] == Entry(code, FirstWins(entries)[code])
    decreases |entries|
  {
    var prefix := entries[..|entries| - 1];
    var last := entries[|entries| - 1];
    if code in FirstWins(prefix) {
      FirstWinsNamesComeFromEntries(prefix, code);
      var i :| 0 <= i < |prefix| && prefix[i] == Entry(code, FirstWins(prefix)[code]);
      assert entries[i] == prefix[i];
    } else {
      assert entries[|entries| - 1] == Entry(code, FirstWins(entries)[code]);
    }
  }

  /** The first nineteen entries are the core codes, all between -13 and 5. */
  lemma CoreCodesAreSmall()
    ensures forall j :: 0 <= j < 19 ==> -13 <= BaseEntries()[j].code <= 5
  {
  }

  /** Where the table lists the value of `VK_ERROR_OUT_OF_POOL_MEMORY` and its alias. */
  lemma OutOfPoolMemoryPositions(betaExtensions: bool)
    ensures var table := ResultNameTable(betaExtensions);
      |table| > 47
      && table[19] == Entry(-1_000_069_000, "VK_ERROR_OUT_OF_POOL_MEMORY")
      && table[if betaExtensions then 47 else 46] == Entry(-1_000_069_000, "VK_ERROR_OUT_OF_POOL_MEMORY_KHR")
      && forall j :: 0 <= j < 19 ==> table[j].code != table[19].code
  {
    var table := ResultNameTable(betaExtensions);
    var base, late := BaseEntries(), LateEntries();
    assert |base| == 44 && |late| == 11;
    CoreCodesAreSmall();
    assert base[19] == Entry(-1_000_069_000, "VK_ERROR_OUT_OF_POOL_MEMORY");
    assert late[2] == Entry(-1_000_069_000, "VK_ERROR_OUT_OF_POOL_MEMORY_KHR");
    if betaExtensions {
      assert table == base + BetaEntries() + late;
      assert table[47] == late[2];
    } else {
      assert table == base + late;
      assert table[46] == late[2];
    }
    assert forall j :: 0 <= j < 20 ==> table[j] == base[j];
  }

  /**
   * The alias `VK_ERROR_OUT_OF_POOL_MEMORY_KHR` shares its value with
   * `VK_ERROR_OUT_OF_POOL_MEMORY`, and the code reports the name listed first.
   */
  lemma AliasReportsFirstListedName(betaExtensions: bool)
    ensures var table := ResultNameTable(betaExtensions);
      Entry(-1_000_069_000, "VK_ERROR_OUT_OF_POOL_MEMORY_KHR") in table
      && -1_000_069_000 in FirstWins(table)
      && FirstWins(table)[-1_000_069_000] == "VK_ERROR_OUT_OF_POOL_MEMORY"
  {
    var table := ResultNameTable(betaExtensions);
    OutOfPoolMemoryPositions(betaExtensions);
    FirstWinsIsFirstListed(table, 19);
  }

  /** The name table as a process-wide map that lookups may extend. */
  class ResultNameMap {
    var names: map<int, string>

    constructor (betaExtensions: bool)
      ensures names == FirstWins(ResultNameTable(betaExtensions))
    {
      names := FirstWins(ResultNameTable(betaExtensions));
    }

    /**
     * `GetVkResultStatusName` (and the `VulkanDebugResult` macro): `operator[]`
     * returns the stored name, or inserts and returns an empty name for a
     * code the table does not list.
     */
    method GetVkResultStatusName(code: int) returns (name: string)
      modifies this
      ensures code in old(names) ==> name == old(names)[code] && names == old(names)
      ensures code !in old(names) ==> name == "" && names == old(names)[code := ""]
      ensures code in names && names[code] == name
    {
      if code !in names {
        names := names[code := ""];
      }
      name := names[code];
    }
  }
}
