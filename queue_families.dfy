/**
 * Selection of the graphics and present queue families of a physical device.
 *
 * Every renderer of the engine scans the device's queue families in order,
 * records the index of each family that qualifies for a role (a later
 * qualifying family overwrites an earlier one), and stops as soon as both
 * recorded indices are greater than zero. Because completeness is "> 0",
 * family 0 never ends the scan by itself.
 *
 * Two rules for "qualifies" exist in the source:
 *  - Renderer: graphics needs `queueCount > 0` and the graphics bit; present
 *    needs only surface support (its `> 0` test is on the number of families).
 *  - Utils: both roles sit inside `if (queueCount > 0)`.
 */
module QueueFamilies {
  import opened VkTypes

  const GRAPHICS_BIT: bv32 := 0x1

  /** One `VkQueueFamilyProperties` plus the surface-support answer for it. */
  datatype QueueFamily = QueueFamily(queueCount: U32, queueFlags: bv32, surfaceSupport: bool)

  /** The recorded indices: graphics family and present family. */
  datatype Indices = Indices(graphics: nat, present: nat)

  /** The default member initialisers `= 0` of the indices struct. */
  const Zero := Indices(0, 0)

  datatype Rule = Renderer | Utils

  datatype Role = Graphics | Present

  /** `_CheckQueueFamilyIndicesComplete` and its copies: both indices above zero. */
  predicate Complete(x: Indices) {
    x.graphics > 0 && x.present > 0
  }

  predicate Qualifies(rule: Rule, role: Role, families: seq<QueueFamily>, i: nat)
    requires i < |families|
  {
    var f := families[i];
    match role
    case Graphics => f.queueCount > 0 && f.queueFlags & GRAPHICS_BIT != 0
    case Present =>
      match rule
      case Renderer => |families| > 0 && f.surfaceSupport
      case Utils => f.queueCount > 0 && f.surfaceSupport
  }

  function Pick(x: Indices, role: Role): nat {
    match role
    case Graphics => x.graphics
    case Present => x.present
  }

  /** The loop body for family `i`: overwrite each role it qualifies for. */
  function Step(rule: Rule, families: seq<QueueFamily>, i: nat, acc: Indices): (r: Indices)
    requires i < |families|
    ensures forall role :: Pick(r, role) == (if Qualifies(rule, role, families, i) then i else Pick(acc, role))
  {
    Indices(
      if Qualifies(rule, Graphics, families, i) then i else acc.graphics,
      if Qualifies(rule, Present, families, i) then i else acc.present)
  }

  /** The scan from family `i` on, with `acc` the struct's current value. */
  function ScanFrom(rule: Rule, families: seq<QueueFamily>, i: nat, acc: Indices): Indices
    requires i <= |families|
    decreases |families| - i
  {
    if i == |families| then acc
    else
      var next := Step(rule, families, i, acc);
      if Complete(next) then next else ScanFrom(rule, families, i + 1, next)
  }

  function Scan(rule: Rule, families: seq<QueueFamily>, init: Indices): Indices {
    ScanFrom(rule, families, 0, init)
  }

  /**
   * Reference definition: after looking at the first `k` families, a role's
   * index is the last family among them that qualifies, or `d` if none does.
   */
  function LastQualifying(rule: Rule, role: Role, families: seq<QueueFamily>, k: nat, d: nat): (r: nat)
    requires k <= |families|
  {
    if k == 0 then d
    else if Qualifies(rule, role, families, k - 1) then k - 1
    else LastQualifying(rule, role, families, k - 1, d)
  }

  /** The indices recorded after the first `k` families. */
  function Recorded(rule: Rule, families: seq<QueueFamily>, k: nat, init: Indices): Indices
    requires k <= |families|
  {
    Indices(
      LastQualifying(rule, Graphics, families, k, init.graphics),
      LastQualifying(rule, Present, families, k, init.present))
  }

  lemma {:induction false} LastQualifyingIsLastMatch(rule: Rule, role: Role, families: seq<QueueFamily>, k: nat, d: nat)
    requires k <= |families|
    ensures var r := LastQualifying(rule, role, families, k, d);
      (r == d && forall j :: 0 <= j < k ==> !Qualifies(rule, role, families, j))
      || (r < k && Qualifies(rule, role, families, r)
          && forall j :: r < j < k ==> !Qualifies(rule, role, families, j))
  {
    if k > 0 && !Qualifies(rule, role, families, k - 1) {
      LastQualifyingIsLastMatch(rule, role, families, k - 1, d);
    }
  }

  /**
   * The scan equals the reference definition at the first prefix whose
   * recorded indices are complete, or at the whole list if none is.
   */
  lemma {:induction false} ScanStopsAtFirstCompletePrefix(rule: Rule, families: seq<QueueFamily>, init: Indices)
    ensures exists k :: (0 <= k <= |families|
      && Scan(rule, families, init) == Recorded(rule, families, k, init)
      && (forall j :: 1 <= j < k ==> !Complete(Recorded(rule, families, j, init)))
      && (k == |families| || Complete(Recorded(rule, families, k, init))))
  {
    ScanFromRecorded(rule, families, init, 0);
  }

  lemma {:induction false} ScanFromRecorded(rule: Rule, families: seq<QueueFamily>, init: Indices, i: nat)
    requires i <= |families|
    requires forall j :: 1 <= j <= i ==> !Complete(Recorded(rule, families, j, init))
    ensures exists k :: (i <= k <= |families|
      && ScanFrom(rule, families, i, Recorded(rule, families, i, init)) == Recorded(rule, families, k, init)
      && (forall j :: 1 <= j < k ==> !Complete(Recorded(rule, families, j, init)))
      && (k == |families| || Complete(Recorded(rule, families, k, init))))
    decreases |families| - i
  {
    var here := Recorded(rule, families, i, init);
    if i == |families| {
      assert ScanFrom(rule, families, i, here) == Recorded(rule, families, i, init);
    } else {
      var next := Recorded(rule, families, i + 1, init);
      assert Step(rule, families, i, here) == next;
      if Complete(next) {
        assert ScanFrom(rule, families, i, here) == Recorded(rule, families, i + 1, init);
      } else {
        assert ScanFrom(rule, families, i, here) == ScanFrom(rule, families, i + 1, next);
        ScanFromRecorded(rule, families, init, i + 1);
      }
    }
  }

  /** Every recorded index is the starting value or a family that qualifies for its role. */
  lemma ScanRecordsOnlyQualifying(rule: Rule, families: seq<QueueFamily>, init: Indices)
    ensures var r := Scan(rule, families, init);
      (r.graphics == init.graphics || (r.graphics < |families| && Qualifies(rule, Graphics, families, r.graphics)))
      && (r.present == init.present || (r.present < |families| && Qualifies(rule, Present, families, r.present)))
  {
    ScanStopsAtFirstCompletePrefix(rule, families, init);
    var k :| 0 <= k <= |families| && Scan(rule, families, init) == Recorded(rule, families, k, init);
    LastQualifyingIsLastMatch(rule, Graphics, families, k, init.graphics);
    LastQualifyingIsLastMatch(rule, Present, families, k, init.present);
  }

  /**
   * Starting from the zero-initialised struct, both indices name an existing
   * family whenever the device reports at least one.
   */
  lemma ZeroStartIndicesInRange(rule: Rule, families: seq<QueueFamily>)
    requires |families| > 0
    ensures Scan(rule, families, Zero).graphics < |families|
    ensures Scan(rule, families, Zero).present < |families|
  {
    ScanRecordsOnlyQualifying(rule, families, Zero);
  }

  /** A device with a single family never yields complete indices: family 0 does not count. */
  lemma SingleFamilyNeverComplete(rule: Rule, family: QueueFamily)
    ensures Scan(rule, [family], Zero) == Zero
    ensures !Complete(Scan(rule, [family], Zero))
  {
    var next := Step(rule, [family], 0, Zero);
    assert next == Zero;
    assert ScanFrom(rule, [family], 1, next) == Zero;
  }

  /**
   * The rules differ on a family with no queues that supports the surface:
   * Renderer records it as the present family, Utils does not.
   */
  lemma RulesDifferOnEmptyPresentFamily()
    ensures var families := [QueueFamily(1, GRAPHICS_BIT, false), QueueFamily(0, 0, true)];
      Scan(Renderer, families, Zero) == Indices(0, 1)
      && Scan(Utils, families, Zero) == Indices(0, 0)
  {
    var families := [QueueFamily(1, GRAPHICS_BIT, false), QueueFamily(0, 0, true)];
    assert Qualifies(Renderer, Graphics, families, 0) && Qualifies(Utils, Graphics, families, 0);
    assert Qualifies(Renderer, Present, families, 1) && !Qualifies(Utils, Present, families, 1);
    assert ScanFrom(Renderer, families, 2, Indices(0, 1)) == Indices(0, 1);
    assert ScanFrom(Renderer, families, 1, Zero) == Indices(0, 1);
    assert ScanFrom(Utils, families, 2, Zero) == Zero;
    assert ScanFrom(Utils, families, 1, Zero) == Zero;
  }

  /** With no early stop, a later qualifying family overwrites an earlier one. */
  lemma LaterFamilyOverwritesEarlier()
    ensures var f := QueueFamily(1, GRAPHICS_BIT, false);
      Scan(Utils, [f, f, f], Zero) == Indices(2, 0)
  {
    var f := QueueFamily(1, GRAPHICS_BIT, false);
    var families := [f, f, f];
    assert ScanFrom(Utils, families, 3, Indices(2, 0)) == Indices(2, 0);
    assert ScanFrom(Utils, families, 2, Indices(1, 0)) == Indices(2, 0);
    assert ScanFrom(Utils, families, 1, Zero) == Indices(2, 0);
  }

  /**
   * `FindQueueFamilyIndices` of the renderers, and the VkUtils.h variant that
   * fills a fresh struct: the scan as a loop over the family list.
   */
  method FindQueueFamilyIndices(rule: Rule, families: seq<QueueFamily>, init: Indices) returns (r: Indices)
    ensures r == Scan(rule, families, init)
  {
    r := init;
    var index := 0;
    while index < |families|
      invariant 0 <= index <= |families|
      invariant ScanFrom(rule, families, index, r) == Scan(rule, families, init)
      decreases |families| - index
    {
      var f := families[index];
      if f.queueCount > 0 && f.queueFlags & GRAPHICS_BIT != 0 {
        r := r.(graphics := index);
      }
      var presentOk := match rule
        case Renderer => |families| > 0 && f.surfaceSupport
        case Utils => f.queueCount > 0 && f.surfaceSupport;
      if presentOk {
        r := r.(present := index);
      }
      if r.graphics > 0 && r.present > 0 {
        break;
      }
      index := index + 1;
    }
  }

  /**
   * The RIVdevice.cpp renderer as written: its indices struct has no member
   * initialisers, so the scan starts from whatever the struct holds.
   */
  method FindQueueFamilyIndicesUninitialised(families: seq<QueueFamily>, indeterminate: Indices) returns (r: Indices)
    ensures r == Scan(Renderer, families, indeterminate)
  {
    r := FindQueueFamilyIndices(Renderer, families, indeterminate);
  }

  /**
   * The RIVdevice.cpp start value reaches the caller: on a device whose only
   * family qualifies for nothing, the result names families that do not exist.
   */
  lemma UninitialisedStartLeaksOut()
    ensures var families := [QueueFamily(0, 0, false)];
      Scan(Renderer, families, Indices(5, 7)) == Indices(5, 7)
      && Scan(Renderer, families, Indices(5, 7)).graphics >= |families|
  {
  }

  /** The indices struct that VulkanUtils.h and the v1.1 refactor update through a pointer. */
  class QueueFamilyIndices {
    var graphicsQueueFamily: nat
    var presentQueueFamily: nat

    constructor ()
      ensures Value() == Zero
    {
      graphicsQueueFamily := 0;
      presentQueueFamily := 0;
    }

    function Value(): Indices
      reads this
    {
      Indices(graphicsQueueFamily, presentQueueFamily)
    }

    /**
     * `FindVulkanDeviceQueueFamilyIndices`: the Utils scan that writes the
     * caller's struct in place, starting from whatever it already holds.
     */
    method FindInPlace(families: seq<QueueFamily>)
      modifies this
      ensures Value() == Scan(Utils, families, old(Value()))
    {
      var i := 0;
      while i < |families|
        invariant 0 <= i <= |families|
        invariant ScanFrom(Utils, families, i, Value()) == Scan(Utils, families, old(Value()))
        decreases |families| - i
      {
        if families[i].queueCount > 0 {
          if families[i].queueFlags & GRAPHICS_BIT != 0 {
            graphicsQueueFamily := i;
          }
          if families[i].surfaceSupport {
            presentQueueFamily := i;
          }
        }
        if graphicsQueueFamily > 0 && presentQueueFamily > 0 {
          break;
        }
        i := i + 1;
      }
    }

    /**
     * The VkUtils.h `FindQueueFamilyIndices`: scans into a fresh local struct
     * and copies it to the caller's at the end.
     */
    method FindFresh(families: seq<QueueFamily>)
      modifies this
      ensures Value() == Scan(Utils, families, Zero)
    {
      var local := FindQueueFamilyIndices(Utils, families, Zero);
      graphicsQueueFamily, presentQueueFamily := local.graphics, local.present;
    }
  }
}
