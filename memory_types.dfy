/**
 * `FindMemoryType`: the index of the first memory type that a resource's
 * `memoryTypeBits` allows and whose property flags include all requested
 * properties, or a `std::runtime_error` when there is none.
 */
module MemoryTypes {
  import opened VkTypes

  /** `VK_MAX_MEMORY_TYPES`: a device reports at most 32 memory types. */
  const MAX_MEMORY_TYPES: nat := 32

  const NO_SUITABLE_MEMORY_TYPE: string := "failed to find suitable memory type!"

  datatype MemoryType = MemoryType(propertyFlags: bv32, heapIndex: U32)

  /** Bit `i` of a 32-bit mask: `1 << i` converted to `uint32_t`. */
  function Bit(i: nat): (b: bv32)
    requires i < 32
  {
    (1 as bv32) << i
  }

  predicate AllowedBy(typeFilter: bv32, i: nat)
    requires i < 32
  {
    typeFilter & Bit(i) != 0
  }

  /** The flags include every requested property bit. */
  predicate HasProperties(flags: bv32, properties: bv32) {
    flags & properties == properties
  }

  predicate Suitable(typeFilter: bv32, types: seq<MemoryType>, properties: bv32, i: nat) {
    i < |types| && i < 32 && AllowedBy(typeFilter, i) && HasProperties(types[i].propertyFlags, properties)
  }

  /** Requesting no properties accepts any flags; requesting more never accepts more types. */
  lemma HasPropertiesMonotone(flags: bv32, fewer: bv32, more: bv32)
    requires fewer & more == fewer
    ensures HasProperties(flags, 0)
    ensures HasProperties(flags, more) ==> HasProperties(flags, fewer)
  {
  }

  method FindMemoryType(typeFilter: bv32, types: seq<MemoryType>, properties: bv32) returns (r: Result<nat>)
    requires |types| <= MAX_MEMORY_TYPES
    ensures r.Ok? ==> Suitable(typeFilter, types, properties, r.value)
    ensures r.Ok? ==> forall j :: 0 <= j < r.value ==> !Suitable(typeFilter, types, properties, j)
    ensures r.Fail? <==> forall j :: 0 <= j < |types| ==> !Suitable(typeFilter, types, properties, j)
    ensures r.Fail? ==> r.error == RuntimeError(NO_SUITABLE_MEMORY_TYPE)
  {
    var i := 0;
    while i < |types|
      invariant 0 <= i <= |types|
      invariant forall j :: 0 <= j < i ==> !Suitable(typeFilter, types, properties, j)
    {
      if typeFilter & Bit(i) != 0 && types[i].propertyFlags & properties == properties {
        assert Suitable(typeFilter, types, properties, i);
        return Ok(i);
      }
      i := i + 1;
    }
    return Fail(RuntimeError(NO_SUITABLE_MEMORY_TYPE));
  }
}
