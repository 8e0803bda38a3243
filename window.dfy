/**
 * The engine's `Window`: its extent, its string-keyed user pointers and its
 * list of resize callbacks, which the GLFW size callback runs in order.
 */
module WindowSystem {
  import opened VkTypes
  import opened AuroraTypedef

  /** `pointer_t`; 0 is `null`. */
  type Pointer = nat

  const NULL: Pointer := 0

  /** `WindowExtent2D` holds plain `int`s. */
  datatype WindowExtent2D = WindowExtent2D(width: I32, height: I32)

  /** A `PFN_WindowResizeableEventCallback`, identified by its address. */
  type Callback = nat

  /** One call `callback(window, width, height)` made while handling a resize. */
  datatype Invocation = Invocation(callback: Callback, width: I32, height: I32)

  /** The calls a resize makes: each registered callback once, in registration order. */
  function ResizeInvocations(callbacks: seq<Callback>, width: I32, height: I32): (r: seq<Invocation>)
    ensures |r| == |callbacks|
    ensures forall i :: 0 <= i < |r| ==> r[i] == Invocation(callbacks[i], width, height)
  {
    if callbacks == [] then []
    else [Invocation(callbacks[0], width, height)] + ResizeInvocations(callbacks[1..], width, height)
  }

  class Window {
    var extent: WindowExtent2D
    var userPointers: map<string, Pointer>
    var callbacks: seq<Callback>

    /** The extent starts at the requested size, converted from `uint32_t` to `int`. */
    constructor (width: U32, height: U32)
      ensures extent == WindowExtent2D(ToI32(width), ToI32(height))
      ensures width <= INT32_MAX && height <= INT32_MAX ==> extent.width == width && extent.height == height
      ensures userPointers == map[] && callbacks == []
    {
      extent := WindowExtent2D(ToI32(width), ToI32(height));
      userPointers := map[];
      callbacks := [];
    }

    /** `GetWindowUserPointer`: the stored pointer, or `null` for an unknown key. */
    function GetWindowUserPointer(key: string): (p: Pointer)
      reads this
      ensures key in userPointers ==> p == userPointers[key]
      ensures key !in userPointers ==> p == NULL
    {
      if key in userPointers then userPointers[key] else NULL
    }

    /** `PutWindowUserPointer`: insert or overwrite; every other key reads as before. */
    method PutWindowUserPointer(key: string, pointer: Pointer)
      modifies this
      ensures userPointers == old(userPointers)[key := pointer]
      ensures GetWindowUserPointer(key) == pointer
      ensures forall other :: other != key ==> GetWindowUserPointer(other) == old(GetWindowUserPointer(other))
      ensures extent == old(extent) && callbacks == old(callbacks)
    {
      userPointers := userPointers[key := pointer];
    }

    /**
     * `AddWindowResizeableCallback`: append, and return the new number of
     * callbacks, which is one more than the new callback's position.
     */
    method AddWindowResizeableCallback(callback: Callback) returns (count: nat)
      modifies this
      ensures callbacks == old(callbacks) + [callback]
      ensures count == |callbacks| && callbacks[count - 1] == callback
      ensures extent == old(extent) && userPointers == old(userPointers)
    {
      callbacks := callbacks + [callback];
      count := |callbacks|;
    }

    /** `RemoveWindowResizeableCallback(n)`: erase position `n`; past the end is undefined in the source. */
    method RemoveWindowResizeableCallback(n: nat)
      requires n < |callbacks|
      modifies this
      ensures callbacks == EraseAt(old(callbacks), n)
      ensures extent == old(extent) && userPointers == old(userPointers)
    {
      callbacks := callbacks[..n] + callbacks[n + 1..];
    }

    /**
     * The size callback installed by the constructor: record the new extent,
     * then call every registered callback with it, in order.
     */
    method OnResize(width: I32, height: I32) returns (calls: seq<Invocation>)
      modifies this
      ensures extent == WindowExtent2D(width, height)
      ensures calls == ResizeInvocations(callbacks, width, height)
      ensures callbacks == old(callbacks) && userPointers == old(userPointers)
    {
      extent := WindowExtent2D(width, height);
      var registered := callbacks;
      calls := [];
      for i := 0 to |registered|
        invariant calls == ResizeInvocations(registered[..i], width, height)
        invariant extent == WindowExtent2D(width, height) && callbacks == registered
        invariant userPointers == old(userPointers)
      {
        calls := calls + [Invocation(registered[i], width, height)];
        assert registered[..i + 1] == registered[..i] + [registered[i]];
        ResizeInvocationsAppend(registered[..i], registered[i], width, height);
      }
      assert registered[..|registered|] == registered;
    }
  }

  /** Registering one more callback adds exactly one call at the end of a resize. */
  lemma {:induction false} ResizeInvocationsAppend(callbacks: seq<Callback>, callback: Callback, width: I32, height: I32)
    ensures ResizeInvocations(callbacks + [callback], width, height)
         == ResizeInvocations(callbacks, width, height) + [Invocation(callback, width, height)]
  {
    if callbacks != [] {
      assert (callbacks + [callback])[1..] == callbacks[1..] + [callback];
      ResizeInvocationsAppend(callbacks[1..], callback, width, height);
    }
  }
}
