/** The class itself: a heap buffer of slots with `size`/`capacity` counters,
    a fixed-size checkpoint array and the two flags. Each method is proved to
    do what the matching `VaultSpec` function says, through the abstraction
    `Abs()`. A slot holding `Live(x)` is a constructed object; `Vacant` is raw
    storage (never constructed, or destroyed). */
module VaultImpl {
  import opened SizeT
  import opened VaultSpec

  datatype Slot<T> = Vacant | Live(value: T)

  /** A success or the exception thrown by a member that returns nothing. */
  datatype Outcome = Pass | Fail(error: Error)

  /** `buf` holds the constructed objects `elems` in its first slots and raw
      storage in the rest. */
  ghost predicate Holds<T>(buf: array<Slot<T>>, elems: seq<T>)
    reads buf
  {
    && |elems| <= buf.Length
    && (forall i :: 0 <= i < |elems| ==> buf[i] == Live(elems[i]))
    && (forall i :: |elems| <= i < buf.Length ==> buf[i] == Vacant)
  }

  class Vault<T> {
    const elemSize: nat
    const maxCheckpoints: nat
    var buffer: array<Slot<T>>
    var size: nat
    var capacity: nat
    var sealed: bool
    var locked: bool
    /** `size_t checkpoint_stack[MaxCheckpoints]`, part of the object itself. */
    const checkpointStack: array<nat>
    var checkpointCount: nat
    /** The objects in `buffer[0..size)`. */
    ghost var elems: seq<T>

    ghost predicate Valid()
      reads this, buffer, checkpointStack
    {
      && buffer.Length == capacity
      && checkpointStack.Length == maxCheckpoints
      && checkpointCount <= maxCheckpoints
      && size == |elems|
      && Holds(buffer, elems)
      && VaultSpec.Valid(Abs())
    }

    /** The object's state as a `VaultSpec.State`. */
    ghost function Abs(): State<T>
      reads this, checkpointStack
      requires checkpointCount <= checkpointStack.Length
    {
      State(elemSize, maxCheckpoints, elems, capacity, sealed, locked, checkpointStack[..checkpointCount])
    }

    /** `vault(initial)`: an object with no buffer, followed by
        `reserve(initial)`; `std::bad_alloc` escapes the constructor. */
    static method New(elemSize: nat, maxCheckpoints: nat, initial: nat, mallocOk: bool) returns (r: Result<Vault<T>>)
      requires elemSize >= 1
      ensures VaultSpec.New<T>(elemSize, maxCheckpoints, initial, mallocOk).Err? <==> r.Err?
      ensures r.Err? ==> r.error == BadAlloc
      ensures r.Ok? ==> fresh(r.value) && fresh(r.value.buffer) && fresh(r.value.checkpointStack)
      ensures r.Ok? ==> r.value.Valid() && r.value.Abs() == VaultSpec.New<T>(elemSize, maxCheckpoints, initial, mallocOk).value
    {
      var v := new Vault<T>.Empty(elemSize, maxCheckpoints);
      var o := v.Reserve(initial, mallocOk);
      if o.Fail? {
        return Err(o.error);
      }
      return Ok(v);
    }

    /** The object after its member initialisers: `buffer == nullptr`,
        `size == capacity == checkpoint_count == 0`. */
    constructor Empty(elemSize: nat, maxCheckpoints: nat)
      requires elemSize >= 1
      ensures Valid() && Abs() == Unallocated(elemSize, maxCheckpoints)
      ensures fresh(buffer) && fresh(checkpointStack)
    {
      this.elemSize := elemSize;
      this.maxCheckpoints := maxCheckpoints;
      buffer := new Slot<T>[0];
      size := 0;
      capacity := 0;
      sealed := false;
      locked := false;
      checkpointStack := new nat[maxCheckpoints](_ => 0);
      checkpointCount := 0;
      elems := [];
    }

    /** The move constructor: takes over `other`'s buffer, counters, flags and
        checkpoints; `other` is left with no buffer, no elements and no
        checkpoints but keeps its flags. */
    constructor Move(other: Vault<T>)
      requires other.Valid()
      modifies other
      ensures Valid() && Abs() == old(other.Abs())
      ensures other.Valid() && other.Abs() == MovedFrom(old(other.Abs()))
      ensures buffer == old(other.buffer)
      ensures fresh(checkpointStack)
    {
      elemSize := other.elemSize;
      maxCheckpoints := other.maxCheckpoints;
      buffer := other.buffer;
      size := other.size;
      capacity := other.capacity;
      sealed := other.sealed;
      locked := other.locked;
      checkpointCount := other.checkpointCount;
      elems := other.elems;
      var stack := new nat[other.maxCheckpoints](_ => 0);
      CopyCheckpoints(stack, other.checkpointStack[..other.checkpointCount]);
      checkpointStack := stack;
      new;
      assert checkpointStack[..checkpointCount] == other.checkpointStack[..other.checkpointCount];
      other.buffer := new Slot<T>[0];
      other.size := 0;
      other.capacity := 0;
      other.checkpointCount := 0;
      other.elems := [];
    }

    /** Move assignment. Assigning an object to itself changes nothing;
        otherwise this object's elements are destroyed with its buffer and it
        takes over all of `other`'s state, flags included. */
    method MoveAssign(other: Vault<T>)
      requires Valid() && other.Valid()
      requires other.elemSize == elemSize && other.maxCheckpoints == maxCheckpoints
      modifies this, checkpointStack, other
      ensures other == this ==> Valid() && Abs() == old(Abs())
      ensures other != this ==> Valid() && Abs() == VaultSpec.MoveAssign(old(Abs()), old(other.Abs())).0
      ensures other != this ==> other.Valid() && other.Abs() == VaultSpec.MoveAssign(old(Abs()), old(other.Abs())).1
      ensures buffer == old(other.buffer)
    {
      if other == this {
        return;
      }
      ghost var src := other.Abs();
      TakeStateOf(other);
      other.ResetAfterMove();
      assert other.Abs() == MovedFrom(src);
    }

    /** The first half of a move: this object takes over `other`'s buffer,
        counters, flags and saved counts; `other` itself is not touched. */
    method TakeStateOf(other: Vault<T>)
      requires Valid() && other.Valid() && other != this
      requires other.elemSize == elemSize && other.maxCheckpoints == maxCheckpoints
      modifies this, checkpointStack
      ensures Valid() && Abs() == old(other.Abs()) && buffer == other.buffer
      ensures other.checkpointStack.Length == other.maxCheckpoints
      ensures other.sealed == old(other.sealed) && other.locked == old(other.locked)
    {
      CopyCheckpoints(checkpointStack, other.checkpointStack[..other.checkpointCount]);
      buffer := other.buffer;
      size := other.size;
      capacity := other.capacity;
      sealed := other.sealed;
      locked := other.locked;
      checkpointCount := other.checkpointCount;
      elems := other.elems;
    }

    /** The second half of a move, applied to the source: no buffer, no
        elements, no checkpoints; `sealed` and `locked` are left alone. */
    method ResetAfterMove()
      requires elemSize >= 1 && checkpointStack.Length == maxCheckpoints
      modifies this
      ensures Valid()
      ensures Abs() == State(elemSize, maxCheckpoints, [], 0, old(sealed), old(locked), [])
    {
      buffer := new Slot<T>[0];
      size := 0;
      capacity := 0;
      checkpointCount := 0;
      elems := [];
    }

    /** The loop of both move operations that copies the saved counts `src`
        into the front of the checkpoint array `dst`. */
    static method CopyCheckpoints(dst: array<nat>, src: seq<nat>)
      requires |src| <= dst.Length
      modifies dst
      ensures dst[..|src|] == src
    {
      var i := 0;
      while i < |src|
        invariant 0 <= i <= |src|
        invariant dst[..i] == src[..i]
      {
        dst[i] := src[i];
        i := i + 1;
      }
    }

    /** `reserve(newCap)`: the live objects are relocated into a new buffer
        of `newCap` slots, in order, and destroyed in the old one. */
    method Reserve(newCap: nat, mallocOk: bool) returns (o: Outcome)
      requires Valid()
      modifies this, buffer
      ensures Valid()
      ensures VaultSpec.Reserve(old(Abs()), newCap, mallocOk).Ok? ==>
                o == Pass && Abs() == VaultSpec.Reserve(old(Abs()), newCap, mallocOk).value
      ensures VaultSpec.Reserve(old(Abs()), newCap, mallocOk).Err? ==>
                o == Fail(VaultSpec.Reserve(old(Abs()), newCap, mallocOk).error) && Abs() == old(Abs())
      ensures buffer == old(buffer) || fresh(buffer)
    {
      if sealed {
        return Fail(Sealed);
      }
      if newCap <= capacity {
        return Pass;
      }
      if !BufferFits(newCap, elemSize) || !mallocOk {
        return Fail(BadAlloc);
      }
      var newBuffer := new Slot<T>[newCap](_ => Vacant);
      var i := 0;
      while i < size
        invariant 0 <= i <= size
        invariant forall j :: 0 <= j < i ==> newBuffer[j] == Live(elems[j])
        invariant forall j :: i <= j < newCap ==> newBuffer[j] == Vacant
        invariant forall j :: i <= j < size ==> buffer[j] == Live(elems[j])
        modifies newBuffer, buffer
      {
        newBuffer[i] := buffer[i];
        buffer[i] := Vacant;
        i := i + 1;
      }
      buffer := newBuffer;
      capacity := newCap;
      return Pass;
    }

    /** `emplace(x)`: grows a full buffer first, then constructs `x` at index
        `count()`, which it returns in place of the pointer. */
    method Emplace(x: T, mallocOk: bool) returns (r: Result<nat>)
      requires Valid()
      modifies this, buffer
      ensures Valid()
      ensures VaultSpec.Emplace(old(Abs()), x, mallocOk).Ok? ==>
                r == Ok(old(size)) && Abs() == VaultSpec.Emplace(old(Abs()), x, mallocOk).value
      ensures VaultSpec.Emplace(old(Abs()), x, mallocOk).Err? ==>
                r == Err(VaultSpec.Emplace(old(Abs()), x, mallocOk).error) && Abs() == old(Abs())
    {
      if sealed {
        return Err(Sealed);
      }
      if size >= capacity {
        var o := Reserve(GrowTarget(capacity), mallocOk);
        if o.Fail? {
          return Err(o.error);
        }
      }
      buffer[size] := Live(x);
      elems := elems + [x];
      size := size + 1;
      return Ok(size - 1);
    }

    /** `get(index)`, `operator[](index)` and `checkout(index)`. */
    method Get(index: nat) returns (r: Result<T>)
      requires Valid()
      ensures r == VaultSpec.Get(Abs(), index)
    {
      if index >= size {
        return Err(OutOfRange);
      }
      match buffer[index]
      case Live(x) => return Ok(x);
    }

    /** `top()`. */
    method Top() returns (r: Result<T>)
      requires Valid()
      ensures r == VaultSpec.Top(Abs())
    {
      if size == 0 {
        return Err(EmptyVault);
      }
      match buffer[size - 1]
      case Live(x) => return Ok(x);
    }

    /** `count()`. */
    method Count() returns (n: nat)
      requires Valid()
      ensures n == VaultSpec.Count(Abs())
    {
      return size;
    }

    /** `checkpoint_depth()`. */
    method CheckpointDepth() returns (n: nat)
      requires Valid()
      ensures n == VaultSpec.CheckpointDepth(Abs())
    {
      return checkpointCount;
    }

    /** `checkpoint()`. */
    method Checkpoint() returns (o: Outcome)
      requires Valid()
      modifies this, checkpointStack
      ensures Valid()
      ensures VaultSpec.Checkpoint(old(Abs())).Ok? ==>
                o == Pass && Abs() == VaultSpec.Checkpoint(old(Abs())).value
      ensures VaultSpec.Checkpoint(old(Abs())).Err? ==>
                o == Fail(CheckpointOverflow) && Abs() == old(Abs())
    {
      if checkpointCount >= maxCheckpoints {
        return Fail(CheckpointOverflow);
      }
      checkpointStack[checkpointCount] := size;
      checkpointCount := checkpointCount + 1;
      assert checkpointStack[..checkpointCount] == old(checkpointStack[..checkpointCount]) + [size];
      return Pass;
    }

    /** `restore()`: pops the saved count and destroys the objects from there
        to the end of the live prefix. */
    method Restore() returns (o: Outcome)
      requires Valid()
      modifies this, buffer
      ensures Valid()
      ensures VaultSpec.Restore(old(Abs())).Ok? ==>
                o == Pass && Abs() == VaultSpec.Restore(old(Abs())).value
      ensures VaultSpec.Restore(old(Abs())).Err? ==>
                o == Fail(NoCheckpoint) && Abs() == old(Abs())
    {
      if checkpointCount == 0 {
        return Fail(NoCheckpoint);
      }
      ghost var before := Abs();
      checkpointCount := checkpointCount - 1;
      var target := checkpointStack[checkpointCount];
      assert target == before.saved[|before.saved| - 1];
      var i := target;
      while i < size
        invariant target <= i <= size
        invariant forall j :: 0 <= j < target ==> buffer[j] == Live(elems[j])
        invariant forall j :: target <= j < i ==> buffer[j] == Vacant
        invariant forall j :: i <= j < size ==> buffer[j] == Live(elems[j])
        invariant forall j :: size <= j < capacity ==> buffer[j] == Vacant
        modifies buffer
      {
        buffer[i] := Vacant;
        i := i + 1;
      }
      size := target;
      elems := elems[..target];
      assert checkpointStack[..checkpointCount] == before.saved[..|before.saved| - 1];
      return Pass;
    }

    /** `clear_checkpoints()`. */
    method ClearCheckpoints()
      requires Valid()
      modifies this
      ensures Valid() && Abs() == VaultSpec.ClearCheckpoints(old(Abs()))
    {
      checkpointCount := 0;
    }

    /** `clear()`: destroys every live object and drops all checkpoints. */
    method Clear()
      requires Valid()
      modifies this, buffer
      ensures Valid() && Abs() == VaultSpec.Clear(old(Abs()))
    {
      var i := 0;
      while i < size
        invariant 0 <= i <= size
        invariant forall j :: 0 <= j < i ==> buffer[j] == Vacant
        invariant forall j :: i <= j < size ==> buffer[j] == Live(elems[j])
        invariant forall j :: size <= j < capacity ==> buffer[j] == Vacant
        modifies buffer
      {
        buffer[i] := Vacant;
        i := i + 1;
      }
      size := 0;
      checkpointCount := 0;
      elems := [];
    }

    /** `checkin(ptr)`: does nothing. */
    method Checkin(x: T)
      requires Valid()
      ensures Valid() && Abs() == VaultSpec.Checkin(old(Abs()), x)
    {
    }

    /** `lock()`. */
    method Lock()
      requires Valid()
      modifies this
      ensures Valid() && Abs() == VaultSpec.Lock(old(Abs()))
    {
      locked := true;
    }

    /** `unlock()`. */
    method Unlock()
      requires Valid()
      modifies this
      ensures Valid() && Abs() == VaultSpec.Unlock(old(Abs()))
    {
      locked := false;
    }

    /** `seal()`. */
    method Seal()
      requires Valid()
      modifies this
      ensures Valid() && Abs() == VaultSpec.Seal(old(Abs()))
    {
      sealed := true;
    }
  }
}
