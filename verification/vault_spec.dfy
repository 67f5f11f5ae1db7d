/** Functional model of `vault<T, MaxCheckpoints>`: the object's state as an
    immutable value and every public operation as a function from the state
    before the call to the state after it (or to the exception it throws).
    A thrown exception carries no state: the caller keeps the state it had,
    which is how the model expresses that every error leaves the vault as it
    was. */
module VaultSpec {
  import opened SizeT

  /** The exceptions the class throws. */
  datatype Error =
    | Sealed              // std::runtime_error from reserve or emplace after seal()
    | BadAlloc            // std::bad_alloc: the new buffer could not be obtained
    | OutOfRange          // std::out_of_range from get, operator[] and checkout
    | EmptyVault          // std::runtime_error from top() on an empty vault
    | CheckpointOverflow  // std::runtime_error: the checkpoint stack is full
    | NoCheckpoint        // std::runtime_error: restore() with no checkpoint

  /** Either the value an operation returns or the exception it throws. */
  datatype Result<+R> = Ok(value: R) | Err(error: Error)

  /** Template default for `MaxCheckpoints`. */
  const DefaultMaxCheckpoints: nat := 64

  /** Default argument of the constructor `vault(size_t initial = 16)`. */
  const DefaultInitialCapacity: nat := 16

  /** Capacity `emplace` asks for when the vault owns no buffer yet. */
  const FirstGrowth: nat := 16

  /** The object state. `elemSize` is `sizeof(T)` and `maxCheckpoints` is the
      template argument; both are fixed by the type. `elems` is the live prefix
      `buffer[0..size)`, `capacity` the number of slots in the buffer, and
      `saved` the checkpoint stack `checkpoint_stack[0..checkpoint_count)`,
      bottom first. */
  datatype State<T> = State(
    elemSize: nat,
    maxCheckpoints: nat,
    elems: seq<T>,
    capacity: nat,
    sealed: bool,
    locked: bool,
    saved: seq<nat>)

  /** Saved counts never decrease from bottom to top and none exceeds the
      current count, so popping one can only shorten the live prefix. */
  ghost predicate SavedOrdered(saved: seq<nat>, count: nat)
  {
    && (forall i, j :: 0 <= i <= j < |saved| ==> saved[i] <= saved[j])
    && (forall i :: 0 <= i < |saved| ==> saved[i] <= count)
  }

  /** The class invariant every public member may rely on and re-establishes. */
  ghost predicate Valid<T>(v: State<T>)
  {
    && v.elemSize >= 1
    && |v.elems| <= v.capacity
    && BufferFits(v.capacity, v.elemSize)
    && |v.saved| <= v.maxCheckpoints
    && SavedOrdered(v.saved, |v.elems|)
  }

  /** `count()`. */
  function Count<T>(v: State<T>): nat
  {
    |v.elems|
  }

  /** `checkpoint_depth()`. */
  function CheckpointDepth<T>(v: State<T>): nat
  {
    |v.saved|
  }

  /** `is_sealed()`. */
  function IsSealed<T>(v: State<T>): bool
  {
    v.sealed
  }

  /** `is_locked()`. */
  function IsLocked<T>(v: State<T>): bool
  {
    v.locked
  }

  /** The members' default initialisers: no buffer, nothing live, no flags. */
  function Unallocated<T>(elemSize: nat, maxCheckpoints: nat): (r: State<T>)
    requires elemSize >= 1
    ensures Valid(r)
    ensures Count(r) == 0 && CheckpointDepth(r) == 0 && r.capacity == 0
    ensures !r.sealed && !r.locked
    ensures r.elemSize == elemSize && r.maxCheckpoints == maxCheckpoints
  {
    State(elemSize, maxCheckpoints, [], 0, false, false, [])
  }

  /** Capacity `emplace` asks `reserve` for when the buffer is full. */
  function GrowTarget(capacity: nat): (r: nat)
    ensures r > capacity
    ensures capacity == 0 ==> r == FirstGrowth
    ensures capacity > 0 ==> r == 2 * capacity
  {
    if capacity == 0 then FirstGrowth else 2 * capacity
  }

  /** `reserve(newCap)`: the sealed check comes first; a request that does not
      exceed the capacity changes nothing; otherwise a new buffer of `newCap`
      slots receives every live element in order. The buffer cannot be
      obtained when `malloc` fails (`mallocOk` false) or when its byte size
      does not fit in `size_t` (the corrected behaviour; see
      `ReserveAsWritten`). */
  function Reserve<T>(v: State<T>, newCap: nat, mallocOk: bool): (r: Result<State<T>>)
    requires Valid(v)
    ensures v.sealed ==> r == Err(Sealed)
    ensures !v.sealed && newCap <= v.capacity ==> r == Ok(v)
    ensures !v.sealed && newCap > v.capacity ==>
              (r.Ok? <==> mallocOk && BufferFits(newCap, v.elemSize))
    ensures r.Err? ==> r.error == Sealed || r.error == BadAlloc
    ensures r.Ok? ==> Valid(r.value)
    ensures r.Ok? ==> r.value.capacity >= newCap && r.value.capacity >= v.capacity
    ensures r.Ok? && newCap > v.capacity ==> r.value.capacity == newCap
    ensures r.Ok? ==> r.value.elems == v.elems && r.value.saved == v.saved
    ensures r.Ok? ==> r.value.sealed == v.sealed && r.value.locked == v.locked
    ensures r.Ok? ==> r.value.elemSize == v.elemSize && r.value.maxCheckpoints == v.maxCheckpoints
  {
    if v.sealed then Err(Sealed)
    else if newCap <= v.capacity then Ok(v)
    else if !BufferFits(newCap, v.elemSize) || !mallocOk then Err(BadAlloc)
    else Ok(v.(capacity := newCap))
  }

  /** `reserve(newCap)` as the code is written: the byte count handed to
      `malloc` is `newCap * sizeof(T)` in `size_t`, which wraps, and the
      capacity is set to `newCap` whatever size the block really has. So
      success depends on `malloc` alone, never on whether the byte count
      fits. */
  function ReserveAsWritten<T>(v: State<T>, newCap: nat, mallocOk: bool): (r: Result<State<T>>)
    ensures v.sealed ==> r == Err(Sealed)
    ensures !v.sealed && newCap <= v.capacity ==> r == Ok(v)
    ensures !v.sealed && newCap > v.capacity ==> (r.Ok? <==> mallocOk)
    ensures r.Err? ==> r.error == Sealed || r.error == BadAlloc
    ensures r.Ok? && newCap > v.capacity ==>
              r.value.capacity == newCap
    ensures r.Ok? ==> r.value.elems == v.elems && r.value.saved == v.saved
    ensures r.Ok? ==> r.value.sealed == v.sealed && r.value.locked == v.locked
    ensures r.Ok? ==> r.value.elemSize == v.elemSize && r.value.maxCheckpoints == v.maxCheckpoints
  {
    if v.sealed then Err(Sealed)
    else if newCap <= v.capacity then Ok(v)
    else if !mallocOk then Err(BadAlloc)
    else Ok(v.(capacity := newCap))
  }

  /** The constructor `vault(initial)`: default members, then `reserve(initial)`.
      A fresh vault is never sealed, so only allocation can fail. */
  function New<T>(elemSize: nat, maxCheckpoints: nat, initial: nat, mallocOk: bool): (r: Result<State<T>>)
    requires elemSize >= 1
    ensures r.Err? <==> initial > 0 && (!mallocOk || !BufferFits(initial, elemSize))
    ensures r.Err? ==> r.error == BadAlloc
    ensures r.Ok? ==> Valid(r.value) && Count(r.value) == 0 && CheckpointDepth(r.value) == 0
    ensures r.Ok? ==> r.value.capacity == initial && !r.value.sealed && !r.value.locked
    ensures r.Ok? ==> r.value.elemSize == elemSize && r.value.maxCheckpoints == maxCheckpoints
  {
    Reserve(Unallocated(elemSize, maxCheckpoints), initial, mallocOk)
  }

  /** `emplace(x)`: refused when sealed; when the buffer is full it first
      reserves `GrowTarget(capacity)`, and a failure there propagates; then `x`
      is constructed at index `count()`. `mallocOk` is the outcome of the
      allocation that growth would make. */
  function Emplace<T>(v: State<T>, x: T, mallocOk: bool): (r: Result<State<T>>)
    requires Valid(v)
    ensures v.sealed ==> r == Err(Sealed)
    ensures !v.sealed && Count(v) < v.capacity ==> r.Ok?
    ensures !v.sealed && Count(v) >= v.capacity ==>
              (r.Ok? <==> mallocOk && BufferFits(GrowTarget(v.capacity), v.elemSize))
    ensures r.Err? ==> r.error == Sealed || r.error == BadAlloc
    ensures r.Ok? ==> Valid(r.value)
    ensures r.Ok? ==> Count(r.value) == Count(v) + 1 && r.value.elems[Count(v)] == x
    ensures r.Ok? ==> r.value.elems[..Count(v)] == v.elems
    ensures r.Ok? ==> r.value.saved == v.saved
    ensures r.Ok? ==> r.value.capacity == if Count(v) < v.capacity then v.capacity else GrowTarget(v.capacity)
    ensures r.Ok? ==> r.value.sealed == v.sealed && r.value.locked == v.locked
    ensures r.Ok? ==> r.value.elemSize == v.elemSize && r.value.maxCheckpoints == v.maxCheckpoints
  {
    if v.sealed then Err(Sealed)
    else
      var grown := if |v.elems| >= v.capacity then Reserve(v, GrowTarget(v.capacity), mallocOk) else Ok(v);
      match grown
      case Err(e) => Err(e)
      case Ok(w) => Ok(w.(elems := w.elems + [x]))
  }

  /** `get(index)` and `operator[](index)`: the element at `index`, or
      `OutOfRange` exactly when the index is not below `count()`. */
  function Get<T>(v: State<T>, index: nat): (r: Result<T>)
    ensures r.Ok? <==> index < Count(v)
    ensures r.Err? ==> r.error == OutOfRange
    ensures r.Ok? ==> r.value == v.elems[index]
  {
    if index >= |v.elems| then Err(OutOfRange) else Ok(v.elems[index])
  }

  /** `top()`: the most recently emplaced live element. */
  function Top<T>(v: State<T>): (r: Result<T>)
    ensures r.Err? <==> Count(v) == 0
    ensures r.Err? ==> r.error == EmptyVault
    ensures r.Ok? ==> r.value == v.elems[Count(v) - 1]
  {
    if |v.elems| == 0 then Err(EmptyVault) else Ok(v.elems[|v.elems| - 1])
  }

  /** `checkout(index)`: in this version exactly `get(index)`; nothing is
      removed from the vault. */
  function Checkout<T>(v: State<T>, index: nat): (r: Result<T>)
    ensures r == Get(v, index)
    ensures r.Ok? <==> index < Count(v)
  {
    Get(v, index)
  }

  /** `checkin(ptr)`: a no-op; the state after it is the state before. */
  function Checkin<T>(v: State<T>, x: T): (r: State<T>)
    ensures r == v
  {
    v
  }

  /** `checkpoint()`: pushes `count()` unless the stack already holds
      `MaxCheckpoints` entries. */
  function Checkpoint<T>(v: State<T>): (r: Result<State<T>>)
    requires Valid(v)
    ensures r.Err? <==> CheckpointDepth(v) >= v.maxCheckpoints
    ensures r.Err? ==> r.error == CheckpointOverflow
    ensures r.Ok? ==> Valid(r.value)
    ensures r.Ok? ==> CheckpointDepth(r.value) == CheckpointDepth(v) + 1
    ensures r.Ok? ==> r.value.saved[..CheckpointDepth(v)] == v.saved
    ensures r.Ok? ==> r.value.saved[CheckpointDepth(v)] == Count(v)
    ensures r.Ok? ==> r.value.elems == v.elems && r.value.capacity == v.capacity
    ensures r.Ok? ==> r.value.sealed == v.sealed && r.value.locked == v.locked
    ensures r.Ok? ==> r.value.elemSize == v.elemSize && r.value.maxCheckpoints == v.maxCheckpoints
  {
    if |v.saved| >= v.maxCheckpoints then Err(CheckpointOverflow)
    else Ok(v.(saved := v.saved + [|v.elems|]))
  }

  /** `restore()`: pops the most recent saved count and destroys every live
      element at or beyond it. Sealing does not gate it. */
  function Restore<T>(v: State<T>): (r: Result<State<T>>)
    requires Valid(v)
    ensures r.Err? <==> CheckpointDepth(v) == 0
    ensures r.Err? ==> r.error == NoCheckpoint
    ensures r.Ok? ==> Valid(r.value)
    ensures r.Ok? ==> CheckpointDepth(r.value) == CheckpointDepth(v) - 1
    ensures r.Ok? ==> r.value.saved == v.saved[..CheckpointDepth(v) - 1]
    ensures r.Ok? ==> Count(r.value) == v.saved[CheckpointDepth(v) - 1] <= Count(v)
    ensures r.Ok? ==> r.value.elems == v.elems[..Count(r.value)]
    ensures r.Ok? ==> r.value.capacity == v.capacity
    ensures r.Ok? ==> r.value.sealed == v.sealed && r.value.locked == v.locked
    ensures r.Ok? ==> r.value.elemSize == v.elemSize && r.value.maxCheckpoints == v.maxCheckpoints
  {
    if |v.saved| == 0 then Err(NoCheckpoint)
    else
      var target := v.saved[|v.saved| - 1];
      Ok(v.(elems := v.elems[..target], saved := v.saved[..|v.saved| - 1]))
  }

  /** `clear_checkpoints()`: forgets every checkpoint, keeps the elements. */
  function ClearCheckpoints<T>(v: State<T>): (r: State<T>)
    requires Valid(v)
    ensures Valid(r)
    ensures CheckpointDepth(r) == 0
    ensures r.elems == v.elems && r.capacity == v.capacity
    ensures r.sealed == v.sealed && r.locked == v.locked
    ensures r.elemSize == v.elemSize && r.maxCheckpoints == v.maxCheckpoints
  {
    v.(saved := [])
  }

  /** `clear()`: destroys every live element and forgets every checkpoint;
      the buffer, `sealed` and `locked` stay. */
  function Clear<T>(v: State<T>): (r: State<T>)
    requires Valid(v)
    ensures Valid(r)
    ensures Count(r) == 0 && CheckpointDepth(r) == 0
    ensures r.capacity == v.capacity
    ensures r.sealed == v.sealed && r.locked == v.locked
    ensures r.elemSize == v.elemSize && r.maxCheckpoints == v.maxCheckpoints
  {
    v.(elems := [], saved := [])
  }

  /** `lock()`: raises the advisory flag and nothing else. */
  function Lock<T>(v: State<T>): (r: State<T>)
    requires Valid(v)
    ensures Valid(r)
    ensures IsLocked(r)
    ensures r.elems == v.elems && r.saved == v.saved && r.capacity == v.capacity
    ensures r.sealed == v.sealed
    ensures r.elemSize == v.elemSize && r.maxCheckpoints == v.maxCheckpoints
  {
    v.(locked := true)
  }

  /** `unlock()`: lowers the advisory flag and nothing else. */
  function Unlock<T>(v: State<T>): (r: State<T>)
    requires Valid(v)
    ensures Valid(r)
    ensures !IsLocked(r)
    ensures r.elems == v.elems && r.saved == v.saved && r.capacity == v.capacity
    ensures r.sealed == v.sealed
    ensures r.elemSize == v.elemSize && r.maxCheckpoints == v.maxCheckpoints
  {
    v.(locked := false)
  }

  /** `seal()`: sets the one-way flag that disables `reserve` and `emplace`. */
  function Seal<T>(v: State<T>): (r: State<T>)
    requires Valid(v)
    ensures Valid(r)
    ensures IsSealed(r)
    ensures r.elems == v.elems && r.saved == v.saved && r.capacity == v.capacity
    ensures r.locked == v.locked
    ensures r.elemSize == v.elemSize && r.maxCheckpoints == v.maxCheckpoints
  {
    v.(sealed := true)
  }

  /** What the moved-from object keeps: its buffer pointer, size, capacity and
      checkpoint count are zeroed, while `sealed` and `locked` are left as
      they were. */
  function MovedFrom<T>(v: State<T>): (r: State<T>)
    requires Valid(v)
    ensures Valid(r)
    ensures Count(r) == 0 && CheckpointDepth(r) == 0 && r.capacity == 0
    ensures r.sealed == v.sealed && r.locked == v.locked
    ensures r.elemSize == v.elemSize && r.maxCheckpoints == v.maxCheckpoints
  {
    v.(elems := [], capacity := 0, saved := [])
  }

  /** The move constructor `vault(vault&& src)`: returns the new object and
      the source after the move. */
  function MoveConstruct<T>(src: State<T>): (r: (State<T>, State<T>))
    requires Valid(src)
    ensures Valid(r.0) && Valid(r.1)
    ensures r.0.elems == src.elems && r.0.saved == src.saved && r.0.capacity == src.capacity
    ensures r.0.sealed == src.sealed && r.0.locked == src.locked
    ensures r.0.elemSize == src.elemSize && r.0.maxCheckpoints == src.maxCheckpoints
    ensures Count(r.1) == 0 && CheckpointDepth(r.1) == 0 && r.1.capacity == 0
    ensures r.1.sealed == src.sealed && r.1.locked == src.locked
  {
    (src, MovedFrom(src))
  }

  /** Move assignment `dst = std::move(src)` between two distinct objects of
      the same type: the target's own elements are destroyed and its buffer
      released, then it takes over all of the source's state, its flags
      included. Returns the target and the source after the move. */
  function MoveAssign<T>(dst: State<T>, src: State<T>): (r: (State<T>, State<T>))
    requires Valid(dst) && Valid(src)
    requires dst.elemSize == src.elemSize && dst.maxCheckpoints == src.maxCheckpoints
    ensures Valid(r.0) && Valid(r.1)
    ensures r.0.elems == src.elems && r.0.saved == src.saved && r.0.capacity == src.capacity
    ensures r.0.sealed == src.sealed && r.0.locked == src.locked
    ensures r.0.elemSize == dst.elemSize && r.0.maxCheckpoints == dst.maxCheckpoints
    ensures Count(r.1) == 0 && CheckpointDepth(r.1) == 0 && r.1.capacity == 0
    ensures r.1.sealed == src.sealed && r.1.locked == src.locked
  {
    (src, MovedFrom(src))
  }
}
