/** Properties that relate several vault operations to each other: what
    `emplace` lets `get` and `top` observe, `restore` undoing `checkpoint`,
    `reserve` being idempotent, what `seal`, `lock` and `clear` leave
    reachable, moves, and the byte-count overflow in `reserve`. */
module VaultProperties {
  import opened SizeT
  import opened VaultSpec

  /** After a successful `emplace(x)`, `get` sees the old elements at their old
      indices, `x` at the old `count()`, and nothing beyond it. */
  lemma EmplaceThenGet<T>(v: State<T>, x: T, mallocOk: bool, index: nat)
    requires Valid(v) && Emplace(v, x, mallocOk).Ok?
    ensures index < Count(v) ==> Get(Emplace(v, x, mallocOk).value, index) == Get(v, index)
    ensures index == Count(v) ==> Get(Emplace(v, x, mallocOk).value, index) == Ok(x)
    ensures index > Count(v) ==> Get(Emplace(v, x, mallocOk).value, index).Err?
  {
    var w := Emplace(v, x, mallocOk).value;
    if index < Count(v) {
      assert w.elems[index] == w.elems[..Count(v)][index];
    }
  }

  /** `top()` right after `emplace(x)` is `x`. */
  lemma EmplaceThenTop<T>(v: State<T>, x: T, mallocOk: bool)
    requires Valid(v) && Emplace(v, x, mallocOk).Ok?
    ensures Top(Emplace(v, x, mallocOk).value) == Ok(x)
  {
  }

  /** `restore()` right after a successful `checkpoint()` gives back exactly the
      state before the checkpoint. */
  lemma CheckpointThenRestore<T>(v: State<T>)
    requires Valid(v) && Checkpoint(v).Ok?
    ensures Restore(Checkpoint(v).value) == Ok(v)
  {
    var w := Checkpoint(v).value;
    assert w.saved[..|w.saved| - 1] == v.saved;
    assert v.elems[..|v.elems|] == v.elems;
  }

  /** Two nested checkpoints unwind last-in first-out: the first `restore()`
      returns to the inner checkpoint, the second to the outer one, whatever
      was emplaced at each level. */
  lemma NestedCheckpointsUnwind<T>(v: State<T>, a: T, b: T, okA: bool, okB: bool)
    requires Valid(v) && CheckpointDepth(v) + 2 <= v.maxCheckpoints
    requires !v.sealed && Count(v) + 2 <= v.capacity
    ensures
      var c1 := Checkpoint(v).value;
      var s1 := Emplace(c1, a, okA).value;
      var c2 := Checkpoint(s1).value;
      var s2 := Emplace(c2, b, okB).value;
      var r1 := Restore(s2);
      && r1.Ok? && r1.value.elems == v.elems + [a] && CheckpointDepth(r1.value) == CheckpointDepth(v) + 1
      && Restore(r1.value) == Ok(v)
  {
    var c1 := Checkpoint(v).value;
    var s1 := Emplace(c1, a, okA).value;
    var c2 := Checkpoint(s1).value;
    var s2 := Emplace(c2, b, okB).value;
    assert s1.elems == v.elems + [a];
    assert s2.elems[..Count(s1)] == s1.elems;
    var r1 := Restore(s2).value;
    assert r1.saved == c1.saved;
    assert r1.elems == s1.elems;
    assert r1.saved[..|r1.saved| - 1] == v.saved;
    assert r1.elems[..Count(v)] == v.elems;
  }

  /** A second `reserve(n)` after a successful one changes nothing, whatever
      the allocator would do. */
  lemma ReserveIdempotent<T>(v: State<T>, newCap: nat, mallocOk: bool, mallocOk2: bool)
    requires Valid(v) && Reserve(v, newCap, mallocOk).Ok?
    ensures Reserve(Reserve(v, newCap, mallocOk).value, newCap, mallocOk2) == Reserve(v, newCap, mallocOk)
  {
  }

  /** After `seal()`, `reserve` and `emplace` throw and leave the vault alone,
      while `get`, `top`, `checkpoint` and `restore` behave as they did before
      the seal. */
  lemma SealBlocksOnlyGrowth<T>(v: State<T>, newCap: nat, x: T, mallocOk: bool, index: nat)
    requires Valid(v)
    ensures Reserve(Seal(v), newCap, mallocOk) == Err(Sealed)
    ensures Emplace(Seal(v), x, mallocOk) == Err(Sealed)
    ensures Get(Seal(v), index) == Get(v, index)
    ensures Top(Seal(v)) == Top(v)
    ensures Checkpoint(Seal(v)).Ok? == Checkpoint(v).Ok?
    ensures Checkpoint(v).Ok? ==> Checkpoint(Seal(v)).value == Seal(Checkpoint(v).value)
    ensures Restore(Seal(v)).Ok? == Restore(v).Ok?
    ensures Restore(v).Ok? ==> Restore(Seal(v)).value == Seal(Restore(v).value)
  {
  }

  /** `lock()` and `unlock()` undo each other, and the flag changes nothing any
      other operation reports. */
  lemma LockIsAdvisory<T>(v: State<T>, index: nat)
    requires Valid(v)
    ensures Unlock(Lock(v)) == Unlock(v) && Lock(Unlock(v)) == Lock(v)
    ensures Get(Lock(v), index) == Get(v, index) && Get(Unlock(v), index) == Get(v, index)
    ensures Top(Lock(v)) == Top(v) && Top(Unlock(v)) == Top(v)
    ensures Count(Lock(v)) == Count(v) && CheckpointDepth(Lock(v)) == CheckpointDepth(v)
  {
  }

  /** After `clear()` nothing can be read, `restore()` has nothing to return
      to, and a second `clear()` changes nothing. */
  lemma ClearEmptiesEverything<T>(v: State<T>, index: nat)
    requires Valid(v)
    ensures Get(Clear(v), index) == Err(OutOfRange)
    ensures Top(Clear(v)) == Err(EmptyVault)
    ensures Restore(Clear(v)) == Err(NoCheckpoint)
    ensures Clear(Clear(v)) == Clear(v)
  {
  }

  /** After `clear_checkpoints()` the elements are still readable but
      `restore()` fails. */
  lemma ClearCheckpointsKeepsElements<T>(v: State<T>, index: nat)
    requires Valid(v)
    ensures Get(ClearCheckpoints(v), index) == Get(v, index)
    ensures Restore(ClearCheckpoints(v)) == Err(NoCheckpoint)
  {
  }

  /** `checkout(i)` followed by `checkin` of the result leaves the vault as it
      was, so `count()` is unchanged. */
  lemma CheckoutThenCheckin<T>(v: State<T>, index: nat)
    requires Valid(v) && Checkout(v, index).Ok?
    ensures Checkin(v, Checkout(v, index).value) == v
    ensures Count(Checkin(v, Checkout(v, index).value)) == Count(v)
    ensures Checkout(v, index).value == v.elems[index]
  {
  }

  /** Moving a vault into a new object and then move-assigning it back
      restores the original object, and leaves the temporary as a moved-from
      shell. */
  lemma MoveThereAndBack<T>(s: State<T>)
    requires Valid(s)
    ensures
      var (tmp, shell) := MoveConstruct(s);
      var (back, tmpAfter) := MoveAssign(shell, tmp);
      back == s && tmpAfter == MovedFrom(s)
  {
  }

  /** `sealed` is never cleared by a member function, but move assignment
      replaces the whole state: a sealed target assigned from an unsealed
      source ends up unsealed. */
  lemma MoveAssignCanUnseal<T>(elemSize: nat, maxCheckpoints: nat)
    requires elemSize >= 1
    ensures
      var dst: State<T> := Seal(Unallocated(elemSize, maxCheckpoints));
      var src: State<T> := Unallocated(elemSize, maxCheckpoints);
      IsSealed(dst) && !IsSealed(MoveAssign(dst, src).0)
  {
  }

  /** As written, `reserve(0x2000_0000_0000_0001)` on a vault of 8-byte
      elements asks `malloc` for 8 bytes, since the byte count wraps modulo
      2^64, yet records a capacity of 2^61 + 1 slots: the resulting state
      breaks the invariant that the buffer holds `capacity` elements. */
  lemma ReserveAsWrittenUndersizes<T>()
    ensures
      var v: State<T> := Unallocated(8, DefaultMaxCheckpoints);
      var newCap := 0x2000_0000_0000_0001;
      var r := ReserveAsWritten(v, newCap, true);
      && Valid(v)
      && r.Ok? && r.value.capacity == newCap
      && RequestBytes(newCap, 8) == 8 < newCap * 8
      && !Valid(r.value)
  {
    var newCap := 0x2000_0000_0000_0001;
    assert newCap * 8 == SizeModulus + 8;
    assert Wrap(newCap * 8) == 8;
  }

  /** The first growth of `emplace` wraps too: from an empty buffer with
      `sizeof(T) == 2^61`, the code's `reserve(16)` asks `malloc` for
      `16 * 2^61 mod 2^64 == 0` bytes yet records capacity 16, while the
      checked `emplace` refuses with bad_alloc. */
  lemma FirstGrowthWraps<T>(x: T)
    ensures
      var v: State<T> := Unallocated(0x2000_0000_0000_0000, DefaultMaxCheckpoints);
      var r := ReserveAsWritten(v, GrowTarget(v.capacity), true);
      && Valid(v) && Count(v) >= v.capacity
      && RequestBytes(GrowTarget(v.capacity), v.elemSize) == 0
      && r.Ok? && r.value.capacity == FirstGrowth
      && Emplace(v, x, true) == Err(BadAlloc)
  {
    assert FirstGrowth * 0x2000_0000_0000_0000 == 2 * SizeModulus;
    assert Wrap(2 * SizeModulus) == 0;
  }

  /** With the byte count checked, a successful `reserve` always asks `malloc`
      for the full `capacity * sizeof(T)` bytes, the overflowing request of
      `ReserveAsWrittenUndersizes` is refused, and whenever the product fits
      the checked and the written `reserve` agree. */
  lemma ReserveRequestsWholeBuffer<T>(v: State<T>, newCap: nat, mallocOk: bool)
    requires Valid(v)
    ensures Reserve(v, newCap, mallocOk).Ok? ==>
              var c := Reserve(v, newCap, mallocOk).value.capacity;
              RequestBytes(c, v.elemSize) == c * v.elemSize
    ensures BufferFits(newCap, v.elemSize) ==> Reserve(v, newCap, mallocOk) == ReserveAsWritten(v, newCap, mallocOk)
    ensures !v.sealed && newCap > v.capacity && !BufferFits(newCap, v.elemSize) ==>
              Reserve(v, newCap, mallocOk) == Err(BadAlloc)
  {
  }
}
