/** The repository's unit-test scenarios (src/tst/test_vault.cpp), stated
    over the functional model for a vault of `Dummy` records whose size is
    any `elemSize` up to 1 KiB. Every allocation in these scenarios
    succeeds. */
module VaultScenarios {
  import opened VaultSpec

  /** The test record: an id and a label (`text`, since `label` is a Dafny keyword). */
  datatype Dummy = Dummy(id: int, text: string)

  /** `vault<Dummy, MaxCheckpoints> v;` with the default initial capacity. */
  function Fresh(elemSize: nat, maxCheckpoints: nat): (v: State<Dummy>)
    requires 1 <= elemSize <= 1024
    ensures Valid(v) && Count(v) == 0 && CheckpointDepth(v) == 0
    ensures v.capacity == DefaultInitialCapacity && !v.sealed && !v.locked
    ensures v.maxCheckpoints == maxCheckpoints
  {
    New(elemSize, maxCheckpoints, DefaultInitialCapacity, true).value
  }

  /** Two emplaces are both readable, in order. */
  lemma EmplaceAndAccess(elemSize: nat)
    requires 1 <= elemSize <= 1024
    ensures
      var v0 := Fresh(elemSize, DefaultMaxCheckpoints);
      var r1 := Emplace(v0, Dummy(1, "test"), true);
      r1.Ok? &&
      var r2 := Emplace(r1.value, Dummy(2, "hello"), true);
      && r2.Ok?
      && Count(r2.value) == 2
      && Get(r2.value, 0) == Ok(Dummy(1, "test"))
      && Get(r2.value, 1).Ok? && Get(r2.value, 1).value.text == "hello"
  {
  }

  /** `restore()` trims back to the state of the last checkpoint. */
  lemma CheckpointAndRestore(elemSize: nat)
    requires 1 <= elemSize <= 1024
    ensures
      var v0 := Fresh(elemSize, DefaultMaxCheckpoints);
      var v1 := Emplace(v0, Dummy(1, "a"), true).value;
      var c := Checkpoint(v1);
      c.Ok? &&
      var v2 := Emplace(c.value, Dummy(2, "b"), true).value;
      var v3 := Emplace(v2, Dummy(3, "c"), true).value;
      var r := Restore(v3);
      && Count(v3) == 3
      && r.Ok? && Count(r.value) == 1
      && Get(r.value, 0) == Ok(Dummy(1, "a"))
  {
    var v0 := Fresh(elemSize, DefaultMaxCheckpoints);
    var v1 := Emplace(v0, Dummy(1, "a"), true).value;
    assert v1.elems == [Dummy(1, "a")];
    var c := Checkpoint(v1).value;
    assert c.saved == [1];
    var v2 := Emplace(c, Dummy(2, "b"), true).value;
    var v3 := Emplace(v2, Dummy(3, "c"), true).value;
    assert v3.saved == [1] && Count(v3) == 3;
    assert v3.elems[0] == Dummy(1, "a") by {
      assert v3.elems[..Count(v2)] == v2.elems;
      assert v2.elems[..Count(c)] == c.elems;
    }
  }

  /** Nested checkpoints restore in last-in first-out order. */
  lemma MultipleCheckpoints(elemSize: nat)
    requires 1 <= elemSize <= 1024
    ensures
      var v0 := Fresh(elemSize, DefaultMaxCheckpoints);
      var v1 := Emplace(v0, Dummy(10, "base"), true).value;
      var c1 := Checkpoint(v1).value;
      var v2 := Emplace(c1, Dummy(20, "stage1"), true).value;
      var c2 := Checkpoint(v2).value;
      var v3 := Emplace(c2, Dummy(30, "stage2"), true).value;
      var r1 := Restore(v3);
      && r1.Ok? && Count(r1.value) == 2 && Get(r1.value, 1) == Ok(Dummy(20, "stage1"))
      && var r2 := Restore(r1.value);
      && r2.Ok? && Count(r2.value) == 1 && Get(r2.value, 0) == Ok(Dummy(10, "base"))
  {
  }

  /** After `seal()` an emplace throws; lock and unlock toggle their flag. */
  lemma SealAndLock(elemSize: nat)
    requires 1 <= elemSize <= 1024
    ensures
      var v0 := Fresh(elemSize, DefaultMaxCheckpoints);
      var v1 := Emplace(v0, Dummy(42, "ok"), true).value;
      var s := Seal(v1);
      && IsSealed(s)
      && Emplace(s, Dummy(99, "fail"), true) == Err(Sealed)
      && IsLocked(Lock(s))
      && !IsLocked(Unlock(Lock(s)))
  {
  }

  /** `restore()` on a fresh vault throws. */
  lemma RestoreWithoutCheckpoint(elemSize: nat)
    requires 1 <= elemSize <= 1024
    ensures Restore(Fresh(elemSize, DefaultMaxCheckpoints)) == Err(NoCheckpoint)
  {
  }

  /** With `MaxCheckpoints == 3`, three checkpoints succeed and the fourth
      throws. */
  lemma CheckpointStackOverflow(elemSize: nat)
    requires 1 <= elemSize <= 1024
    ensures
      var v0 := Fresh(elemSize, 3);
      var c1 := Checkpoint(v0);
      c1.Ok? &&
      var c2 := Checkpoint(c1.value);
      c2.Ok? &&
      var c3 := Checkpoint(c2.value);
      c3.Ok? &&
      Checkpoint(c3.value) == Err(VaultSpec.CheckpointOverflow)
  {
  }

  /** `clear_checkpoints()` takes the depth from 2 to 0. */
  lemma ClearCheckpointsScenario(elemSize: nat)
    requires 1 <= elemSize <= 1024
    ensures
      var v0 := Fresh(elemSize, DefaultMaxCheckpoints);
      var v1 := Emplace(v0, Dummy(1, "a"), true).value;
      var c1 := Checkpoint(v1).value;
      var v2 := Emplace(c1, Dummy(2, "b"), true).value;
      var c2 := Checkpoint(v2).value;
      CheckpointDepth(c2) == 2 && CheckpointDepth(ClearCheckpoints(c2)) == 0
  {
  }

  /** `clear()` empties the vault, after which `operator[](0)` throws. */
  lemma ClearAll(elemSize: nat)
    requires 1 <= elemSize <= 1024
    ensures
      var v0 := Fresh(elemSize, DefaultMaxCheckpoints);
      var v1 := Emplace(v0, Dummy(1, "a"), true).value;
      var v2 := Emplace(v1, Dummy(2, "b"), true).value;
      Count(Clear(v2)) == 0 && Get(Clear(v2), 0) == Err(OutOfRange)
  {
  }

  /** `checkout(0)` yields the first element and `checkin` of it leaves the
      count at 2. */
  lemma CheckoutAndCheckin(elemSize: nat)
    requires 1 <= elemSize <= 1024
    ensures
      var v0 := Fresh(elemSize, DefaultMaxCheckpoints);
      var v1 := Emplace(v0, Dummy(1, "a"), true).value;
      var v2 := Emplace(v1, Dummy(2, "b"), true).value;
      var out := Checkout(v2, 0);
      out.Ok? && out.value.id == 1 && Count(Checkin(v2, out.value)) == 2
  {
  }

  /** The access tests: `get(0)` of a one-element vault is its element;
      index 1 of it and index 0 of an empty vault are out of range for `get`,
      `operator[]` and `checkout`; `top()` of an empty vault throws, while
      `top()` of a vault holding `Dummy(1, "top")` has id 1. */
  lemma AccessScenarios(elemSize: nat)
    requires 1 <= elemSize <= 1024
    ensures
      var empty := Fresh(elemSize, DefaultMaxCheckpoints);
      var one := Emplace(empty, Dummy(1, "a"), true).value;
      && Get(one, 0) == Ok(Dummy(1, "a"))
      && Get(one, 1) == Err(OutOfRange) && Checkout(one, 1) == Err(OutOfRange)
      && Get(empty, 0) == Err(OutOfRange) && Checkout(empty, 0) == Err(OutOfRange)
      && Top(empty) == Err(EmptyVault)
      && var topped := Emplace(empty, Dummy(1, "top"), true).value;
      && Top(topped).Ok? && Top(topped).value.id == 1
  {
  }
}
