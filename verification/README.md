# vault — a Dafny model

This project models `vault<T, MaxCheckpoints>` from `src/inc/vault.hpp`. A vault is a
growable array of objects of type `T` that it owns, plus a bounded stack of checkpoints:

- The live objects occupy `buffer[0..size)` of a heap buffer with `capacity` slots.
- `emplace` appends. When the buffer is full, `emplace` first grows it to twice its
  capacity, or to 16 slots if it has none.
- `reserve` relocates the live objects into a larger buffer.
- `checkpoint()` pushes the current count onto a fixed array of `MaxCheckpoints` saved
  counts. `restore()` pops the most recent one and destroys every object beyond it.
- `clear()` destroys everything and drops every checkpoint.
- `seal()` permanently disables `reserve` and `emplace`.
- `lock()` and `unlock()` set an advisory flag that nothing reads.

The model has three layers:

- `VaultSpec` (`vault_spec.dfy`) models the object state as an immutable `State<T>`.
  Each public member is a function from the state before the call to the state after
  it, or to the exception the member throws (`Result`). An exception carries no state,
  so the caller keeps the state it had; this is how "every error leaves the vault
  unchanged" is expressed. `Valid` is the class invariant. It says that
  `size <= capacity`, that the buffer's byte size fits in `size_t`, and that
  `checkpoint_count <= MaxCheckpoints`. It also says the saved counts never decrease
  from bottom to top and none exceeds `count()`.
- `VaultImpl.Vault` (`vault_impl.dfy`) is the class itself. It keeps an
  `array<Slot<T>>` buffer, where `Live(x)` is a constructed object and `Vacant` is raw
  storage, along with the `size`/`capacity` counters, the two flags and a fixed
  checkpoint array. Every method is proved to do what the matching `VaultSpec` function
  says, through the abstraction `Abs()`. This covers the relocation loop of `reserve`,
  the destruction loops of `restore` and `clear`, and the checkpoint copy loops of the
  move operations.
- `VaultProperties`, `VaultScripts` and `VaultScenarios` relate the operations to each
  other:
  - read-after-emplace, and `restore` undoing `checkpoint`;
  - last-in first-out unwinding of arbitrarily nested checkpoint scopes;
  - the invariant and the seal surviving every call history;
  - `locked` never being read;
  - moves;
  - the unit tests' scenarios.

Observers: `VaultSpec.Count`, `CheckpointDepth`, `IsSealed` and `IsLocked` are
`count()`, `checkpoint_depth()`, `is_sealed()` and `is_locked()`. The contracts below
are stated in terms of them.

Some behaviours of `vault.hpp` that a reader might not expect, all modelled as
written:

- `restore()` destroys the truncated objects, running their destructors. It does
  not merely shorten a logical view.
- `checkout(i)` is `get(i)`, and `checkin` does nothing. No slot is removed or
  re-inserted.
- The class has no slot-pointer stack, no `pop`, no `acquire` and no reuse of
  removed cells.
- The constructor reserves its initial 16 slots eagerly.
- The moved-from object keeps its `sealed` and `locked` flags.
- Move assignment can turn a sealed target into an unsealed one
  (`VaultProperties.MoveAssignCanUnseal`). So "sealed is never cleared" holds for every
  member function, as `VaultScripts.Run` states, but not across move assignment.

A 64-bit `size_t` is assumed (`SizeT.SizeMax`).

## Model

| member | source | states |
|---|---|---|
| VaultSpec.Unallocated | src/inc/vault.hpp:27-36 | the default member values form a valid state with no elements, no checkpoints, capacity 0, `sealed` and `locked` false, and the given `sizeof(T)` and `MaxCheckpoints` |
| VaultSpec.New | src/inc/vault.hpp:39-41 | construction reserves `initial` slots: it fails only with bad_alloc, only when `initial > 0` and the allocation cannot be made; otherwise the vault is empty, unsealed, unlocked, has no checkpoints and has capacity exactly `initial` |
| VaultSpec.Reserve | src/inc/vault.hpp:96-112 | sealed gives Sealed before anything else; `newCap <= capacity` changes nothing; otherwise it succeeds exactly when the allocation succeeds (and its byte size fits `size_t`), sets capacity to `newCap`, and keeps every element in order, the checkpoints and the flags; the result is valid |
| VaultSpec.ReserveAsWritten | src/inc/vault.hpp:96-112 | the code as written: sealed gives Sealed, `newCap <= capacity` changes nothing, and otherwise it succeeds exactly when malloc returns a block, whether or not the byte count fits `size_t`; on success the capacity becomes `newCap` and the elements, checkpoints and flags are kept |
| VaultSpec.GrowTarget | src/inc/vault.hpp:119 | the capacity emplace asks for is 16 from an empty buffer and double otherwise, always strictly larger than the current capacity |
| VaultSpec.Emplace | src/inc/vault.hpp:116-125 | sealed gives Sealed; with room it always succeeds; when full it succeeds exactly when growth to `GrowTarget(capacity)` succeeds; on success `count()` grows by one, the new element sits at the old `count()`, earlier elements and the checkpoints are unchanged, and the capacity is the old one or the grown one |
| VaultSpec.Get | src/inc/vault.hpp:128-140 | `get`/`operator[]` fail with OutOfRange exactly when `index >= count()` and otherwise return element `index` |
| VaultSpec.Top | src/inc/vault.hpp:153-156 | fails exactly when `count() == 0`, otherwise returns element `count()-1` |
| VaultSpec.Checkout | src/inc/vault.hpp:158 | `checkout(i)` is `get(i)`: it succeeds exactly when `i < count()` |
| VaultSpec.Checkin | src/inc/vault.hpp:159 | `checkin` leaves the state exactly as it was |
| VaultSpec.Checkpoint | src/inc/vault.hpp:162-167 | fails exactly when the depth has reached `MaxCheckpoints`; otherwise pushes `count()` on top of the saved counts, raises the depth by one and leaves elements, capacity and flags alone; the result is valid |
| VaultSpec.Restore | src/inc/vault.hpp:169-180 | fails exactly when the depth is 0; otherwise pops the top saved count, truncates the elements to that prefix (never lengthening them), lowers the depth by one, keeps capacity and flags, and stays valid; sealing does not gate it |
| VaultSpec.ClearCheckpoints | src/inc/vault.hpp:183 | depth becomes 0, elements, capacity and flags unchanged |
| VaultSpec.Clear | src/inc/vault.hpp:186-192 | count and depth become 0; capacity, sealed and locked unchanged |
| VaultSpec.Lock | src/inc/vault.hpp:195 | sets `locked`, nothing else changes |
| VaultSpec.Unlock | src/inc/vault.hpp:196 | clears `locked`, nothing else changes |
| VaultSpec.Seal | src/inc/vault.hpp:199 | sets `sealed`, nothing else changes |
| VaultSpec.MovedFrom | src/inc/vault.hpp:65-68 | the moved-from object has no elements, no checkpoints and capacity 0, keeps its flags, and is valid |
| VaultSpec.MoveConstruct | src/inc/vault.hpp:53-69 | the new object has exactly the source's elements, checkpoints, capacity and flags; the source is left empty with its flags |
| VaultSpec.MoveAssign | src/inc/vault.hpp:71-93 | between distinct objects the target ends up with all of the source's state, flags included, whatever it held before; the source is left empty with its flags |
| VaultProperties.EmplaceThenGet | src/inc/vault.hpp:116-131 | after a successful emplace, `get` returns the old element at every old index, the new element at the old `count()`, and fails beyond |
| VaultProperties.EmplaceThenTop | src/inc/vault.hpp:117-125 | `top()` right after `emplace(x)` is `x` |
| VaultProperties.CheckpointThenRestore | src/inc/vault.hpp:162-180 | restore right after a successful checkpoint returns exactly the earlier state |
| VaultProperties.NestedCheckpointsUnwind | src/tst/test_vault.cpp:63-78 | checkpoint, emplace, checkpoint, emplace: the first restore returns to the inner checkpoint's elements and depth, the second to the original state |
| VaultProperties.ReserveIdempotent | src/inc/vault.hpp:98 | a second `reserve(n)` after a successful one changes nothing |
| VaultProperties.SealBlocksOnlyGrowth | src/inc/vault.hpp:97-118 | after seal, reserve and emplace throw Sealed, while get, top, checkpoint and restore give the same results as without the seal |
| VaultProperties.LockIsAdvisory | src/inc/vault.hpp:195-197 | lock and unlock undo each other and do not change what get, top, count or depth report |
| VaultProperties.ClearEmptiesEverything | src/inc/vault.hpp:186-192 | after clear, get and top fail, restore has no checkpoint, and clear is idempotent |
| VaultProperties.ClearCheckpointsKeepsElements | src/inc/vault.hpp:183 | after clear_checkpoints every get answers as before and restore fails |
| VaultProperties.CheckoutThenCheckin | src/inc/vault.hpp:158-159 | checkin of a checked-out element leaves the state and `count()` as they were |
| VaultProperties.MoveThereAndBack | src/inc/vault.hpp:53-93 | moving a vault into a temporary and move-assigning it back restores the original, and the temporary becomes a moved-from shell |
| VaultProperties.MoveAssignCanUnseal | src/inc/vault.hpp:79 | a sealed target move-assigned from an unsealed source ends unsealed |
| VaultProperties.ReserveAsWrittenUndersizes | src/inc/vault.hpp:100-111 | as written, `reserve(2^61+1)` with 8-byte elements requests 8 bytes yet records capacity 2^61+1, breaking the invariant |
| VaultProperties.FirstGrowthWraps | src/inc/vault.hpp:100-119 | from an empty buffer of `2^61`-byte elements, the code's first growth `reserve(16)` asks malloc for 0 bytes yet records capacity 16, while the checked `emplace` fails with bad_alloc |
| VaultProperties.ReserveRequestsWholeBuffer | src/inc/vault.hpp:100-111 | with the byte count checked, a successful reserve always requests `capacity * sizeof(T)` bytes, the overflowing request fails with bad_alloc, and whenever the product fits it agrees with the code as written |
| VaultScripts.Step | src/inc/vault.hpp:96-199 | any single call, with a thrown exception caught, keeps the invariant and never clears `sealed` |
| VaultScripts.Run | src/inc/vault.hpp:96-199 | every call history keeps the invariant (`size <= capacity`, ordered saved counts not above `count()`) and never clears `sealed` |
| VaultScripts.FlatStepKeepsCheckpoints | src/inc/vault.hpp:96-125 | reserve, emplace, checkin, lock, unlock and seal keep the checkpoint stack and keep the live elements as a prefix |
| VaultScripts.RestoreClosesScope | src/inc/vault.hpp:162-180 | restore after a body that kept the checkpoint pushed on entry and only extended the elements returns to the entry's elements and stack |
| VaultScripts.StructuredKeepsCheckpoints | src/inc/vault.hpp:162-180 | a history whose checkpoints and restores are properly nested (and fit in `MaxCheckpoints`) ends with the same checkpoint stack, with the starting elements still in place |
| VaultScripts.ScopeUndoesBody | src/inc/vault.hpp:162-180 | checkpoint, any nested body, restore: elements and checkpoint stack are exactly those before the checkpoint |
| VaultScripts.StepIgnoresLock | src/inc/vault.hpp:195-197 | no call other than lock/unlock reads or writes `locked` |
| VaultScripts.LockIsNeverRead | src/inc/vault.hpp:195-197 | a history without lock/unlock yields the same state from either value of `locked`, which it keeps |
| VaultScripts.SealedNeverGrows | src/inc/vault.hpp:97-118 | once sealed, no history changes the capacity or adds an element: the elements only ever shrink to a prefix |
| VaultScenarios.Fresh | src/tst/test_vault.cpp:35 | a default-constructed test vault is empty, unsealed, unlocked, with capacity 16 |
| VaultScenarios.EmplaceAndAccess | src/tst/test_vault.cpp:34-42 | two emplaces give count 2 and are readable in order |
| VaultScenarios.CheckpointAndRestore | src/tst/test_vault.cpp:47-58 | count 3 before restore, 1 after, with element 0 intact |
| VaultScenarios.MultipleCheckpoints | src/tst/test_vault.cpp:63-78 | nested restores give counts 2 then 1 with the expected elements |
| VaultScenarios.SealAndLock | src/tst/test_vault.cpp:83-93 | emplace after seal throws Sealed; lock then unlock toggles the flag |
| VaultScenarios.RestoreWithoutCheckpoint | src/tst/test_vault.cpp:98-101 | restore on a fresh vault throws |
| VaultScenarios.CheckpointStackOverflow | src/tst/test_vault.cpp:106-112 | with `MaxCheckpoints == 3` the fourth checkpoint throws |
| VaultScenarios.ClearCheckpointsScenario | src/tst/test_vault.cpp:117-127 | depth 2 drops to 0 |
| VaultScenarios.ClearAll | src/tst/test_vault.cpp:132-140 | after clear, count is 0 and index 0 is out of range |
| VaultScenarios.CheckoutAndCheckin | src/tst/test_vault.cpp:145-155 | checkout(0) yields id 1 and checkin keeps count 2 |
| VaultScenarios.AccessScenarios | src/tst/test_vault.cpp:160-217 | `get(0)` of a vault holding `Dummy(1, "a")` is that element; get (which operator[] calls) and checkout reject index 1 of it and index 0 of an empty vault; top of an empty vault throws, and top of a vault holding `Dummy(1, "top")` has id 1 |
| VaultImpl.Vault.Empty | src/inc/vault.hpp:27-36 | the object after its member initialisers is valid and is exactly `VaultSpec.Unallocated`: no buffer slots, no elements, no checkpoints, both flags false |
| VaultImpl.Vault.New | src/inc/vault.hpp:39-41 | the class constructor produces the state `VaultSpec.New` describes, or throws bad_alloc exactly when it does |
| VaultImpl.Vault.Reserve | src/inc/vault.hpp:96-112 | the relocation loop moves every live object into the new buffer in order and leaves the state `VaultSpec.Reserve` describes; on a Sealed or bad_alloc error the state is unchanged |
| VaultImpl.Vault.Emplace | src/inc/vault.hpp:116-125 | constructs the object at index `count()` (returned instead of the pointer) and matches `VaultSpec.Emplace`; on a Sealed or bad_alloc error the state is unchanged |
| VaultImpl.Vault.Get | src/inc/vault.hpp:128-140 | reads the buffer slot and agrees with `VaultSpec.Get` |
| VaultImpl.Vault.Top | src/inc/vault.hpp:153-156 | agrees with `VaultSpec.Top` |
| VaultImpl.Vault.Count | src/inc/vault.hpp:148 | the `size` counter is the number of live elements |
| VaultImpl.Vault.CheckpointDepth | src/inc/vault.hpp:182 | `checkpoint_count` is the number of saved counts |
| VaultImpl.Vault.Checkpoint | src/inc/vault.hpp:162-167 | writes `size` into the checkpoint array and matches `VaultSpec.Checkpoint` |
| VaultImpl.Vault.Restore | src/inc/vault.hpp:169-180 | the destruction loop empties every slot from the saved count to `size`, matching `VaultSpec.Restore` |
| VaultImpl.Vault.Clear | src/inc/vault.hpp:186-192 | the destruction loop empties every live slot, matching `VaultSpec.Clear` |
| VaultImpl.Vault.ClearCheckpoints | src/inc/vault.hpp:183 | matches `VaultSpec.ClearCheckpoints` |
| VaultImpl.Vault.Checkin | src/inc/vault.hpp:159 | `checkin` leaves the object's state exactly as `VaultSpec.Checkin` does, that is, unchanged |
| VaultImpl.Vault.Lock | src/inc/vault.hpp:195 | matches `VaultSpec.Lock` |
| VaultImpl.Vault.Unlock | src/inc/vault.hpp:196 | matches `VaultSpec.Unlock` |
| VaultImpl.Vault.Seal | src/inc/vault.hpp:199 | matches `VaultSpec.Seal` |
| VaultImpl.Vault.Move | src/inc/vault.hpp:53-69 | the move constructor copies the checkpoint array and takes over the source's buffer object itself; the result and the source match `VaultSpec.MoveConstruct` |
| VaultImpl.Vault.MoveAssign | src/inc/vault.hpp:71-93 | self-assignment changes nothing; otherwise target and source match `VaultSpec.MoveAssign` |

## Left out

- The destructor `~vault` (src/inc/vault.hpp:43-46) is not modelled. It runs `clear()` and frees the buffer, and nothing can observe the object afterwards.
- `malloc`, `free`, placement `new` and explicit `~T()` calls are not modelled. A slot is either `Live(x)` (constructed) or `Vacant` (raw storage). Relocation is a slot-by-slot copy that leaves the old slot `Vacant`.
- `std::bad_alloc` is modelled by a boolean `mallocOk` argument. It stands for whether `malloc` returns a block, which the model cannot decide.
- `data()`, `begin()` and `end()` return raw pointers, and their addresses are not modelled. They expose the live sequence `elems` in index order. `emplace`, `get`, `top` and `checkout` return pointers in the code. The model returns the element, or the index of the new element for `Vault.Emplace`.
- The `const` overloads of `get`, `operator[]`, `begin`, `end` and `data` behave like the non-const ones and are not modelled separately. `operator[]` is `*get(index)` and is modelled by `Get`.
- The deleted copy constructor and copy assignment are not modelled, since there is nothing to model.
- Exception types and message strings are not modelled. Only the kind of failure is kept (`VaultSpec.Error`).
- `VaultImpl.Vault.MoveAssign` does not destroy the target's old objects slot by slot before dropping its buffer. That buffer is freed and unreachable afterwards, and the state result is the same.
- `VaultSpec.Emplace` grows through the checked `VaultSpec.Reserve`, computing `GrowTarget` without `size_t` wrap-around. On a full, unsealed vault it differs from the code exactly when `GrowTarget(capacity) * sizeof(T)` exceeds `SIZE_MAX`: the model then fails with bad_alloc, while the code does one of two things. At `capacity >= 2^63` its `capacity * 2` wraps, `reserve` is a no-op and the new object is written past the buffer. Otherwise the byte count wraps as in the Findings row: with `sizeof(T) == 8` and `capacity == 2^60` the code asks `malloc` for 0 bytes and records capacity 2^61, and from an empty buffer with `sizeof(T) == 2^61` it asks for `16 * 2^61 mod 2^64 == 0` bytes and records capacity 16 (`VaultProperties.FirstGrowthWraps`). `VaultSpec.New` and `VaultImpl.Vault.New` differ from the constructor the same way, through the checked reserve.
- `VaultSpec.GrowTarget` is strictly larger than the capacity only in unbounded arithmetic. In `size_t`, `capacity * 2` wraps for `capacity >= 2^63`, as the line above describes.
- `VaultSpec.Emplace`, `VaultSpec.Reserve`, `VaultImpl.Vault.Emplace` and `VaultImpl.Vault.Reserve` assume that `T`'s constructors do not throw: the model takes an already-built `x` and copies slots. In the code, a constructor that throws in `emplace`'s placement `new` leaves the vault with its new capacity if `reserve` had just grown it, though `emplace` failed. A move constructor that throws in `reserve`'s relocation loop leaves the new buffer leaked, the old buffer in place and the objects already moved out destroyed but still counted by `size`. So these members' promise that a failed call leaves the state unchanged covers only the Sealed and bad_alloc errors.
- The demonstration functions and the command-line program are not modelled: `src/lib/example.cpp`, `src/inc/example.hpp`, `src/bin/main.cpp` and their test. They only print fixed strings.
- The test-harness macros are not modelled. The tests appear only as the scenarios in `VaultScenarios`.
- Thread safety is not modelled. The class is single-threaded and has no synchronisation.

## Findings

| source | as written | input that shows it | evidently intended | confidence | as-written member | corrected member |
|---|---|---|---|---|---|---|
| src/inc/vault.hpp:100-111 | `reserve` computes `newCap * sizeof(T)` in `size_t`, which wraps. It passes the wrapped byte count to `malloc` and then sets `capacity = newCap` | `reserve(0x2000000000000001)` (also reachable through the constructor) on a vault with `sizeof(T) == 8` and a 64-bit `size_t`. `malloc(8)` is called but capacity becomes 2^61 + 1, so the second `emplace` writes past the block | reject a `newCap` whose byte size exceeds `SIZE_MAX` with `std::bad_alloc` | medium, not executed | VaultSpec.ReserveAsWritten (exhibited by VaultProperties.ReserveAsWrittenUndersizes) | VaultSpec.Reserve (proved by VaultProperties.ReserveRequestsWholeBuffer) |
