/** Sequences of calls on one vault, made by a caller that catches every
    exception and carries on. They state the whole-history properties: the
    class invariant and the seal survive every call, `restore` unwinds nested
    checkpoints in last-in first-out order, and the `locked` flag is never
    consulted. */
module VaultScripts {
  import opened VaultSpec

  /** One state-changing member call. Reads (`get`, `top`, `checkout`) change
      nothing and are not listed. */
  datatype Op<T> =
    | ReserveOp(newCap: nat, mallocOk: bool)
    | EmplaceOp(x: T, mallocOk: bool)
    | CheckpointOp
    | RestoreOp
    | ClearCheckpointsOp
    | ClearOp
    | CheckinOp(x: T)
    | LockOp
    | UnlockOp
    | SealOp

  /** The state after one call; a call that throws leaves the state as it was. */
  function Step<T>(v: State<T>, op: Op<T>): (r: State<T>)
    requires Valid(v)
    ensures Valid(r)
    ensures v.sealed ==> r.sealed
    ensures r.elemSize == v.elemSize && r.maxCheckpoints == v.maxCheckpoints
  {
    match op
    case ReserveOp(n, ok) => OrKeep(v, Reserve(v, n, ok))
    case EmplaceOp(x, ok) => OrKeep(v, Emplace(v, x, ok))
    case CheckpointOp => OrKeep(v, Checkpoint(v))
    case RestoreOp => OrKeep(v, Restore(v))
    case ClearCheckpointsOp => ClearCheckpoints(v)
    case ClearOp => Clear(v)
    case CheckinOp(x) => Checkin(v, x)
    case LockOp => Lock(v)
    case UnlockOp => Unlock(v)
    case SealOp => Seal(v)
  }

  /** The state a caller holds after catching the exception of `r`, if any. */
  function OrKeep<T>(v: State<T>, r: Result<State<T>>): State<T>
  {
    match r
    case Ok(w) => w
    case Err(_) => v
  }

  /** A call history with its checkpoint scopes made explicit:
      `Then(op, rest)` makes one call, and `Scoped(body, rest)` calls
      `checkpoint()`, runs `body`, calls `restore()` and continues with
      `rest`. A flat history is a chain of `Then`. */
  datatype Script<T> =
    | Done
    | Then(op: Op<T>, rest: Script<T>)
    | Scoped(body: Script<T>, rest: Script<T>)

  /** Runs a script from `v`. */
  function Run<T>(v: State<T>, s: Script<T>): (r: State<T>)
    requires Valid(v)
    ensures Valid(r)
    ensures v.sealed ==> r.sealed
    ensures r.elemSize == v.elemSize && r.maxCheckpoints == v.maxCheckpoints
    decreases s
  {
    match s
    case Done => v
    case Then(op, rest) => Run(Step(v, op), rest)
    case Scoped(body, rest) =>
      var inner := Run(Step(v, CheckpointOp), body);
      Run(Step(inner, RestoreOp), rest)
  }

  /** The deepest nesting of checkpoint scopes in a script. */
  function Depth<T>(s: Script<T>): nat
  {
    match s
    case Done => 0
    case Then(_, rest) => Depth(rest)
    case Scoped(body, rest) =>
      var d := 1 + Depth(body);
      if d >= Depth(rest) then d else Depth(rest)
  }

  /** Every single call in the script leaves the checkpoint stack alone and
      never shortens the live prefix: checkpoints and restores only occur as
      scopes, and nothing clears. */
  predicate Structured<T>(s: Script<T>)
  {
    match s
    case Done => true
    case Then(op, rest) =>
      && (op.ReserveOp? || op.EmplaceOp? || op.CheckinOp? || op.LockOp? || op.UnlockOp? || op.SealOp?)
      && Structured(rest)
    case Scoped(body, rest) => Structured(body) && Structured(rest)
  }

  /** The script makes no `lock()` or `unlock()` call. */
  predicate LockFree<T>(s: Script<T>)
  {
    match s
    case Done => true
    case Then(op, rest) => !op.LockOp? && !op.UnlockOp? && LockFree(rest)
    case Scoped(body, rest) => LockFree(body) && LockFree(rest)
  }

  /** A single call allowed in a structured script keeps the checkpoint stack
      and keeps the live elements as a prefix. */
  lemma FlatStepKeepsCheckpoints<T>(v: State<T>, op: Op<T>)
    requires Valid(v)
    requires op.ReserveOp? || op.EmplaceOp? || op.CheckinOp? || op.LockOp? || op.UnlockOp? || op.SealOp?
    ensures Step(v, op).saved == v.saved
    ensures v.elems <= Step(v, op).elems
  {
    if op.EmplaceOp? && Emplace(v, op.x, op.mallocOk).Ok? {
      assert Emplace(v, op.x, op.mallocOk).value.elems[..Count(v)] == v.elems;
    }
  }

  /** `restore()` after a body that kept the checkpoint pushed on entry and
      extended the elements returns to the elements and stack of the entry. */
  lemma RestoreClosesScope<T>(v: State<T>, inner: State<T>)
    requires Valid(v) && Valid(inner) && CheckpointDepth(v) < v.maxCheckpoints
    requires inner.saved == Step(v, CheckpointOp).saved
    requires v.elems <= inner.elems
    ensures Step(inner, RestoreOp).saved == v.saved
    ensures Step(inner, RestoreOp).elems == v.elems
  {
    assert inner.saved == v.saved + [Count(v)];
    assert inner.saved[..|inner.saved| - 1] == v.saved;
  }

  /** A structured script whose scopes fit on the checkpoint stack ends with
      the same checkpoint stack it started with, and the elements live at the
      start are still live, unchanged and in place, at the end. */
  lemma {:induction false} StructuredKeepsCheckpoints<T>(v: State<T>, s: Script<T>)
    requires Valid(v) && Structured(s)
    requires CheckpointDepth(v) + Depth(s) <= v.maxCheckpoints
    ensures Run(v, s).saved == v.saved
    ensures v.elems <= Run(v, s).elems
    decreases s
  {
    match s
    case Done =>
    case Then(op, rest) =>
      var w := Step(v, op);
      FlatStepKeepsCheckpoints(v, op);
      StructuredKeepsCheckpoints(w, rest);
      PrefixTransitive(v.elems, w.elems, Run(w, rest).elems);
    case Scoped(body, rest) =>
      var c := Step(v, CheckpointOp);
      assert CheckpointDepth(c) + Depth(body) <= c.maxCheckpoints;
      StructuredKeepsCheckpoints(c, body);
      var inner := Run(c, body);
      RestoreClosesScope(v, inner);
      var back := Step(inner, RestoreOp);
      StructuredKeepsCheckpoints(back, rest);
  }

  /** A checkpoint scope undoes everything its body did to the elements and
      to the checkpoint stack, however deeply the body nests further scopes. */
  lemma ScopeUndoesBody<T>(v: State<T>, body: Script<T>)
    requires Valid(v) && Structured(body)
    requires CheckpointDepth(v) + 1 + Depth(body) <= v.maxCheckpoints
    ensures Run(v, Scoped(body, Done)).elems == v.elems
    ensures Run(v, Scoped(body, Done)).saved == v.saved
  {
    var c := Step(v, CheckpointOp);
    StructuredKeepsCheckpoints(c, body);
    RestoreClosesScope(v, Run(c, body));
  }

  /** One call other than `lock`/`unlock` neither reads nor writes `locked`. */
  lemma StepIgnoresLock<T>(v: State<T>, op: Op<T>, flag: bool)
    requires Valid(v) && !op.LockOp? && !op.UnlockOp?
    ensures Step(v.(locked := flag), op) == Step(v, op).(locked := flag)
  {
  }

  /** No call reads `locked`: a script without `lock`/`unlock` run from a
      state with either value of the flag produces the same state apart from
      the flag, which keeps its value. */
  lemma {:induction false} LockIsNeverRead<T>(v: State<T>, s: Script<T>, flag: bool)
    requires Valid(v) && LockFree(s)
    ensures Run(v.(locked := flag), s) == Run(v, s).(locked := flag)
    decreases s
  {
    match s
    case Done =>
    case Then(op, rest) =>
      StepIgnoresLock(v, op, flag);
      LockIsNeverRead(Step(v, op), rest, flag);
    case Scoped(body, rest) =>
      var c := Step(v, CheckpointOp);
      StepIgnoresLock(v, CheckpointOp, flag);
      LockIsNeverRead(c, body, flag);
      var inner := Run(c, body);
      StepIgnoresLock(inner, RestoreOp, flag);
      LockIsNeverRead(Step(inner, RestoreOp), rest, flag);
  }

  /** Once sealed, a vault never gains an element or a slot: every later
      history keeps the capacity and leaves a prefix of the elements it had. */
  lemma {:induction false} SealedNeverGrows<T>(v: State<T>, s: Script<T>)
    requires Valid(v) && v.sealed
    ensures Run(v, s).capacity == v.capacity
    ensures Run(v, s).elems <= v.elems
    decreases s
  {
    match s
    case Done =>
    case Then(op, rest) =>
      var w := Step(v, op);
      assert w.capacity == v.capacity && w.elems <= v.elems;
      SealedNeverGrows(w, rest);
      PrefixTransitive(Run(w, rest).elems, w.elems, v.elems);
    case Scoped(body, rest) =>
      var c := Step(v, CheckpointOp);
      SealedNeverGrows(c, body);
      var inner := Run(c, body);
      var back := Step(inner, RestoreOp);
      assert back.capacity == inner.capacity && back.elems <= inner.elems;
      PrefixTransitive(back.elems, inner.elems, c.elems);
      SealedNeverGrows(back, rest);
      PrefixTransitive(Run(back, rest).elems, back.elems, v.elems);
  }

  /** Being a prefix is transitive. */
  lemma PrefixTransitive<T>(a: seq<T>, b: seq<T>, c: seq<T>)
    requires a <= b && b <= c
    ensures a <= c
  {
  }
}
