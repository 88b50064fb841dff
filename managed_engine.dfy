/**
 * The managed wrapper `Piece.Core.Engine`: a native handle and a disposed
 * flag, guarded by `Initialize`, `Update`, `Render` and `Dispose`. The native
 * entry points are not visible from here; they appear as the calls recorded
 * in a history, and the value `Engine_Initialize` returns is a parameter.
 */
module ManagedEngine {
  import opened Wrappers
  import opened NativeTypes

  /** An `IntPtr`; 0 is `IntPtr.Zero`. */
  type Handle = int

  /** A P/Invoke call into the native library. */
  datatype NativeCall =
    | RegisterLogCallback
    | EngineInitialize
    | EngineUpdate(handle: Handle, deltaTime: Float32)
    | EngineRender(handle: Handle)
    | EngineDestroy(handle: Handle)

  /** The exceptions the wrapper throws. */
  datatype EngineException = InvalidOperation | ObjectDisposed

  /** The wrapper's two fields. */
  datatype EngineState = EngineState(handle: Handle, disposed: bool)

  /** What `new Engine()` holds: no native handle, not disposed. */
  const NewEngine: EngineState := EngineState(0, false)

  /** A public call on the wrapper; for `Initialize`, with the handle the native initialiser will return. */
  datatype Operation =
    | Initialize(nativeResult: Handle)
    | Update(deltaTime: Float32)
    | Render
    | Dispose

  /** The new fields, the native calls made and the outcome of one public call. */
  datatype Transition = Transition(state: EngineState, calls: seq<NativeCall>, outcome: Outcome<EngineException>)

  /** The effect of one public call, as Engine.cs states it. */
  function Step(s: EngineState, op: Operation): (t: Transition)
    // Initialize: no-op while a handle is held; otherwise register the callback, then
    // initialise, and throw if the native side returned zero. The disposed flag is never read.
    ensures op.Initialize? && s.handle != 0 ==> t == Transition(s, [], Pass)
    ensures op.Initialize? && s.handle == 0 ==>
      && t.calls == [RegisterLogCallback, EngineInitialize]
      && t.state == EngineState(op.nativeResult, s.disposed)
      && (t.outcome.Fail? <==> op.nativeResult == 0)
      && (t.outcome.Fail? ==> t.outcome.error == InvalidOperation)
    // Update and Render: throw once disposed; otherwise one native call iff a handle is held.
    ensures (op.Update? || op.Render?) ==> t.state == s
    ensures (op.Update? || op.Render?) && s.disposed ==> t.calls == [] && t.outcome == Fail(ObjectDisposed)
    ensures op.Update? && !s.disposed ==>
      t.outcome == Pass && t.calls == (if s.handle != 0 then [EngineUpdate(s.handle, op.deltaTime)] else [])
    ensures op.Render? && !s.disposed ==>
      t.outcome == Pass && t.calls == (if s.handle != 0 then [EngineRender(s.handle)] else [])
    // Dispose: destroy a held handle once, zero it, and mark disposed; a second Dispose does nothing.
    ensures op.Dispose? ==> t.outcome == Pass && t.state.disposed
    ensures op.Dispose? && s.disposed ==> t.state == s && t.calls == []
    ensures op.Dispose? && !s.disposed ==>
      t.state.handle == 0 && t.calls == (if s.handle != 0 then [EngineDestroy(s.handle)] else [])
  {
    match op
    case Initialize(nativeResult) =>
      if s.handle != 0 then Transition(s, [], Pass)
      else
        var next := s.(handle := nativeResult);
        Transition(next, [RegisterLogCallback, EngineInitialize], if nativeResult == 0 then Fail(InvalidOperation) else Pass)
    case Update(deltaTime) =>
      if s.disposed then Transition(s, [], Fail(ObjectDisposed))
      else if s.handle != 0 then Transition(s, [EngineUpdate(s.handle, deltaTime)], Pass)
      else Transition(s, [], Pass)
    case Render =>
      if s.disposed then Transition(s, [], Fail(ObjectDisposed))
      else if s.handle != 0 then Transition(s, [EngineRender(s.handle)], Pass)
      else Transition(s, [], Pass)
    case Dispose =>
      if s.disposed then Transition(s, [], Pass)
      else if s.handle != 0 then Transition(EngineState(0, true), [EngineDestroy(s.handle)], Pass)
      else Transition(s.(disposed := true), [], Pass)
  }

  /**
   * A sequence of public calls, first to last. A thrown exception does not
   * stop the sequence: a host that catches it may go on calling.
   */
  function Run(s: EngineState, ops: seq<Operation>): (EngineState, seq<NativeCall>)
    decreases |ops|
  {
    if ops == [] then (s, [])
    else
      var t := Step(s, ops[0]);
      var rest := Run(t.state, ops[1..]);
      (rest.0, t.calls + rest.1)
  }

  /** The number of `Engine_Destroy` calls in a history. */
  function DestroyCount(calls: seq<NativeCall>): nat
    decreases |calls|
  {
    if calls == [] then 0
    else (if calls[0].EngineDestroy? then 1 else 0) + DestroyCount(calls[1..])
  }

  lemma {:induction false} DestroyCountAppend(a: seq<NativeCall>, b: seq<NativeCall>)
    ensures DestroyCount(a + b) == DestroyCount(a) + DestroyCount(b)
    decreases |a|
  {
    if a == [] {
      assert a + b == b;
    } else {
      assert (a + b)[1..] == a[1..] + b;
      DestroyCountAppend(a[1..], b);
    }
  }

  /**
   * `Engine_Destroy` is called at most once over the wrapper's life, and not
   * at all once it is disposed, whatever the host calls and in whatever order.
   */
  lemma {:induction false} DestroyAtMostOnce(s: EngineState, ops: seq<Operation>)
    ensures DestroyCount(Run(s, ops).1) <= if s.disposed then 0 else 1
    decreases |ops|
  {
    if ops != [] {
      var t := Step(s, ops[0]);
      DestroyAtMostOnce(t.state, ops[1..]);
      DestroyCountAppend(t.calls, Run(t.state, ops[1..]).1);
      assert DestroyCount(t.calls) == if ops[0].Dispose? && !s.disposed && s.handle != 0 then 1 else 0;
    }
  }

  /** Every `Engine_Destroy` destroys a held (non-zero) handle. */
  lemma {:induction false} DestroyOnlyHeldHandles(s: EngineState, ops: seq<Operation>)
    ensures forall c :: c in Run(s, ops).1 && c.EngineDestroy? ==> c.handle != 0
    decreases |ops|
  {
    if ops != [] {
      DestroyOnlyHeldHandles(Step(s, ops[0]).state, ops[1..]);
    }
  }

  /**
   * After `Dispose`, every `Update`, `Render` and `Dispose` is inert: the
   * only native calls still possible are those of `Initialize`, which never
   * consults the disposed flag.
   */
  lemma {:induction false} DisposedOnlyReinitializes(s: EngineState, ops: seq<Operation>)
    requires s.disposed
    ensures Run(s, ops).0.disposed
    ensures forall c :: c in Run(s, ops).1 ==> c == RegisterLogCallback || c == EngineInitialize
    decreases |ops|
  {
    if ops != [] {
      DisposedOnlyReinitializes(Step(s, ops[0]).state, ops[1..]);
    }
  }

  /**
   * `Initialize` after `Dispose` acquires a second native engine that the
   * wrapper can never destroy: Dispose is now a no-op and Update throws.
   */
  lemma InitializeAfterDisposeIsNeverDestroyed(first: Handle, second: Handle, dt: Float32)
    requires first != 0 && second != 0
    ensures var r := Run(NewEngine, [Initialize(first), Dispose, Initialize(second), Dispose]);
      && r.0 == EngineState(second, true)
      && r.1 == [RegisterLogCallback, EngineInitialize, EngineDestroy(first), RegisterLogCallback, EngineInitialize]
    ensures Step(EngineState(second, true), Update(dt)).outcome == Fail(ObjectDisposed)
  {
    var s1 := EngineState(first, false);
    var s2 := EngineState(0, true);
    var s3 := EngineState(second, true);
    var r4 := Run(s3, [Dispose]);
    assert [Dispose][1..] == [];
    assert Run(s3, []) == (s3, []);
    assert r4.0 == s3 && r4.1 == [];
    var r3 := Run(s2, [Initialize(second), Dispose]);
    assert [Initialize(second), Dispose][1..] == [Dispose];
    assert r3.0 == s3 && r3.1 == [RegisterLogCallback, EngineInitialize];
    var r2 := Run(s1, [Dispose, Initialize(second), Dispose]);
    assert [Dispose, Initialize(second), Dispose][1..] == [Initialize(second), Dispose];
    assert r2.0 == s3 && r2.1 == [EngineDestroy(first), RegisterLogCallback, EngineInitialize];
    assert [Initialize(first), Dispose, Initialize(second), Dispose][1..] == [Dispose, Initialize(second), Dispose];
  }

  /** `Piece.Core.Engine`. */
  class Engine {
    var nativeEngineCorePtr: Handle
    var disposed: bool
    /** The P/Invoke calls this wrapper has made, oldest first. */
    ghost var nativeCalls: seq<NativeCall>

    function State(): EngineState
      reads this
    {
      EngineState(nativeEngineCorePtr, disposed)
    }

    constructor ()
      ensures State() == NewEngine && nativeCalls == []
    {
      nativeEngineCorePtr := 0;
      disposed := false;
      nativeCalls := [];
    }

    /** `nativeResult` is what `NativeCalls.Engine_Initialize()` returns when it is called. */
    method Initialize(nativeResult: Handle) returns (outcome: Outcome<EngineException>)
      modifies this
      ensures var t := Step(old(State()), Operation.Initialize(nativeResult));
        State() == t.state && nativeCalls == old(nativeCalls) + t.calls && outcome == t.outcome
    {
      if nativeEngineCorePtr != 0 {
        return Pass;
      }
      nativeCalls := nativeCalls + [RegisterLogCallback];
      nativeEngineCorePtr := nativeResult;
      nativeCalls := nativeCalls + [EngineInitialize];
      if nativeEngineCorePtr == 0 {
        return Fail(InvalidOperation);
      }
      return Pass;
    }

    method Update(deltaTime: Float32) returns (outcome: Outcome<EngineException>)
      modifies this`nativeCalls
      ensures var t := Step(State(), Operation.Update(deltaTime));
        nativeCalls == old(nativeCalls) + t.calls && outcome == t.outcome
    {
      outcome := ThrowIfDisposed();
      if outcome.Fail? {
        return;
      }
      if nativeEngineCorePtr != 0 {
        nativeCalls := nativeCalls + [EngineUpdate(nativeEngineCorePtr, deltaTime)];
      }
    }

    method Render() returns (outcome: Outcome<EngineException>)
      modifies this`nativeCalls
      ensures var t := Step(State(), Operation.Render);
        nativeCalls == old(nativeCalls) + t.calls && outcome == t.outcome
    {
      outcome := ThrowIfDisposed();
      if outcome.Fail? {
        return;
      }
      if nativeEngineCorePtr != 0 {
        nativeCalls := nativeCalls + [EngineRender(nativeEngineCorePtr)];
      }
    }

    /** `Dispose()` together with `Dispose(bool disposing)`. */
    method Dispose()
      modifies this
      ensures var t := Step(old(State()), Operation.Dispose);
        State() == t.state && nativeCalls == old(nativeCalls) + t.calls
    {
      if !disposed {
        if nativeEngineCorePtr != 0 {
          nativeCalls := nativeCalls + [EngineDestroy(nativeEngineCorePtr)];
          nativeEngineCorePtr := 0;
        }
        disposed := true;
      }
    }

    /** Throws `ObjectDisposedException` exactly when the wrapper is disposed. */
    method ThrowIfDisposed() returns (outcome: Outcome<EngineException>)
      ensures outcome.Fail? <==> disposed
      ensures outcome.Fail? ==> outcome.error == ObjectDisposed
    {
      if disposed {
        return Fail(ObjectDisposed);
      }
      return Pass;
    }
  }
}
