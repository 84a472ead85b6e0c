/**
 * Whole lifetimes of a handle: any sequence of public calls, dispatch event
 * handlers and run-loop callbacks after creation, and what holds over all of
 * them.
 */
module Traces {
  import opened Flags
  import opened FdTypes
  import opened DispatchLog
  import opened RunLoopLog
  import T = Transitions
  import I = Invariant

  /** One thing that can happen to a handle after its creation. */
  datatype Op =
    | Enable(callBackTypes: OptionFlags)                            // CFFileDescriptorEnableCallBacks
    | Disable(callBackTypes: OptionFlags)                           // CFFileDescriptorDisableCallBacks
    | Invalidation                                                  // CFFileDescriptorInvalidate
    | NewRunLoopSource(order: int, stillValid: bool, created: SourceRef) // CFFileDescriptorCreateRunLoopSource
    | Fire(callBackType: OptionFlags)                               // a dispatch source's event handler
    | Scheduled(rl: Option<RunLoopRef>)                             // the schedule callback
    | Unscheduled                                                   // the cancel callback
    | Performed                                                     // the perform callback

  function Step(s: FdState, op: Op): FdState {
    match op
    case Enable(m) => T.EnableCallBacks(s, m)
    case Disable(m) => T.DisableCallBacks(s, m)
    case Invalidation => T.Invalidate(s)
    case NewRunLoopSource(o, v, c) => T.CreateRunLoopSource(s, o, v, c).0
    case Fire(t) => T.HandleEvent(s, t)
    case Scheduled(rl) => T.Schedule(s, rl)
    case Unscheduled => T.Cancel(s)
    case Performed => T.Perform(s)
  }

  /** libdispatch's side of the contract: a source's event handler runs only
    * while that source exists and is resumed. Everything else may happen at
    * any time. */
  predicate Possible(s: FdState, op: Op) {
    op.Fire? ==> (op.callBackType == ReadCallBack && s.read.Active())
                 || (op.callBackType == WriteCallBack && s.write.Active())
  }

  /** The state after the operations `ops`, in order. */
  function Run(s: FdState, ops: seq<Op>): FdState
    decreases |ops|
  {
    if ops == [] then s else Step(Run(s, ops[..|ops| - 1]), ops[|ops| - 1])
  }

  /** Every operation of `ops` is possible when it happens. */
  predicate Feasible(s: FdState, ops: seq<Op>)
    decreases |ops|
  {
    ops == [] || (Feasible(s, ops[..|ops| - 1]) && Possible(Run(s, ops[..|ops| - 1]), ops[|ops| - 1]))
  }

  /** Every operation keeps the invariant. */
  lemma StepKeeps(s: FdState, op: Op)
    requires I.Consistent(s)
    ensures I.Consistent(Step(s, op))
  {
    match op
    case Enable(m) => I.EnableCallBacksKeeps(s, m);
    case Disable(m) => I.DisableCallBacksKeeps(s, m);
    case Invalidation => I.InvalidateKeeps(s);
    case NewRunLoopSource(o, v, c) => I.CreateRunLoopSourceKeeps(s, o, v, c);
    case Fire(t) => I.HandleEventKeeps(s, t);
    case Scheduled(rl) => I.ScheduleKeeps(s, rl);
    case Unscheduled => I.CancelKeeps(s);
    case Performed => I.PerformKeeps(s);
  }

  /** Every sequence of operations keeps the invariant. */
  lemma {:induction false} RunKeeps(s: FdState, ops: seq<Op>)
    requires I.Consistent(s)
    ensures I.Consistent(Run(s, ops))
    decreases |ops|
  {
    if ops != [] {
      RunKeeps(s, ops[..|ops| - 1]);
      StepKeeps(Run(s, ops[..|ops| - 1]), ops[|ops| - 1]);
    }
  }

  /** No operation changes the descriptor, the close-on-invalidate policy,
    * the callout or the context. */
  lemma {:induction false} SameHandleAlongRun(s: FdState, ops: seq<Op>)
    ensures var r := Run(s, ops);
            r.fd == s.fd && r.closeOnInvalidate == s.closeOnInvalidate
            && r.callout == s.callout && r.context == s.context
    decreases |ops|
  {
    if ops != [] {
      SameHandleAlongRun(s, ops[..|ops| - 1]);
      StepSameHandle(Run(s, ops[..|ops| - 1]), ops[|ops| - 1]);
    }
  }

  lemma StepSameHandle(s: FdState, op: Op)
    ensures var r := Step(s, op);
            r.fd == s.fd && r.closeOnInvalidate == s.closeOnInvalidate
            && r.callout == s.callout && r.context == s.context
  {
    match op
    case Enable(m) =>
    case Disable(m) =>
    case Invalidation =>
    case NewRunLoopSource(o, v, c) =>
    case Fire(t) =>
    case Scheduled(rl) =>
    case Unscheduled =>
    case Performed =>
  }

  /** The state right after a successful `CFFileDescriptorCreate`. */
  function Created(fd: int, closeOnInvalidate: bool, callout: Callout, context: Option<Context>): (s: FdState)
    ensures I.Consistent(s)
  {
    I.CreateIsConsistent(fd, closeOnInvalidate, Some(callout), context, true);
    T.Create(fd, closeOnInvalidate, Some(callout), context, true).value
  }

  /** Over any lifetime the descriptor is closed at most once, and it has been
    * closed exactly when the handle was invalidated with close-on-invalidate set. */
  lemma ClosedAtMostOnce(fd: int, closeOnInvalidate: bool, callout: Callout,
                         context: Option<Context>, ops: seq<Op>)
    ensures var r := Run(Created(fd, closeOnInvalidate, callout, context), ops);
            multiset(r.log)[Closed] <= 1
            && (multiset(r.log)[Closed] == 1 <==> closeOnInvalidate && !r.valid)
  {
    var s0 := Created(fd, closeOnInvalidate, callout, context);
    RunKeeps(s0, ops);
    var r := Run(s0, ops);
    assert I.ClosedOnlyAtInvalidate(r);
    assert r.closeOnInvalidate == closeOnInvalidate by {
      SameHandleAlongRun(s0, ops);
    }
  }

  /** Over any lifetime, every libdispatch call the handle makes keeps the
    * component's rules when it is made: no source is created twice, suspended
    * twice, resumed while running, or cancelled while suspended. */
  lemma DispatchCallsAreLawful(fd: int, closeOnInvalidate: bool, callout: Callout,
                               context: Option<Context>, ops: seq<Op>, d: Direction, k: nat)
    requires k <= |Run(Created(fd, closeOnInvalidate, callout, context), ops).log|
    ensures Replay(Run(Created(fd, closeOnInvalidate, callout, context), ops).log[..k], d).lawful
  {
    var r := Run(Created(fd, closeOnInvalidate, callout, context), ops);
    RunKeeps(Created(fd, closeOnInvalidate, callout, context), ops);
    assert I.Agrees(r, Read) && I.Agrees(r, Write);
    LawfulPrefix(r.log, d, k);
  }

  /** Over any lifetime the handle keeps its one run-loop source: at every
    * point of the log the releases never outnumber the creations and at most
    * one source is outstanding, each release names the source then held, no
    * source is created while one is held, the one outstanding is the stored
    * one, and once the handle is invalid every source created has been
    * released. Releasing a stale source before invalidation, as
    * `CFFileDescriptorCreateRunLoopSource` does, keeps the balance too. */
  lemma RunLoopSourceReleasedOnce(fd: int, closeOnInvalidate: bool, callout: Callout,
                                  context: Option<Context>, ops: seq<Op>, k: nat)
    requires k <= |Run(Created(fd, closeOnInvalidate, callout, context), ops).log|
    ensures var r := Run(Created(fd, closeOnInvalidate, callout, context), ops);
            var prefix := r.log[..k];
            && Holdings(prefix).sound
            && Releases(prefix) <= Creations(prefix) <= Releases(prefix) + 1
            && Holdings(r.log).held == r.source0
            && Creations(r.log) == Releases(r.log) + (if r.source0.Some? then 1 else 0)
            && (!r.valid ==> Creations(r.log) == Releases(r.log))
  {
    var r := Run(Created(fd, closeOnInvalidate, callout, context), ops);
    RunKeeps(Created(fd, closeOnInvalidate, callout, context), ops);
    assert I.HoldsItsSource(r) && I.TornDown(r);
    SoundBalances(r.log);
    SoundPrefix(r.log, k);
    SoundBalances(r.log[..k]);
  }

  /** One possible step of an invalid handle changes nothing but, for a
    * perform, records one callout. */
  lemma StepWhenInvalid(s: FdState, op: Op)
    requires I.TornDown(s) && !s.valid && Possible(s, op)
    ensures var r := Step(s, op);
            && !r.valid && !r.read.present && !r.write.present && r.source0.None?
            && (r.log == s.log || r.log == s.log + [CalledOut(s.callout, WriteCallBack, T.PerformInfo(s))])
  {
    match op
    case Enable(m) =>
    case Disable(m) =>
    case Invalidation =>
    case NewRunLoopSource(o, v, c) =>
    case Fire(t) => assert false;
    case Scheduled(rl) =>
    case Unscheduled =>
    case Performed =>
  }

  /** Invalidation is terminal: once invalid, a handle stays invalid, owns no
    * source, reports no descriptor, hands out no context, and the only calls
    * it still makes are consumer callouts from a perform the run loop still
    * runs (the run-loop source is released, not invalidated). */
  lemma {:induction false} InvalidIsTerminal(s: FdState, ops: seq<Op>, dest: Option<Context>)
    requires I.Consistent(s) && !s.valid && Feasible(s, ops)
    ensures var r := Run(s, ops);
            && !r.valid && !r.read.present && !r.write.present && r.source0.None?
            && T.GetNativeDescriptor(r) == -1 && T.GetContext(r, dest) == dest
            && |r.log| >= |s.log| && r.log[..|s.log|] == s.log
            && forall k :: |s.log| <= k < |r.log| ==> r.log[k].CalledOut?
    decreases |ops|
  {
    if ops != [] {
      var front := ops[..|ops| - 1];
      InvalidIsTerminal(s, front, dest);
      var p := Run(s, front);
      var r := Step(p, ops[|ops| - 1]);
      StepWhenInvalid(p, ops[|ops| - 1]);
      assert r.log[..|p.log|] == p.log;
      assert r.log[..|s.log|] == p.log[..|s.log|];
    }
  }

  /** An invalid handle makes no further libdispatch call: every direction's
    * replayed view stays what it was at invalidation. */
  lemma NoDispatchCallsOnceInvalid(s: FdState, ops: seq<Op>, d: Direction)
    requires I.Consistent(s) && !s.valid && Feasible(s, ops)
    ensures Replay(Run(s, ops).log, d) == Replay(s.log, d)
  {
    var r := Run(s, ops);
    InvalidIsTerminal(s, ops, None);
    var more := r.log[|s.log|..];
    assert r.log == s.log + more;
    ReplayIgnores(s.log, more, d);
  }

  /** `Invalidate` called n >= 1 times in a row does what one call does. */
  lemma {:induction false} InvalidateIsIdempotent(s: FdState, n: nat)
    requires n >= 1
    ensures Run(s, seq(n, _ => Invalidation)) == T.Invalidate(s)
  {
    var ops := seq(n, _ => Invalidation);
    if n > 1 {
      InvalidateIsIdempotent(s, n - 1);
      assert ops[..n - 1] == seq(n - 1, _ => Invalidation);
    } else {
      assert ops[..0] == [];
    }
  }

  /** Enabling the same directions again changes nothing: a second call finds
    * every requested watcher present and running. */
  lemma EnableIsIdempotent(s: FdState, callBackTypes: OptionFlags)
    ensures T.EnableCallBacks(T.EnableCallBacks(s, callBackTypes), callBackTypes)
            == T.EnableCallBacks(s, callBackTypes)
  {
  }

  /** Disabling the same directions again changes nothing. */
  lemma DisableIsIdempotent(s: FdState, callBackTypes: OptionFlags)
    ensures T.DisableCallBacks(T.DisableCallBacks(s, callBackTypes), callBackTypes)
            == T.DisableCallBacks(s, callBackTypes)
  {
    var r := T.DisableCallBacks(s, callBackTypes);
    if s.valid && callBackTypes != 0 {
      var r1 := if Requests(callBackTypes, Read) && r.read.present then T.SuspendSource(r, ReadCallBack) else r;
      assert r1 == r;
      var r2 := if Requests(callBackTypes, Write) && r1.write.present then T.SuspendSource(r1, WriteCallBack) else r1;
      assert r2 == r;
    }
  }

  /** The most recent request for direction `d` among `ops`: Some(true) for an
    * enable, Some(false) for a disable, None if `d` was never requested. */
  function LastRequest(ops: seq<Op>, d: Direction): Option<bool>
    decreases |ops|
  {
    if ops == [] then None
    else
      var op := ops[|ops| - 1];
      if (op.Enable? || op.Disable?) && Requests(op.callBackTypes, d) then Some(op.Enable?)
      else LastRequest(ops[..|ops| - 1], d)
  }

  /** On a valid handle, after any sequence of enables and disables a
    * direction's watcher is armed exactly when the last call that named that
    * direction was an enable (or, if none named it, when it was armed before). */
  lemma {:induction false} ArmedFollowsLastRequest(s: FdState, ops: seq<Op>, d: Direction)
    requires I.Consistent(s) && s.valid
    requires forall k :: 0 <= k < |ops| ==> ops[k].Enable? || ops[k].Disable?
    ensures Run(s, ops).valid
    ensures Run(s, ops).W(d).Active() <==>
              match LastRequest(ops, d)
              case Some(enabled) => enabled
              case None => s.W(d).Active()
    decreases |ops|
  {
    if ops != [] {
      var front := ops[..|ops| - 1];
      ArmedFollowsLastRequest(s, front, d);
      RunKeeps(s, front);
    }
  }

  /** One-shot firing: once direction `d`'s handler has run, it cannot run
    * again until an enable names `d`, whatever else happens meanwhile. */
  lemma {:induction false} FiringIsOneShot(s: FdState, ops: seq<Op>, d: Direction)
    requires forall k :: 0 <= k < |ops| ==> !(ops[k].Enable? && Requests(ops[k].callBackTypes, d))
    ensures !Run(Step(s, Fire(Flag(d))), ops).W(d).Active()
    ensures !Possible(Run(Step(s, Fire(Flag(d))), ops), Fire(Flag(d)))
    decreases |ops|
  {
    if ops != [] {
      FiringIsOneShot(s, ops[..|ops| - 1], d);
      StepKeepsDisarmed(Run(Step(s, Fire(Flag(d))), ops[..|ops| - 1]), ops[|ops| - 1], d);
    }
  }

  /** A step that does not enable direction `d` never arms it. */
  lemma StepKeepsDisarmed(s: FdState, op: Op, d: Direction)
    requires !s.W(d).Active()
    requires !(op.Enable? && Requests(op.callBackTypes, d))
    ensures !Step(s, op).W(d).Active()
  {
    match d
    case Read =>
    case Write =>
  }

  /** Where the code departs from "return the existing source": once a
    * still-valid run-loop source exists, a second request returns NULL and
    * keeps the stored source. */
  lemma SecondRunLoopSourceIsNull(s: FdState, order: int, stillValid: bool, created: SourceRef,
                                  order2: int, created2: SourceRef)
    requires T.CreateRunLoopSource(s, order, stillValid, created).1.Some?
    ensures var s1 := T.CreateRunLoopSource(s, order, stillValid, created).0;
            T.CreateRunLoopSource(s1, order2, true, created2) == (s1, None)
  {
  }
}
