/**
 * The invariant every reachable record keeps, and one preservation lemma per
 * operation. The invariant ties the record's watcher fields to the libdispatch
 * calls it has made (so those calls always keep the component's own rules for
 * its sources, which imply libdispatch's), says an absent watcher of a live
 * handle has its suspended flag set (so a new source, which starts suspended,
 * matches its flag), that an invalid handle owns nothing, that the descriptor
 * has been closed exactly when the handle was invalidated with
 * close-on-invalidate set, and that the run-loop calls made so far hold
 * exactly the stored run-loop source.
 */
module Invariant {
  import opened Flags
  import opened FdTypes
  import opened DispatchLog
  import opened RunLoopLog
  import opened Transitions

  /** Direction `d`'s replayed dispatch calls match its fields and kept the rules. */
  predicate Agrees(s: FdState, d: Direction) {
    Replay(s.log, d) == View(s.W(d).present, if s.W(d).present && s.W(d).suspended then 1 else 0, true)
  }

  predicate WatchersAgree(s: FdState) {
    Agrees(s, Read) && Agrees(s, Write)
  }

  /** While the handle is valid an absent watcher has its suspended flag set. */
  predicate AbsentMeansSuspended(s: FdState) {
    s.valid ==> (!s.read.present ==> s.read.suspended) && (!s.write.present ==> s.write.suspended)
  }

  /** An invalid handle owns no dispatch source and no run-loop source. */
  predicate TornDown(s: FdState) {
    !s.valid ==> !s.read.present && !s.write.present && s.source0.None?
  }

  /** The descriptor has been closed once if the handle is invalid and
    * close-on-invalidate is set, and never otherwise. */
  predicate ClosedOnlyAtInvalidate(s: FdState) {
    multiset(s.log)[Closed] == if !s.valid && s.closeOnInvalidate then 1 else 0
  }

  /** The replayed run-loop calls hold exactly the stored run-loop source,
    * and every one of them kept the one-source rule. */
  predicate HoldsItsSource(s: FdState) {
    Holdings(s.log) == Holding(s.source0, true)
  }

  /** `r` records as many closes as `s`, and the same run-loop calls' effect. */
  predicate SameOtherCalls(s: FdState, r: FdState) {
    multiset(r.log)[Closed] == multiset(s.log)[Closed] && Holdings(r.log) == Holdings(s.log)
  }

  predicate Consistent(s: FdState) {
    WatchersAgree(s) && AbsentMeansSuspended(s) && TornDown(s) && ClosedOnlyAtInvalidate(s)
    && HoldsItsSource(s)
  }

  // ---------------------------------------------------------------------------
  // The helpers keep the watchers in agreement with the dispatch calls

  lemma SuspendOneAgrees(s: FdState, d: Direction)
    requires WatchersAgree(s)
    ensures WatchersAgree(SuspendOne(s, d)) && SameOtherCalls(s, SuspendOne(s, d))
  {
    if s.W(d).Active() {
      ReplaySnoc(s.log, SourceSuspended(d), Read);
      ReplaySnoc(s.log, SourceSuspended(d), Write);
      HoldingsSnoc(s.log, SourceSuspended(d));
    }
  }

  lemma SuspendSourceAgrees(s: FdState, callBackType: OptionFlags)
    requires WatchersAgree(s)
    ensures WatchersAgree(SuspendSource(s, callBackType)) && SameOtherCalls(s, SuspendSource(s, callBackType))
  {
    if callBackType == ReadCallBack {
      SuspendOneAgrees(s, Read);
    } else if callBackType == WriteCallBack {
      SuspendOneAgrees(s, Write);
    }
  }

  lemma ResumeOneAgrees(s: FdState, d: Direction)
    requires WatchersAgree(s)
    ensures WatchersAgree(ResumeOne(s, d)) && SameOtherCalls(s, ResumeOne(s, d))
  {
    if s.W(d).present && s.W(d).suspended {
      ReplaySnoc(s.log, SourceResumed(d), Read);
      ReplaySnoc(s.log, SourceResumed(d), Write);
      HoldingsSnoc(s.log, SourceResumed(d));
    }
  }

  lemma EnableSourcesAgrees(s: FdState, callBackTypes: OptionFlags)
    requires WatchersAgree(s)
    ensures WatchersAgree(EnableSources(s, callBackTypes)) && SameOtherCalls(s, EnableSources(s, callBackTypes))
  {
    var s1 := if Requests(callBackTypes, Read) then ResumeOne(s, Read) else s;
    if Requests(callBackTypes, Read) { ResumeOneAgrees(s, Read); }
    if Requests(callBackTypes, Write) { ResumeOneAgrees(s1, Write); }
  }

  lemma CreateSourceAgrees(s: FdState, d: Direction)
    requires WatchersAgree(s)
    requires !s.W(d).present && s.W(d).suspended
    ensures WatchersAgree(CreateSource(s, Flag(d))) && SameOtherCalls(s, CreateSource(s, Flag(d)))
  {
    ReplaySnoc(s.log, SourceCreated(d), Read);
    ReplaySnoc(s.log, SourceCreated(d), Write);
    HoldingsSnoc(s.log, SourceCreated(d));
  }

  lemma RemoveOneAgrees(s: FdState, d: Direction)
    requires WatchersAgree(s)
    ensures WatchersAgree(RemoveOne(s, d)) && SameOtherCalls(s, RemoveOne(s, d))
  {
    if s.W(d).present {
      ResumeOneAgrees(s, d);
      CancelAgrees(ResumeOne(s, d), d);
    }
  }

  lemma CancelAgrees(s: FdState, d: Direction)
    requires WatchersAgree(s)
    requires s.W(d).present && !s.W(d).suspended
    ensures var r := s.WithWatcher(d, s.W(d).(present := false)).Append(SourceCancelled(d));
            WatchersAgree(r) && SameOtherCalls(s, r)
  {
    ReplaySnoc(s.log, SourceCancelled(d), Read);
    ReplaySnoc(s.log, SourceCancelled(d), Write);
    ClosesAppend(s.log, SourceCancelled(d));
    HoldingsSnoc(s.log, SourceCancelled(d));
    match d
    case Read =>
      assert Agrees(s.(read := Watcher(false, false)).Append(SourceCancelled(Read)), Write);
    case Write =>
      assert Agrees(s.(write := Watcher(false, false)).Append(SourceCancelled(Write)), Read);
  }

  /** Appending an event adds one to the count of closes exactly when it is the close. */
  lemma ClosesAppend(log: seq<Event>, e: Event)
    ensures multiset(log + [e])[Closed] == multiset(log)[Closed] + if e == Closed then 1 else 0
  {
    assert multiset(log + [e]) == multiset(log) + multiset{e};
  }

  lemma RemoveSourceAgrees(s: FdState, callBackType: OptionFlags)
    requires WatchersAgree(s)
    ensures WatchersAgree(RemoveSource(s, callBackType)) && SameOtherCalls(s, RemoveSource(s, callBackType))
  {
    if callBackType == ReadCallBack {
      RemoveOneAgrees(s, Read);
    } else if callBackType == WriteCallBack {
      RemoveOneAgrees(s, Write);
    }
  }

  lemma AppendOtherAgrees(s: FdState, e: Event)
    requires WatchersAgree(s)
    requires !IsDispatchCall(e)
    ensures WatchersAgree(s.Append(e))
    ensures multiset(s.Append(e).log)[Closed] == multiset(s.log)[Closed] + if e == Closed then 1 else 0
    ensures Holdings(s.Append(e).log) == Hold(Holdings(s.log), e)
  {
    ReplaySnoc(s.log, e, Read);
    ReplaySnoc(s.log, e, Write);
    ClosesAppend(s.log, e);
    HoldingsSnoc(s.log, e);
  }

  // ---------------------------------------------------------------------------
  // Every operation keeps the invariant

  /** A freshly created handle is consistent. */
  lemma CreateIsConsistent(fd: int, closeOnInvalidate: bool, callout: Option<Callout>,
                           context: Option<Context>, instanceAllocated: bool)
    requires callout.Some? && instanceAllocated
    ensures Consistent(Create(fd, closeOnInvalidate, callout, context, instanceAllocated).value)
  {
  }

  lemma ArmKeeps(s: FdState, d: Direction)
    requires s.valid && Consistent(s)
    ensures Consistent(Arm(s, d)) && Arm(s, d).valid
  {
    var s1 := if !s.W(d).present then CreateSource(s, Flag(d)) else s;
    if !s.W(d).present { CreateSourceAgrees(s, d); }
    EnableSourcesAgrees(s1, Flag(d));
  }

  lemma EnableCallBacksKeeps(s: FdState, callBackTypes: OptionFlags)
    requires Consistent(s)
    ensures Consistent(EnableCallBacks(s, callBackTypes))
  {
    if s.valid && callBackTypes != 0 {
      EnableCallBacksArmsInTurn(s, callBackTypes);
      ArmBothKeeps(s, callBackTypes);
    }
  }

  /** Enabling is arming the read direction if requested, then the write one. */
  lemma EnableCallBacksArmsInTurn(s: FdState, callBackTypes: OptionFlags)
    requires s.valid && callBackTypes != 0
    ensures var s1 := if Requests(callBackTypes, Read) then Arm(s, Read) else s;
            EnableCallBacks(s, callBackTypes) == if Requests(callBackTypes, Write) then Arm(s1, Write) else s1
  {
  }

  lemma ArmBothKeeps(s: FdState, callBackTypes: OptionFlags)
    requires s.valid && Consistent(s)
    ensures var s1 := if Requests(callBackTypes, Read) then Arm(s, Read) else s;
            var r := if Requests(callBackTypes, Write) then Arm(s1, Write) else s1;
            Consistent(r)
  {
    var s1 := if Requests(callBackTypes, Read) then Arm(s, Read) else s;
    ArmIfRequestedKeeps(s, callBackTypes, Read);
    ArmIfRequestedKeeps(s1, callBackTypes, Write);
  }

  lemma ArmIfRequestedKeeps(s: FdState, callBackTypes: OptionFlags, d: Direction)
    requires s.valid && Consistent(s)
    ensures var r := if Requests(callBackTypes, d) then Arm(s, d) else s;
            Consistent(r) && r.valid
  {
    if Requests(callBackTypes, d) { ArmKeeps(s, d); }
  }

  lemma SuspendSourceKeeps(s: FdState, callBackType: OptionFlags)
    requires Consistent(s)
    ensures Consistent(SuspendSource(s, callBackType))
  {
    SuspendSourceAgrees(s, callBackType);
  }

  lemma DisableCallBacksKeeps(s: FdState, callBackTypes: OptionFlags)
    requires Consistent(s)
    ensures Consistent(DisableCallBacks(s, callBackTypes))
  {
    if s.valid && callBackTypes != 0 {
      DisableCallBacksSuspendsInTurn(s, callBackTypes);
      SuspendBothKeeps(s, callBackTypes);
    }
  }

  /** Disabling is suspending the read direction if requested and present,
    * then the write one. */
  lemma DisableCallBacksSuspendsInTurn(s: FdState, callBackTypes: OptionFlags)
    requires s.valid && callBackTypes != 0
    ensures var s1 := if Requests(callBackTypes, Read) && s.read.present then SuspendSource(s, ReadCallBack) else s;
            DisableCallBacks(s, callBackTypes)
            == if Requests(callBackTypes, Write) && s1.write.present then SuspendSource(s1, WriteCallBack) else s1
  {
  }

  lemma SuspendBothKeeps(s: FdState, callBackTypes: OptionFlags)
    requires Consistent(s)
    ensures var s1 := if Requests(callBackTypes, Read) && s.read.present then SuspendSource(s, ReadCallBack) else s;
            var r := if Requests(callBackTypes, Write) && s1.write.present then SuspendSource(s1, WriteCallBack) else s1;
            Consistent(r)
  {
    var s1 := if Requests(callBackTypes, Read) && s.read.present then SuspendSource(s, ReadCallBack) else s;
    if Requests(callBackTypes, Read) && s.read.present { SuspendSourceKeeps(s, ReadCallBack); }
    if Requests(callBackTypes, Write) && s1.write.present { SuspendSourceKeeps(s1, WriteCallBack); }
  }

  /** The first half of `Invalidate`: clear the valid bit, remove both sources. */
  lemma RemoveBothAgree(s: FdState)
    requires WatchersAgree(s)
    ensures var r := RemoveSource(RemoveSource(s.(valid := false), ReadCallBack), WriteCallBack);
            WatchersAgree(r) && SameOtherCalls(s, r) && !r.read.present && !r.write.present
  {
    var s1 := s.(valid := false);
    RemoveSourceAgrees(s1, ReadCallBack);
    RemoveSourceAgrees(RemoveSource(s1, ReadCallBack), WriteCallBack);
  }

  /** The second half of `Invalidate`: release the run-loop source, maybe close. */
  lemma ReleaseAndCloseAgrees(s: FdState)
    requires WatchersAgree(s)
    ensures WatchersAgree(ReleaseAndClose(s))
    ensures multiset(ReleaseAndClose(s).log)[Closed]
            == multiset(s.log)[Closed] + if s.closeOnInvalidate then 1 else 0
    ensures HoldsItsSource(s) ==> HoldsItsSource(ReleaseAndClose(s))
  {
    var s1 := if s.source0.Some? then s.(source0 := None).Append(RunLoopSourceReleased(s.source0.value)) else s;
    if s.source0.Some? { AppendOtherAgrees(s.(source0 := None), RunLoopSourceReleased(s.source0.value)); }
    if s1.closeOnInvalidate { AppendOtherAgrees(s1, Closed); }
  }

  lemma InvalidateKeeps(s: FdState)
    requires Consistent(s)
    ensures Consistent(Invalidate(s))
  {
    if s.valid {
      RemoveBothAgree(s);
      ReleaseAndCloseAgrees(RemoveSource(RemoveSource(s.(valid := false), ReadCallBack), WriteCallBack));
    }
  }

  lemma CreateRunLoopSourceKeeps(s: FdState, order: int, stillValid: bool, created: SourceRef)
    requires Consistent(s)
    ensures Consistent(CreateRunLoopSource(s, order, stillValid, created).0)
  {
    if s.valid {
      var s1 := if s.source0.Some? && !stillValid
                then s.(source0 := None).Append(RunLoopSourceReleased(s.source0.value))
                else s;
      if s.source0.Some? && !stillValid {
        SetSourceKeeps(s, None, RunLoopSourceReleased(s.source0.value));
      }
      if s1.source0.None? {
        SetSourceKeeps(s1, Some(created), RunLoopSourceCreated(created, order));
      }
    }
  }

  /** Storing or dropping the run-loop source of a valid handle, with the
    * run-loop call that goes with it and that the one-source rule allows,
    * keeps the invariant. */
  lemma SetSourceKeeps(s: FdState, source0: Option<SourceRef>, e: Event)
    requires Consistent(s) && s.valid
    requires e.RunLoopSourceReleased? || e.RunLoopSourceCreated?
    requires Hold(Holding(s.source0, true), e) == Holding(source0, true)
    ensures Consistent(s.(source0 := source0).Append(e))
  {
    AppendOtherAgrees(s.(source0 := source0), e);
  }

  lemma HandleEventKeeps(s: FdState, callBackType: OptionFlags)
    requires Consistent(s)
    ensures Consistent(HandleEvent(s, callBackType))
  {
    var s1 := SuspendSource(s, callBackType);
    SuspendSourceKeeps(s, callBackType);
    var s2 := if s1.source0.Some? then s1.Append(RunLoopSourceSignalled(s1.source0.value)) else s1;
    if s1.source0.Some? { AppendOtherKeeps(s1, RunLoopSourceSignalled(s1.source0.value)); }
    if s2.runLoop.Some? { AppendOtherKeeps(s2, RunLoopWokenUp(s2.runLoop.value)); }
  }

  /** Recording a call that is neither a dispatch call, nor the close, nor a
    * run-loop source's creation or release keeps the invariant. */
  lemma AppendOtherKeeps(s: FdState, e: Event)
    requires Consistent(s)
    requires !IsDispatchCall(e) && e != Closed
    requires !e.RunLoopSourceCreated? && !e.RunLoopSourceReleased?
    ensures Consistent(s.Append(e))
  {
    AppendOtherAgrees(s, e);
  }

  lemma ScheduleKeeps(s: FdState, rl: Option<RunLoopRef>)
    requires Consistent(s)
    ensures Consistent(Schedule(s, rl))
  {
  }

  lemma CancelKeeps(s: FdState)
    requires Consistent(s)
    ensures Consistent(Cancel(s))
  {
  }

  lemma PerformKeeps(s: FdState)
    requires Consistent(s)
    ensures Consistent(Perform(s))
  {
    AppendOtherAgrees(s, CalledOut(s.callout, WriteCallBack, PerformInfo(s)));
  }
}
