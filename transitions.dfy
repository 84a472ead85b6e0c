/**
 * The file-descriptor watcher as pure transitions on a snapshot of its record.
 * Each function here is the meaning of one C function of CFFileDescriptor.c,
 * taken as one atomic step of a sequential model: a validity test made before
 * the lock is taken and the locked body count as one step, and the event
 * handler and run-loop callbacks, which take no lock, are steps too. The
 * methods of class FileDescriptor are proved to perform exactly these steps.
 */
module Transitions {
  import opened Flags
  import opened FdTypes

  // ---------------------------------------------------------------------------
  // Creation

  /** The context the record stores: the caller's function pointers and info,
    * or, without a caller context, a description of the descriptor with the
    * CoreFoundation retain/release/describe functions. The version is always 0. */
  function StoredContext(fd: int, context: Option<Context>): Context {
    match context
    case Some(c) => Context(0, c.info, c.retain, c.release, c.copyDescription)
    case None => Context(0, Description(fd), CFRetainFn, CFReleaseFn, CFCopyDescriptionFn)
  }

  /** `CFFileDescriptorCreate`; `instanceAllocated` is whether the runtime could
    * allocate the instance. */
  function Create(fd: int, closeOnInvalidate: bool, callout: Option<Callout>,
                  context: Option<Context>, instanceAllocated: bool): (r: Option<FdState>)
    ensures r.None? <==> callout.None? || !instanceAllocated
    ensures r.Some? ==> r.value.valid && r.value.fd == fd
                        && r.value.closeOnInvalidate == closeOnInvalidate
                        && r.value.callout == callout.value
    ensures r.Some? ==> r.value.read == Watcher(false, true) && r.value.write == Watcher(false, true)
    ensures r.Some? ==> r.value.source0 == None && r.value.runLoop == None && r.value.log == []
    ensures r.Some? ==> r.value.context.version == 0
    ensures r.Some? && context.Some? ==> r.value.context == context.value.(version := 0)
    ensures r.Some? && context.None? ==>
              r.value.context == Context(0, Description(fd), CFRetainFn, CFReleaseFn, CFCopyDescriptionFn)
  {
    if callout.None? then None
    else if !instanceAllocated then None
    else Some(FdState(true, closeOnInvalidate, fd, callout.value, StoredContext(fd, context),
                      None, None, Watcher(false, true), Watcher(false, true), []))
  }

  // ---------------------------------------------------------------------------
  // Managing dispatch sources

  /** `__CFFDCreateSource` together with its caller's store into the record.
    * The callers only create a source for a direction that has none. */
  function CreateSource(s: FdState, callBackType: OptionFlags): (r: FdState)
    requires (callBackType == ReadCallBack && !s.read.present)
          || (callBackType == WriteCallBack && !s.write.present)
    ensures callBackType == ReadCallBack ==>
              r.read.present && r.read.suspended == s.read.suspended && r.write == s.write
              && r.log == s.log + [SourceCreated(Read)]
    ensures callBackType == WriteCallBack ==>
              r.write.present && r.write.suspended == s.write.suspended && r.read == s.read
              && r.log == s.log + [SourceCreated(Write)]
    ensures OnlyWatchersAndLog(s, r)
  {
    if callBackType == ReadCallBack && !s.read.present then
      s.(read := s.read.(present := true)).Append(SourceCreated(Read))
    else
      s.(write := s.write.(present := true)).Append(SourceCreated(Write))
  }

  /** The call suspending a watcher in state `w`: one `dispatch_suspend` when
    * it is present and running, none otherwise. */
  function SuspendCalls(w: Watcher, d: Direction): seq<Event> {
    if w.Active() then [SourceSuspended(d)] else []
  }

  /** Suspend direction `d`'s source if it is present and running. */
  function SuspendOne(s: FdState, d: Direction): (r: FdState)
    ensures r.W(d).present == s.W(d).present
    ensures r.W(d).present ==> r.W(d).suspended
    ensures !s.W(d).Active() ==> r == s
    ensures s.W(d).Active() ==> r.log == s.log + [SourceSuspended(d)]
    ensures r.W(Other(d)) == s.W(Other(d)) && OnlyWatchersAndLog(s, r)
  {
    if s.W(d).Active() then
      s.WithWatcher(d, s.W(d).(suspended := true)).Append(SourceSuspended(d))
    else s
  }

  /** `__CFFDSuspendSource`: the flag is compared for equality, so only a
    * single-direction flag suspends anything. */
  function SuspendSource(s: FdState, callBackType: OptionFlags): (r: FdState)
    ensures callBackType == ReadCallBack ==> r == SuspendOne(s, Read)
    ensures callBackType == WriteCallBack ==> r == SuspendOne(s, Write)
    ensures callBackType != ReadCallBack && callBackType != WriteCallBack ==> r == s
  {
    var s1 := if callBackType == ReadCallBack then SuspendOne(s, Read) else s;
    if callBackType == WriteCallBack then SuspendOne(s1, Write) else s1
  }

  /** Resume direction `d`'s source if it is present and suspended. */
  function ResumeOne(s: FdState, d: Direction): (r: FdState)
    ensures r.W(d).present == s.W(d).present
    ensures r.W(d).present ==> !r.W(d).suspended
    ensures !(s.W(d).present && s.W(d).suspended) ==> r == s
    ensures s.W(d).present && s.W(d).suspended ==> r.log == s.log + [SourceResumed(d)]
    ensures r.W(Other(d)) == s.W(Other(d)) && OnlyWatchersAndLog(s, r)
  {
    if s.W(d).present && s.W(d).suspended then
      s.WithWatcher(d, s.W(d).(suspended := false)).Append(SourceResumed(d))
    else s
  }

  /** The calls that tear down a watcher in state `w`: nothing when it is
    * absent; otherwise a resume when it is suspended (a suspended source
    * cannot be released), then the cancel and release. */
  function Teardown(w: Watcher, d: Direction): seq<Event> {
    if !w.present then []
    else (if w.suspended then [SourceResumed(d)] else []) + [SourceCancelled(d)]
  }

  /** Cancel and release direction `d`'s source, resuming it first. */
  function RemoveOne(s: FdState, d: Direction): (r: FdState)
    ensures !r.W(d).present
    ensures !s.W(d).present ==> r == s
    ensures s.W(d).present ==> !r.W(d).suspended
    ensures r.log == s.log + Teardown(s.W(d), d)
    ensures r.W(Other(d)) == s.W(Other(d)) && OnlyWatchersAndLog(s, r)
  {
    if s.W(d).present then
      var s1 := ResumeOne(s, d);
      s1.WithWatcher(d, s1.W(d).(present := false)).Append(SourceCancelled(d))
    else s
  }

  /** `__CFFDRemoveSource`: again the flag is compared for equality. */
  function RemoveSource(s: FdState, callBackType: OptionFlags): (r: FdState)
    ensures callBackType == ReadCallBack ==> r == RemoveOne(s, Read)
    ensures callBackType == WriteCallBack ==> r == RemoveOne(s, Write)
    ensures callBackType != ReadCallBack && callBackType != WriteCallBack ==> r == s
  {
    var s1 := if callBackType == ReadCallBack then RemoveOne(s, Read) else s;
    if callBackType == WriteCallBack then RemoveOne(s1, Write) else s1
  }

  /** The call resuming a watcher in state `w`: one `dispatch_resume` when it
    * is present and suspended, none otherwise. */
  function ResumeCalls(w: Watcher, d: Direction): seq<Event> {
    if w.present && w.suspended then [SourceResumed(d)] else []
  }

  /** `__CFFDEnableSources`: resume every requested direction whose source is
    * present and suspended; the mask is tested bit by bit. */
  function EnableSources(s: FdState, callBackTypes: OptionFlags): (r: FdState)
    ensures Requests(callBackTypes, Read) && s.read.present ==> r.read.Active()
    ensures Requests(callBackTypes, Write) && s.write.present ==> r.write.Active()
    ensures !Requests(callBackTypes, Read) || !s.read.present ==> r.read == s.read
    ensures !Requests(callBackTypes, Write) || !s.write.present ==> r.write == s.write
    ensures r.read.present == s.read.present && r.write.present == s.write.present
    ensures r.log == s.log + (if Requests(callBackTypes, Read) then ResumeCalls(s.read, Read) else [])
                           + (if Requests(callBackTypes, Write) then ResumeCalls(s.write, Write) else [])
    ensures OnlyWatchersAndLog(s, r)
  {
    var s1 := if Requests(callBackTypes, Read) then ResumeOne(s, Read) else s;
    if Requests(callBackTypes, Write) then ResumeOne(s1, Write) else s1
  }

  // ---------------------------------------------------------------------------
  // Public operations

  /** The calls arming a watcher in state `w`: a `dispatch_source_create` when
    * it is absent, then a `dispatch_resume` when its flag says suspended (a
    * created source keeps the flag it had). */
  function ArmCalls(w: Watcher, d: Direction): seq<Event> {
    (if w.present then [] else [SourceCreated(d)]) + (if w.suspended then [SourceResumed(d)] else [])
  }

  /** One requested direction of `CFFileDescriptorEnableCallBacks`: create the
    * source if absent, then resume it. */
  function Arm(s: FdState, d: Direction): (r: FdState)
    requires s.valid
    ensures r.W(d).Active()
    ensures r.log == s.log + ArmCalls(s.W(d), d)
    ensures r.W(Other(d)) == s.W(Other(d)) && OnlyWatchersAndLog(s, r)
  {
    var s1 := if !s.W(d).present then CreateSource(s, Flag(d)) else s;
    FlagRequestsOnlyItself(d, d);
    FlagRequestsOnlyItself(d, Other(d));
    EnableSources(s1, Flag(d))
  }

  /** `CFFileDescriptorEnableCallBacks`. */
  function EnableCallBacks(s: FdState, callBackTypes: OptionFlags): (r: FdState)
    ensures !s.valid || callBackTypes == 0 ==> r == s
    ensures s.valid && Requests(callBackTypes, Read) ==> r.read.Active()
    ensures s.valid && Requests(callBackTypes, Write) ==> r.write.Active()
    ensures s.valid && callBackTypes != 0 ==>
              r.log == s.log + (if Requests(callBackTypes, Read) then ArmCalls(s.read, Read) else [])
                             + (if Requests(callBackTypes, Write) then ArmCalls(s.write, Write) else [])
    ensures !Requests(callBackTypes, Read) ==> r.read == s.read
    ensures !Requests(callBackTypes, Write) ==> r.write == s.write
    ensures OnlyWatchersAndLog(s, r)
  {
    if !s.valid || callBackTypes == 0 then s
    else
      var s1 := if Requests(callBackTypes, Read) then Arm(s, Read) else s;
      if Requests(callBackTypes, Write) then Arm(s1, Write) else s1
  }

  /** `CFFileDescriptorDisableCallBacks`. */
  function DisableCallBacks(s: FdState, callBackTypes: OptionFlags): (r: FdState)
    ensures !s.valid || callBackTypes == 0 ==> r == s
    ensures r.read.present == s.read.present && r.write.present == s.write.present
    ensures s.valid && Requests(callBackTypes, Read) && s.read.present ==> r.read.suspended
    ensures s.valid && Requests(callBackTypes, Write) && s.write.present ==> r.write.suspended
    ensures !Requests(callBackTypes, Read) || !s.read.present ==> r.read == s.read
    ensures !Requests(callBackTypes, Write) || !s.write.present ==> r.write == s.write
    ensures (s.read.suspended ==> r.read.suspended) && (s.write.suspended ==> r.write.suspended)
    ensures s.valid && callBackTypes != 0 ==>
              r.log == s.log + (if Requests(callBackTypes, Read) then SuspendCalls(s.read, Read) else [])
                             + (if Requests(callBackTypes, Write) then SuspendCalls(s.write, Write) else [])
    ensures OnlyWatchersAndLog(s, r)
  {
    if !s.valid || callBackTypes == 0 then s
    else
      var s1 := if Requests(callBackTypes, Read) && s.read.present then SuspendSource(s, ReadCallBack) else s;
      if Requests(callBackTypes, Write) && s1.write.present then SuspendSource(s1, WriteCallBack) else s1
  }

  /** The events `Invalidate` appends for the run-loop source and the descriptor. */
  function ReleaseAndClose(s: FdState): (r: FdState)
    ensures r.source0 == None && r.(source0 := s.source0, log := s.log) == s
    ensures r.log == s.log
                     + (if s.source0.Some? then [RunLoopSourceReleased(s.source0.value)] else [])
                     + (if s.closeOnInvalidate then [Closed] else [])
  {
    var s1 := if s.source0.Some? then s.(source0 := None).Append(RunLoopSourceReleased(s.source0.value)) else s;
    if s1.closeOnInvalidate then s1.Append(Closed) else s1
  }

  /** `CFFileDescriptorInvalidate`. */
  function Invalidate(s: FdState): (r: FdState)
    ensures !r.valid
    ensures !s.valid ==> r == s
    ensures s.valid ==> !r.read.present && !r.write.present && r.source0 == None
    ensures s.valid ==> r.read == Watcher(false, !s.read.present && s.read.suspended)
                        && r.write == Watcher(false, !s.write.present && s.write.suspended)
    ensures s.valid ==> r.log == s.log + Teardown(s.read, Read) + Teardown(s.write, Write)
                                 + (if s.source0.Some? then [RunLoopSourceReleased(s.source0.value)] else [])
                                 + (if s.closeOnInvalidate then [Closed] else [])
    ensures r.runLoop == s.runLoop && r.fd == s.fd && r.closeOnInvalidate == s.closeOnInvalidate
    ensures r.callout == s.callout && r.context == s.context
  {
    if !s.valid then s
    else
      var s1 := s.(valid := false);
      var s2 := RemoveSource(s1, ReadCallBack);
      var s3 := RemoveSource(s2, WriteCallBack);
      ReleaseAndClose(s3)
  }

  /** `CFFileDescriptorCreateRunLoopSource`. `stillValid` is what
    * `CFRunLoopSourceIsValid` answers for the stored source and `created` the
    * source `CFRunLoopSourceCreate` returns. The result pairs the new state
    * with the returned source (None for NULL). */
  function CreateRunLoopSource(s: FdState, order: int, stillValid: bool, created: SourceRef)
    : (r: (FdState, Option<SourceRef>))
    ensures !s.valid ==> r == (s, None)
    ensures s.valid && (s.source0.None? || !stillValid) ==> r.1 == Some(created)
    ensures s.valid && s.source0.Some? && stillValid ==> r == (s, None)
    ensures r.1.Some? ==> r.0.source0 == r.1
    ensures r.0.valid == s.valid && r.0.read == s.read && r.0.write == s.write
    ensures r.0.runLoop == s.runLoop && r.0.fd == s.fd && r.0.closeOnInvalidate == s.closeOnInvalidate
    ensures r.0.callout == s.callout && r.0.context == s.context
    ensures s.valid ==> r.0.log == s.log
                                  + (if s.source0.Some? && !stillValid then [RunLoopSourceReleased(s.source0.value)] else [])
                                  + (if r.1.Some? then [RunLoopSourceCreated(created, order)] else [])
  {
    if !s.valid then (s, None)
    else
      var s1 := if s.source0.Some? && !stillValid
                then s.(source0 := None).Append(RunLoopSourceReleased(s.source0.value))
                else s;
      if s1.source0.None? then
        (s1.(source0 := Some(created)).Append(RunLoopSourceCreated(created, order)), Some(created))
      else (s1, None)
  }

  /** `CFFileDescriptorGetNativeDescriptor`. */
  function GetNativeDescriptor(s: FdState): (r: int)
    ensures s.valid ==> r == s.fd
    ensures !s.valid ==> r == -1
  {
    if !s.valid then -1 else s.fd
  }

  /** `CFFileDescriptorGetContext`: `dest` is the caller's output record
    * (None for a NULL pointer); it is returned as it was unless the handle is
    * valid. */
  function GetContext(s: FdState, dest: Option<Context>): (r: Option<Context>)
    ensures dest.None? || !s.valid ==> r == dest
    ensures dest.Some? && s.valid ==> r == Some(s.context)
  {
    if dest.None? || !s.valid then dest
    else Some(Context(s.context.version, s.context.info, s.context.retain,
                      s.context.release, s.context.copyDescription))
  }

  // ---------------------------------------------------------------------------
  // Run-loop bridge

  /** The event handler a dispatch source of type `callBackType` runs when its
    * descriptor is ready: suspend that direction, then signal the run-loop
    * source (if any), then wake the run loop (if any). */
  function HandleEvent(s: FdState, callBackType: OptionFlags): (r: FdState)
    ensures callBackType == ReadCallBack ==> r.read.present == s.read.present && (r.read.present ==> r.read.suspended)
    ensures callBackType == WriteCallBack ==> r.write.present == s.write.present && (r.write.present ==> r.write.suspended)
    ensures callBackType != ReadCallBack || !s.read.present ==> r.read == s.read
    ensures callBackType != WriteCallBack || !s.write.present ==> r.write == s.write
    ensures r.log == SuspendSource(s, callBackType).log
                     + (if s.source0.Some? then [RunLoopSourceSignalled(s.source0.value)] else [])
                     + (if s.runLoop.Some? then [RunLoopWokenUp(s.runLoop.value)] else [])
    ensures OnlyWatchersAndLog(s, r)
  {
    var s1 := SuspendSource(s, callBackType);
    var s2 := if s1.source0.Some? then s1.Append(RunLoopSourceSignalled(s1.source0.value)) else s1;
    if s2.runLoop.Some? then s2.Append(RunLoopWokenUp(s2.runLoop.value)) else s2
  }

  /** The schedule callback, for a non-NULL info: remembers the run loop when
    * there is one. */
  function Schedule(s: FdState, rl: Option<RunLoopRef>): (r: FdState)
    ensures rl.Some? ==> r.runLoop == rl
    ensures rl.None? ==> r == s
    ensures r.(runLoop := s.runLoop) == s
  {
    if rl.Some? then s.(runLoop := rl) else s
  }

  /** The cancel callback, for a non-NULL info: forgets the run loop. */
  function Cancel(s: FdState): (r: FdState)
    ensures r.runLoop == None
    ensures r.(runLoop := s.runLoop) == s
  {
    s.(runLoop := None)
  }

  /** The argument the perform callback hands the consumer as its info. */
  function PerformInfo(s: FdState): (a: CalloutInfo)
    ensures a != ContextInfo(NoInfo)
    ensures s.context.info != NoInfo ==> a == ContextInfo(s.context.info)
    ensures s.context.info == NoInfo ==> a == TheHandle
  {
    if s.context.info != NoInfo then ContextInfo(s.context.info) else TheHandle
  }

  /** The perform callback: one call of the consumer callback. The reported
    * flag is always the write flag, whatever direction fired. */
  function Perform(s: FdState): (r: FdState)
    ensures r.log == s.log + [CalledOut(s.callout, WriteCallBack, PerformInfo(s))]
    ensures r.(log := s.log) == s
  {
    s.Append(CalledOut(s.callout, WriteCallBack, PerformInfo(s)))
  }
}
