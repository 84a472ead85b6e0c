/**
 * The `__CFFileDescriptor` record as an object whose fields the operations
 * update in place. Each method is one C function of CFFileDescriptor.c run
 * without interruption (a sequential model), and is proved to perform exactly the
 * matching step of module Transitions; the public operations also keep the
 * invariant of module Invariant.
 */
module CFFileDescriptor {
  import opened Flags
  import opened FdTypes
  import T = Transitions
  import I = Invariant

  class FileDescriptor {
    /** Bit 0 of the runtime header. */
    var valid: bool
    /** Bit 1 of the runtime header, written only at creation. */
    const closeOnInvalidate: bool
    const fd: int
    const callout: Callout
    const context: Context
    var source0: Option<SourceRef>
    var runLoop: Option<RunLoopRef>
    var readSource: bool
    var readSourceSuspended: bool
    var writeSource: bool
    var writeSourceSuspended: bool
    /** The calls made into libdispatch, the run loop, close(2) and the consumer. */
    var log: seq<Event>

    /** The record as a value. */
    function State(): FdState
      reads this
    {
      FdState(valid, closeOnInvalidate, fd, callout, context, source0, runLoop,
              Watcher(readSource, readSourceSuspended), Watcher(writeSource, writeSourceSuspended), log)
    }

    ghost predicate Valid()
      reads this
    {
      I.Consistent(State())
    }

    /** The instance `CFFileDescriptorCreate` fills in once the callout is
      * known to be present and the runtime has allocated it. */
    constructor Init(fd: int, closeOnInvalidate: bool, callout: Callout, context: Option<Context>)
      ensures State() == T.Create(fd, closeOnInvalidate, Some(callout), context, true).value
      ensures Valid()
    {
      this.fd := fd;
      this.callout := callout;
      if context.Some? {
        var c := context.value;
        this.context := Context(0, c.info, c.retain, c.release, c.copyDescription);
      } else {
        this.context := Context(0, Description(fd), CFRetainFn, CFReleaseFn, CFCopyDescriptionFn);
      }
      runLoop := None;
      source0 := None;
      readSource := false;
      readSourceSuspended := true;
      writeSource := false;
      writeSourceSuspended := true;
      valid := true;
      this.closeOnInvalidate := closeOnInvalidate;
      log := [];
      new;
      I.CreateIsConsistent(fd, closeOnInvalidate, Some(callout), context, true);
    }

    /** `CFFileDescriptorCreate`: NULL without a callout or when the runtime
      * cannot allocate the instance. */
    static method Create(fd: int, closeOnInvalidate: bool, callout: Option<Callout>,
                         context: Option<Context>, instanceAllocated: bool)
      returns (f: FileDescriptor?)
      ensures f == null <==> T.Create(fd, closeOnInvalidate, callout, context, instanceAllocated).None?
      ensures f != null ==> fresh(f) && f.Valid() && IsValid(f)
                            && f.State() == T.Create(fd, closeOnInvalidate, callout, context, instanceAllocated).value
    {
      if callout.None? {
        return null;
      }
      if !instanceAllocated {
        return null;
      }
      f := new FileDescriptor.Init(fd, closeOnInvalidate, callout.value, context);
    }

    // -------------------------------------------------------------------------
    // Managing dispatch sources

    /** `__CFFDCreateSource` with its caller's store into the record. */
    method CreateSource(callBackType: OptionFlags)
      requires (callBackType == ReadCallBack && !readSource) || (callBackType == WriteCallBack && !writeSource)
      modifies this
      ensures State() == T.CreateSource(old(State()), callBackType)
    {
      if callBackType == ReadCallBack && !readSource {
        readSource := true;
        log := log + [SourceCreated(Read)];
      } else {
        writeSource := true;
        log := log + [SourceCreated(Write)];
      }
    }

    /** `__CFFDSuspendSource`. */
    method SuspendSource(callBackType: OptionFlags)
      modifies this
      ensures State() == T.SuspendSource(old(State()), callBackType)
    {
      if callBackType == ReadCallBack && readSource && !readSourceSuspended {
        log := log + [SourceSuspended(Read)];
        readSourceSuspended := true;
      }
      if callBackType == WriteCallBack && writeSource && !writeSourceSuspended {
        log := log + [SourceSuspended(Write)];
        writeSourceSuspended := true;
      }
    }

    /** `__CFFDRemoveSource`. */
    method RemoveSource(callBackType: OptionFlags)
      modifies this
      ensures State() == T.RemoveSource(old(State()), callBackType)
    {
      if callBackType == ReadCallBack && readSource {
        if readSourceSuspended {
          log := log + [SourceResumed(Read)];
          readSourceSuspended := false;
        }
        log := log + [SourceCancelled(Read)];
        readSource := false;
      }
      if callBackType == WriteCallBack && writeSource {
        if writeSourceSuspended {
          log := log + [SourceResumed(Write)];
          writeSourceSuspended := false;
        }
        log := log + [SourceCancelled(Write)];
        writeSource := false;
      }
    }

    /** `__CFFDEnableSources`. */
    method EnableSources(callBackTypes: OptionFlags)
      modifies this
      ensures State() == T.EnableSources(old(State()), callBackTypes)
    {
      if callBackTypes & ReadCallBack != 0 && readSource && readSourceSuspended {
        log := log + [SourceResumed(Read)];
        readSourceSuspended := false;
      }
      if callBackTypes & WriteCallBack != 0 && writeSource && writeSourceSuspended {
        log := log + [SourceResumed(Write)];
        writeSourceSuspended := false;
      }
    }

    /** The event handler installed on a dispatch source of type
      * `callBackType`: one-shot, so it suspends its own direction before
      * telling the run loop. */
    method HandleEvent(callBackType: OptionFlags)
      requires Valid()
      modifies this
      ensures State() == T.HandleEvent(old(State()), callBackType)
      ensures Valid()
    {
      ghost var s := State();
      SuspendAndSignal(callBackType);
      I.HandleEventKeeps(s, callBackType);
    }

    /** The handler's work: suspend, signal the run-loop source, wake the run loop. */
    method SuspendAndSignal(callBackType: OptionFlags)
      modifies this
      ensures State() == T.HandleEvent(old(State()), callBackType)
    {
      ghost var s := State();
      SuspendSource(callBackType);
      ghost var s1 := State();
      if source0.Some? {
        log := log + [RunLoopSourceSignalled(source0.value)];
      }
      assert State() == if s1.source0.Some? then s1.Append(RunLoopSourceSignalled(s1.source0.value)) else s1;
      if runLoop.Some? {
        log := log + [RunLoopWokenUp(runLoop.value)];
      }
    }

    // -------------------------------------------------------------------------
    // Run-loop callbacks; `info` is the handle the run-loop source was made for

    /** The schedule callback. */
    static method ScheduleCallback(info: FileDescriptor?, rl: Option<RunLoopRef>)
      requires info != null ==> info.Valid()
      modifies info
      ensures info != null ==> info.State() == T.Schedule(old(info.State()), rl) && info.Valid()
    {
      if info != null && rl.Some? {
        info.runLoop := rl;
      }
    }

    /** The cancel callback. */
    static method CancelCallback(info: FileDescriptor?)
      requires info != null ==> info.Valid()
      modifies info
      ensures info != null ==> info.State() == T.Cancel(old(info.State())) && info.Valid()
    {
      if info != null {
        info.runLoop := None;
      }
    }

    /** The perform callback. */
    static method PerformCallback(info: FileDescriptor)
      requires info.Valid()
      modifies info
      ensures info.State() == T.Perform(old(info.State())) && info.Valid()
    {
      var contextInfo: CalloutInfo;
      if info.context.info != NoInfo {
        contextInfo := ContextInfo(info.context.info);
      } else {
        contextInfo := TheHandle;
      }
      ghost var s := info.State();
      info.log := info.log + [CalledOut(info.callout, WriteCallBack, contextInfo)];
      assert info.State() == s.Append(CalledOut(s.callout, WriteCallBack, contextInfo));
      I.PerformKeeps(s);
    }

    // -------------------------------------------------------------------------
    // Public operations

    /** `CFFileDescriptorCreateRunLoopSource`; see the parameters of
      * Transitions.CreateRunLoopSource. */
    method CreateRunLoopSource(order: int, stillValid: bool, created: SourceRef)
      returns (result: Option<SourceRef>)
      requires Valid()
      modifies this
      ensures (State(), result) == T.CreateRunLoopSource(old(State()), order, stillValid, created)
      ensures Valid()
    {
      ghost var s := State();
      result := InstallRunLoopSource(order, stillValid, created);
      I.CreateRunLoopSourceKeeps(s, order, stillValid, created);
    }

    /** The work of `CFFileDescriptorCreateRunLoopSource`: replace a dead
      * stored source, then create one if none is stored. */
    method InstallRunLoopSource(order: int, stillValid: bool, created: SourceRef)
      returns (result: Option<SourceRef>)
      modifies this
      ensures (State(), result) == T.CreateRunLoopSource(old(State()), order, stillValid, created)
    {
      result := None;
      if valid {
        if source0.Some? && !stillValid {
          log := log + [RunLoopSourceReleased(source0.value)];
          source0 := None;
        }
        if source0.None? {
          source0 := Some(created);
          log := log + [RunLoopSourceCreated(created, order)];
          result := source0;
        }
      }
    }

    /** `CFFileDescriptorEnableCallBacks`. */
    method EnableCallBacks(callBackTypes: OptionFlags)
      requires Valid()
      modifies this
      ensures State() == T.EnableCallBacks(old(State()), callBackTypes)
      ensures Valid()
    {
      ghost var s := State();
      if valid && callBackTypes != 0 {
        if callBackTypes & ReadCallBack != 0 {
          if !readSource {
            CreateSource(ReadCallBack);
          }
          EnableSources(ReadCallBack);
        }
        if callBackTypes & WriteCallBack != 0 {
          if !writeSource {
            CreateSource(WriteCallBack);
          }
          EnableSources(WriteCallBack);
        }
      }
      I.EnableCallBacksKeeps(s, callBackTypes);
    }

    /** `CFFileDescriptorDisableCallBacks`. */
    method DisableCallBacks(callBackTypes: OptionFlags)
      requires Valid()
      modifies this
      ensures State() == T.DisableCallBacks(old(State()), callBackTypes)
      ensures Valid()
    {
      ghost var s := State();
      if valid && callBackTypes != 0 {
        if callBackTypes & ReadCallBack != 0 && readSource {
          SuspendSource(ReadCallBack);
        }
        if callBackTypes & WriteCallBack != 0 && writeSource {
          SuspendSource(WriteCallBack);
        }
      }
      I.DisableCallBacksKeeps(s, callBackTypes);
    }

    /** `CFFileDescriptorInvalidate`: the valid bit is cleared before anything
      * is torn down. */
    method Invalidate()
      requires Valid()
      modifies this
      ensures State() == T.Invalidate(old(State()))
      ensures Valid() && !IsValid(this)
    {
      ghost var s := State();
      if valid {
        valid := false;
        assert State() == s.(valid := false);
        RemoveSource(ReadCallBack);
        RemoveSource(WriteCallBack);
        ReleaseAndClose();
      }
      I.InvalidateKeeps(s);
    }

    /** The end of `CFFileDescriptorInvalidate`: release the run-loop source
      * and, under the close-on-invalidate policy, close the descriptor. */
    method ReleaseAndClose()
      modifies this
      ensures State() == T.ReleaseAndClose(old(State()))
    {
      if source0.Some? {
        log := log + [RunLoopSourceReleased(source0.value)];
        source0 := None;
      }
      if closeOnInvalidate {
        log := log + [Closed];
      }
    }
  }

  /** `CFFileDescriptorIsValid`: false for NULL. */
  function IsValid(f: FileDescriptor?): (b: bool)
    reads f
    ensures b ==> f != null && T.GetNativeDescriptor(f.State()) == f.fd
    ensures !b ==> f == null || T.GetNativeDescriptor(f.State()) == -1
  {
    f != null && f.valid
  }

  /** `CFFileDescriptorGetNativeDescriptor`: -1 for NULL or an invalid handle. */
  function GetNativeDescriptor(f: FileDescriptor?): (r: int)
    reads f
    ensures f != null && f.valid ==> r == f.fd
    ensures f == null || !f.valid ==> r == -1
  {
    if f == null then -1 else T.GetNativeDescriptor(f.State())
  }

  /** `CFFileDescriptorGetContext`: `dest` is the caller's output record
    * (None for NULL), returned untouched unless the handle is valid. */
  function GetContext(f: FileDescriptor?, dest: Option<Context>): (r: Option<Context>)
    reads f
    ensures f == null || !f.valid || dest.None? ==> r == dest
    ensures f != null && f.valid && dest.Some? ==> r == Some(f.context)
  {
    if f == null then dest else T.GetContext(f.State(), dest)
  }
}
