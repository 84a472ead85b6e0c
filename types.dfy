/**
 * The values the file-descriptor watcher works with: the opaque references it
 * holds, the user context capsule, the external calls it makes (as events) and
 * a snapshot of the whole `__CFFileDescriptor` record.
 */
module FdTypes {
  import opened Flags

  datatype Option<T> = None | Some(value: T)

  /** Identity of a run-loop source (`CFRunLoopSourceRef`). */
  type SourceRef = nat

  /** Identity of a run loop (`CFRunLoopRef`). */
  type RunLoopRef = nat

  /** Identity of a consumer callback (`CFFileDescriptorCallBack`). */
  type Callout = nat

  /** A non-NULL address supplied by the user; NULL is a constructor of its own. */
  type Address = n: nat | n > 0 witness 1

  /** The `info` pointer of a context: NULL, supplied by the user, or the
    * description string built for a handle created without a context. */
  datatype Info = NoInfo | UserInfo(addr: Address) | Description(fd: int)

  /** A function pointer stored in a context: NULL, supplied by the user, or
    * one of CoreFoundation's own. */
  datatype Fn = NoFn | UserFn(addr: Address) | CFRetainFn | CFReleaseFn | CFCopyDescriptionFn

  /** `CFFileDescriptorContext`. */
  datatype Context = Context(version: int, info: Info, retain: Fn, release: Fn, copyDescription: Fn)

  /** The last argument the consumer callback receives: the context's info, or
    * the handle itself when the info is absent. */
  datatype CalloutInfo = ContextInfo(info: Info) | TheHandle

  /** The calls the watcher makes into code outside it, in the order made. */
  datatype Event =
    | SourceCreated(dir: Direction)        // dispatch_source_create (the source starts suspended)
    | SourceSuspended(dir: Direction)      // dispatch_suspend
    | SourceResumed(dir: Direction)        // dispatch_resume
    | SourceCancelled(dir: Direction)      // dispatch_source_cancel, then dispatch_release
    | RunLoopSourceCreated(source: SourceRef, order: int)
    | RunLoopSourceReleased(source: SourceRef)
    | RunLoopSourceSignalled(source: SourceRef)
    | RunLoopWokenUp(loop: RunLoopRef)
    | Closed                               // close(2) on the handle's native descriptor
    | CalledOut(callout: Callout, callBackTypes: OptionFlags, info: CalloutInfo)

  /** One direction's dispatch source: `present` is the non-NULL test on
    * `_read_source`/`_write_source`, `suspended` the matching `_suspended` flag. */
  datatype Watcher = Watcher(present: bool, suspended: bool) {
    /** Present and resumed: its event handler may run. */
    predicate Active() {
      present && !suspended
    }
  }

  /** A snapshot of the `__CFFileDescriptor` record together with the calls
    * made so far. */
  datatype FdState = FdState(
    valid: bool,
    closeOnInvalidate: bool,
    fd: int,
    callout: Callout,
    context: Context,
    source0: Option<SourceRef>,
    runLoop: Option<RunLoopRef>,
    read: Watcher,
    write: Watcher,
    log: seq<Event>)
  {
    function W(d: Direction): Watcher {
      match d
      case Read => read
      case Write => write
    }

    function WithWatcher(d: Direction, w: Watcher): (r: FdState)
      ensures r.W(d) == w && r.W(Other(d)) == W(Other(d))
    {
      match d
      case Read => this.(read := w)
      case Write => this.(write := w)
    }

    function Append(e: Event): (r: FdState)
      ensures r.log == log + [e]
    {
      this.(log := log + [e])
    }
  }

  /** `r` is `s` with only its watchers and its log possibly changed. */
  predicate OnlyWatchersAndLog(s: FdState, r: FdState) {
    r.(read := s.read, write := s.write, log := s.log) == s
  }
}
