# CFFileDescriptor: a verified model of the descriptor watcher

This project models the file-descriptor watcher of CoreFoundation's run-loop
layer (`RunLoop.subproj/CFFileDescriptor.c`). A `CFFileDescriptor` wraps a
native descriptor. It owns at most one dispatch source per direction (read,
write). It bridges their readiness events into a run-loop source, whose
perform step calls the consumer's callout. The model covers the whole record
(`__CFFileDescriptor`) and every operation on it:

- creation;
- enabling and disabling callbacks;
- the dispatch-source helpers;
- the one-shot event handler;
- the schedule, cancel and perform callbacks;
- creating the run-loop source;
- the read-only accessors;
- invalidation.

Layout, one module per file:

- `flags.dfy` (`Flags`): `kCFFileDescriptorReadCallBack = 1 << 0`,
  `kCFFileDescriptorWriteCallBack = 1 << 1` on a 64-bit `CFOptionFlags`, and
  the `callBackTypes & flag` test.
- `types.dfy` (`FdTypes`): the context capsule, opaque references, the
  `Event` log of calls the watcher makes into other code, and `FdState`, a
  snapshot of the record.
- `transitions.dfy` (`Transitions`): one pure function per C function. Each
  is the meaning of that function's whole body, taken as one uninterrupted
  step: the model is sequential (see "## Left out" for what that leaves out).
- `dispatch_log.dfy` (`DispatchLog`): replays the recorded libdispatch calls
  for one direction and defines when they keep the component's own rules for
  its sources:
  - a source is created only when none exists for that direction (one source
    per direction);
  - it is suspended only while running;
  - it is resumed only while suspended;
  - it is cancelled only while running.

  These rules are stricter than libdispatch's, which allow nested suspends
  balanced by as many resumes. They imply libdispatch's own: no source is
  resumed more often than it was suspended, and none is released while
  suspended.
- `run_loop_log.dfy` (`RunLoopLog`): replays the recorded run-loop source
  calls and defines when they keep the one-run-loop-source rule. A source is
  created only when none is held, and a release always names the source
  held.
- `invariant.dfy` (`Invariant`): `Consistent`, the invariant of every
  reachable record, with one preservation lemma per operation.
- `traces.dfy` (`Traces`): whole lifetimes (any sequence of operations after
  creation) and what holds over all of them.
- `cf_file_descriptor.dfy` (`CFFileDescriptor`): class `FileDescriptor`. Its
  fields are those of the C record. Its methods update them step by step, as
  the C code does, and each is proved to perform exactly the matching step of
  `Transitions`.

External calls are events appended to the record's `log`, in the order the C
code makes them. This covers `dispatch_source_create`, `dispatch_suspend`,
`dispatch_resume`, `dispatch_source_cancel`/`dispatch_release`,
`CFRunLoopSourceCreate`, `CFRelease` of the run-loop source,
`CFRunLoopSourceSignal`, `CFRunLoopWakeUp`, `close` and the consumer callout.
Some values come from outside the component, so they are parameters:

- whether the runtime allocated the instance;
- what `CFRunLoopSourceIsValid` answers;
- which source `CFRunLoopSourceCreate` returns.

In three places the code does something other than what a caller would
expect, and the model follows the code:

- `CFFileDescriptorCreateRunLoopSource` returns NULL when a still-valid source
  already exists (`CFFileDescriptor.c:267`, `:291`). It does not return the
  existing one. `Traces.SecondRunLoopSourceIsNull` states this.
- The perform callback always reports `kCFFileDescriptorWriteCallBack`,
  whichever direction fired (`CFFileDescriptor.c:176`).
- `Invalidate` releases the run-loop source but does not invalidate it, and
  perform does not check validity. So a perform the run loop still runs after
  invalidation calls the consumer. `Traces.InvalidIsTerminal` proves these
  callouts are the only calls an invalid handle still makes.

A disabled callback whose watcher was never created stays absent:
`DisableCallBacks` never creates a watcher.

## Model

| member | source | states |
|---|---|---|
| Flags.FlagRequestsOnlyItself | RunLoop.subproj/CFFileDescriptor.h:19-22 | the read and write flags are distinct single bits: a direction's flag requests that direction and no other |
| Transitions.Create | RunLoop.subproj/CFFileDescriptor.c:218-263 | NULL exactly when the callout is NULL or allocation fails. Otherwise: valid, the given descriptor and close-on-invalidate bit, both watchers absent with suspended flags set, no run-loop source or run loop, no calls made. Context version 0; the caller's context fields, or, when none is given, a description of the descriptor with CoreFoundation's retain, release and copy-description functions |
| CFFileDescriptor.FileDescriptor.Create | RunLoop.subproj/CFFileDescriptor.c:218-263 | returns NULL exactly when `Transitions.Create` fails; otherwise a fresh handle that reports itself valid, whose state is the created state and which satisfies the invariant |
| CFFileDescriptor.FileDescriptor.Init | RunLoop.subproj/CFFileDescriptor.c:236-260 | fills the record field by field into the created state |
| Transitions.CreateSource | RunLoop.subproj/CFFileDescriptor.c:46-78 | for a direction with no source: makes it present, keeps its suspended flag, leaves the other direction alone, records one source creation |
| CFFileDescriptor.FileDescriptor.CreateSource | RunLoop.subproj/CFFileDescriptor.c:46-78 | performs `Transitions.CreateSource` in place |
| Transitions.SuspendOne | RunLoop.subproj/CFFileDescriptor.c:84-91 | a present, running source becomes suspended with one `dispatch_suspend`; anything else is left as it is |
| Transitions.SuspendSource | RunLoop.subproj/CFFileDescriptor.c:80-92 | acts only on the direction whose flag equals the argument; any other argument changes nothing |
| CFFileDescriptor.FileDescriptor.SuspendSource | RunLoop.subproj/CFFileDescriptor.c:80-92 | performs `Transitions.SuspendSource` in place |
| Transitions.ResumeOne | RunLoop.subproj/CFFileDescriptor.c:123-130 | a present, suspended source is resumed with one `dispatch_resume`; anything else is left as it is |
| Transitions.EnableSources | RunLoop.subproj/CFFileDescriptor.c:121-131 | every requested direction with a source ends running; unrequested or absent directions unchanged; presence never changes. The calls are exactly one resume per requested direction that was present and suspended, read first |
| CFFileDescriptor.FileDescriptor.EnableSources | RunLoop.subproj/CFFileDescriptor.c:121-131 | performs `Transitions.EnableSources` in place |
| Transitions.RemoveOne | RunLoop.subproj/CFFileDescriptor.c:97-116 | the source ends absent. The calls are a resume when it was suspended, then the cancel and release; nothing when it was absent |
| Transitions.RemoveSource | RunLoop.subproj/CFFileDescriptor.c:95-117 | acts only on the direction whose flag equals the argument |
| CFFileDescriptor.FileDescriptor.RemoveSource | RunLoop.subproj/CFFileDescriptor.c:95-117 | performs `Transitions.RemoveSource` in place |
| Transitions.HandleEvent | RunLoop.subproj/CFFileDescriptor.c:59-74 | the firing direction ends suspended if present and is unchanged if absent; the other is unchanged. The calls, in order: the suspension, then a signal only if a run-loop source exists, then a wake-up only if a run loop is recorded |
| CFFileDescriptor.FileDescriptor.HandleEvent | RunLoop.subproj/CFFileDescriptor.c:59-74 | performs `Transitions.HandleEvent` in place and keeps the invariant |
| CFFileDescriptor.FileDescriptor.SuspendAndSignal | RunLoop.subproj/CFFileDescriptor.c:64-72 | the handler's three steps, suspend, signal, wake, in place: the new state is `Transitions.HandleEvent` of the old |
| Transitions.Schedule | RunLoop.subproj/CFFileDescriptor.c:138-146 | records the run loop when there is one, otherwise changes nothing; nothing else changes |
| CFFileDescriptor.FileDescriptor.ScheduleCallback | RunLoop.subproj/CFFileDescriptor.c:138-146 | sets the run loop only when both info and the run loop are non-NULL |
| Transitions.Cancel | RunLoop.subproj/CFFileDescriptor.c:150-158 | clears the recorded run loop and nothing else |
| CFFileDescriptor.FileDescriptor.CancelCallback | RunLoop.subproj/CFFileDescriptor.c:150-158 | clears the run loop when info is non-NULL |
| Transitions.PerformInfo | RunLoop.subproj/CFFileDescriptor.c:164-174 | the callout's info argument is the context's info when that is non-NULL, and the handle itself when it is NULL; never a NULL info |
| Transitions.Perform | RunLoop.subproj/CFFileDescriptor.c:161-177 | exactly one callout, with the write flag and `PerformInfo`; nothing else changes |
| CFFileDescriptor.FileDescriptor.PerformCallback | RunLoop.subproj/CFFileDescriptor.c:161-177 | performs `Transitions.Perform` in place |
| Transitions.CreateRunLoopSource | RunLoop.subproj/CFFileDescriptor.c:265-300 | NULL and no change for an invalid handle. A new source, stored and returned, when there is none or the stored one is no longer valid. NULL with the stored source kept when it is still valid. The log gains only the release of a dead source and the creation of the new one. Watchers and validity untouched |
| CFFileDescriptor.FileDescriptor.CreateRunLoopSource | RunLoop.subproj/CFFileDescriptor.c:265-300 | performs `Transitions.CreateRunLoopSource` in place, returns its result and keeps the invariant |
| CFFileDescriptor.FileDescriptor.InstallRunLoopSource | RunLoop.subproj/CFFileDescriptor.c:269-294 | the body in place: release a dead stored source, then create and store one if none is stored; state and result are those of `Transitions.CreateRunLoopSource` |
| Transitions.GetNativeDescriptor | RunLoop.subproj/CFFileDescriptor.c:302-308 | the stored descriptor while valid, -1 once invalid |
| CFFileDescriptor.GetNativeDescriptor | RunLoop.subproj/CFFileDescriptor.c:302-308 | -1 for NULL or an invalid handle, the descriptor otherwise |
| Transitions.GetContext | RunLoop.subproj/CFFileDescriptor.c:310-321 | a copy of the stored context when valid and the output is non-NULL; the output untouched otherwise |
| CFFileDescriptor.GetContext | RunLoop.subproj/CFFileDescriptor.c:310-321 | the same, with NULL handled |
| CFFileDescriptor.IsValid | RunLoop.subproj/CFFileDescriptor.c:403-408 | false for NULL; when true, the descriptor accessor answers the stored descriptor, and when false it answers -1. `FileDescriptor.Create` and `FileDescriptor.Invalidate` state when it holds: true after a successful create, false after invalidation |
| Transitions.Arm | RunLoop.subproj/CFFileDescriptor.c:335-349 | on a valid handle a requested direction ends present and running; the other direction is unchanged. The calls are a source creation if it was absent, then a resume if its flag said suspended |
| Transitions.EnableCallBacks | RunLoop.subproj/CFFileDescriptor.c:324-352 | invalid handle or zero mask: no change. Otherwise every requested direction ends present and running, created if absent. Unrequested directions unchanged; only watchers and calls change. The calls are exactly those of arming the read direction, then the write direction, each if requested |
| CFFileDescriptor.FileDescriptor.EnableCallBacks | RunLoop.subproj/CFFileDescriptor.c:324-352 | performs `Transitions.EnableCallBacks` in place and keeps the invariant |
| Transitions.DisableCallBacks | RunLoop.subproj/CFFileDescriptor.c:355-374 | invalid handle or zero mask: no change. Otherwise every requested present watcher ends suspended. Never creates or removes a watcher, never resumes one; unrequested or absent directions unchanged. The calls are exactly one suspend per requested watcher that was running, read first |
| CFFileDescriptor.FileDescriptor.DisableCallBacks | RunLoop.subproj/CFFileDescriptor.c:355-374 | performs `Transitions.DisableCallBacks` in place and keeps the invariant |
| Transitions.ReleaseAndClose | RunLoop.subproj/CFFileDescriptor.c:390-397 | releases and forgets the run-loop source if any, then closes the descriptor only under close-on-invalidate; every other field stays |
| CFFileDescriptor.FileDescriptor.ReleaseAndClose | RunLoop.subproj/CFFileDescriptor.c:390-397 | performs `Transitions.ReleaseAndClose` in place |
| Transitions.Invalidate | RunLoop.subproj/CFFileDescriptor.c:377-400 | ends invalid; an already invalid handle is unchanged. A valid one ends with no run-loop source and both watchers absent, a removed watcher's suspended flag cleared and an absent one's kept. Its calls, in order: each present watcher's teardown (resume first if suspended, then cancel), the release of the run-loop source, and a close only under close-on-invalidate |
| CFFileDescriptor.FileDescriptor.Invalidate | RunLoop.subproj/CFFileDescriptor.c:377-400 | clears the valid bit first, then performs the rest of `Transitions.Invalidate` in place; keeps the invariant; afterwards `IsValid` answers false |
| Invariant.CreateIsConsistent | RunLoop.subproj/CFFileDescriptor.c:252-260 | a newly created handle satisfies the invariant: absent watchers with suspended flags set, no calls made, nothing closed, no run-loop source held |
| Invariant.EnableCallBacksKeeps | RunLoop.subproj/CFFileDescriptor.c:333-351 | enabling keeps the watcher fields in step with the libdispatch calls; a created source starts suspended, matching its flag |
| Invariant.DisableCallBacksKeeps | RunLoop.subproj/CFFileDescriptor.c:363-373 | disabling keeps the invariant |
| Invariant.InvalidateKeeps | RunLoop.subproj/CFFileDescriptor.c:383-399 | invalidating keeps the invariant. Afterwards nothing is owned, the run-loop calls hold no source, and the close count is one exactly under close-on-invalidate |
| Invariant.CreateRunLoopSourceKeeps | RunLoop.subproj/CFFileDescriptor.c:269-294 | creating the run-loop source keeps the invariant: the release of a dead stored source names the source held, and a new one is created only once none is held |
| Invariant.HandleEventKeeps | RunLoop.subproj/CFFileDescriptor.c:59-74 | the event handler keeps the invariant |
| Invariant.SuspendSourceKeeps | RunLoop.subproj/CFFileDescriptor.c:80-92 | suspending a direction keeps the invariant: the suspension is recorded exactly when the watcher flips from running to suspended |
| Invariant.ScheduleKeeps | RunLoop.subproj/CFFileDescriptor.c:142-145 | scheduling keeps the invariant |
| Invariant.CancelKeeps | RunLoop.subproj/CFFileDescriptor.c:155-157 | cancelling keeps the invariant |
| Invariant.PerformKeeps | RunLoop.subproj/CFFileDescriptor.c:161-177 | performing keeps the invariant |
| Traces.StepKeeps | RunLoop.subproj/CFFileDescriptor.c:59-400 | every operation keeps the invariant |
| Traces.RunKeeps | RunLoop.subproj/CFFileDescriptor.c:59-400 | every sequence of operations keeps the invariant |
| Traces.Created | RunLoop.subproj/CFFileDescriptor.c:236-262 | the state after a successful create satisfies the invariant |
| Traces.SameHandleAlongRun | RunLoop.subproj/CFFileDescriptor.c:236-260 | no operation changes the descriptor, the close-on-invalidate bit, the callout or the context |
| Traces.ClosedAtMostOnce | RunLoop.subproj/CFFileDescriptor.c:395-397 | over any lifetime the descriptor is closed at most once. It is closed exactly when the handle has been invalidated with close-on-invalidate set |
| Traces.DispatchCallsAreLawful | RunLoop.subproj/CFFileDescriptor.c:46-130 | over any lifetime every libdispatch call kept the component's rules when made: no second source for a direction, no double suspend, no resume of a running source, no cancel of a suspended one |
| RunLoopLog.SoundBalances | RunLoop.subproj/CFFileDescriptor.c:272-291 | in a log that keeps the one-source rule, the sources created number the sources released plus one if a source is still held |
| RunLoopLog.SoundPrefix | RunLoop.subproj/CFFileDescriptor.c:272-291 | a broken one-source rule is never forgotten: a sound log has only sound prefixes |
| Traces.RunLoopSourceReleasedOnce | RunLoop.subproj/CFFileDescriptor.c:269-294 | over any lifetime, at every point of the log, releases never outnumber creations and at most one run-loop source is outstanding. Each release names the source held, and none is created while one is held. The outstanding source is the stored one, and once the handle is invalid every source created has been released (`:390-393`); the early release of a dead source (`:272-275`) keeps this balance |
| Traces.InvalidIsTerminal | RunLoop.subproj/CFFileDescriptor.c:377-381 | once invalid, a handle stays invalid, owns nothing, reports -1 and no context. Its only further calls are callouts from perform |
| Traces.NoDispatchCallsOnceInvalid | RunLoop.subproj/CFFileDescriptor.c:46-130 | once invalid, a handle makes no further libdispatch call: every direction's replayed view of the calls stays as it was |
| Traces.InvalidateIsIdempotent | RunLoop.subproj/CFFileDescriptor.c:379-381 | invalidating n >= 1 times is the same as invalidating once |
| Traces.EnableIsIdempotent | RunLoop.subproj/CFFileDescriptor.c:324-352 | enabling the same mask twice is the same as enabling it once |
| Traces.DisableIsIdempotent | RunLoop.subproj/CFFileDescriptor.c:355-374 | disabling the same mask twice is the same as disabling it once |
| Traces.ArmedFollowsLastRequest | RunLoop.subproj/CFFileDescriptor.c:324-374 | on a valid handle, after any enables and disables, a direction is armed exactly when the last call naming it was an enable. If no call named it, it is armed exactly when it was before |
| Traces.FiringIsOneShot | RunLoop.subproj/CFFileDescriptor.c:64-65 | after a direction's handler runs it cannot run again until an enable names that direction, whatever else happens meanwhile |
| Traces.StepKeepsDisarmed | RunLoop.subproj/CFFileDescriptor.c:59-400 | no operation other than an enable naming a direction arms that direction's watcher |
| Traces.SecondRunLoopSourceIsNull | RunLoop.subproj/CFFileDescriptor.c:267-291 | once a source was returned, asking again while it is still valid returns NULL and keeps it |

## Left out

- Locking: the `OSSpinLock` and all concurrency. The model is sequential: each C function is one uninterrupted step. The deallocator (`CFFileDescriptor.c:181-188`) takes the lock and then calls `Invalidate`, which takes the same lock again. That is a locking matter outside a sequential model, so the deallocator is not modelled.
- HandleEvent, ScheduleCallback, CancelCallback, PerformCallback: in the C code these take no lock (`CFFileDescriptor.c:59-74`, `:138-177`). The event handler's suspend can therefore interleave with `Invalidate`'s cancel and release, and the callbacks can run while another thread holds the lock. The model runs each as one uninterrupted step, and `Traces.InvalidIsTerminal` and `Traces.FiringIsOneShot` hold only under that sequential reading.
- CreateRunLoopSource, EnableCallBacks, DisableCallBacks, Invalidate: each tests validity (`CFFileDescriptor.c:269`, `:326`, `:357`, `:379`) before it takes the lock (`:270`, `:333`, `:363`, `:383`). The model treats the test and the locked body as one step, so a handle invalidated between the two is not modelled.
- Reference counting (`CFRetain`/`CFRelease` of the handle and the run-loop source), `CFLog` output, and the runtime registration (`__CFFileDescriptorInitialize`, `CFFileDescriptorGetTypeID`).
- The type-identity checks (`CFGetTypeID(f) != ...`): a handle here is a typed reference. NULL is modelled only for the accessors (`IsValid`, `GetNativeDescriptor`, `GetContext`) and the callbacks' `info`. The mutating operations are methods on a non-NULL handle; on NULL the C code does nothing.
- libdispatch itself: sources, queues (`dispatch_get_current_queue`) and the data estimate are not modelled. Only the calls made on them are recorded.
- The run loop itself: `CFRunLoopSourceIsValid` and the source `CFRunLoopSourceCreate` returns are parameters. A NULL result of `CFRunLoopSourceCreate` is not modelled. The `allocator` argument is dropped, and `order` is only recorded.
- The schedule and cancel callbacks' `mode` argument, which the code ignores.
- The description string built by `CFStringCreateWithFormat` for a handle created without a context. It is the opaque value `Description(fd)`.
- `close()`: recorded as an event, with no effect on the descriptor.
- CreateSource, Arm, EnableCallBacks: a NULL result of `dispatch_source_create` (`CFFileDescriptor.c:53`, `:55`, tested at `:58`) is not modelled. The model always obtains a source, so `EnableCallBacks` promises that a requested direction ends present and running. In the C code a failed creation leaves that direction unwatched and no resume is made.
- `__CFFDCreateSource` with a source already present: its local `source` would be uninitialised. `CreateSource` requires the direction's source to be absent, which is how both callers use it.
- `Traces.InvalidIsTerminal` relies on one thing the run-time environment promises: libdispatch runs a source's event handler only while the source exists and is resumed (`Traces.Possible`). `Traces.FiringIsOneShot` needs no such assumption; it concludes that a second firing is not `Possible`.
- The other files (`CoreFoundation/Stream.subproj/CFFileDescriptor.h`, the bridging headers `BridgeHelpers.h`, `NSCF*.h`, `NSCFType.h`, `GSCFInternal.h`) hold declarations, macros and Objective-C bridging only.
