/**
 * What the recorded libdispatch calls say about one direction's dispatch
 * source, and when that sequence of calls keeps the component's own rules:
 * a source is created only when none exists for that direction, suspended
 * only while running, resumed only while suspended once, and cancelled only
 * while running. These are stricter than libdispatch, which allows nested
 * suspends that are balanced by resumes; they imply libdispatch's own rules,
 * that no source is resumed more often than it was suspended and none is
 * released while suspended.
 */
module DispatchLog {
  import opened Flags
  import opened FdTypes

  /** Whether a source exists, its suspension count, and whether every call
    * so far kept the rules. */
  datatype View = View(live: bool, suspensions: int, lawful: bool)

  /** Before any call: no source, no rule broken. */
  const Initial: View := View(false, 0, true)

  /** The effect of one recorded call on direction `d`'s view. */
  function Observe(v: View, e: Event, d: Direction): View {
    match e
    case SourceCreated(x) =>
      if x != d then v else View(true, 1, v.lawful && !v.live)
    case SourceSuspended(x) =>
      if x != d then v else View(v.live, v.suspensions + 1, v.lawful && v.live && v.suspensions == 0)
    case SourceResumed(x) =>
      if x != d then v else View(v.live, v.suspensions - 1, v.lawful && v.live && v.suspensions == 1)
    case SourceCancelled(x) =>
      if x != d then v else View(false, 0, v.lawful && v.live && v.suspensions == 0)
    case _ => v
  }

  /** The view after the whole log, replayed from the first call. */
  function Replay(log: seq<Event>, d: Direction): View
    decreases |log|
  {
    if log == [] then Initial
    else Observe(Replay(log[..|log| - 1], d), log[|log| - 1], d)
  }

  /** Replaying a log extended by one call observes that call last. */
  lemma ReplaySnoc(log: seq<Event>, e: Event, d: Direction)
    ensures Replay(log + [e], d) == Observe(Replay(log, d), e, d)
  {
    assert (log + [e])[..|log|] == log;
  }

  /** Does `e` concern a dispatch source at all? */
  predicate IsDispatchCall(e: Event) {
    e.SourceCreated? || e.SourceSuspended? || e.SourceResumed? || e.SourceCancelled?
  }

  /** Calls that are not libdispatch calls leave every direction's view as it was. */
  lemma {:induction false} ReplayIgnores(log: seq<Event>, more: seq<Event>, d: Direction)
    requires forall k :: 0 <= k < |more| ==> !IsDispatchCall(more[k])
    ensures Replay(log + more, d) == Replay(log, d)
  {
    if more != [] {
      var front := more[..|more| - 1];
      ReplayIgnores(log, front, d);
      assert log + more == (log + front) + [more[|more| - 1]];
      ReplaySnoc(log + front, more[|more| - 1], d);
    } else {
      assert log + more == log;
    }
  }

  /** A broken rule is never forgotten: a lawful log has only lawful prefixes,
    * so every call it records kept the rules when it was made. */
  lemma {:induction false} LawfulPrefix(log: seq<Event>, d: Direction, k: nat)
    requires Replay(log, d).lawful
    requires k <= |log|
    ensures Replay(log[..k], d).lawful
  {
    if k < |log| {
      var front := log[..|log| - 1];
      assert front[..k] == log[..k];
      LawfulPrefix(front, d, k);
    } else {
      assert log[..k] == log;
    }
  }
}
