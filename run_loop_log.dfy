/**
 * What the recorded run-loop calls say about the handle's run-loop source,
 * and when that sequence of calls is sound by the component's own rule of one
 * run-loop source at a time: a source is created only when none is held, and
 * the source released is always the one held, so none is released twice or
 * dropped without a release.
 */
module RunLoopLog {
  import opened FdTypes

  /** The run-loop source currently held, and whether every call so far kept
    * the rule. */
  datatype Holding = Holding(held: Option<SourceRef>, sound: bool)

  /** The effect of one recorded call on the holding. */
  function Hold(h: Holding, e: Event): Holding {
    match e
    case RunLoopSourceCreated(c, _) => Holding(Some(c), h.sound && h.held.None?)
    case RunLoopSourceReleased(c) => Holding(None, h.sound && h.held == Some(c))
    case _ => h
  }

  /** The holding after the whole log, replayed from the first call. */
  function Holdings(log: seq<Event>): Holding
    decreases |log|
  {
    if log == [] then Holding(None, true)
    else Hold(Holdings(log[..|log| - 1]), log[|log| - 1])
  }

  lemma HoldingsSnoc(log: seq<Event>, e: Event)
    ensures Holdings(log + [e]) == Hold(Holdings(log), e)
  {
    assert (log + [e])[..|log|] == log;
  }

  /** The number of run-loop sources the log creates. */
  function Creations(log: seq<Event>): nat
    decreases |log|
  {
    if log == [] then 0
    else Creations(log[..|log| - 1]) + if log[|log| - 1].RunLoopSourceCreated? then 1 else 0
  }

  /** The number of run-loop sources the log releases. */
  function Releases(log: seq<Event>): nat
    decreases |log|
  {
    if log == [] then 0
    else Releases(log[..|log| - 1]) + if log[|log| - 1].RunLoopSourceReleased? then 1 else 0
  }

  /** A sound log releases every source it creates except the one it still
    * holds: never more releases than creations, at most one source outstanding. */
  lemma {:induction false} SoundBalances(log: seq<Event>)
    requires Holdings(log).sound
    ensures Creations(log) == Releases(log) + if Holdings(log).held.Some? then 1 else 0
    decreases |log|
  {
    if log != [] {
      SoundBalances(log[..|log| - 1]);
    }
  }

  /** A broken rule is never forgotten: a sound log has only sound prefixes. */
  lemma {:induction false} SoundPrefix(log: seq<Event>, k: nat)
    requires Holdings(log).sound
    requires k <= |log|
    ensures Holdings(log[..k]).sound
  {
    if k < |log| {
      var front := log[..|log| - 1];
      assert front[..k] == log[..k];
      SoundPrefix(front, k);
    } else {
      assert log[..k] == log;
    }
  }
}
