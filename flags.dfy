/** Callback reason flags of the file-descriptor watcher. */
module Flags {

  /** `CFOptionFlags`: an unsigned machine word used as a bit mask. */
  type OptionFlags = bv64

  const ReadCallBack: OptionFlags := 1 << 0
  const WriteCallBack: OptionFlags := 1 << 1

  /** The two directions a descriptor can be watched in. */
  datatype Direction = Read | Write

  /** The flag that names direction `d`. */
  function Flag(d: Direction): (f: OptionFlags)
    ensures f == ReadCallBack <==> d == Read
    ensures f == WriteCallBack <==> d == Write
  {
    match d
    case Read => ReadCallBack
    case Write => WriteCallBack
  }

  function Other(d: Direction): (e: Direction)
    ensures e != d
  {
    match d
    case Read => Write
    case Write => Read
  }

  /** Does `mask` ask for direction `d` (the `callBackTypes & flag` test)? */
  predicate Requests(mask: OptionFlags, d: Direction) {
    match d
    case Read => mask & ReadCallBack != 0
    case Write => mask & WriteCallBack != 0
  }

  /** A single direction's flag requests that direction and no other. */
  lemma FlagRequestsOnlyItself(d: Direction, e: Direction)
    ensures Requests(Flag(d), e) <==> d == e
  {
  }
}
