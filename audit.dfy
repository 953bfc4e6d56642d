/**
 * The audit log (background.js `addLog`): the entry it builds from the caller's fields
 * and the stored settings, and the bounded first-in-first-out retention of the log.
 */
module Audit {
  import opened Js
  import opened Config

  /**
   * The entry `addLog(entry)` stores: a generated `id` and `timestamp`, the user's name and
   * role from the settings (with fallbacks), then every field of `entry`, which wins.
   * The UUID and the ISO timestamp are inputs.
   */
  function NewEntry(settings: Object, id: string, timestamp: string, entry: Object): (r: Object)
    ensures r.Keys == {"id", "timestamp", "userName", "userRole"} + entry.Keys
    ensures forall k :: k in entry ==> r[k] == entry[k]
    ensures "id" !in entry ==> r["id"] == Str(id)
    ensures "timestamp" !in entry ==> r["timestamp"] == Str(timestamp)
    ensures "userName" !in entry ==> r["userName"] == Or(Get(settings, "userName"), Str("Unknown"))
    ensures "userRole" !in entry ==> r["userRole"] == Or(Get(settings, "userRole"), Str(DefaultUserRole))
  {
    Spread(map[
      "id" := Str(id),
      "timestamp" := Str(timestamp),
      "userName" := Or(Get(settings, "userName"), Str("Unknown")),
      "userRole" := Or(Get(settings, "userRole"), Str(DefaultUserRole))
    ], entry)
  }

  /** The newest `max` elements of `s`, or all of them when there are no more than `max`. */
  function KeepNewest<T>(s: seq<T>, max: nat): seq<T> {
    if |s| <= max then s else s[|s| - max..]
  }

  /** The loop `while (logs.length > MAX_LOG_ENTRIES) logs.shift()`, over the log as a sequence. */
  method TrimToMax<T>(logs: seq<T>, max: nat) returns (r: seq<T>)
    ensures r == KeepNewest(logs, max)
  {
    r := logs;
    while |r| > max
      invariant |r| <= |logs| && r == logs[|logs| - |r|..]
      invariant |logs| > max ==> |r| >= max
      invariant |logs| <= max ==> r == logs
      decreases |r|
    {
      r := r[1..];
    }
  }

  /**
   * Appending then trimming: the new entry is last, the length is `min(old + 1, max)`,
   * and what is dropped is a prefix of the old log, its oldest entries.
   */
  lemma {:induction false} AppendThenKeepNewest<T>(logs: seq<T>, e: T, max: nat)
    requires max > 0
    ensures var r := KeepNewest(logs + [e], max);
            && |r| == (if |logs| + 1 <= max then |logs| + 1 else max)
            && r[|r| - 1] == e
            && r[..|r| - 1] == logs[|logs| + 1 - |r|..]
  {
    var s := logs + [e];
    var r := KeepNewest(s, max);
    assert r == s[|s| - |r|..];
    assert r[..|r| - 1] == s[|s| - |r|..|s| - 1];
    assert s[..|s| - 1] == logs;
  }

  /** A log within the bound is kept whole; keeping the newest is idempotent. */
  lemma KeepNewestIdempotent<T>(s: seq<T>, max: nat)
    ensures |KeepNewest(s, max)| <= max || KeepNewest(s, max) == s
    ensures KeepNewest(KeepNewest(s, max), max) == KeepNewest(s, max)
  {
  }
}
