/**
 * The activity log shown on screen: newest entry first, at most twenty
 * entries, the oldest dropped when a new one arrives.
 */
module ActivityLog {

  const MaxEntries: nat := 20

  function Min(a: int, b: int): int {
    if a < b then a else b
  }

  /** addLog's update `[entry, ...log].slice(0, 20)`. */
  function Logged<T>(log: seq<T>, entry: T): (r: seq<T>)
    ensures |r| == Min(|log| + 1, MaxEntries)
    ensures r[0] == entry
    ensures r[1..] == log[..Min(|log|, MaxEntries - 1)]
  {
    ([entry] + log)[..Min(|log| + 1, MaxEntries)]
  }

  function Reversed<T>(s: seq<T>): (r: seq<T>)
    ensures |r| == |s|
    decreases |s|
  {
    if s == [] then [] else Reversed(s[1..]) + [s[0]]
  }

  /** The log after adding `entries` one by one, first entry first. */
  function LoggedAll<T>(log: seq<T>, entries: seq<T>): seq<T>
    decreases |entries|
  {
    if entries == [] then log else LoggedAll(Logged(log, entries[0]), entries[1..])
  }

  lemma TruncatedTail<T>(a: seq<T>, b: seq<T>, k: nat, m: nat)
    requires k <= |b| && m <= |a| + k
    ensures (a + b[..k])[..m] == (a + b)[..m]
  {
    assert forall i | 0 <= i < m :: (a + b[..k])[i] == (a + b)[i];
  }

  /**
   * However many entries are added, the log is the most recent ones, newest
   * first, followed by the surviving old ones, cut at twenty: entries leave
   * the log oldest first and never change order.
   */
  lemma {:induction false} LoggedAllWindow<T>(log: seq<T>, entries: seq<T>)
    requires |log| <= MaxEntries
    ensures LoggedAll(log, entries)
         == (Reversed(entries) + log)[..Min(|entries| + |log|, MaxEntries)]
    decreases |entries|
  {
    if entries == [] {
      assert log[..|log|] == log;
    } else {
      var e, rest := entries[0], entries[1..];
      var k := Min(|log| + 1, MaxEntries);
      LoggedAllWindow(Logged(log, e), rest);
      assert Logged(log, e) == ([e] + log)[..k];
      TruncatedTail(Reversed(rest), [e] + log, k, Min(|rest| + k, MaxEntries));
      assert Reversed(entries) == Reversed(rest) + [e];
      assert Reversed(rest) + ([e] + log) == Reversed(entries) + log;
    }
  }
}
