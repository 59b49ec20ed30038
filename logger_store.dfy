/**
  The console log store: `log` coalesces an entry identical to the last one
  into a repeat count and otherwise appends, evicting the oldest entry when
  the list would grow past `maxLogs`; `clearLogs` empties it.
*/
module LoggerStore {
  import opened Wrappers
  import opened LiveClient

  /** A `StreamingLog`: `date` is a timestamp supplied by the caller. */
  datatype Entry = Entry(date: int, kind: string, count: Option<nat>, message: LogMessage)

  const MaxLogs: nat := 100

  /** `count || 1`: a missing or zero count counts as one occurrence. */
  function Occurrences(e: Entry): (n: nat)
    ensures n >= 1
    ensures e.count.Some? && e.count.value > 0 ==> n == e.count.value
  {
    if e.count.Some? && e.count.value > 0 then e.count.value else 1
  }

  /** The last entry has the same type and an equal message. */
  predicate Repeats(logs: seq<Entry>, e: Entry)
  {
    |logs| > 0 && logs[|logs| - 1].kind == e.kind && logs[|logs| - 1].message == e.message
  }

  /** The state the updater passed to `set` by `log` produces. */
  function Logged(logs: seq<Entry>, e: Entry, maxLogs: nat): seq<Entry>
  {
    if Repeats(logs, e) then
      var last := logs[|logs| - 1];
      logs[..|logs| - 1] + [last.(count := Some(Occurrences(last) + 1), date := e.date)]
    else if |logs| + 1 > maxLogs then
      (logs + [e])[1..]
    else
      logs + [e]
  }

  /**
    A repeat adds no entry: the last entry counts one more occurrence and takes
    the new date, and every other entry is unchanged.
  */
  lemma LogCoalesces(logs: seq<Entry>, e: Entry, maxLogs: nat)
    requires Repeats(logs, e)
    ensures var r := Logged(logs, e, maxLogs);
      && |r| == |logs|
      && r[..|r| - 1] == logs[..|logs| - 1]
      && r[|r| - 1].count == Some(Occurrences(logs[|logs| - 1]) + 1)
      && r[|r| - 1].date == e.date
      && r[|r| - 1].kind == e.kind && r[|r| - 1].message == e.message
  {
  }

  /** Anything else is appended at the end; the oldest entry goes only when the bound is reached. */
  lemma LogAppends(logs: seq<Entry>, e: Entry, maxLogs: nat)
    requires !Repeats(logs, e)
    ensures var r := Logged(logs, e, maxLogs);
      && (|r| > 0 ==> r[|r| - 1] == e)
      && (|logs| < maxLogs ==> r == logs + [e])
      && (|logs| >= maxLogs && |logs| > 0 ==> r == logs[1..] + [e])
  {
    if |logs| >= maxLogs && |logs| > 0 {
      assert (logs + [e])[1..] == logs[1..] + [e];
    }
  }

  /** The list never grows past `maxLogs`, and a log never removes more than the oldest entry. */
  lemma LogBounded(logs: seq<Entry>, e: Entry, maxLogs: nat)
    requires |logs| <= maxLogs
    ensures |Logged(logs, e, maxLogs)| <= maxLogs
    ensures !Repeats(logs, e) && |logs| == maxLogs && maxLogs > 0 ==> Logged(logs, e, maxLogs)[..|logs| - 1] == logs[1..]
  {
    if !Repeats(logs, e) {
      LogAppends(logs, e, maxLogs);
    }
  }

  /** A new entry logged twice in a row is one entry counted twice. */
  lemma LogTwice(logs: seq<Entry>, e: Entry, later: int)
    requires |logs| <= MaxLogs
    requires !Repeats(logs, e) && e.count.None?
    ensures var r := Logged(Logged(logs, e, MaxLogs), e.(date := later), MaxLogs);
      r == Logged(logs, e, MaxLogs)[..|Logged(logs, e, MaxLogs)| - 1] + [Logged(logs, e, MaxLogs)[|Logged(logs, e, MaxLogs)| - 1].(count := Some(2), date := later)]
      && |r| == |Logged(logs, e, MaxLogs)|
  {
    var once := Logged(logs, e, MaxLogs);
    LogAppends(logs, e, MaxLogs);
    assert once[|once| - 1] == e;
    assert Repeats(once, e.(date := later));
  }

  /**
    Only the last entry is compared: `a`, then a different `b`, then `a` again
    leaves `b` and a fresh `a` as the two newest entries.
  */
  lemma NonConsecutiveRepeatsStaySeparate(logs: seq<Entry>, a: Entry, b: Entry)
    requires |logs| <= MaxLogs
    requires a.kind != b.kind || a.message != b.message
    ensures var r := Logged(Logged(Logged(logs, a, MaxLogs), b, MaxLogs), a, MaxLogs);
      |r| >= 2 && r[|r| - 1] == a && r[|r| - 2] == b
  {
    var one := Logged(logs, a, MaxLogs);
    LogBounded(logs, a, MaxLogs);
    assert |one| > 0 && one[|one| - 1].kind == a.kind && one[|one| - 1].message == a.message;
    LogBounded(one, b, MaxLogs);
    var two := Logged(one, b, MaxLogs);
    LogAppends(one, b, MaxLogs);
    assert two[|two| - 1] == b;
    assert !Repeats(two, a);
    LogAppends(two, a, MaxLogs);
    var r := Logged(two, a, MaxLogs);
    if |two| < MaxLogs {
      assert r == two + [a];
    } else {
      assert r == two[1..] + [a];
      assert |two| >= 2;
    }
  }

  class LoggerStore {
    var maxLogs: nat
    var logs: seq<Entry>

    ghost predicate Valid()
      reads this
    {
      |logs| <= maxLogs
    }

    constructor ()
      ensures Valid() && maxLogs == MaxLogs && logs == []
    {
      maxLogs := MaxLogs;
      logs := [];
    }

    /**
      `log`: the last entry is updated in place when the new entry repeats it;
      otherwise the entry is appended to a copy and the oldest is shifted off
      when the copy is longer than `maxLogs`.
    */
    method Log(e: Entry)
      requires Valid()
      modifies this
      ensures Valid() && maxLogs == old(maxLogs)
      ensures logs == Logged(old(logs), e, maxLogs)
    {
      LogBounded(logs, e, maxLogs);
      if |logs| > 0 {
        var prev := logs[|logs| - 1];
        if prev.kind == e.kind && prev.message == e.message {
          var count := if prev.count.Some? && prev.count.value > 0 then prev.count.value else 1;
          logs := logs[..|logs| - 1] + [prev.(count := Some(count + 1), date := e.date)];
          return;
        }
      }
      var newLogs := logs + [e];
      if |newLogs| > maxLogs {
        newLogs := newLogs[1..];
      }
      logs := newLogs;
    }

    /** `clearLogs`. */
    method ClearLogs()
      modifies this
      ensures Valid() && logs == [] && maxLogs == old(maxLogs)
    {
      logs := [];
    }
  }
}
