/** The dashboard's list of recent authentication activity: a copy of the
    logs sorted newest first (`[...logs].sort((a, b) => b.time - a.time)`),
    or a fixed message when there are none.  The built-in sort is stable, so
    logs with the same time keep their input order; the model sorts by
    inserting each log before the first one that is not newer. */
module LogList {
  import opened Common

  /** A log as the list shows it: user name, action and the time of its
      `timestamp`, in milliseconds. */
  datatype Entry = Entry(username: string, action: string, time: int)

  /** What the list shows. */
  datatype View = NoActivity | Entries(logs: seq<Entry>)

  const NoActivityText := "No authentication activity in the last month."

  /** Newest first: no log is newer than one before it. */
  predicate NewestFirst(s: seq<Entry>) {
    forall i, j :: 0 <= i < j < |s| ==> s[i].time >= s[j].time
  }

  /** `x` placed before the first log of `s` that is not newer than it. */
  function Insert(x: Entry, s: seq<Entry>): (r: seq<Entry>)
    ensures |r| == |s| + 1
  {
    if s == [] || x.time >= s[0].time then [x] + s
    else [s[0]] + Insert(x, s[1..])
  }

  /** The sorted copy of the logs. */
  function SortNewestFirst(logs: seq<Entry>): (r: seq<Entry>)
    ensures |r| == |logs|
  {
    if logs == [] then [] else Insert(logs[0], SortNewestFirst(logs[1..]))
  }

  /** The list's content for the given logs. */
  function Show(logs: seq<Entry>): (v: View)
    ensures v.NoActivity? <==> logs == []
    ensures v.Entries? ==> v.logs == SortNewestFirst(logs)
  {
    var sorted := SortNewestFirst(logs);
    if |sorted| == 0 then NoActivity else Entries(sorted)
  }

  // ---------------------------------------------------------------------------
  // Insertion

  lemma {:induction false} InsertPermutes(x: Entry, s: seq<Entry>)
    ensures multiset(Insert(x, s)) == multiset(s) + multiset{x}
  {
    if s != [] && x.time < s[0].time {
      InsertPermutes(x, s[1..]);
      assert s == [s[0]] + s[1..];
    }
  }

  /** Every log of `Insert(x, s)` is `x` or a log of `s`. */
  lemma InsertMembers(x: Entry, s: seq<Entry>)
    ensures forall y :: y in Insert(x, s) <==> y == x || y in s
  {
    InsertPermutes(x, s);
    forall y
      ensures y in Insert(x, s) <==> y == x || y in s
    {
      assert y in Insert(x, s) <==> y in multiset(Insert(x, s));
      assert y in s <==> y in multiset(s);
    }
  }

  lemma {:induction false} InsertKeepsOrder(x: Entry, s: seq<Entry>)
    requires NewestFirst(s)
    ensures NewestFirst(Insert(x, s))
  {
    if s != [] && x.time < s[0].time {
      InsertKeepsOrder(x, s[1..]);
      InsertMembers(x, s[1..]);
      var r := Insert(x, s);
      assert r == [s[0]] + Insert(x, s[1..]);
      forall i, j | 0 <= i < j < |r|
        ensures r[i].time >= r[j].time
      {
        if i == 0 {
          assert r[j] in Insert(x, s[1..]);
        }
      }
    }
  }

  /** `AtTime(t)` keeps the logs of time `t`. */
  function AtTime(t: int): Entry -> bool {
    (e: Entry) => e.time == t
  }

  /** Among logs of one time, `x` comes first: inserting it puts it before
      every log of its time and leaves the other times' logs alone. */
  lemma {:induction false} InsertStable(x: Entry, s: seq<Entry>, t: int)
    ensures Filter(Insert(x, s), AtTime(t)) == (if x.time == t then [x] else []) + Filter(s, AtTime(t))
  {
    var p := AtTime(t);
    if s == [] || x.time >= s[0].time {
      FilterAppend([x], s, p);
    } else {
      InsertStable(x, s[1..], t);
      FilterAppend([s[0]], Insert(x, s[1..]), p);
      FilterAppend([s[0]], s[1..], p);
      assert s == [s[0]] + s[1..];
    }
  }

  // ---------------------------------------------------------------------------
  // Sorting

  /** The sorted copy holds exactly the input logs, as often as they occur. */
  lemma {:induction false} SortPermutes(logs: seq<Entry>)
    ensures multiset(SortNewestFirst(logs)) == multiset(logs)
  {
    if logs != [] {
      SortPermutes(logs[1..]);
      InsertPermutes(logs[0], SortNewestFirst(logs[1..]));
      assert logs == [logs[0]] + logs[1..];
    }
  }

  /** The sorted copy is newest first. */
  lemma {:induction false} SortOrders(logs: seq<Entry>)
    ensures NewestFirst(SortNewestFirst(logs))
  {
    if logs != [] {
      SortOrders(logs[1..]);
      InsertKeepsOrder(logs[0], SortNewestFirst(logs[1..]));
    }
  }

  /** The sort is stable: the logs of any one time appear in the sorted copy
      in their input order. */
  lemma {:induction false} SortStable(logs: seq<Entry>, t: int)
    ensures Filter(SortNewestFirst(logs), AtTime(t)) == Filter(logs, AtTime(t))
  {
    if logs != [] {
      SortStable(logs[1..], t);
      InsertStable(logs[0], SortNewestFirst(logs[1..]), t);
      FilterAppend([logs[0]], logs[1..], AtTime(t));
      assert logs == [logs[0]] + logs[1..];
    }
  }

  /** Logs that are already newest first are shown as they are. */
  lemma {:induction false} SortedUnchanged(logs: seq<Entry>)
    requires NewestFirst(logs)
    ensures SortNewestFirst(logs) == logs
  {
    if logs != [] {
      assert NewestFirst(logs[1..]) by {
        forall i, j | 0 <= i < j < |logs[1..]|
          ensures logs[1..][i].time >= logs[1..][j].time
        {
          assert logs[1..][i] == logs[i + 1] && logs[1..][j] == logs[j + 1];
        }
      }
      SortedUnchanged(logs[1..]);
      assert logs == [logs[0]] + logs[1..];
    }
  }

  /** Sorting twice gives what sorting once does. */
  lemma SortIdempotent(logs: seq<Entry>)
    ensures SortNewestFirst(SortNewestFirst(logs)) == SortNewestFirst(logs)
  {
    SortOrders(logs);
    SortedUnchanged(SortNewestFirst(logs));
  }

  /** Two logs one second apart, given oldest first, are shown newest first. */
  lemma TwoLogsExample()
    ensures var a, b := Entry("ann", "login", 1000), Entry("bob", "logout", 2000);
      Show([a, b]) == Entries([b, a])
  {
    var a, b := Entry("ann", "login", 1000), Entry("bob", "logout", 2000);
    assert [a, b][1..] == [b];
    assert SortNewestFirst([b]) == [b];
    assert Insert(a, [b]) == [b] + Insert(a, []);
  }
}
