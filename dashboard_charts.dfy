/** The admin dashboard's two activity charts.  Login history: one bucket
    per day for the 30 days ending today, each counting the login actions
    logged that day since one month ago.  User activity: per user name, the
    number of actions since one month ago.  Days are calendar days numbered
    by integers; `today` and `since` (the day one month before today) are
    given by the caller. */
module DashboardCharts {
  import opened Common
  import opened Tally

  /** A log entry: its action (`""` when absent), the calendar day of its
      `timestamp || createdAt` (`None` when that is no valid date), and the
      user name (`""` when absent). */
  datatype Log = Log(action: string, day: Option<int>, username: string)

  /** Number of day buckets of the login chart. */
  const Days: nat := 30

  /** The action names a login: its lowercased text contains one of four
      words. */
  predicate IsLoginAction(action: string) {
    var a := Lower(action);
    Contains(a, "login") || Contains(a, "signin") || Contains(a, "auth") || Contains(a, "logged")
  }

  /** `logDate >= oneMonthAgo`; `oneMonthAgo` is a midnight, so comparing
      calendar days is exact.  An invalid date compares false. */
  predicate IsRecent(log: Log, since: int) {
    log.day.Some? && log.day.value >= since
  }

  predicate IsRecentLogin(log: Log, since: int) {
    IsRecent(log, since) && IsLoginAction(log.action)
  }

  // ---------------------------------------------------------------------------
  // Login history

  /** The days of the recent login entries, in log order. */
  function LoginDays(logs: seq<Log>, since: int): (r: seq<int>)
    ensures |r| <= |logs|
  {
    if logs == [] then []
    else (if IsRecentLogin(logs[0], since) then [logs[0].day.value] else []) + LoginDays(logs[1..], since)
  }

  /** One day per recent login entry. */
  lemma {:induction false} LoginDaysCount(logs: seq<Log>, since: int)
    ensures |LoginDays(logs, since)| == CountWhere(logs, (l: Log) => IsRecentLogin(l, since))
  {
    if logs != [] {
      LoginDaysCount(logs[1..], since);
    }
  }

  /** A day is listed exactly when some recent login entry is of that day. */
  lemma {:induction false} LoginDaysMembers(logs: seq<Log>, since: int, d: int)
    ensures d in LoginDays(logs, since) <==>
      exists i :: 0 <= i < |logs| && IsRecentLogin(logs[i], since) && logs[i].day == Some(d)
  {
    if logs != [] {
      LoginDaysMembers(logs[1..], since, d);
      if d in LoginDays(logs[1..], since) {
        var i :| 0 <= i < |logs[1..]| && IsRecentLogin(logs[1..][i], since) && logs[1..][i].day == Some(d);
        assert logs[i + 1] == logs[1..][i];
      }
      if exists i :: 1 <= i < |logs| && IsRecentLogin(logs[i], since) && logs[i].day == Some(d) {
        var i :| 1 <= i < |logs| && IsRecentLogin(logs[i], since) && logs[i].day == Some(d);
        assert logs[1..][i - 1] == logs[i];
      }
    }
  }

  predicate InWindow(d: int, today: int) {
    today - (Days - 1) <= d <= today
  }

  /** The 30 bucket days, oldest first: today and the 29 days before. */
  function Window(today: int): (r: seq<int>)
    ensures |r| == Days
    ensures forall k :: 0 <= k < Days ==> r[k] == today - (Days - 1) + k
  {
    seq(Days, k requires 0 <= k < Days => today - (Days - 1) + k)
  }

  lemma WindowMembers(today: int)
    ensures forall d :: d in Window(today) <==> InWindow(d, today)
  {
    var r := Window(today);
    forall d | InWindow(d, today) ensures d in r {
      assert r[d - (today - (Days - 1))] == d;
    }
  }

  /** The days that find a bucket; the others are ignored. */
  function Kept(days: seq<int>, today: int): (r: seq<int>)
    ensures |r| <= |days|
    ensures forall d :: d in r ==> InWindow(d, today)
  {
    if days == [] then []
    else (if InWindow(days[0], today) then [days[0]] else []) + Kept(days[1..], today)
  }

  lemma {:induction false} KeptAppend(a: seq<int>, b: seq<int>, today: int)
    ensures Kept(a + b, today) == Kept(a, today) + Kept(b, today)
  {
    if a == [] {
      assert a + b == b;
    } else {
      assert (a + b)[1..] == a[1..] + b;
      KeptAppend(a[1..], b, today);
    }
  }

  /** A window day is kept as often as it occurs. */
  lemma {:induction false} KeptCount(days: seq<int>, today: int, d: int)
    requires InWindow(d, today)
    ensures multiset(Kept(days, today))[d] == multiset(days)[d]
  {
    if days != [] {
      KeptCount(days[1..], today, d);
      assert days == [days[0]] + days[1..];
    }
  }

  /** Adding one to a single position adds one to the total. */
  lemma {:induction false} SumIncrement(s: seq<int>, p: nat)
    requires p < |s|
    ensures Sum(s[p := s[p] + 1]) == Sum(s) + 1
  {
    if p > 0 {
      assert s[p := s[p] + 1][1..] == s[1..][p - 1 := s[1..][p - 1] + 1];
      SumIncrement(s[1..], p - 1);
    } else {
      assert s[p := s[p] + 1][1..] == s[1..];
    }
  }

  /** The seeding loop of `getLoginData`: from 29 days ago up to today,
      each day becomes a key with count 0. */
  method SeedWindow(today: int) returns (labels: seq<int>, data: seq<nat>)
    ensures labels == Window(today) && data == Zeros(Days)
  {
    labels, data := [], [];
    var i: int := Days - 1;
    while i >= 0
      invariant -1 <= i <= Days - 1
      invariant labels == Window(today)[..Days - 1 - i]
      invariant data == Zeros(Days - 1 - i)
    {
      assert Window(today)[..Days - i] == Window(today)[..Days - 1 - i] + [today - i];
      assert Zeros(Days - i) == Zeros(Days - 1 - i) + [0];
      labels, data := labels + [today - i], data + [0];
      i := i - 1;
    }
  }

  /** `getLoginData`.  `loginCounts` is held as its keys, in insertion
      order (`labels`), and position by position its counts (`data`): the
      30 days seeded to 0 oldest first, then one more for each recent login
      whose day is among the keys.  Each bucket ends with the number of
      recent login entries of its day, and the buckets together with those
      of the recent logins that fall in the window. */
  method LoginData(logs: seq<Log>, today: int, since: int) returns (labels: seq<int>, data: seq<nat>)
    ensures labels == Window(today) && |data| == Days
    ensures forall k :: 0 <= k < Days ==> data[k] == multiset(LoginDays(logs, since))[labels[k]]
    ensures Sum(data) == |Kept(LoginDays(logs, since), today)|
  {
    labels, data := SeedWindow(today);
    CountedStart(today);
    var days := LoginDays(logs, since);
    assert days[..0] == [];
    var j := 0;
    while j < |days|
      invariant 0 <= j <= |days|
      invariant Counted(data, days[..j], today)
    {
      var d := days[j];
      BucketStep(data, days, j, today);
      if d in labels {
        var p := d - (today - (Days - 1));
        data := data[p := data[p] + 1];
      }
      j := j + 1;
    }
    assert days[..j] == days;
  }

  function Zeros(n: nat): (r: seq<nat>)
    ensures |r| == n && forall k :: 0 <= k < n ==> r[k] == 0
  {
    seq(n, _ => 0)
  }

  lemma {:induction false} ZerosSum(n: nat)
    ensures Sum(Zeros(n)) == 0
  {
    if n > 0 {
      assert Zeros(n)[1..] == Zeros(n - 1);
      ZerosSum(n - 1);
    }
  }

  /** Before any day is counted, every bucket is 0. */
  lemma CountedStart(today: int)
    ensures Counted(Zeros(Days), [], today)
  {
    ZerosSum(Days);
  }

  /** `data` holds, for each window day, how often it occurs in `days`, and
      in total as many as fall in the window. */
  predicate Counted(data: seq<nat>, days: seq<int>, today: int) {
    |data| == Days
    && (forall k :: 0 <= k < Days ==> data[k] == multiset(days)[Window(today)[k]])
    && Sum(data) == |Kept(days, today)|
  }

  /** Counting the next day: its bucket, when it has one, goes up by one. */
  lemma BucketStep(data: seq<nat>, days: seq<int>, j: nat, today: int)
    requires j < |days| && Counted(data, days[..j], today)
    ensures var d := days[j];
      Counted(if d in Window(today) then data[d - (today - (Days - 1)) := data[d - (today - (Days - 1))] + 1] else data,
              days[..j + 1], today)
  {
    var d := days[j];
    WindowMembers(today);
    assert days[..j + 1] == days[..j] + [d];
    KeptAppend(days[..j], [d], today);
    if InWindow(d, today) {
      var p := d - (today - (Days - 1));
      SumIncrement(data, p);
    }
  }

  /** The buckets never hold more logins than were logged since one month
      ago. */
  lemma LoginTotalBound(logs: seq<Log>, since: int, today: int)
    ensures |Kept(LoginDays(logs, since), today)| <= CountWhere(logs, (l: Log) => IsRecentLogin(l, since))
  {
    LoginDaysCount(logs, since);
  }

  /** A login entry on a window day is counted in its bucket: only login
      entries from before `since`, on days outside the window, or without
      a valid date are missed. */
  lemma WindowDayCounted(logs: seq<Log>, since: int, today: int, d: int)
    requires InWindow(d, today)
    ensures multiset(Kept(LoginDays(logs, since), today))[d] == multiset(LoginDays(logs, since))[d]
  {
    KeptCount(LoginDays(logs, since), today, d);
  }

  // ---------------------------------------------------------------------------
  // User activity

  /** `log.username || "Unknown"`. */
  function ActorName(log: Log): (r: string)
    ensures r != ""
    ensures log.username != "" ==> r == log.username
  {
    if log.username == "" then "Unknown" else log.username
  }

  /** The names of the recent entries, in log order. */
  function RecentActors(logs: seq<Log>, since: int): (r: seq<string>)
    ensures |r| <= |logs|
  {
    if logs == [] then []
    else (if IsRecent(logs[0], since) then [ActorName(logs[0])] else []) + RecentActors(logs[1..], since)
  }

  /** One name per recent entry. */
  lemma {:induction false} RecentActorsCount(logs: seq<Log>, since: int)
    ensures |RecentActors(logs, since)| == CountWhere(logs, (l: Log) => IsRecent(l, since))
  {
    if logs != [] {
      RecentActorsCount(logs[1..], since);
    }
  }

  /** A name is listed exactly when some recent entry carries it. */
  lemma {:induction false} RecentActorsMembers(logs: seq<Log>, since: int, n: string)
    ensures n in RecentActors(logs, since) <==>
      exists i :: 0 <= i < |logs| && IsRecent(logs[i], since) && ActorName(logs[i]) == n
  {
    if logs != [] {
      RecentActorsMembers(logs[1..], since, n);
      if n in RecentActors(logs[1..], since) {
        var i :| 0 <= i < |logs[1..]| && IsRecent(logs[1..][i], since) && ActorName(logs[1..][i]) == n;
        assert logs[i + 1] == logs[1..][i];
      }
      if exists i :: 1 <= i < |logs| && IsRecent(logs[i], since) && ActorName(logs[i]) == n {
        var i :| 1 <= i < |logs| && IsRecent(logs[i], since) && ActorName(logs[i]) == n;
        assert logs[1..][i - 1] == logs[i];
      }
    }
  }

  /** What `getUserActionData` fills `userCounts` with. */
  function UserCounts(logs: seq<Log>, since: int): Dict<string> {
    TallyFrom(Empty(), RecentActors(logs, since))
  }

  /** `getUserActionData`: `userCounts[name] = (userCounts[name] || 0) + 1`
      for each recent entry. */
  method UserActionData(logs: seq<Log>, since: int) returns (labels: seq<string>, data: seq<nat>)
    ensures Valid(UserCounts(logs, since))
    ensures labels == UserCounts(logs, since).keys
    ensures data == Values(UserCounts(logs, since))
  {
    var names := RecentActors(logs, since);
    ghost var target := UserCounts(logs, since);
    var counts: Dict<string> := Dict([], map[]);
    var i := 0;
    while i < |names|
      invariant 0 <= i <= |names|
      invariant TallyFrom(counts, names[i..]) == target
    {
      var name := names[i];
      TallyStep(counts, names, i, name);
      counts := Put(counts, name, Lookup(counts, name) + 1);
      i := i + 1;
    }
    assert names[i..] == [];
    TallyValid(Empty(), names);
    labels := counts.keys;
    data := Values(counts);
  }

  /** The user counts add up to the number of entries since one month ago. */
  lemma UserTotal(logs: seq<Log>, since: int)
    ensures Valid(UserCounts(logs, since))
    ensures Sum(Values(UserCounts(logs, since))) == CountWhere(logs, (l: Log) => IsRecent(l, since))
  {
    TallyTotal(Empty(), RecentActors(logs, since));
    RecentActorsCount(logs, since);
  }

  /** A name is a label exactly when some recent entry is by that user (or,
      for "Unknown", has no user name), and its count is the number of such
      entries, so at least 1. */
  lemma UserLabels(logs: seq<Log>, since: int, name: string)
    ensures Valid(UserCounts(logs, since))
    ensures name in UserCounts(logs, since).keys <==>
      exists i :: 0 <= i < |logs| && IsRecent(logs[i], since) && ActorName(logs[i]) == name
    ensures Lookup(UserCounts(logs, since), name) == multiset(RecentActors(logs, since))[name]
    ensures name in UserCounts(logs, since).keys ==> UserCounts(logs, since).counts[name] >= 1
  {
    var names := RecentActors(logs, since);
    TallyValid(Empty(), names);
    TallyKeys(Empty(), names, name);
    TallyLookup(Empty(), names, name);
    RecentActorsMembers(logs, since, name);
  }
}
