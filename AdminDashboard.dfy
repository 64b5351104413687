/** The admin dashboard: an admin gate on the user's role, registrations per day for the chart,
    and the last five users and listings of the fetched lists, last first. */
module AdminDashboard {
  import opened Wrappers
  import opened Records
  import JsArray

  const AdminRole := "admin"
  const DefaultAdminName := "Admin"
  const RecentCount := 5

  /** What `checkAdminStatus` leaves behind. */
  datatype AdminStatus = AdminStatus(isAdmin: bool, username: string)

  const InitialStatus := AdminStatus(false, "")

  /** The name in the greeting: display name, else user name, else "Admin". */
  function GreetingName(user: UserDoc): (name: string)
    ensures name != ""
    ensures user.displayName.Some? && user.displayName.value != "" ==> name == user.displayName.value
    ensures (user.displayName.None? || user.displayName.value == "") && user.username.Some? && user.username.value != "" ==>
      name == user.username.value
    ensures (user.displayName.None? || user.displayName.value == "") && (user.username.None? || user.username.value == "") ==>
      name == DefaultAdminName
  {
    OrElse(user.displayName, OrElse(user.username, DefaultAdminName))
  }

  /** `checkAdminStatus`, from the initial state: nothing happens without a signed-in user, or
      when the user document is missing or cannot be read (None); otherwise the role decides,
      and exactly "admin" passes. */
  function CheckAdminStatus(signedIn: bool, userDoc: Option<UserDoc>): (r: AdminStatus)
    ensures r.isAdmin <==> signedIn && userDoc.Some? && userDoc.value.role == Some(AdminRole)
    ensures signedIn && userDoc.Some? ==> r.username == GreetingName(userDoc.value)
    ensures !(signedIn && userDoc.Some?) ==> r == InitialStatus
  {
    if !signedIn || userDoc.None? then InitialStatus
    else AdminStatus(userDoc.value.role == Some(AdminRole), GreetingName(userDoc.value))
  }

  /** The users `filter(Boolean)` keeps: a creation time whose seconds are not 0 (an absent
      time gives NaN, which is falsy like 0). */
  predicate HasRegistrationTime(u: UserDoc) {
    u.createdSeconds.Some? && u.createdSeconds.value != 0
  }

  /** `createdDate.seconds * 1000` of a kept user. */
  function RegistrationTime(u: UserDoc): int
    requires HasRegistrationTime(u)
  {
    u.createdSeconds.value * 1000
  }

  /** The kept users in their order: each user with a registration time, as often as it occurs,
      and no other. */
  function KeptUsers(users: seq<UserDoc>): (kept: seq<UserDoc>)
    ensures forall u :: u in kept ==> HasRegistrationTime(u)
    ensures forall u :: multiset(kept)[u] == if HasRegistrationTime(u) then multiset(users)[u] else 0
  {
    if users == [] then []
    else
      assert users == [users[0]] + users[1..];
      var rest := KeptUsers(users[1..]);
      if HasRegistrationTime(users[0]) then [users[0]] + rest else rest
  }

  /** `users.map(u => u.createdDate?.seconds * 1000).filter(Boolean)`: one time per kept user,
      in the users' order. */
  function RegistrationTimes(users: seq<UserDoc>): (r: seq<int>)
    ensures |r| == |KeptUsers(users)|
    ensures forall j :: 0 <= j < |r| ==> r[j] == RegistrationTime(KeptUsers(users)[j])
  {
    if users == [] then []
    else
      var rest := RegistrationTimes(users[1..]);
      if HasRegistrationTime(users[0]) then
        assert KeptUsers(users) == [users[0]] + KeptUsers(users[1..]);
        [RegistrationTime(users[0])] + rest
      else
        assert KeptUsers(users) == KeptUsers(users[1..]);
        rest
  }

  predicate Sorted(s: seq<int>) {
    forall i, j :: 0 <= i < j < |s| ==> s[i] <= s[j]
  }

  /** Puts x into the sorted sequence s at its place. */
  function Insert(x: int, s: seq<int>): (r: seq<int>)
    requires Sorted(s)
    ensures Sorted(r) && multiset(r) == multiset(s) + multiset{x}
  {
    if s == [] then [x]
    else if x <= s[0] then [x] + s
    else
      assert s == [s[0]] + s[1..];
      var rest := Insert(x, s[1..]);
      assert forall i :: 0 <= i < |rest| ==> s[0] <= rest[i] by {
        forall i | 0 <= i < |rest| ensures s[0] <= rest[i] {
          assert rest[i] in multiset(rest);
          assert rest[i] == x || rest[i] in s[1..];
        }
      }
      [s[0]] + rest
  }

  /** `.sort((a, b) => a - b)`: ascending, and the same times. */
  function SortAscending(s: seq<int>): (r: seq<int>)
    ensures Sorted(r) && multiset(r) == multiset(s)
  {
    if s == [] then []
    else
      assert s == [s[0]] + s[1..];
      Insert(s[0], SortAscending(s[1..]))
  }

  /** `userRegistrations`. */
  function UserRegistrations(users: seq<UserDoc>): (r: seq<int>)
    ensures Sorted(r) && multiset(r) == multiset(RegistrationTimes(users))
  {
    SortAscending(RegistrationTimes(users))
  }

  /** The number of times `d` occurs. */
  function Occurrences(days: seq<string>, d: string): nat
    decreases |days|
  {
    if days == [] then 0
    else Occurrences(days[..|days| - 1], d) + (if days[|days| - 1] == d then 1 else 0)
  }

  /** The distinct days in order of first occurrence: the key order of the counts object. */
  function DistinctInOrder(days: seq<string>): seq<string>
    decreases |days|
  {
    if days == [] then []
    else
      var keys := DistinctInOrder(days[..|days| - 1]);
      if days[|days| - 1] in keys then keys else keys + [days[|days| - 1]]
  }

  predicate NoDuplicates(s: seq<string>) {
    forall i, j :: 0 <= i < j < |s| ==> s[i] != s[j]
  }

  lemma {:induction false} DistinctInOrderKeys(days: seq<string>)
    ensures NoDuplicates(DistinctInOrder(days))
    ensures forall d :: d in DistinctInOrder(days) <==> d in days
    decreases |days|
  {
    if days != [] {
      var init := days[..|days| - 1];
      DistinctInOrderKeys(init);
      assert days == init + [days[|days| - 1]];
    }
  }

  lemma {:induction false} OccurrencesPositive(days: seq<string>, d: string)
    ensures Occurrences(days, d) > 0 <==> d in days
    decreases |days|
  {
    if days != [] {
      var init := days[..|days| - 1];
      OccurrencesPositive(init, d);
      assert days == init + [days[|days| - 1]];
    }
  }

  /** The counts summed over a list of keys. */
  function SumOver(keys: seq<string>, days: seq<string>): nat
    decreases |keys|
  {
    if keys == [] then 0 else SumOver(keys[..|keys| - 1], days) + Occurrences(days, keys[|keys| - 1])
  }

  /** Adding one day to the list adds one to the sum over keys that hold it once, and nothing over
      keys that do not hold it. */
  lemma {:induction false} SumOverAppend(keys: seq<string>, days: seq<string>, x: string)
    requires NoDuplicates(keys)
    ensures SumOver(keys, days + [x]) == SumOver(keys, days) + (if x in keys then 1 else 0)
    decreases |keys|
  {
    assert (days + [x])[..|days|] == days;
    if keys != [] {
      var init := keys[..|keys| - 1];
      assert keys == init + [keys[|keys| - 1]];
      SumOverAppend(init, days, x);
    }
  }

  /** The per-day counts add up to the number of registrations. */
  lemma {:induction false} CountsSumToTotal(days: seq<string>)
    ensures SumOver(DistinctInOrder(days), days) == |days|
    decreases |days|
  {
    if days != [] {
      var init := days[..|days| - 1];
      var x := days[|days| - 1];
      assert days == init + [x];
      CountsSumToTotal(init);
      DistinctInOrderKeys(init);
      var keys := DistinctInOrder(init);
      SumOverAppend(keys, init, x);
      if x !in keys {
        OccurrencesPositive(init, x);
        assert (keys + [x])[..|keys|] == keys;
      }
    }
  }

  /** The `reduce` that counts registrations per day into an object, in place; `keys` is the
      object's key order. */
  method CountByDay(days: seq<string>) returns (keys: seq<string>, counts: map<string, nat>)
    ensures keys == DistinctInOrder(days)
    ensures forall d :: d in counts <==> d in days
    ensures forall d :: d in counts ==> counts[d] == Occurrences(days, d)
  {
    keys, counts := [], map[];
    for i := 0 to |days|
      invariant keys == DistinctInOrder(days[..i])
      invariant forall d :: d in counts <==> d in days[..i]
      invariant forall d :: d in counts ==> counts[d] == Occurrences(days[..i], d)
    {
      var date := days[i];
      assert days[..i + 1] == days[..i] + [date];
      assert days[..i + 1][..i] == days[..i];
      DistinctInOrderKeys(days[..i]);
      OccurrencesPositive(days[..i], date);
      forall d ensures Occurrences(days[..i + 1], d) == Occurrences(days[..i], d) + (if d == date then 1 else 0) {
      }
      if date in counts {
        counts := counts[date := counts[date] + 1];
      } else {
        keys := keys + [date];
        counts := counts[date := 1];
      }
    }
    assert days[..|days|] == days;
  }

  datatype ChartPoint = ChartPoint(date: string, registrations: nat)

  /** The day of each registration time, `dayKey` standing for the locale date format. */
  function RegistrationDays(times: seq<int>, dayKey: int -> string): (r: seq<string>)
    ensures |r| == |times|
    ensures forall i :: 0 <= i < |r| ==> r[i] == dayKey(times[i])
  {
    if times == [] then [] else [dayKey(times[0])] + RegistrationDays(times[1..], dayKey)
  }

  /** One point per key, carrying its count. */
  function Points(keys: seq<string>, counts: map<string, nat>): (r: seq<ChartPoint>)
    requires forall k :: k in keys ==> k in counts
    ensures |r| == |keys|
    ensures forall i :: 0 <= i < |r| ==> r[i] == ChartPoint(keys[i], counts[keys[i]])
  {
    if keys == [] then [] else [ChartPoint(keys[0], counts[keys[0]])] + Points(keys[1..], counts)
  }

  /** `chartData`: registrations per day for the users' creation times. One point per distinct
      day, in order of first occurrence, carrying the number of registrations that day. */
  method ChartData(users: seq<UserDoc>, dayKey: int -> string) returns (chart: seq<ChartPoint>)
    ensures var days := RegistrationDays(UserRegistrations(users), dayKey);
      && |chart| == |DistinctInOrder(days)|
      && forall i :: 0 <= i < |chart| ==>
           chart[i].date == DistinctInOrder(days)[i] && chart[i].registrations == Occurrences(days, chart[i].date)
  {
    var days := RegistrationDays(UserRegistrations(users), dayKey);
    var keys, counts := CountByDay(days);
    DistinctInOrderKeys(days);
    chart := Points(keys, counts);
  }

  /** Every chart bar is at least 1, no day has two bars, and the bars add up to the number of
      days counted. */
  lemma ChartCountsProperties(days: seq<string>)
    ensures NoDuplicates(DistinctInOrder(days))
    ensures forall d :: d in DistinctInOrder(days) ==> Occurrences(days, d) >= 1
    ensures SumOver(DistinctInOrder(days), days) == |days|
  {
    DistinctInOrderKeys(days);
    forall d | d in DistinctInOrder(days) ensures Occurrences(days, d) >= 1 {
      OccurrencesPositive(days, d);
    }
    CountsSumToTotal(days);
  }

  /** The chart's bars add up to the number of users with a registration time. */
  lemma ChartTotalIsKeptUsers(users: seq<UserDoc>, dayKey: int -> string)
    ensures var days := RegistrationDays(UserRegistrations(users), dayKey);
      SumOver(DistinctInOrder(days), days) == |KeptUsers(users)|
  {
    var days := RegistrationDays(UserRegistrations(users), dayKey);
    CountsSumToTotal(days);
    assert |UserRegistrations(users)| == |RegistrationTimes(users)| by {
      assert |multiset(UserRegistrations(users))| == |multiset(RegistrationTimes(users))|;
    }
  }

  /** `s.slice(-5).reverse()`: the last five (or fewer) items of the list as fetched, last first.
      The lists are fetched unordered, so these are not necessarily the newest. */
  function Recent<T>(s: seq<T>): (r: seq<T>)
    ensures |r| == Min(RecentCount, |s|)
    ensures forall i :: 0 <= i < |r| ==> r[i] == s[|s| - 1 - i]
  {
    var tail := JsArray.Slice(s, -RecentCount, |s|);
    assert tail == s[|s| - Min(RecentCount, |s|)..];
    JsArray.Reverse(tail)
  }

  datatype DashboardView =
    | AccessDenied
    | Loading
    | Dashboard(welcome: string, totalUsers: nat, totalListings: nat, chart: seq<ChartPoint>,
                recentUsers: seq<UserDoc>, recentCars: seq<Car>)

  /** The page: a non-admin is refused before anything else, then the loading message, then the
      dashboard. */
  method Render(status: AdminStatus, loading: bool, users: seq<UserDoc>, cars: seq<Car>, dayKey: int -> string)
    returns (view: DashboardView)
    ensures !status.isAdmin <==> view == AccessDenied
    ensures view == Loading <==> status.isAdmin && loading
    ensures view.Dashboard? ==>
      && view.welcome == status.username
      && view.totalUsers == |users| && view.totalListings == |cars|
      && view.recentUsers == Recent(users) && view.recentCars == Recent(cars)
    ensures view.Dashboard? ==>
      var days := RegistrationDays(UserRegistrations(users), dayKey);
      && |view.chart| == |DistinctInOrder(days)|
      && forall i :: 0 <= i < |view.chart| ==>
           view.chart[i].date == DistinctInOrder(days)[i] && view.chart[i].registrations == Occurrences(days, view.chart[i].date)
  {
    if !status.isAdmin {
      return AccessDenied;
    }
    if loading {
      return Loading;
    }
    var chart := ChartData(users, dayKey);
    view := Dashboard(status.username, |users|, |cars|, chart, Recent(users), Recent(cars));
  }
}
