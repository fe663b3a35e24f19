/** The database-backed limiter of authentication attempts: counter rows in
    `auth_rate_limits`, the four-way check that reads and updates them, the
    middleware that checks by address and then by email, the reset after a
    successful sign-in and the periodic cleanup. Time is the parameter
    `now` in milliseconds, shared by the service and the database. */
module RateLimiter {
  import opened Wrappers
  import opened Strings
  import opened Errors

  /** A row of `auth_rate_limits`; `email` is NULL for the address-only
      counter. */
  datatype Counter = Counter(ip: string, email: Option<string>, attemptCount: int, windowStart: int, blockedUntil: Option<int>)

  /** The `WHERE` of the lookup: same address, any email when none is given
      (`$2 IS NULL`) and otherwise the same email (a NULL email never equals
      one), and a window that started strictly after `since`. */
  predicate InWindow(row: Counter, ip: string, email: Option<string>, since: int) {
    row.ip == ip && (email.None? || row.email == email) && row.windowStart > since
  }

  /** `ORDER BY window_start DESC LIMIT 1` over the first `n` rows: the
      matching row with the latest window start; among rows with equal
      starts, the first in table order. */
  function LatestIn(rows: seq<Counter>, ip: string, email: Option<string>, since: int, n: nat): (r: Option<nat>)
    requires n <= |rows|
    ensures r.Some? ==> r.value < n && InWindow(rows[r.value], ip, email, since)
    ensures r.Some? ==> forall j :: 0 <= j < n && InWindow(rows[j], ip, email, since) ==>
                          rows[j].windowStart <= rows[r.value].windowStart
    ensures r.Some? ==> forall j :: 0 <= j < r.value && InWindow(rows[j], ip, email, since) ==>
                          rows[j].windowStart < rows[r.value].windowStart
    ensures r.None? ==> forall j :: 0 <= j < n ==> !InWindow(rows[j], ip, email, since)
  {
    if n == 0 then None
    else
      var best := LatestIn(rows, ip, email, since, n - 1);
      if InWindow(rows[n - 1], ip, email, since) && (best.None? || rows[n - 1].windowStart > rows[best.value].windowStart)
      then Some(n - 1)
      else best
  }

  function Latest(rows: seq<Counter>, ip: string, email: Option<string>, since: int): Option<nat> {
    LatestIn(rows, ip, email, since, |rows|)
  }

  /** `Math.ceil((blockedUntil - now) / 1000 / 60)` for a block that has not
      ended. */
  function MinutesLeft(blockedUntil: int, now: int): (m: nat)
    requires now < blockedUntil
    ensures m >= 1 && (m - 1) * 60000 < blockedUntil - now <= m * 60000
  {
    (blockedUntil - now + 59999) / 60000
  }

  function BlockedMessage(minutes: nat): string {
    "Too many attempts. Try again in " + NatToString(minutes) + " minutes"
  }

  const ExhaustedMessage := "Too many attempts. Try again later"

  /** `checkAndUpdateRateLimit(ip, email, windowMs, maxAttempts)` at `now`:
      the table afterwards and the outcome. */
  function Check(rows: seq<Counter>, ip: string, email: Option<string>, windowMs: int, maxAttempts: int, now: int)
    : (o: (seq<Counter>, Result<(), Failure>))
    ensures Latest(rows, ip, email, now - windowMs).None? ==>
              o == (rows + [Counter(ip, email, 1, now, None)], Ok(()))
    ensures Latest(rows, ip, email, now - windowMs).Some? ==>
              var i := Latest(rows, ip, email, now - windowMs).value;
              var c := rows[i];
              && |o.0| == |rows|
              && (forall j :: 0 <= j < |rows| && j != i ==> o.0[j] == rows[j])
              && (c.blockedUntil.Some? && now < c.blockedUntil.value ==>
                    o == (rows, Err(App(RateLimitError(BlockedMessage(MinutesLeft(c.blockedUntil.value, now)))))))
              && (!(c.blockedUntil.Some? && now < c.blockedUntil.value) && c.attemptCount >= maxAttempts ==>
                    && o.0[i] == c.(attemptCount := c.attemptCount + 1, blockedUntil := Some(now + windowMs))
                    && o.1 == Err(App(RateLimitError(ExhaustedMessage))))
              && (!(c.blockedUntil.Some? && now < c.blockedUntil.value) && c.attemptCount < maxAttempts ==>
                    && o.0[i] == c.(attemptCount := c.attemptCount + 1)
                    && o.1 == Ok(()))
  {
    match Latest(rows, ip, email, now - windowMs)
    case None => (rows + [Counter(ip, email, 1, now, None)], Ok(()))
    case Some(i) =>
      var c := rows[i];
      if c.blockedUntil.Some? && now < c.blockedUntil.value then
        (rows, Err(App(RateLimitError(BlockedMessage(MinutesLeft(c.blockedUntil.value, now))))))
      else if c.attemptCount >= maxAttempts then
        (rows[i := c.(attemptCount := c.attemptCount + 1, blockedUntil := Some(now + windowMs))],
         Err(App(RateLimitError(ExhaustedMessage))))
      else
        (rows[i := c.(attemptCount := c.attemptCount + 1)], Ok(()))
  }

  /** Every counter has counted at least one attempt. */
  predicate Counted(rows: seq<Counter>) {
    forall i :: 0 <= i < |rows| ==> rows[i].attemptCount >= 1
  }

  /** A check keeps every counter counting, never lowers a count or drops a
      row, and an allowed attempt always changes the table. */
  lemma CheckKeepsCounters(rows: seq<Counter>, ip: string, email: Option<string>, windowMs: int, maxAttempts: int, now: int)
    requires Counted(rows)
    ensures var (after, result) := Check(rows, ip, email, windowMs, maxAttempts, now);
            && Counted(after)
            && |after| >= |rows|
            && (forall j :: 0 <= j < |rows| ==> after[j].attemptCount >= rows[j].attemptCount)
            && (result.Ok? ==> after != rows)
  {
    var (after, result) := Check(rows, ip, email, windowMs, maxAttempts, now);
    if result.Ok? && Latest(rows, ip, email, now - windowMs).Some? {
      var i := Latest(rows, ip, email, now - windowMs).value;
      assert after[i].attemptCount == rows[i].attemptCount + 1;
    } else if result.Ok? {
      assert |after| == |rows| + 1;
    }
  }

  /** While the latest counter of the current window carries a block in
      force, the check rejects and changes nothing, however often it is
      repeated. */
  lemma BlockHolds(rows: seq<Counter>, ip: string, email: Option<string>, windowMs: int, maxAttempts: int, now: int)
    requires Latest(rows, ip, email, now - windowMs).Some?
    requires var c := rows[Latest(rows, ip, email, now - windowMs).value];
             c.blockedUntil.Some? && now < c.blockedUntil.value
    ensures Check(rows, ip, email, windowMs, maxAttempts, now).0 == rows
    ensures Check(rows, ip, email, windowMs, maxAttempts, now).1.Err?
  {
  }

  /** A block does not outlast the window it was set in: a block sets
      `blocked_until` but keeps `window_start`, and the lookup only sees
      counters whose window started within the last `windowMs`. Once that
      window has passed, the next attempt is allowed and opens a fresh
      counter, even though `blocked_until` is still ahead. With a 15-minute
      window, a block set 10 minutes into the window lapses 5 minutes later,
      not 15. */
  lemma BlockLapsesWithWindow(ip: string, email: Option<string>, windowMs: int, maxAttempts: int,
                              count: int, start: int, blockedUntil: int, now: int)
    requires start <= now - windowMs && now < blockedUntil
    ensures var c := Counter(ip, email, count, start, Some(blockedUntil));
            Check([c], ip, email, windowMs, maxAttempts, now) == ([c, Counter(ip, email, 1, now, None)], Ok(()))
  {
    var c := Counter(ip, email, count, start, Some(blockedUntil));
    assert LatestIn([c], ip, email, now - windowMs, 1) == None;
    assert [c] + [Counter(ip, email, 1, now, None)] == [c, Counter(ip, email, 1, now, None)];
  }

  /** From an empty table, with a window of `windowMs > 0` and a budget of
      five, the first five attempts on one key at the same instant are
      allowed and counted in a single row, the sixth is refused and sets a
      block for one window, and the seventh is refused as blocked. */
  lemma SixthAttemptIsBlocked(ip: string, email: Option<string>, windowMs: int, now: int)
    requires windowMs > 0
    ensures var (r1, o1) := Check([], ip, email, windowMs, 5, now);
            var (r2, o2) := Check(r1, ip, email, windowMs, 5, now);
            var (r3, o3) := Check(r2, ip, email, windowMs, 5, now);
            var (r4, o4) := Check(r3, ip, email, windowMs, 5, now);
            var (r5, o5) := Check(r4, ip, email, windowMs, 5, now);
            var (r6, o6) := Check(r5, ip, email, windowMs, 5, now);
            var (r7, o7) := Check(r6, ip, email, windowMs, 5, now);
            && o1.Ok? && o2.Ok? && o3.Ok? && o4.Ok? && o5.Ok?
            && r5 == [Counter(ip, email, 5, now, None)]
            && o6 == Err(App(RateLimitError(ExhaustedMessage)))
            && r6 == [Counter(ip, email, 6, now, Some(now + windowMs))]
            && o7 == Err(App(RateLimitError(BlockedMessage(MinutesLeft(now + windowMs, now)))))
            && r7 == r6
  {
    var r1 := Check([], ip, email, windowMs, 5, now).0;
    assert r1 == [Counter(ip, email, 1, now, None)];
    var r2 := SingleCounterStep(ip, email, windowMs, now, 1);
    var r3 := SingleCounterStep(ip, email, windowMs, now, 2);
    var r4 := SingleCounterStep(ip, email, windowMs, now, 3);
    var r5 := SingleCounterStep(ip, email, windowMs, now, 4);
    var c := Counter(ip, email, 5, now, None);
    assert LatestIn([c], ip, email, now - windowMs, 1) == Some(0);
    var r6 := Check([c], ip, email, windowMs, 5, now).0;
    assert r6 == [Counter(ip, email, 6, now, Some(now + windowMs))];
    assert LatestIn(r6, ip, email, now - windowMs, 1) == Some(0);
  }

  /** One allowed attempt on a single unblocked counter below the budget
      of five. */
  lemma SingleCounterStep(ip: string, email: Option<string>, windowMs: int, now: int, k: int) returns (next: seq<Counter>)
    requires windowMs > 0 && 1 <= k < 5
    ensures next == [Counter(ip, email, k + 1, now, None)]
    ensures Check([Counter(ip, email, k, now, None)], ip, email, windowMs, 5, now) == (next, Ok(()))
  {
    var c := Counter(ip, email, k, now, None);
    assert Latest([c], ip, email, now - windowMs) == Some(0);
    next := [Counter(ip, email, k + 1, now, None)];
    assert [c][0 := c.(attemptCount := c.attemptCount + 1)] == next;
  }

  /** The `WHERE` of the reset: the address, and the email when one is given. */
  predicate ResetMatches(x: Counter, ip: string, email: Option<string>) {
    x.ip == ip && (email.None? || x.email == email)
  }

  /** `resetAuthRateLimit(ip, email)`: the rows kept once the counters of
      the address are deleted, only those with the email when one is given. */
  function Reset(rows: seq<Counter>, ip: string, email: Option<string>): (r: seq<Counter>)
    ensures forall x :: x in r <==> x in rows && !ResetMatches(x, ip, email)
    ensures |r| <= |rows|
  {
    if |rows| == 0 then []
    else
      var x := rows[0];
      (if ResetMatches(x, ip, email) then [] else [x]) + Reset(rows[1..], ip, email)
  }

  /** The rows a reset deletes. */
  function ResetRows(rows: seq<Counter>, ip: string, email: Option<string>): seq<Counter> {
    if |rows| == 0 then []
    else (if ResetMatches(rows[0], ip, email) then [rows[0]] else []) + ResetRows(rows[1..], ip, email)
  }

  lemma ResetCons(x: Counter, rest: seq<Counter>, ip: string, email: Option<string>)
    ensures Reset([x] + rest, ip, email) == (if ResetMatches(x, ip, email) then [] else [x]) + Reset(rest, ip, email)
  {
    assert ([x] + rest)[0] == x && ([x] + rest)[1..] == rest;
  }

  lemma ResetRowsCons(x: Counter, rest: seq<Counter>, ip: string, email: Option<string>)
    ensures ResetRows([x] + rest, ip, email) == (if ResetMatches(x, ip, email) then [x] else []) + ResetRows(rest, ip, email)
  {
    assert ([x] + rest)[0] == x && ([x] + rest)[1..] == rest;
  }

  /** A reset splits the table into the rows it keeps and the rows it
      deletes, which are exactly the counters of the address (with the email,
      when one is given), duplicates included. */
  lemma {:induction false} ResetPartitions(rows: seq<Counter>, ip: string, email: Option<string>)
    ensures multiset(Reset(rows, ip, email)) + multiset(ResetRows(rows, ip, email)) == multiset(rows)
    ensures forall x :: x in ResetRows(rows, ip, email) <==> x in rows && ResetMatches(x, ip, email)
    ensures |rows| - |Reset(rows, ip, email)| == |ResetRows(rows, ip, email)|
  {
    if |rows| > 0 {
      var x, rest := rows[0], rows[1..];
      assert rows == [x] + rest;
      ResetPartitions(rest, ip, email);
      ResetCons(x, rest, ip, email);
      ResetRowsCons(x, rest, ip, email);
    }
  }

  /** A reset keeps the order of the rows it keeps: it acts on a table
      piece by piece. */
  lemma {:induction false} ResetOfConcat(a: seq<Counter>, b: seq<Counter>, ip: string, email: Option<string>)
    ensures Reset(a + b, ip, email) == Reset(a, ip, email) + Reset(b, ip, email)
  {
    if |a| > 0 {
      ResetOfConcat(a[1..], b, ip, email);
      ResetOfConcatStep(a[0], a[1..], b, ip, email);
      assert a == [a[0]] + a[1..];
    } else {
      assert a + b == b;
    }
  }

  /** One row in front of both sides of `ResetOfConcat`. */
  lemma ResetOfConcatStep(x: Counter, rest: seq<Counter>, b: seq<Counter>, ip: string, email: Option<string>)
    requires Reset(rest + b, ip, email) == Reset(rest, ip, email) + Reset(b, ip, email)
    ensures Reset([x] + rest + b, ip, email) == Reset([x] + rest, ip, email) + Reset(b, ip, email)
  {
    var head := if ResetMatches(x, ip, email) then [] else [x];
    ResetCons(x, rest, ip, email);
    ResetCons(x, rest + b, ip, email);
    ConcatAssociates([x], rest, b);
    ConcatAssociates(head, Reset(rest, ip, email), Reset(b, ip, email));
  }

  lemma ConcatAssociates(a: seq<Counter>, b: seq<Counter>, c: seq<Counter>)
    ensures a + (b + c) == (a + b) + c
  {
  }

  /** After a reset, the next check on the same key is a first attempt: it
      starts a new counter and is allowed. */
  lemma ResetThenCheckStartsOver(rows: seq<Counter>, ip: string, email: Option<string>, windowMs: int, maxAttempts: int, now: int)
    ensures var cleared := Reset(rows, ip, email);
            Check(cleared, ip, email, windowMs, maxAttempts, now) == (cleared + [Counter(ip, email, 1, now, None)], Ok(()))
  {
    var cleared := Reset(rows, ip, email);
    forall j | 0 <= j < |cleared| ensures !InWindow(cleared[j], ip, email, now - windowMs) {
      assert cleared[j] in cleared;
    }
  }

  /** A reset that names an email keeps the address-only counters of that
      address (their email is NULL, which equals nothing). */
  lemma ResetWithEmailKeepsAddressCounters(rows: seq<Counter>, ip: string, email: string)
    ensures forall x :: x in rows && x.email.None? ==> x in Reset(rows, ip, Some(email))
  {
  }

  const OneHour := 3600000

  /** The cleanup predicate: a window that started more than an hour ago and
      no block in force. */
  predicate Stale(row: Counter, now: int) {
    row.windowStart < now - OneHour && (row.blockedUntil.None? || row.blockedUntil.value < now)
  }

  /** `cleanupRateLimits()`: the rows kept. */
  function Cleanup(rows: seq<Counter>, now: int): (r: seq<Counter>)
    ensures forall x :: x in r <==> x in rows && !Stale(x, now)
    ensures |r| <= |rows|
  {
    if |rows| == 0 then []
    else (if Stale(rows[0], now) then [] else [rows[0]]) + Cleanup(rows[1..], now)
  }

  /** The rows the cleanup deletes. */
  function StaleRows(rows: seq<Counter>, now: int): seq<Counter> {
    if |rows| == 0 then []
    else (if Stale(rows[0], now) then [rows[0]] else []) + StaleRows(rows[1..], now)
  }

  lemma CleanupCons(x: Counter, rest: seq<Counter>, now: int)
    ensures Cleanup([x] + rest, now) == (if Stale(x, now) then [] else [x]) + Cleanup(rest, now)
  {
    assert ([x] + rest)[0] == x && ([x] + rest)[1..] == rest;
  }

  lemma StaleRowsCons(x: Counter, rest: seq<Counter>, now: int)
    ensures StaleRows([x] + rest, now) == (if Stale(x, now) then [x] else []) + StaleRows(rest, now)
  {
    assert ([x] + rest)[0] == x && ([x] + rest)[1..] == rest;
  }

  /** The cleanup splits the table into the rows it keeps and the stale rows
      it deletes, duplicates included, so the count it reports is the number
      of stale rows. */
  lemma {:induction false} CleanupPartitions(rows: seq<Counter>, now: int)
    ensures multiset(Cleanup(rows, now)) + multiset(StaleRows(rows, now)) == multiset(rows)
    ensures forall x :: x in StaleRows(rows, now) <==> x in rows && Stale(x, now)
    ensures |rows| - |Cleanup(rows, now)| == |StaleRows(rows, now)|
  {
    if |rows| > 0 {
      var x, rest := rows[0], rows[1..];
      assert rows == [x] + rest;
      CleanupPartitions(rest, now);
      CleanupCons(x, rest, now);
      StaleRowsCons(x, rest, now);
    }
  }

  /** The cleanup keeps the order of the rows it keeps, which is the order
      the latest-window lookup breaks ties by. */
  lemma {:induction false} CleanupOfConcat(a: seq<Counter>, b: seq<Counter>, now: int)
    ensures Cleanup(a + b, now) == Cleanup(a, now) + Cleanup(b, now)
  {
    if |a| > 0 {
      CleanupOfConcat(a[1..], b, now);
      CleanupOfConcatStep(a[0], a[1..], b, now);
      assert a == [a[0]] + a[1..];
    } else {
      assert a + b == b;
    }
  }

  /** One row in front of both sides of `CleanupOfConcat`. */
  lemma CleanupOfConcatStep(x: Counter, rest: seq<Counter>, b: seq<Counter>, now: int)
    requires Cleanup(rest + b, now) == Cleanup(rest, now) + Cleanup(b, now)
    ensures Cleanup([x] + rest + b, now) == Cleanup([x] + rest, now) + Cleanup(b, now)
  {
    var head := if Stale(x, now) then [] else [x];
    CleanupCons(x, rest, now);
    CleanupCons(x, rest + b, now);
    ConcatAssociates([x], rest, b);
    ConcatAssociates(head, Cleanup(rest, now), Cleanup(b, now));
  }

  /** The cleanup never removes a counter whose block is still in force, nor
      one whose window started within the last hour. */
  lemma CleanupKeepsLiveCounters(rows: seq<Counter>, now: int)
    ensures forall x :: x in rows && x.blockedUntil.Some? && x.blockedUntil.value >= now ==> x in Cleanup(rows, now)
    ensures forall x :: x in rows && x.windowStart >= now - OneHour ==> x in Cleanup(rows, now)
  {
  }

  const AttemptWindowMs := 15 * 60 * 1000
  const MaxAttempts := 5
  const LoopbackAddress := "127.0.0.1"

  /** `req.ip || '127.0.0.1'`. */
  function ClientAddress(ip: Option<string>): (a: string)
    ensures ip.Some? && ip.value != "" ==> a == ip.value
    ensures ip.None? || ip.value == "" ==> a == LoopbackAddress
  {
    if ip.Some? && ip.value != "" then ip.value else LoopbackAddress
  }

  /** `authAttemptLimiter`: the address-only check, then, when the body
      carries a non-empty email, the check for that email. The first
      refusal ends the middleware and is passed on as the error. */
  function AttemptLimiter(rows: seq<Counter>, ip: Option<string>, email: Option<string>, now: int)
    : (o: (seq<Counter>, Result<(), Failure>))
    ensures |rows| <= |o.0| <= |rows| + 2
    ensures email.None? || email.value == "" ==> |o.0| <= |rows| + 1
  {
    var address := ClientAddress(ip);
    var (afterIp, first) := Check(rows, address, None, AttemptWindowMs, MaxAttempts, now);
    if first.Err? then (afterIp, first)
    else if email.Some? && email.value != "" then Check(afterIp, address, email, AttemptWindowMs, MaxAttempts, now)
    else (afterIp, first)
  }

  /** The address check always runs first and a refusal there skips the
      email check; the email check runs exactly when an email is given. */
  lemma AttemptLimiterOrder(rows: seq<Counter>, ip: Option<string>, email: Option<string>, now: int)
    ensures var address := ClientAddress(ip);
            var first := Check(rows, address, None, AttemptWindowMs, MaxAttempts, now);
            && (first.1.Err? ==> AttemptLimiter(rows, ip, email, now) == first)
            && (email.None? || email.value == "" ==> AttemptLimiter(rows, ip, email, now) == first)
            && (first.1.Ok? && email.Some? && email.value != "" ==>
                  AttemptLimiter(rows, ip, email, now) == Check(first.0, address, email, AttemptWindowMs, MaxAttempts, now))
  {
  }

  /** Every allowed attempt is counted in the address-only counter. */
  lemma AllowedAttemptIsCounted(rows: seq<Counter>, ip: Option<string>, email: Option<string>, now: int)
    requires Counted(rows)
    requires AttemptLimiter(rows, ip, email, now).1.Ok?
    ensures Counted(AttemptLimiter(rows, ip, email, now).0)
    ensures |AttemptLimiter(rows, ip, email, now).0| >= |rows|
  {
    var address := ClientAddress(ip);
    var (afterIp, first) := Check(rows, address, None, AttemptWindowMs, MaxAttempts, now);
    CheckKeepsCounters(rows, address, None, AttemptWindowMs, MaxAttempts, now);
    if email.Some? && email.value != "" {
      CheckKeepsCounters(afterIp, address, email, AttemptWindowMs, MaxAttempts, now);
    }
  }

  /** The `auth_rate_limits` table. */
  class RateLimitTable {
    var rows: seq<Counter>

    constructor ()
      ensures rows == []
    {
      rows := [];
    }

    method CheckAndUpdateRateLimit(ip: string, email: Option<string>, windowMs: int, maxAttempts: int, now: int)
      returns (r: Result<(), Failure>)
      modifies this
      ensures (rows, r) == Check(old(rows), ip, email, windowMs, maxAttempts, now)
    {
      var found := Latest(rows, ip, email, now - windowMs);
      if found.None? {
        rows := rows + [Counter(ip, email, 1, now, None)];
        return Ok(());
      }
      var i := found.value;
      var c := rows[i];
      if c.blockedUntil.Some? && now < c.blockedUntil.value {
        return Err(App(RateLimitError(BlockedMessage(MinutesLeft(c.blockedUntil.value, now)))));
      }
      if c.attemptCount >= maxAttempts {
        rows := rows[i := c.(attemptCount := c.attemptCount + 1, blockedUntil := Some(now + windowMs))];
        return Err(App(RateLimitError(ExhaustedMessage)));
      }
      rows := rows[i := c.(attemptCount := c.attemptCount + 1)];
      return Ok(());
    }

    method AuthAttemptLimiter(ip: Option<string>, email: Option<string>, now: int) returns (r: Result<(), Failure>)
      modifies this
      ensures (rows, r) == AttemptLimiter(old(rows), ip, email, now)
    {
      var address := ClientAddress(ip);
      r := CheckAndUpdateRateLimit(address, None, AttemptWindowMs, MaxAttempts, now);
      if r.Err? {
        return;
      }
      if email.Some? && email.value != "" {
        r := CheckAndUpdateRateLimit(address, email, AttemptWindowMs, MaxAttempts, now);
      }
    }

    method ResetAuthRateLimit(ip: string, email: Option<string>)
      modifies this
      ensures rows == Reset(old(rows), ip, email)
    {
      rows := Reset(rows, ip, email);
    }

    method CleanupRateLimits(now: int) returns (deleted: nat)
      modifies this
      ensures rows == Cleanup(old(rows), now)
      ensures deleted == |old(rows)| - |rows| == |StaleRows(old(rows), now)|
    {
      var kept := Cleanup(rows, now);
      CleanupPartitions(rows, now);
      deleted := |rows| - |kept|;
      rows := kept;
    }
  }
}
