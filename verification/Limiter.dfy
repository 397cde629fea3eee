/**
 The sliding-window limiter. A table of counters, one row per key and instant,
 stands for the log of admitted events; the two-key variant counts both keys or
 neither.
 */
module Limiter {
  import opened Options
  import opened Clock

  datatype Key = Key(scope: string, counterKey: string, action: string)

  datatype Policy = Policy(maximum: int, dailyMaximum: int, window: int, interval: int)

  // ----- The counter table -----

  datatype Row = Row(windowStart: Time, count: nat)

  /** SUM(count) FILTER (WHERE window_start > cutoff) */
  function SumAfter(rows: seq<Row>, cutoff: Time): nat {
    if rows == [] then 0
    else (if rows[0].windowStart > cutoff then rows[0].count else 0) + SumAfter(rows[1..], cutoff)
  }

  /** ORDER BY window_start DESC LIMIT 1 */
  function LatestRow(rows: seq<Row>): Option<Time> {
    if rows == [] then None
    else
      var rest := LatestRow(rows[1..]);
      if rest.Some? && rest.value >= rows[0].windowStart then rest else Some(rows[0].windowStart)
  }

  /** INSERT ... ON CONFLICT DO UPDATE SET count = count + 1 */
  function Upsert(rows: seq<Row>, now: Time): seq<Row> {
    if rows == [] then [Row(now, 1)]
    else if rows[0].windowStart == now then [Row(now, rows[0].count + 1)] + rows[1..]
    else [rows[0]] + Upsert(rows[1..], now)
  }

  /** The rows of GetLimitUsage are those of the last day; the shorter window is counted among them. */
  predicate Refused(rows: seq<Row>, now: Time, p: Policy) {
    || SumAfter(rows, if now - p.window > now - DAY then now - p.window else now - DAY) >= p.maximum
    || (p.dailyMaximum > 0 && SumAfter(rows, now - DAY) >= p.dailyMaximum)
    || (p.interval > 0 && LatestRow(rows).Some? && now - LatestRow(rows).value < p.interval)
  }

  // ----- The log that it stands for -----

  predicate Sorted(log: seq<Time>) {
    forall i, j :: 0 <= i <= j < |log| ==> log[i] <= log[j]
  }

  function CountAfter(log: seq<Time>, cutoff: Time): nat {
    if log == [] then 0
    else (if log[|log| - 1] > cutoff then 1 else 0) + CountAfter(log[..|log| - 1], cutoff)
  }

  /** Events in the half-open interval of the given length that starts at `from`. */
  function CountIn(log: seq<Time>, from: Time, length: int): nat {
    if log == [] then 0
    else (if from <= log[|log| - 1] < from + length then 1 else 0) + CountIn(log[..|log| - 1], from, length)
  }

  ghost predicate Represents(rows: seq<Row>, log: seq<Time>) {
    && (forall cutoff :: SumAfter(rows, cutoff) == CountAfter(log, cutoff))
    && LatestRow(rows) == if log == [] then None else Some(log[|log| - 1])
  }

  lemma {:induction false} UpsertAddsOne(rows: seq<Row>, now: Time, cutoff: Time)
    ensures SumAfter(Upsert(rows, now), cutoff) == SumAfter(rows, cutoff) + if now > cutoff then 1 else 0
  {
    if rows != [] {
      if rows[0].windowStart == now {
        assert Upsert(rows, now)[1..] == rows[1..];
      } else {
        assert Upsert(rows, now)[1..] == Upsert(rows[1..], now);
        UpsertAddsOne(rows[1..], now, cutoff);
      }
    }
  }

  lemma {:induction false} UpsertIsLatest(rows: seq<Row>, now: Time)
    requires LatestRow(rows).Some? ==> LatestRow(rows).value <= now
    ensures LatestRow(Upsert(rows, now)) == Some(now)
  {
    if rows != [] {
      if rows[0].windowStart == now {
        assert Upsert(rows, now)[1..] == rows[1..];
      } else {
        assert Upsert(rows, now)[1..] == Upsert(rows[1..], now);
        UpsertIsLatest(rows[1..], now);
      }
    }
  }

  /** Counting an event in the table is appending it to the log. */
  lemma UpsertRepresents(rows: seq<Row>, log: seq<Time>, now: Time)
    requires Represents(rows, log) && (log == [] || log[|log| - 1] <= now)
    ensures Represents(Upsert(rows, now), log + [now])
  {
    UpsertIsLatest(rows, now);
    forall cutoff ensures SumAfter(Upsert(rows, now), cutoff) == CountAfter(log + [now], cutoff) {
      UpsertAddsOne(rows, now, cutoff);
      assert (log + [now])[..|log|] == log;
    }
  }

  // ----- What an admitted log satisfies -----

  ghost predicate WindowBound(log: seq<Time>, window: int, maximum: int) {
    forall from :: CountIn(log, from, window) <= maximum
  }

  predicate Spaced(log: seq<Time>, interval: int) {
    forall i :: 0 < i < |log| ==> log[i] - log[i - 1] >= interval
  }

  ghost predicate Bounded(log: seq<Time>, p: Policy) {
    && WindowBound(log, p.window, p.maximum)
    && (p.dailyMaximum > 0 ==> WindowBound(log, DAY, p.dailyMaximum))
    && (p.interval > 0 ==> Spaced(log, p.interval))
  }

  // The newest event of a sorted log ends the interval in which the limiter counts.
  lemma {:induction false} CountsAgree(log: seq<Time>, now: Time, window: int)
    requires Sorted(log + [now]) && window > 0
    ensures CountIn(log, now - window + 1, window) == CountAfter(log, now - window)
  {
    if log != [] {
      var rest := log[..|log| - 1];
      assert (log + [now])[|log| - 1] == log[|log| - 1] && (log + [now])[|log|] == now;
      assert Sorted(rest + [now]) by {
        forall i, j | 0 <= i <= j < |rest + [now]| ensures (rest + [now])[i] <= (rest + [now])[j] {
          assert (log + [now])[i] == if i < |rest| then (rest + [now])[i] else log[i];
          assert (log + [now])[|log|] == now;
          if j < |rest| { assert (log + [now])[j] == (rest + [now])[j]; }
        }
      }
      CountsAgree(rest, now, window);
    }
  }

  // All events up to `now` that an interval containing `now` holds are among the last `length`.
  lemma {:induction false} IntervalCountsRecent(log: seq<Time>, now: Time, from: Time, length: int)
    requires from <= now < from + length && (forall k :: 0 <= k < |log| ==> log[k] <= now)
    ensures CountIn(log, from, length) <= CountIn(log, now - length + 1, length)
  {
    if log != [] { IntervalCountsRecent(log[..|log| - 1], now, from, length); }
  }

  lemma CountInAppends(log: seq<Time>, now: Time, from: Time, length: int)
    ensures CountIn(log + [now], from, length) == CountIn(log, from, length) + if from <= now < from + length
      then 1 else 0
  {
    assert (log + [now])[..|log|] == log;
  }

  /**
   The count of the last `window` decides exactly whether one more event keeps the bound in every half-open interval.
   */
  lemma WindowBoundStep(log: seq<Time>, now: Time, window: int, maximum: int)
    requires Sorted(log + [now]) && window > 0 && WindowBound(log, window, maximum)
    ensures WindowBound(log + [now], window, maximum) <==> CountAfter(log, now - window) < maximum
  {
    CountsAgree(log, now, window);
    CountInAppends(log, now, now - window + 1, window);
    if CountAfter(log, now - window) < maximum {
      forall from ensures CountIn(log + [now], from, window) <= maximum {
        CountInAppends(log, now, from, window);
        if from <= now < from + window {
          forall k | 0 <= k < |log| ensures log[k] <= now {
            assert (log + [now])[k] == log[k] && (log + [now])[|log|] == now;
          }
          IntervalCountsRecent(log, now, from, window);
        }
      }
    } else {
      assert CountIn(log + [now], now - window + 1, window) > maximum;
    }
  }

  lemma SpacedStep(log: seq<Time>, now: Time, interval: int)
    requires Spaced(log, interval)
    ensures Spaced(log + [now], interval) <==> (log == [] || now - log[|log| - 1] >= interval)
  {
    var more := log + [now];
    assert forall i :: 0 <= i < |log| ==> more[i] == log[i];
    assert more[|log|] == now;
    if log != [] && Spaced(more, interval) { assert more[|log|] - more[|log| - 1] >= interval; }
  }

  /** An event is admitted exactly when the hourly, the daily and the spacing bound all stay satisfied. */
  lemma AdmittedIffBounded(rows: seq<Row>, log: seq<Time>, now: Time, p: Policy)
    requires Represents(rows, log) && Sorted(log + [now]) && 0 < p.window <= DAY && Bounded(log, p)
    ensures !Refused(rows, now, p) <==> Bounded(log + [now], p)
  {
    WindowBoundStep(log, now, p.window, p.maximum);
    if p.dailyMaximum > 0 { WindowBoundStep(log, now, DAY, p.dailyMaximum); }
    if p.interval > 0 { SpacedStep(log, now, p.interval); }
  }

  // ----- Runs -----

  /** The log after a sequence of attempts at the given times. */
  function Admitted(attempts: seq<Time>, p: Policy): seq<Time> {
    RunFrom([], [], attempts, p).1
  }

  function RunFrom(rows: seq<Row>, log: seq<Time>, attempts: seq<Time>, p: Policy): (seq<Row>, seq<Time>)
    decreases |attempts|
  {
    if attempts == [] then (rows, log)
    else if Refused(rows, attempts[0], p) then RunFrom(rows, log, attempts[1..], p)
    else RunFrom(Upsert(rows, attempts[0]), log + [attempts[0]], attempts[1..], p)
  }

  lemma SortedTail(log: seq<Time>, attempts: seq<Time>)
    requires Sorted(log + attempts) && attempts != []
    ensures Sorted(log + attempts[1..]) && Sorted((log + [attempts[0]]) + attempts[1..]) && Sorted(log + [attempts[0]])
  {
    assert (log + [attempts[0]]) + attempts[1..] == log + attempts;
    var all, skipped := log + attempts, log + attempts[1..];
    forall i, j | 0 <= i <= j < |skipped| ensures skipped[i] <= skipped[j] {
      assert skipped[i] == all[if i < |log| then i else i + 1] && skipped[j] == all[if j < |log| then j else j + 1];
    }
    forall i, j | 0 <= i <= j < |log| + 1 ensures (log + [attempts[0]])[i] <= (log + [attempts[0]])[j] {
      assert (log + [attempts[0]])[i] == all[i] && (log + [attempts[0]])[j] == all[j];
    }
  }

  lemma {:induction false} RunIsBounded(rows: seq<Row>, log: seq<Time>, attempts: seq<Time>, p: Policy)
    requires Represents(rows, log) && Sorted(log + attempts) && Sorted(log) && 0 < p.window <= DAY && Bounded(log, p)
    ensures Bounded(RunFrom(rows, log, attempts, p).1, p)
    ensures Represents(RunFrom(rows, log, attempts, p).0, RunFrom(rows, log, attempts, p).1)
    decreases |attempts|
  {
    if attempts != [] {
      var now := attempts[0];
      SortedTail(log, attempts);
      if Refused(rows, now, p) {
        RunIsBounded(rows, log, attempts[1..], p);
      } else {
        AdmittedIffBounded(rows, log, now, p);
        if log != [] { assert (log + [now])[|log| - 1] == log[|log| - 1] && (log + [now])[|log|] == now; }
        UpsertRepresents(rows, log, now);
        RunIsBounded(Upsert(rows, now), log + [now], attempts[1..], p);
      }
    }
  }

  lemma EmptyIsBounded(p: Policy)
    requires p.maximum >= 0
    ensures Bounded([], p)
  {
    assert forall from, length :: CountIn([], from, length) == 0;
  }

  /**
   In every run, every half-open interval of the window's length holds at most `maximum` events, and every day at
   most `dailyMaximum`.
   */
  lemma EveryRunIsBounded(attempts: seq<Time>, p: Policy)
    requires Sorted(attempts) && 0 < p.window <= DAY && p.maximum >= 0
    ensures Bounded(Admitted(attempts, p), p)
  {
    assert [] + attempts == attempts;
    EmptyIsBounded(p);
    RunIsBounded([], [], attempts, p);
  }

  // ----- Windows longer than a day -----

  function Repeat(t: Time, n: nat): seq<Time> {
    if n == 0 then [] else Repeat(t, n - 1) + [t]
  }

  lemma {:induction false} CountRepeated(t: Time, n: nat)
    ensures |Repeat(t, n)| == n && (forall i :: 0 <= i < n ==> Repeat(t, n)[i] == t)
    ensures forall cutoff :: CountAfter(Repeat(t, n), cutoff) == if t > cutoff then n else 0
    ensures forall from, length :: CountIn(Repeat(t, n), from, length) == if from <= t < from + length then n else 0
  {
    if n > 0 {
      CountRepeated(t, n - 1);
      assert Repeat(t, n)[..n - 1] == Repeat(t, n - 1);
    }
  }

  ghost predicate Reaches(rows: seq<Row>, k: nat, n: nat, last: Time, p: Policy, rows': seq<Row>) {
    && Represents(rows', Repeat(0, k + n))
    && RunFrom(rows, Repeat(0, k), Repeat(0, n) + [last], p) == RunFrom(rows', Repeat(0, k + n), [last], p)
  }

  lemma FirstOfRepeated(n: nat, last: Time)
    requires n > 0
    ensures (Repeat(0, n) + [last])[0] == 0 && (Repeat(0, n) + [last])[1..] == Repeat(0, n - 1) + [last]
  {
    CountRepeated(0, n);
    CountRepeated(0, n - 1);
  }

  lemma NextIsAdmitted(rows: seq<Row>, k: nat, p: Policy)
    requires Represents(rows, Repeat(0, k)) && k < p.maximum && p.window > 0 && p.dailyMaximum <= 0 && p.interval <= 0
    ensures !Refused(rows, 0, p) && Represents(Upsert(rows, 0), Repeat(0, k + 1))
    ensures Repeat(0, k + 1) == Repeat(0, k) + [0]
  {
    CountRepeated(0, k);
    UpsertRepresents(rows, Repeat(0, k), 0);
  }

  // The first `maximum` attempts at one instant are all admitted.
  lemma {:induction false} FirstAreAdmitted(rows: seq<Row>, k: nat, n: nat, last: Time, p: Policy)
    requires Represents(rows, Repeat(0, k)) && k + n <= p.maximum && p.window > 0 && p.dailyMaximum <= 0
    requires p.interval <= 0
    ensures exists rows' :: Reaches(rows, k, n, last, p, rows')
    decreases n
  {
    if n == 0 {
      assert Repeat(0, 0) + [last] == [last];
      assert Reaches(rows, k, n, last, p, rows);
    } else {
      hide Refused, Represents, Upsert;
      var attempts := Repeat(0, n) + [last];
      FirstOfRepeated(n, last);
      NextIsAdmitted(rows, k, p);
      assert RunFrom(rows, Repeat(0, k), attempts, p) == RunFrom(Upsert(rows, 0), Repeat(0, k + 1), attempts[1..], p);
      FirstAreAdmitted(Upsert(rows, 0), k + 1, n - 1, last, p);
      var rows' :| Reaches(Upsert(rows, 0), k + 1, n - 1, last, p, rows');
      assert Reaches(rows, k, n, last, p, rows');
    }
  }

  lemma WideWindowBreaksBound(p: Policy)
    requires p.window > DAY && p.maximum > 0 && p.dailyMaximum <= 0 && p.interval <= 0
    ensures Sorted(Repeat(0, p.maximum) + [DAY]) && !Bounded(Admitted(Repeat(0, p.maximum) + [DAY], p), p)
  {
    var m := p.maximum;
    CountRepeated(0, m);
    FirstAreAdmitted([], 0, m, DAY, p);
    var rows :| Reaches([], 0, m, DAY, p, rows);
    LastIsAdmitted(rows, m, p);
    CountInAppends(Repeat(0, m), DAY, 0, p.window);
    assert CountIn(Repeat(0, m) + [DAY], 0, p.window) == m + 1;
  }

  lemma LastIsAdmitted(rows: seq<Row>, m: nat, p: Policy)
    requires Represents(rows, Repeat(0, m)) && p.window > DAY && m == p.maximum > 0 && p.dailyMaximum <= 0
    requires p.interval <= 0
    ensures RunFrom(rows, Repeat(0, m), [DAY], p).1 == Repeat(0, m) + [DAY]
  {
    CountRepeated(0, m);
    assert SumAfter(rows, 0) == 0;
    assert !Refused(rows, DAY, p);
    assert [DAY][1..] == [];
    assert RunFrom(Upsert(rows, DAY), Repeat(0, m) + [DAY], [], p).1 == Repeat(0, m) + [DAY];
  }

  /**
   For a limit without daily maximum and spacing: the bound holds in every run if and only if the window is at most a
   day, or nothing is ever admitted.
   */
  lemma BoundHoldsIffWindowFits(p: Policy)
    requires p.window > 0 && p.maximum >= 0 && p.dailyMaximum <= 0 && p.interval <= 0
    ensures (forall attempts :: Sorted(attempts) ==> Bounded(Admitted(attempts, p), p)) <==>
      (p.window <= DAY || p.maximum == 0)
  {
    if p.window <= DAY {
      forall attempts | Sorted(attempts) ensures Bounded(Admitted(attempts, p), p) {
        EveryRunIsBounded(attempts, p);
      }
    } else if p.maximum == 0 {
      forall attempts ensures Bounded(Admitted(attempts, p), p) {
        NothingAdmitted([], attempts, p);
        EmptyIsBounded(p);
      }
    } else {
      WideWindowBreaksBound(p);
    }
  }

  lemma {:induction false} NothingAdmitted(rows: seq<Row>, attempts: seq<Time>, p: Policy)
    requires p.maximum == 0
    ensures RunFrom(rows, [], attempts, p).1 == []
    decreases |attempts|
  {
    if attempts != [] { NothingAdmitted(rows, attempts[1..], p); }
  }

  // ----- The repository -----

  function RowsOf(counters: map<Key, seq<Row>>, key: Key): seq<Row> {
    if key in counters then counters[key] else []
  }

  function LogOf(logs: map<Key, seq<Time>>, key: Key): seq<Time> {
    if key in logs then logs[key] else []
  }

  function SourceKey(source: string): Key { Key("source", source, "password-login") }

  function EmailKey(emailKey: string): Key { Key("email", emailKey, "password-login") }

  class Repository {
    var counters: map<Key, seq<Row>>
    // The admitted events of every key.
    ghost var logs: map<Key, seq<Time>>

    constructor ()
      ensures Valid() && logs == map[]
    {
      counters, logs := map[], map[];
    }

    ghost predicate Valid()
      reads this
    {
      forall key :: Represents(RowsOf(counters, key), LogOf(logs, key))
    }

    // The advisory lock of the key orders its statement timestamps.
    ghost predicate InOrder(key: Key, now: Time)
      reads this
    {
      LogOf(logs, key) == [] || LogOf(logs, key)[|LogOf(logs, key)| - 1] <= now
    }

    method RecordLimit(key: Key, now: Time, p: Policy) returns (allowed: bool)
      requires Valid() && InOrder(key, now)
      modifies this
      ensures Valid() && allowed == !Refused(old(RowsOf(counters, key)), now, p)
      ensures logs == if allowed then old(logs)[key := old(LogOf(logs, key)) + [now]] else old(logs)
      ensures !allowed ==> counters == old(counters)
      ensures forall k :: k != key ==> RowsOf(counters, k) == old(RowsOf(counters, k))
    {
      var rows := RowsOf(counters, key);
      var hourCutoff, dayCutoff := now - p.window, now - DAY;
      var hourly := SumAfter(rows, if hourCutoff > dayCutoff then hourCutoff else dayCutoff);
      var daily := SumAfter(rows, dayCutoff);
      var latest := LatestRow(rows);
      if hourly >= p.maximum || (p.dailyMaximum > 0 && daily >= p.dailyMaximum)
        || (p.interval > 0 && latest.Some? && now - latest.value < p.interval) {
        return false;
      }
      UpsertRepresents(rows, LogOf(logs, key), now);
      counters := counters[key := Upsert(rows, now)];
      logs := logs[key := LogOf(logs, key) + [now]];
      forall k ensures Represents(RowsOf(counters, k), LogOf(logs, k)) {
        if k != key { assert Represents(old(RowsOf(counters, k)), old(LogOf(logs, k))); }
      }
      allowed := true;
    }

    /** The event is admitted exactly when it leaves the log of its key within its bounds, and then counted. */
    method Record(key: Key, now: Time, p: Policy) returns (allowed: bool)
      requires Valid() && Sorted(LogOf(logs, key) + [now]) && 0 < p.window <= DAY && Bounded(LogOf(logs, key), p)
      modifies this
      ensures Valid() && allowed == Bounded(old(LogOf(logs, key)) + [now], p)
      ensures logs == if allowed then old(logs)[key := old(LogOf(logs, key)) + [now]] else old(logs)
      ensures Bounded(LogOf(logs, key), p)
    {
      ghost var log := LogOf(logs, key);
      AdmittedIffBounded(RowsOf(counters, key), log, now, p);
      if log != [] { assert (log + [now])[|log| - 1] == log[|log| - 1] && (log + [now])[|log|] == now; }
      allowed := RecordLimit(key, now, p);
    }

    /** Both keys are counted, or neither. */
    method RecordLogin(
      source: string, emailKey: string, sourceMaximum: int, emailMaximum: int, sourceWindow: int, emailWindow: int,
      now: Time)
      returns (allowed: bool)
      requires Valid() && InOrder(SourceKey(source), now) && InOrder(EmailKey(emailKey), now)
      modifies this
      ensures Valid()
      ensures allowed <==>
        && !Refused(old(RowsOf(counters, SourceKey(source))), now, Policy(sourceMaximum, 0, sourceWindow, 0))
        && !Refused(old(RowsOf(counters, EmailKey(emailKey))), now, Policy(emailMaximum, 0, emailWindow, 0))
      ensures logs == if allowed
        then old(logs)[SourceKey(source) := old(LogOf(logs, SourceKey(source))) +
          [now]][EmailKey(emailKey) := old(LogOf(logs, EmailKey(emailKey))) + [now]]
        else old(logs)
      ensures !allowed ==> counters == old(counters)
    {
      var snapshot := counters;
      ghost var before := logs;
      allowed := RecordLimit(SourceKey(source), now, Policy(sourceMaximum, 0, sourceWindow, 0));
      if !allowed {
        return;
      }
      assert LogOf(logs, EmailKey(emailKey)) == LogOf(before, EmailKey(emailKey));
      allowed := RecordLimit(EmailKey(emailKey), now, Policy(emailMaximum, 0, emailWindow, 0));
      if !allowed {
        counters := snapshot;
        logs := before;
      }
    }
  }
}
