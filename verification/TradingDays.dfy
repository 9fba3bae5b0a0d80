/** Advancing a date by trading days. */
module TradingDays {
  import opened Calendar

  /** The date that is `sessions` weekdays after the start; without sessions, the first weekday from the start on. */
  ghost predicate IsAdvance(start: int, sessions: int, target: int) {
    && IsWeekday(target)
    && if sessions > 0 then start < target && BusinessDays(start + 1, target) == sessions
       else start <= target && BusinessDays(start, target - 1) == 0
  }

  method AdvanceTradingDays(start: int, sessions: int) returns (target: int)
    ensures IsAdvance(start, sessions, target)
    ensures target == ClosedForm(start, sessions)
  {
    hide BusinessDays, ClosedForm, IsWeekday;
    target := start;
    var remaining := if sessions < 0 then 0 else sessions;
    NoDays(start + 1);
    NoDays(start);
    while remaining > 0
      invariant start <= target && 0 <= remaining
      invariant sessions > 0 ==> BusinessDays(start + 1, target) + remaining == sessions
      invariant sessions > 0 && remaining == 0 ==> start < target && IsWeekday(target)
      invariant sessions <= 0 ==> target == start && remaining == 0
      decreases remaining, ToMonday(target + 1)
    {
      BusinessDaysSnoc(start + 1, target);
      NextIsCloser(target + 1);
      target := target + 1;
      if IsWeekday(target) {
        remaining := remaining - 1;
      }
    }
    while !IsWeekday(target)
      invariant start <= target
      invariant sessions > 0 ==> start < target && IsWeekday(target) && BusinessDays(start + 1, target) == sessions
      invariant sessions <= 0 ==> BusinessDays(start, target - 1) == 0
      decreases ToMonday(target)
    {
      BusinessDaysSnoc(start, target - 1);
      NextIsCloser(target);
      target := target + 1;
    }
    ClosedFormAdvances(start, sessions);
    AdvanceIsUnique(start, sessions, target, ClosedForm(start, sessions));
  }

  lemma NoDays(first: int)
    ensures BusinessDays(first, first - 1) == 0
  {
  }

  function ToMonday(day: int): nat {
    (7 - day % 7) % 7
  }

  lemma NextIsCloser(day: int)
    ensures !IsWeekday(day) ==> ToMonday(day + 1) < ToMonday(day)
  {
  }

  /** There is one such date only. */
  lemma AdvanceIsUnique(start: int, sessions: int, a: int, b: int)
    requires IsAdvance(start, sessions, a) && IsAdvance(start, sessions, b)
    ensures a == b
  {
    if a < b {
      AdvanceIsOrdered(start, sessions, a, b);
    } else if b < a {
      AdvanceIsOrdered(start, sessions, b, a);
    }
  }

  lemma AdvanceIsOrdered(start: int, sessions: int, a: int, b: int)
    requires IsAdvance(start, sessions, a) && IsAdvance(start, sessions, b)
    ensures a >= b
  {
    if a < b {
      if sessions > 0 {
        BusinessDaysJoin(start + 1, a, b);
        BusinessDaysSnoc(a + 1, b - 1);
      } else {
        BusinessDaysJoin(start, a, b - 1);
        BusinessDaysSnoc(start, a - 1);
      }
      assert false;
    }
  }

  /** The date by arithmetic on the weekday: five sessions make a week, and a weekend counts as its Friday. */
  function ClosedForm(start: int, sessions: int): int {
    var monday := start - start % 7;
    var weekday := start % 7;
    if sessions > 0 then
      var i := (if weekday < 5 then weekday else 4) + sessions;
      FromMonday(monday, i)
    else if weekday < 5 then start
    else monday + 7
  }

  lemma {:induction false} ClosedFormAdvances(start: int, sessions: int)
    ensures IsAdvance(start, sessions, ClosedForm(start, sessions))
    decreases sessions
  {
    if sessions <= 0 {
      if start % 7 >= 5 {
        WeekendIsEmpty(start, ClosedForm(start, 0) - 1);
      } else {
        assert BusinessDays(start, start - 1) == 0;
      }
    } else {
      var before := if sessions == 1 then (if start % 7 < 5 then start else start - start % 7 + 4)
                    else ClosedForm(start, sessions - 1);
      var after := ClosedForm(start, sessions);
      NextWeekday(start, sessions, before, after);
      if sessions == 1 {
        FirstSession(start, before, after);
      } else {
        ClosedFormAdvances(start, sessions - 1);
        BusinessDaysJoin(start + 1, before, after);
        OneSession(before, after);
      }
    }
  }

  /** The next session is tomorrow, or after a Friday three days later. */
  lemma NextWeekday(start: int, sessions: int, before: int, after: int)
    requires sessions > 0 && after == ClosedForm(start, sessions)
    requires before == if sessions == 1 then (if start % 7 < 5 then start else start - start % 7 + 4)
                       else ClosedForm(start, sessions - 1)
    ensures IsWeekday(before) && after == if before % 7 == 4 then before + 3 else before + 1
  {
    var monday, w := start - start % 7, if start % 7 < 5 then start % 7 else 4;
    assert after == FromMonday(monday, w + sessions);
    FirstWeek(monday, w);
    assert before == FromMonday(monday, w + sessions - 1);
    hide FromMonday, ClosedForm;
    MondayBefore(start);
    WeekArithmetic(monday, w + sessions - 1);
  }

  /** The weekday with a number of weekdays between it and a Monday. */
  function FromMonday(monday: int, i: int): int {
    monday + 7 * (i / 5) + i % 5
  }

  lemma FirstWeek(monday: int, w: int)
    requires 0 <= w < 5
    ensures FromMonday(monday, w) == monday + w
  {
  }

  lemma MondayBefore(start: int)
    ensures (start - start % 7) % 7 == 0
  {
  }

  lemma WeekArithmetic(monday: int, i: int)
    requires monday % 7 == 0 && i >= 0
    ensures FromMonday(monday, i) % 7 == i % 5
    ensures FromMonday(monday, i + 1) == FromMonday(monday, i) + if i % 5 == 4 then 3 else 1
  {
    var q, r := i / 5, i % 5;
    assert i == 5 * q + r;
    assert monday + 7 * q + r == 7 * (monday / 7 + q) + r;
    assert (i + 1) / 5 == if r == 4 then q + 1 else q;
  }

  lemma OneSession(before: int, after: int)
    requires IsWeekday(before) && after == if before % 7 == 4 then before + 3 else before + 1
    ensures IsWeekday(after) && BusinessDays(before + 1, after) == 1
  {
    assert BusinessDays(after + 1, after) == 0;
    if before % 7 == 4 {
      assert (before + 1) % 7 == 5 && (before + 2) % 7 == 6 && (before + 3) % 7 == 0;
      assert BusinessDays(before + 3, after) == 1;
      assert BusinessDays(before + 2, after) == 1;
    } else {
      assert (before + 1) % 7 == before % 7 + 1;
    }
  }

  lemma FirstSession(start: int, before: int, after: int)
    requires before == if start % 7 < 5 then start else start - start % 7 + 4
    requires after == if before % 7 == 4 then before + 3 else before + 1
    ensures IsWeekday(after) && start < after && BusinessDays(start + 1, after) == 1
  {
    OneSession(before, after);
    if start % 7 >= 5 {
      assert before % 7 == 4;
      WeekendIsEmpty(before + 1, start);
      BusinessDaysJoin(before + 1, start, after);
    }
  }

  lemma {:induction false} WeekendIsEmpty(first: int, last: int)
    requires first % 7 >= 5 && first <= last && last - first < 7 - first % 7
    ensures BusinessDays(first, last) == 0
    decreases last - first
  {
    if first < last {
      assert (first + 1) % 7 == first % 7 + 1;
      WeekendIsEmpty(first + 1, last);
    } else {
      assert BusinessDays(first + 1, last) == 0;
    }
  }

  /** Advancing twice is advancing once by the sum. */
  lemma AdvancesCompose(start: int, a: int, b: int, mid: int, target: int)
    requires a >= 1 && b >= 1 && IsAdvance(start, a, mid) && IsAdvance(mid, b, target)
    ensures IsAdvance(start, a + b, target)
    ensures ClosedForm(ClosedForm(start, a), b) == ClosedForm(start, a + b)
  {
    BusinessDaysJoin(start + 1, mid, target);
    ClosedFormAdvances(start, a);
    AdvanceIsUnique(start, a, mid, ClosedForm(start, a));
    ClosedFormAdvances(mid, b);
    AdvanceIsUnique(mid, b, target, ClosedForm(mid, b));
    ClosedFormAdvances(start, a + b);
    AdvanceIsUnique(start, a + b, target, ClosedForm(start, a + b));
  }
}
