/** Local dates as day numbers; day 0 is a Monday. */
module Calendar {

  predicate IsWeekday(day: int) {
    day % 7 < 5
  }

  /** Weekdays in the closed range of dates. */
  function BusinessDays(first: int, last: int): (n: nat)
    decreases last - first
  {
    if first > last then 0
    else (if IsWeekday(first) then 1 else 0) + BusinessDays(first + 1, last)
  }

  lemma {:induction false} BusinessDaysJoin(first: int, mid: int, last: int)
    requires first <= mid + 1 && mid <= last
    ensures BusinessDays(first, last) == BusinessDays(first, mid) + BusinessDays(mid + 1, last)
    decreases mid - first
  {
    if first <= mid {
      BusinessDaysJoin(first + 1, mid, last);
    }
  }

  lemma BusinessDaysSnoc(first: int, last: int)
    requires first <= last + 1
    ensures BusinessDays(first, last + 1) == BusinessDays(first, last) + if IsWeekday(last + 1) then 1 else 0
  {
    BusinessDaysJoin(first, last, last + 1);
    assert BusinessDays(last + 2, last + 1) == 0;
  }
}
