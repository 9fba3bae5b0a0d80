/** The summary of a weekly backtest, computed from the enriched log and the equity curve. */
module WeeklyReport {
  import opened Sets
  import opened Sums
  import opened WeeklyModels
  import opened WeeklyStep
  import opened WeeklyRuns
  import opened WeeklyLedger

  // ---------- P&L by day and by week ----------

  function BarPnl(): EquityPoint -> real {
    (point: EquityPoint) => point.barPnl
  }

  /** What one point gives to one group. */
  function Part(key: EquityPoint -> int, k: int, point: EquityPoint): real {
    if key(point) == k then point.barPnl else 0.0
  }

  /** The bar P&L of the points of one group. */
  function InGroup(key: EquityPoint -> int, k: int): EquityPoint -> real {
    (point: EquityPoint) => Part(key, k, point)
  }

  function GroupPnl(points: seq<EquityPoint>, key: EquityPoint -> int): int -> real {
    k => Sum(InGroup(key, k), points)
  }

  function DayKey(): EquityPoint -> int {
    (point: EquityPoint) => point.stamp.day
  }

  function WeekKey(): EquityPoint -> int {
    (point: EquityPoint) => point.week
  }

  ghost predicate Distinct(ks: seq<int>) {
    forall i, j :: 0 <= i < j < |ks| ==> ks[i] != ks[j]
  }

  ghost predicate Covers(points: seq<EquityPoint>, key: EquityPoint -> int, ks: seq<int>) {
    forall i :: 0 <= i < |points| ==> Contains(ks, key(points[i]))
  }

  /** The keys of a grouping, each once. */
  function Keys(points: seq<EquityPoint>, key: EquityPoint -> int): seq<int> {
    if points == [] then []
    else
      var last := key(points[|points| - 1]);
      var ks := Keys(points[..|points| - 1], key);
      if Contains(ks, last) then ks else ks + [last]
  }

  lemma {:induction false} KeysAreDistinctAndCover(points: seq<EquityPoint>, key: EquityPoint -> int)
    ensures Distinct(Keys(points, key)) && Covers(points, key, Keys(points, key))
  {
    if points == [] {
      assert |Keys(points, key)| == 0;
    } else {
      var n := |points| - 1;
      KeysAreDistinctAndCover(points[..n], key);
      var before, after := Keys(points[..n], key), Keys(points, key);
      ContainsSnoc(before, key(points[n]));
      forall i, j | 0 <= i < j < |after|
        ensures after[i] != after[j]
      {
        assert j < |before| ==> before[i] != before[j];
        assert Contains(before, before[i]);
      }
      forall i | 0 <= i < |points|
        ensures Contains(after, key(points[i]))
      {
        if i < n {
          assert points[..n][i] == points[i];
        }
      }
    }
  }

  ghost predicate HasKey(points: seq<EquityPoint>, key: EquityPoint -> int, k: int) {
    exists i :: 0 <= i < |points| && key(points[i]) == k
  }

  /** Each key is that of some point. */
  ghost predicate Occur(points: seq<EquityPoint>, key: EquityPoint -> int, ks: seq<int>) {
    forall j :: 0 <= j < |ks| ==> HasKey(points, key, ks[j])
  }

  lemma {:induction false} KeysOccur(points: seq<EquityPoint>, key: EquityPoint -> int)
    ensures Occur(points, key, Keys(points, key))
  {
    if points != [] {
      var n := |points| - 1;
      KeysOccur(points[..n], key);
      forall k | HasKey(points[..n], key, k)
        ensures HasKey(points, key, k)
      {
        var i :| 0 <= i < n && key(points[..n][i]) == k;
        assert key(points[i]) == k;
      }
      assert HasKey(points, key, key(points[n]));
      hide HasKey;
    }
  }

  /** The groups of a curve are the local days and the weeks of its points, each once and no other. */
  lemma GroupsAreDaysAndWeeks(points: seq<EquityPoint>)
    ensures Distinct(Keys(points, DayKey())) && Distinct(Keys(points, WeekKey()))
    ensures forall k :: Contains(Keys(points, DayKey()), k) <==>
              exists i :: 0 <= i < |points| && points[i].stamp.day == k
    ensures forall k :: Contains(Keys(points, WeekKey()), k) <==>
              exists i :: 0 <= i < |points| && points[i].week == k
  {
    hide Keys, Distinct;
    KeysAreDistinctAndCover(points, DayKey());
    KeysAreDistinctAndCover(points, WeekKey());
    KeysOccur(points, DayKey());
    KeysOccur(points, WeekKey());
  }

  /** What one point gives to each group. */
  function Share(point: EquityPoint, key: EquityPoint -> int): int -> real {
    k => Part(key, k, point)
  }

  /** Over distinct keys, only one key picks out the point. */
  lemma {:induction false} OneGroupEach(point: EquityPoint, key: EquityPoint -> int, ks: seq<int>)
    requires Distinct(ks)
    ensures Sum(Share(point, key), ks) == if Contains(ks, key(point)) then point.barPnl else 0.0
  {
    if ks == [] {
      assert !Contains(ks, key(point));
    } else {
      var n := |ks| - 1;
      OneGroupEach(point, key, ks[..n]);
      ContainsSnoc(ks[..n], ks[n]);
      assert ks == ks[..n] + [ks[n]];
      assert Contains(ks, key(point)) <==> key(point) == ks[n] || Contains(ks[..n], key(point));
      assert Contains(ks[..n], key(point)) ==> ks[n] != key(point);
      assert Share(point, key)(ks[n]) == Part(key, ks[n], point);
    }
  }

  /** Grouping the bars by day, by week or by any other key does not change the sum. */
  lemma {:induction false} GroupsAddUp(points: seq<EquityPoint>, key: EquityPoint -> int, ks: seq<int>)
    requires Distinct(ks) && Covers(points, key, ks)
    ensures Sum(GroupPnl(points, key), ks) == Sum(BarPnl(), points)
  {
    if points == [] {
      SumOfConstant(GroupPnl(points, key), 0.0, ks);
    } else {
      var n := |points| - 1;
      GroupsAddUp(points[..n], key, ks);
      SumOfSum(GroupPnl(points[..n], key), Share(points[n], key), GroupPnl(points, key), ks);
      OneGroupEach(points[n], key, ks);
    }
  }

  /** The bar P&L adds up to the final total equity. */
  lemma {:induction false} BarPnlTelescopes(p: Pricer, cfg: Config, bars: seq<Bar>)
    ensures Sum(BarPnl(), Curve(p, cfg, bars)) == TotalAfter(p, cfg, bars)
  {
    hide Run, Step, RealizedOn, Unrealized, GrossRealizedOn, GrossUnrealized, Deployment, Occupied;
    if bars != [] {
      var before := bars[..|bars| - 1];
      BarPnlTelescopes(p, cfg, before);
      SumSnoc(BarPnl(), Curve(p, cfg, before), PointOf(p, cfg, bars));
      assert PointOf(p, cfg, bars).barPnl == TotalAfter(p, cfg, bars) - TotalAfter(p, cfg, before);
    }
  }

  /** Daily and weekly P&L, or the P&L of any other grouping, add up to the final total equity. */
  lemma GroupsAddUpToTotal(p: Pricer, cfg: Config, bars: seq<Bar>, key: EquityPoint -> int)
    ensures var curve := Curve(p, cfg, bars);
            Sum(GroupPnl(curve, key), Keys(curve, key)) == TotalAfter(p, cfg, bars)
  {
    hide Curve, TotalAfter, Keys, Sum;
    KeysAreDistinctAndCover(Curve(p, cfg, bars), key);
    GroupsAddUp(Curve(p, cfg, bars), key, Keys(Curve(p, cfg, bars), key));
    BarPnlTelescopes(p, cfg, bars);
  }

  lemma DaysAndWeeksAddUp(p: Pricer, cfg: Config, bars: seq<Bar>)
    ensures var curve := Curve(p, cfg, bars);
            && Sum(GroupPnl(curve, DayKey()), Keys(curve, DayKey())) == TotalAfter(p, cfg, bars)
            && Sum(GroupPnl(curve, WeekKey()), Keys(curve, WeekKey())) == TotalAfter(p, cfg, bars)
  {
    hide Curve, TotalAfter, Keys, Sum;
    GroupsAddUpToTotal(p, cfg, bars, DayKey());
    GroupsAddUpToTotal(p, cfg, bars, WeekKey());
  }

  // ---------- Closed layers ----------

  /** Rows of the log that carry a realized P&L, in order. */
  function BookedRows(log: seq<Action>): (rows: seq<Cash>)
    ensures forall i :: 0 <= i < |rows| ==> rows[i].Booked?
  {
    if log == [] then []
    else
      var last := log[|log| - 1].cash;
      BookedRows(log[..|log| - 1]) + (if last.Booked? then [last] else [])
  }

  function Winners(rows: seq<Cash>): nat
    requires forall i :: 0 <= i < |rows| ==> rows[i].Booked?
  {
    if rows == [] then 0
    else Winners(rows[..|rows| - 1]) + (if rows[|rows| - 1].realized > 0.0 then 1 else 0)
  }

  function Losers(rows: seq<Cash>): nat
    requires forall i :: 0 <= i < |rows| ==> rows[i].Booked?
  {
    if rows == [] then 0
    else Losers(rows[..|rows| - 1]) + (if rows[|rows| - 1].realized < 0.0 then 1 else 0)
  }

  function RealizedOfRow(): Cash -> real {
    (row: Cash) => if row.Booked? then row.realized else 0.0
  }

  function GrossOfRow(): Cash -> real {
    (row: Cash) => if row.Booked? then row.grossRealized else 0.0
  }

  lemma {:induction false} WinnersAndLosersAreRows(rows: seq<Cash>)
    requires forall i :: 0 <= i < |rows| ==> rows[i].Booked?
    ensures Winners(rows) + Losers(rows) <= |rows|
  {
    if rows != [] {
      WinnersAndLosersAreRows(rows[..|rows| - 1]);
    }
  }

  ghost predicate Unpriced(log: seq<Action>) {
    forall i :: 0 <= i < |log| ==> log[i].cash == NoCash
  }

  /** The enriched log has one booked row for each layer closed, and these rows add up to the realized P&L. */
  lemma {:induction false} BookedRowsAreClosedLayers(p: Pricer, log: seq<Action>)
    requires Unpriced(log)
    ensures |BookedRows(EnrichAll(p, log))| == |LayersOf(false, log)|
    ensures Sum(RealizedOfRow(), BookedRows(EnrichAll(p, log))) == RealizedOn(p, log)
    ensures Sum(GrossOfRow(), BookedRows(EnrichAll(p, log))) == GrossRealizedOn(p, log)
  {
    hide Enriched, RecordGain, GrossRecordGain;
    if log == [] {
      SumOfNothing(RealizedOfRow());
      SumOfNothing(GrossOfRow());
    } else {
      var n := |log| - 1;
      BookedRowsAreClosedLayers(p, log[..n]);
      assert EnrichAll(p, log)[..n] == EnrichAll(p, log[..n]);
      var before, last := BookedRows(EnrichAll(p, log[..n])), Enriched(p, log[n]);
      EnrichedRow(p, log[n]);
      assert RealizedOn(p, log) == RealizedOn(p, log[..n]) + RecordGain(p)(log[n]);
      assert GrossRealizedOn(p, log) == GrossRealizedOn(p, log[..n]) + GrossRecordGain(p)(log[n]);
      if Closes(log[n]) {
        SumSnoc(RealizedOfRow(), before, last.cash);
        SumSnoc(GrossOfRow(), before, last.cash);
        assert BookedRows(EnrichAll(p, log)) == before + [last.cash];
      } else {
        assert BookedRows(EnrichAll(p, log)) == before;
      }
    }
  }

  lemma EnrichedRow(p: Pricer, a: Action)
    requires a.cash == NoCash
    ensures Enriched(p, a).cash.Booked? <==> Closes(a)
    ensures RecordGain(p)(a) == if Closes(a) then Enriched(p, a).cash.realized else 0.0
    ensures GrossRecordGain(p)(a) == if Closes(a) then Enriched(p, a).cash.grossRealized else 0.0
  {
  }

  /** The money on a record. Closing a layer brings its mark less the friction, or nothing when that is negative; the
      gains are what closing brings over what opening took, with friction and without it. */
  lemma MoneyOfRecord(p: Pricer, a: Action)
    requires a.cash == NoCash
    ensures Closes(a) ==>
              var layer, booked := a.layer.value, Enriched(p, a).cash;
              && booked.Booked? && booked.closeValue >= 0.0 && booked.closeFriction == p.friction
              && booked.grossCloseValue == p.mark(layer, a.price, a.stamp)
              && (booked.closeValue == booked.grossCloseValue - p.friction
                  || booked.closeValue == 0.0 > booked.grossCloseValue - p.friction)
              && booked.realized + p.debit(layer) + p.friction == booked.closeValue
              && booked.grossRealized + p.debit(layer) == booked.grossCloseValue
    ensures a.layer.Some? && IsOpening(a.kind) ==>
              var paid := Enriched(p, a).cash;
              && paid.Paid? && paid.entryDebit == p.debit(a.layer.value) && paid.entryFriction == p.friction
              && paid.entryCost == paid.entryDebit + paid.entryFriction
    ensures Enriched(p, a).(cash := NoCash) == a
  {
  }
}
