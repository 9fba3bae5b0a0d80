/** The bounded store of the latest bars of each symbol. */
module BarStore {
  import opened Options
  import opened Rounding

  /** Prices are positive; a close of zero would make the engine divide by zero. */
  type Price = x: real | x > 0.0 witness 1.0

  datatype Row = Row(ts: int, open: Price, high: Price, low: Price, close: Price, volume: real)

  type Frame = seq<Row>

  // ---------- The data frame operations ----------

  predicate HasTime(f: Frame, ts: int) {
    exists i :: 0 <= i < |f| && f[i].ts == ts
  }

  /** `f[~f.index.duplicated(keep="last")]`: a row stays when no later row has its timestamp. */
  function KeepLast(f: Frame): Frame {
    if f == [] then []
    else (if HasTime(f[1..], f[0].ts) then [] else [f[0]]) + KeepLast(f[1..])
  }

  /** Insert behind the rows that are not later. */
  function Insert(f: Frame, row: Row): (g: Frame)
    ensures |g| == |f| + 1
  {
    if f == [] || f[|f| - 1].ts <= row.ts then f + [row]
    else Insert(f[..|f| - 1], row) + [f[|f| - 1]]
  }

  function SortIndex(f: Frame): Frame {
    if f == [] then [] else Insert(SortIndex(f[..|f| - 1]), f[|f| - 1])
  }

  /** `f.tail(n)`: the last rows, or all but the first ones when the number is negative. */
  function Tail(f: Frame, n: int): Frame {
    if n >= 0 then LastOf(f, n)
    else if -n >= |f| then []
    else f[-n..]
  }

  function LastOf(f: Frame, n: nat): Frame {
    if |f| <= n then f else f[|f| - n..]
  }

  /** The frame after one more bar. */
  function Upserted(frame: Option<Frame>, row: Row, cap: int): Frame {
    var merged := if frame.None? then [row] else SortIndex(KeepLast(frame.value + [row]));
    if |merged| > cap then Tail(merged, cap) else merged
  }

  // ---------- What the store is for ----------

  ghost predicate Sorted(f: Frame) {
    forall i, j :: 0 <= i < j < |f| ==> f[i].ts < f[j].ts
  }

  /** The row is the last one sent for its timestamp. */
  ghost predicate IsLatest(history: seq<Row>, row: Row) {
    exists i :: 0 <= i < |history| && history[i] == row && !HasTime(history[i + 1..], row.ts)
  }

  function Without(f: Frame, ts: int): Frame {
    if f == [] then []
    else Without(f[..|f| - 1], ts) + (if f[|f| - 1].ts == ts then [] else [f[|f| - 1]])
  }

  function Put(f: Frame, row: Row): Frame {
    Insert(Without(f, row.ts), row)
  }

  /** The store without a bound. */
  function Everything(history: seq<Row>): Frame {
    if history == [] then []
    else Put(Everything(history[..|history| - 1]), history[|history| - 1])
  }

  function Room(cap: int): nat {
    Max(0, cap)
  }

  function Kept(history: seq<Row>, cap: int): Frame {
    LastOf(Everything(history), Room(cap))
  }

  // ---------- Inserting into a sorted frame ----------

  lemma {:induction false} WithoutIsSorted(f: Frame, ts: int)
    requires Sorted(f)
    ensures Sorted(Without(f, ts))
    ensures forall row :: row in Without(f, ts) <==> row in f && row.ts != ts
  {
    if f != [] {
      var n := |f| - 1;
      WithoutIsSorted(f[..n], ts);
      assert f == f[..n] + [f[n]];
      forall i | 0 <= i < |Without(f[..n], ts)|
        ensures Without(f[..n], ts)[i].ts < f[n].ts
      {
        assert Without(f[..n], ts)[i] in f[..n];
      }
    }
  }

  lemma {:induction false} InsertIsSorted(f: Frame, row: Row)
    requires Sorted(f) && !HasTime(f, row.ts)
    ensures Sorted(Insert(f, row))
    ensures forall r :: r in Insert(f, row) <==> r == row || r in f
  {
    if f != [] && f[|f| - 1].ts > row.ts {
      var n := |f| - 1;
      InsertIsSorted(f[..n], row);
      assert f == f[..n] + [f[n]];
      forall i | 0 <= i < |Insert(f[..n], row)|
        ensures Insert(f[..n], row)[i].ts < f[n].ts
      {
        assert Insert(f[..n], row)[i] in Insert(f[..n], row);
      }
    } else if f != [] {
      assert f[|f| - 1].ts != row.ts;
    }
  }

  lemma PutIsSorted(f: Frame, row: Row)
    requires Sorted(f)
    ensures Sorted(Put(f, row))
    ensures forall r :: r in Put(f, row) <==> r == row || (r in f && r.ts != row.ts)
  {
    WithoutIsSorted(f, row.ts);
    var rest := Without(f, row.ts);
    forall i | 0 <= i < |rest|
      ensures rest[i].ts != row.ts
    {
      assert rest[i] in rest;
    }
    InsertIsSorted(rest, row);
  }

  lemma {:induction false} EverythingIsSorted(history: seq<Row>)
    ensures Sorted(Everything(history))
  {
    if history != [] {
      EverythingIsSorted(history[..|history| - 1]);
      PutIsSorted(Everything(history[..|history| - 1]), history[|history| - 1]);
    }
  }

  /** The unbounded store holds, for each timestamp, the last row sent for it and nothing else. */
  lemma {:induction false} EverythingIsLatest(history: seq<Row>)
    ensures forall row :: row in Everything(history) <==> IsLatest(history, row)
  {
    hide Put, Sorted, IsLatest;
    if history == [] {
      NothingIsLatest();
    } else {
      var n := |history| - 1;
      var before, last := history[..n], history[n];
      EverythingIsLatest(before);
      EverythingIsSorted(before);
      PutIsSorted(Everything(before), last);
      assert history == before + [last];
      forall row
        ensures row in Everything(history) <==> IsLatest(history, row)
      {
        LatestAfterOneMore(before, last, row);
      }
    }
  }

  lemma NothingIsLatest()
    ensures forall row :: !IsLatest([], row)
  {
  }

  lemma LatestAfterOneMore(before: seq<Row>, last: Row, row: Row)
    ensures IsLatest(before + [last], row) <==> row == last || (IsLatest(before, row) && row.ts != last.ts)
  {
    var history, n := before + [last], |before|;
    assert history[n] == last && !HasTime(history[n + 1..], last.ts);
    forall i | 0 <= i < n
      ensures history[i] == before[i]
      ensures HasTime(history[i + 1..], row.ts) <==> HasTime(before[i + 1..], row.ts) || last.ts == row.ts
    {
      assert history[i + 1..] == before[i + 1..] + [last];
      HasTimeSnoc(before[i + 1..], last, row.ts);
    }
  }

  lemma HasTimeSnoc(f: Frame, last: Row, ts: int)
    ensures HasTime(f + [last], ts) <==> HasTime(f, ts) || last.ts == ts
  {
    assert (f + [last])[|f|] == last;
    assert forall i :: 0 <= i < |f| ==> (f + [last])[i] == f[i];
  }

  // ---------- The frame operations on a sorted frame ----------

  lemma {:induction false} KeepLastOfSorted(f: Frame, row: Row)
    requires Sorted(f)
    ensures KeepLast(f + [row]) == WithoutFront(f, row.ts) + [row]
  {
    var g := f + [row];
    if f == [] {
      assert KeepLast(g[1..]) == [];
    } else {
      KeepLastOfSorted(f[1..], row);
      assert g[1..] == f[1..] + [row];
      assert g[1..][|f| - 1] == row;
      assert forall i :: 0 <= i < |f| - 1 ==> g[1..][i] == f[i + 1];
      assert HasTime(g[1..], f[0].ts) <==> row.ts == f[0].ts;
    }
  }

  function WithoutFront(f: Frame, ts: int): Frame {
    if f == [] then []
    else (if f[0].ts == ts then [] else [f[0]]) + WithoutFront(f[1..], ts)
  }

  lemma {:induction false} FrontIsBack(f: Frame, ts: int)
    ensures WithoutFront(f, ts) == Without(f, ts)
  {
    if f != [] {
      FrontIsBack(f[1..], ts);
      assert f == [f[0]] + f[1..];
      assert Without([f[0]], ts) == if f[0].ts == ts then [] else [f[0]];
      WithoutConcat([f[0]], f[1..], ts);
    }
  }

  lemma {:induction false} WithoutConcat(a: Frame, b: Frame, ts: int)
    ensures Without(a + b, ts) == Without(a, ts) + Without(b, ts)
  {
    if b == [] {
      assert a + b == a;
    } else {
      assert (a + b)[..|a + b| - 1] == a + b[..|b| - 1];
      WithoutConcat(a, b[..|b| - 1], ts);
    }
  }

  lemma {:induction false} SortOfSorted(f: Frame)
    requires Sorted(f)
    ensures SortIndex(f) == f
  {
    if f != [] {
      SortOfSorted(f[..|f| - 1]);
    }
  }

  /** Concatenating, dropping earlier duplicates and sorting puts the row in its place. */
  lemma MergeIsPut(f: Frame, row: Row)
    requires Sorted(f)
    ensures SortIndex(KeepLast(f + [row])) == Put(f, row)
  {
    KeepLastOfSorted(f, row);
    FrontIsBack(f, row.ts);
    WithoutIsSorted(f, row.ts);
    var g := Without(f, row.ts);
    assert (g + [row])[..|g|] == g;
    SortOfSorted(g);
  }

  // ---------- Bounding ----------

  lemma {:induction false} InsertRight(a: Frame, b: Frame, row: Row)
    requires forall i :: 0 <= i < |a| ==> a[i].ts < row.ts
    ensures Insert(a + b, row) == a + Insert(b, row)
  {
    if b == [] {
      assert a + b == a;
    } else {
      assert (a + b)[..|a + b| - 1] == a + b[..|b| - 1];
      InsertRight(a, b[..|b| - 1], row);
    }
  }

  lemma {:induction false} InsertLeft(a: Frame, b: Frame, row: Row)
    requires forall i :: 0 <= i < |b| ==> b[i].ts > row.ts
    ensures Insert(a + b, row) == Insert(a, row) + b
  {
    if b == [] {
      assert a + b == a;
    } else {
      var n := |b| - 1;
      assert (a + b)[..|a + b| - 1] == a + b[..n];
      InsertLeft(a, b[..n], row);
      assert Insert(a, row) + b == Insert(a, row) + b[..n] + [b[n]];
    }
  }

  lemma {:induction false} WithoutNothing(f: Frame, ts: int)
    requires forall i :: 0 <= i < |f| ==> f[i].ts != ts
    ensures Without(f, ts) == f
  {
    if f != [] {
      WithoutNothing(f[..|f| - 1], ts);
    }
  }

  lemma {:induction false} WithoutShrinksByOne(f: Frame, ts: int)
    requires Sorted(f)
    ensures |f| - 1 <= |Without(f, ts)| <= |f|
  {
    if f != [] {
      var n := |f| - 1;
      if f[n].ts == ts {
        WithoutNothing(f[..n], ts);
      } else {
        WithoutShrinksByOne(f[..n], ts);
      }
    }
  }

  lemma LastOfConcat(a: Frame, b: Frame, n: nat)
    requires n <= |b|
    ensures LastOf(a + b, n) == LastOf(b, n)
  {
  }

  /** Rows that were evicted do not matter for what is kept after the next bar. */
  lemma EvictedRowsDoNotMatter(f: Frame, row: Row, n: nat)
    requires Sorted(f)
    ensures LastOf(Put(LastOf(f, n), row), n) == LastOf(Put(f, row), n)
  {
    if 0 < n < |f| {
      var a, b := f[..|f| - n], f[|f| - n..];
      assert f == a + b;
      if row.ts < b[0].ts {
        PutBefore(a, b, row, n);
      } else {
        PutBehind(a, b, row, n);
      }
    }
  }

  lemma PutBefore(a: Frame, b: Frame, row: Row, n: nat)
    requires n == |b| && forall i :: 0 <= i < |b| ==> row.ts < b[i].ts
    ensures LastOf(Put(b, row), n) == LastOf(Put(a + b, row), n) == b
  {
    hide Insert, Without;
    WithoutConcat(a, b, row.ts);
    WithoutNothing(b, row.ts);
    InsertLeft(Without(a, row.ts), b, row);
    InsertLeft([], b, row);
    assert [] + b == b;
    LastOfConcat(Insert(Without(a, row.ts), row), b, n);
    LastOfConcat(Insert([], row), b, n);
  }

  lemma PutBehind(a: Frame, b: Frame, row: Row, n: nat)
    requires Sorted(b) && n == |b| && forall i :: 0 <= i < |a| ==> a[i].ts < row.ts
    ensures LastOf(Put(b, row), n) == LastOf(Put(a + b, row), n)
  {
    hide Insert, Without, LastOf;
    WithoutConcat(a, b, row.ts);
    WithoutNothing(a, row.ts);
    InsertRight(a, Without(b, row.ts), row);
    WithoutShrinksByOne(b, row.ts);
    LastOfConcat(a, Put(b, row), n);
  }

  lemma SuffixIsSorted(f: Frame, n: nat)
    requires Sorted(f)
    ensures Sorted(LastOf(f, n))
  {
  }

  lemma BoundIsLastOf(merged: Frame, cap: int)
    requires cap >= 0 || |merged| == 1
    ensures (if |merged| > cap then Tail(merged, cap) else merged) == LastOf(merged, Room(cap))
  {
  }

  lemma LaterUpsert(all: Frame, row: Row, cap: int)
    requires Sorted(all)
    ensures Upserted(Some(LastOf(all, Room(cap))), row, cap) == LastOf(Put(all, row), Room(cap))
  {
    hide SortIndex, KeepLast, Put, Tail, LastOf, Room, Sorted;
    var frame := LastOf(all, Room(cap));
    SuffixIsSorted(all, Room(cap));
    MergeIsPut(frame, row);
    EvictedRowsDoNotMatter(all, row, Room(cap));
    if cap < 0 {
      NoRoom(all, cap);
      FirstRow(row);
    }
    BoundIsLastOf(Put(frame, row), cap);
  }

  lemma NoRoom(all: Frame, cap: int)
    requires cap < 0
    ensures LastOf(all, Room(cap)) == []
  {
  }

  /** One upsert on the frame of the earlier bars gives the frame of all bars. */
  lemma UpsertKeeps(history: seq<Row>, row: Row, cap: int)
    ensures var frame := if history == [] then None else Some(Kept(history, cap));
            Upserted(frame, row, cap) == Kept(history + [row], cap)
  {
    hide SortIndex, KeepLast, Put, Tail, LastOf, Room, Sorted;
    assert (history + [row])[..|history|] == history;
    assert Everything(history + [row]) == Put(Everything(history), row);
    if history == [] {
      FirstRow(row);
      BoundIsLastOf([row], cap);
    } else {
      EverythingIsSorted(history);
      LaterUpsert(Everything(history), row, cap);
    }
  }

  lemma FirstRow(row: Row)
    ensures Put([], row) == [row]
  {
  }

  /** The frame is sorted; it holds latest rows; a latest row that is missing is older than all of a full frame. */
  lemma KeptIsNewest(history: seq<Row>, cap: int)
    ensures var f := Kept(history, cap);
            && Sorted(f)
            && |f| <= Room(cap)
            && (forall row :: row in f ==> IsLatest(history, row))
            && (forall row :: IsLatest(history, row) && row !in f ==>
                  |f| == Room(cap) && forall i :: 0 <= i < |f| ==> row.ts < f[i].ts)
  {
    hide Everything;
    EverythingIsLatest(history);
    EverythingIsSorted(history);
    var all, f := Everything(history), Kept(history, cap);
    forall row | row in f
      ensures IsLatest(history, row)
    {
      assert row in all;
    }
    forall row | IsLatest(history, row) && row !in f
      ensures |f| == Room(cap) && forall i :: 0 <= i < |f| ==> row.ts < f[i].ts
    {
      assert row in all;
      var k :| 0 <= k < |all| && all[k] == row;
      assert forall m :: |all| - |f| <= m < |all| ==> f[m - (|all| - |f|)] == all[m];
    }
  }

  /** The last row of the frame has the newest timestamp ever sent, so the last index never decreases. */
  lemma LastRowIsNewest(history: seq<Row>, cap: int)
    requires cap > 0 && history != []
    ensures Kept(history, cap) != []
    ensures var f := Kept(history, cap);
            forall i :: 0 <= i < |history| ==> history[i].ts <= f[|f| - 1].ts
  {
    hide Kept;
    KeptIsNewest(history, cap);
    var f := Kept(history, cap);
    forall i | 0 <= i < |history|
      ensures f != [] && history[i].ts <= f[|f| - 1].ts
    {
      var row := LatestOf(history, i);
      if row in f {
        var k :| 0 <= k < |f| && f[k] == row;
        assert k < |f| - 1 ==> f[k].ts < f[|f| - 1].ts;
      }
    }
    assert history[0].ts <= f[|f| - 1].ts;
  }

  lemma LastIsGreatest(f: Frame, row: Row)
    requires Sorted(f) && row in f
    ensures f != [] && (row == f[|f| - 1] || row.ts < f[|f| - 1].ts)
  {
  }

  lemma SameLast(f: Frame, g: Frame)
    requires Sorted(f) && Sorted(g) && f != []
    requires forall row :: row in f <==> row in g
    ensures g != [] && f[|f| - 1] == g[|g| - 1]
  {
    assert f[|f| - 1] in f;
    LastIsGreatest(g, f[|f| - 1]);
    assert g[|g| - 1] in g;
    LastIsGreatest(f, g[|g| - 1]);
  }

  lemma WithoutLast(f: Frame)
    requires Sorted(f) && f != []
    ensures Sorted(f[..|f| - 1])
    ensures forall row :: row in f[..|f| - 1] <==> row in f && row != f[|f| - 1]
  {
    assert f == f[..|f| - 1] + [f[|f| - 1]];
  }

  lemma {:induction false} SameRowsSameFrame(f: Frame, g: Frame)
    requires Sorted(f) && Sorted(g)
    requires forall row :: row in f <==> row in g
    ensures f == g
  {
    if f == [] {
      if g != [] {
        SameLast(g, f);
        assert false;
      }
    } else {
      SameLast(f, g);
      WithoutLast(f);
      WithoutLast(g);
      var f', g' := f[..|f| - 1], g[..|g| - 1];
      forall row
        ensures row in f' <==> row in g'
      {
        assert row in f <==> row in g;
      }
      SameRowsSameFrame(f[..|f| - 1], g[..|g| - 1]);
    }
  }

  /** The order in which bars of different timestamps arrive does not matter. */
  lemma ArrivalOrderDoesNotMatter(a: seq<Row>, b: seq<Row>, cap: int)
    requires forall row :: IsLatest(a, row) <==> IsLatest(b, row)
    ensures Kept(a, cap) == Kept(b, cap)
  {
    hide IsLatest, Everything;
    EverythingIsLatest(a);
    EverythingIsLatest(b);
    EverythingIsSorted(a);
    EverythingIsSorted(b);
    SameRowsSameFrame(Everything(a), Everything(b));
  }

  lemma {:induction false} LatestOf(history: seq<Row>, i: nat) returns (row: Row)
    requires i < |history|
    ensures IsLatest(history, row) && row.ts == history[i].ts
    decreases |history| - i
  {
    if HasTime(history[i + 1..], history[i].ts) {
      var k :| 0 <= k < |history[i + 1..]| && history[i + 1..][k].ts == history[i].ts;
      row := LatestOf(history, i + 1 + k);
    } else {
      row := history[i];
    }
  }

  // ---------- The store ----------

  class LiveBarStore {
    const cap: int
    var frames: map<string, Frame>
    ghost var sent: map<string, seq<Row>>

    ghost predicate Valid()
      reads this
    {
      && (forall symbol :: symbol in frames <==> symbol in sent)
      && forall symbol :: symbol in frames ==> sent[symbol] != [] && frames[symbol] == Kept(sent[symbol], cap)
    }

    ghost function Sent(symbol: string): seq<Row>
      reads this
    {
      if symbol in sent then sent[symbol] else []
    }

    constructor (cap: int)
      ensures Valid() && this.cap == cap && sent == map[]
    {
      this.cap := cap;
      frames, sent := map[], map[];
    }

    /** The frame is always what the whole history of the symbol leaves within the bound. */
    method UpsertBar(symbol: string, row: Row) returns (frame: Frame)
      requires Valid()
      modifies this
      ensures Valid()
      ensures Sent(symbol) == old(Sent(symbol)) + [row]
      ensures forall other :: other != symbol ==> Sent(other) == old(Sent(other))
      ensures frames == old(frames)[symbol := frame]
      ensures frame == Kept(old(Sent(symbol)) + [row], cap)
    {
      hide KeepLast, SortIndex, Kept;
      UpsertKeeps(Sent(symbol), row, cap);
      var current := if symbol in frames then Some(frames[symbol]) else None;
      frame := if current.None? then [row] else SortIndex(KeepLast(current.value + [row]));
      if |frame| > cap {
        frame := Tail(frame, cap);
      }
      sent := sent[symbol := Sent(symbol) + [row]];
      frames := frames[symbol := frame];
    }
  }
}
