/** A counter of contracts by strike, as the list of its entries in insertion order. Strikes are whole
    millionths, so that the six-decimal rounding of the strikes is exact. */
module StrikeBook {
  import opened Sums

  datatype Entry = Entry(strike: int, qty: int)

  type Book = seq<Entry>

  ghost predicate DistinctStrikes(b: Book) {
    forall i, j :: 0 <= i < j < |b| ==> b[i].strike != b[j].strike
  }

  predicate Lists(b: Book, strike: int) {
    exists i :: 0 <= i < |b| && b[i].strike == strike
  }

  /** A strike that is not listed has quantity zero. */
  function Qty(b: Book, strike: int): int {
    if b == [] then 0
    else if b[|b| - 1].strike == strike then b[|b| - 1].qty
    else Qty(b[..|b| - 1], strike)
  }

  function Change(b: Book, strike: int, delta: int): (r: Book)
    ensures |r| == |b|
    ensures forall i :: 0 <= i < |b| ==> r[i].strike == b[i].strike
  {
    if b == [] then []
    else
      var n := |b| - 1;
      if b[n].strike == strike then b[..n] + [Entry(strike, b[n].qty + delta)]
      else Change(b[..n], strike, delta) + [b[n]]
  }

  /** `counter[strike] += delta`: a new strike goes to the end. */
  function Add(b: Book, strike: int, delta: int): Book {
    if Lists(b, strike) then Change(b, strike, delta) else b + [Entry(strike, delta)]
  }

  lemma {:induction false} UnlistedIsZero(b: Book, strike: int)
    requires !Lists(b, strike)
    ensures Qty(b, strike) == 0
  {
    if b != [] {
      assert forall i :: 0 <= i < |b| - 1 ==> b[..|b| - 1][i] == b[i];
      UnlistedIsZero(b[..|b| - 1], strike);
    }
  }

  lemma {:induction false} QtyAt(b: Book, i: nat)
    requires DistinctStrikes(b) && i < |b|
    ensures Qty(b, b[i].strike) == b[i].qty
  {
    if i < |b| - 1 {
      QtyAt(b[..|b| - 1], i);
    }
  }

  lemma {:induction false} ChangeKeepsOthers(b: Book, strike: int, delta: int)
    requires DistinctStrikes(b) && Lists(b, strike)
    ensures DistinctStrikes(Change(b, strike, delta))
    ensures forall x :: Qty(Change(b, strike, delta), x) == Qty(b, x) + if x == strike then delta else 0
  {
    var n := |b| - 1;
    if b[n].strike == strike {
      assert Change(b, strike, delta)[..n] == b[..n];
    } else {
      var i :| 0 <= i < |b| && b[i].strike == strike;
      assert b[..n][i].strike == strike;
      ChangeKeepsOthers(b[..n], strike, delta);
      assert Change(b, strike, delta)[..n] == Change(b[..n], strike, delta);
    }
  }

  /** Adding changes the quantity of one strike and of no other. */
  lemma AddChangesOne(b: Book, strike: int, delta: int)
    requires DistinctStrikes(b)
    ensures DistinctStrikes(Add(b, strike, delta))
    ensures forall x :: Qty(Add(b, strike, delta), x) == Qty(b, x) + if x == strike then delta else 0
    ensures Lists(b, strike) ==> |Add(b, strike, delta)| == |b|
                                 && forall i :: 0 <= i < |b| ==> Add(b, strike, delta)[i].strike == b[i].strike
  {
    if Lists(b, strike) {
      ChangeKeepsOthers(b, strike, delta);
    } else {
      UnlistedIsZero(b, strike);
      assert Add(b, strike, delta)[..|b|] == b;
    }
  }

  // ---------- Weighted totals ----------

  function Weigh(f: int -> real): Entry -> real {
    (e: Entry) => e.qty as real * f(e.strike)
  }

  /** The sum of quantity times weight over the strikes. */
  function Value(b: Book, f: int -> real): real {
    Sum(Weigh(f), b)
  }

  lemma {:induction false} ChangeMovesValue(b: Book, strike: int, delta: int, f: int -> real)
    requires Lists(b, strike)
    ensures Value(Change(b, strike, delta), f) == Value(b, f) + delta as real * f(strike)
  {
    var n := |b| - 1;
    var c := Change(b, strike, delta);
    assert b == b[..n] + [b[n]];
    SumSnoc(Weigh(f), b[..n], b[n]);
    if b[n].strike == strike {
      assert c == b[..n] + [Entry(strike, b[n].qty + delta)];
      SumSnoc(Weigh(f), b[..n], Entry(strike, b[n].qty + delta));
      Distributes(b[n].qty, delta, f(strike));
    } else {
      var i :| 0 <= i < |b| && b[i].strike == strike;
      assert b[..n][i].strike == strike;
      ChangeMovesValue(b[..n], strike, delta, f);
      SumSnoc(Weigh(f), Change(b[..n], strike, delta), b[n]);
    }
  }

  lemma Distributes(a: int, b: int, x: real)
    ensures (a + b) as real * x == a as real * x + b as real * x
  {
  }

  lemma AddMovesValue(b: Book, strike: int, delta: int, f: int -> real)
    ensures Value(Add(b, strike, delta), f) == Value(b, f) + delta as real * f(strike)
  {
    if Lists(b, strike) {
      ChangeMovesValue(b, strike, delta, f);
    } else {
      SumSnoc(Weigh(f), b, Entry(strike, delta));
    }
  }

  /** A book without contracts is worth nothing under any weights. */
  lemma EmptyBookIsWorthless(b: Book, f: int -> real)
    requires forall i :: 0 <= i < |b| ==> b[i].qty == 0
    ensures Value(b, f) == 0.0
  {
    SumOfConstant(Weigh(f), 0.0, b);
  }
}
