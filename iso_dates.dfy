/**
 * The values of an `<input type="date">` are `YYYY-MM-DD` strings. The booking
 * form orders check-in and check-out by comparing those strings; this module
 * shows that on such strings the order of `<` is the calendar order. The
 * strings are ASCII, so the order over Unicode scalar values used here is the
 * code-unit order JavaScript uses.
 */
module IsoDates {
  import opened Js

  function Pow10(w: nat): nat {
    if w == 0 then 1 else 10 * Pow10(w - 1)
  }

  /** n written with exactly w decimal digits, zero-padded on the left. */
  function Padded(n: nat, w: nat): (s: string)
    ensures |s| == w
  {
    if w == 0 then [] else Padded(n / 10, w - 1) + [DigitChar(n % 10)]
  }

  datatype Date = Date(year: nat, month: nat, day: nat)

  predicate WellFormed(d: Date) {
    d.year < 10000 && 1 <= d.month <= 12 && 1 <= d.day <= 31
  }

  /** The `YYYY-MM-DD` form of a date. */
  function Iso(d: Date): string {
    Padded(d.year, 4) + "-" + Padded(d.month, 2) + "-" + Padded(d.day, 2)
  }

  /** Calendar order. */
  predicate Before(a: Date, b: Date) {
    || a.year < b.year
    || (a.year == b.year && a.month < b.month)
    || (a.year == b.year && a.month == b.month && a.day < b.day)
  }

  /** Comparing two strings split at the same length compares the heads, and the tails only on equal heads. */
  lemma {:induction false} LexLessAppend(a1: string, b1: string, a2: string, b2: string)
    requires |a1| == |a2|
    ensures LexLess(a1 + b1, a2 + b2) <==> LexLess(a1, a2) || (a1 == a2 && LexLess(b1, b2))
    decreases |a1|
  {
    if a1 == [] {
      assert a1 + b1 == b1 && a2 + b2 == b2;
    } else {
      assert (a1 + b1)[0] == a1[0] && (a2 + b2)[0] == a2[0];
      assert (a1 + b1)[1..] == a1[1..] + b1 && (a2 + b2)[1..] == a2[1..] + b2;
      if a1[0] == a2[0] {
        LexLessAppend(a1[1..], b1, a2[1..], b2);
        assert a1 == [a1[0]] + a1[1..] && a2 == [a2[0]] + a2[1..];
      }
    }
  }

  /** On numbers below 10^w, the order of their padded numerals is the numeric order. */
  lemma {:induction false} PaddedOrder(m: nat, n: nat, w: nat)
    requires m < Pow10(w) && n < Pow10(w)
    ensures LexLess(Padded(m, w), Padded(n, w)) <==> m < n
    ensures Padded(m, w) == Padded(n, w) <==> m == n
  {
    if w > 0 {
      var pm, pn := Padded(m / 10, w - 1), Padded(n / 10, w - 1);
      var cm, cn := DigitChar(m % 10), DigitChar(n % 10);
      PaddedOrder(m / 10, n / 10, w - 1);
      LexLessAppend(pm, [cm], pn, [cn]);
      assert LexLess([cm], [cn]) <==> m % 10 < n % 10 by {
        assert [cm][1..] == [] && [cn][1..] == [];
      }
      assert pm + [cm] == pn + [cn] <==> pm == pn && cm == cn by {
        if pm + [cm] == pn + [cn] {
          assert pm == (pm + [cm])[..|pm|] && pn == (pn + [cn])[..|pn|];
          assert cm == (pm + [cm])[|pm|] && cn == (pn + [cn])[|pn|];
        }
      }
      assert m == 10 * (m / 10) + m % 10 && n == 10 * (n / 10) + n % 10;
    }
  }

  /** `Iso(a) < Iso(b)` as strings exactly when a is before b in the calendar. */
  lemma IsoOrderIsCalendarOrder(a: Date, b: Date)
    requires WellFormed(a) && WellFormed(b)
    ensures LexLess(Iso(a), Iso(b)) <==> Before(a, b)
  {
    assert Pow10(2) == 100 && Pow10(4) == 10000;
    PaddedOrder(a.year, b.year, 4);
    PaddedOrder(a.month, b.month, 2);
    PaddedOrder(a.day, b.day, 2);
    var ya, yb := Padded(a.year, 4), Padded(b.year, 4);
    var ma, mb := Padded(a.month, 2), Padded(b.month, 2);
    var da, db := Padded(a.day, 2), Padded(b.day, 2);
    assert Iso(a) == ya + ("-" + (ma + ("-" + da)));
    assert Iso(b) == yb + ("-" + (mb + ("-" + db)));
    LexLessAppend(ya, "-" + (ma + ("-" + da)), yb, "-" + (mb + ("-" + db)));
    LexLessAppend("-", ma + ("-" + da), "-", mb + ("-" + db));
    LexLessAppend(ma, "-" + da, mb, "-" + db);
    LexLessAppend("-", da, "-", db);
    assert !LexLess("-", "-");
  }
}
