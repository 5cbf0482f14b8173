/**
 * Receipt numbers `UZG-YYYYMMDD-NNNN`: the day's prefix followed by the count of
 * receipts already issued under that prefix plus one, zero-padded to four digits.
 */
module Receipts {
  import opened Money
  import opened Text

  /** A calendar day in UTC, as `datetime.now(timezone.utc)` reports it. */
  datatype Date = Date(year: int, month: int, day: int)

  predicate ValidDate(d: Date)
  {
    1000 <= d.year <= 9999 && 1 <= d.month <= 12 && 1 <= d.day <= 31
  }

  /** `strftime("%Y%m%d")`. */
  function DateStamp(d: Date): (s: string)
    requires ValidDate(d)
    ensures |s| == 8
  {
    PadNatLength(d.year, 4);
    PadNatLength(d.month, 2);
    PadNatLength(d.day, 2);
    PadNat(d.year, 4) + PadNat(d.month, 2) + PadNat(d.day, 2)
  }

  /** `f"UZG-{today}-"`. */
  function Prefix(d: Date): (p: string)
    requires ValidDate(d)
    ensures |p| == 13
  {
    "UZG-" + DateStamp(d) + "-"
  }

  /** `f"{prefix}{count:04d}"`. */
  function ReceiptNumber(d: Date, count: nat): (r: string)
    requires ValidDate(d)
    ensures |r| >= 17
  {
    Prefix(d) + PadNat(count, 4)
  }

  predicate HasPrefix(r: string, p: string)
  {
    |p| <= |r| && r[..|p|] == p
  }

  /** The receipts already issued on day `d` (`receipt_number LIKE 'prefix%'`). */
  function IssuedOn(issued: set<string>, d: Date): (today: set<string>)
    requires ValidDate(d)
    ensures today <= issued
  {
    set r | r in issued && HasPrefix(r, Prefix(d))
  }

  /** `_generate_receipt_number`: the day's prefix and the day's count plus one. */
  function NextReceipt(issued: set<string>, d: Date): string
    requires ValidDate(d)
  {
    ReceiptNumber(d, |IssuedOn(issued, d)| + 1)
  }

  /** The receipts numbered 1 to n on day `d`. */
  function DayBlock(d: Date, n: nat): set<string>
    requires ValidDate(d)
  {
    if n == 0 then {} else DayBlock(d, n - 1) + {ReceiptNumber(d, n)}
  }

  /** The receipts of day `d` are exactly that day's numbers 1 to (their count). */
  ghost predicate DenseOn(issued: set<string>, d: Date)
    requires ValidDate(d)
  {
    IssuedOn(issued, d) == DayBlock(d, |IssuedOn(issued, d)|)
  }

  /** Every day's receipts are numbered without gaps: the state numbering keeps. */
  ghost predicate Dense(issued: set<string>)
  {
    forall d :: ValidDate(d) ==> DenseOn(issued, d)
  }

  /** The date stamp reads back as its year, month and day. */
  lemma DateStampParts(d: Date)
    requires ValidDate(d)
    ensures var s := DateStamp(d);
      DigitsToNat(s[..4]) == d.year && DigitsToNat(s[4..6]) == d.month && DigitsToNat(s[6..]) == d.day
  {
    var s := DateStamp(d);
    PadNatLength(d.year, 4);
    PadNatLength(d.month, 2);
    PadNatLength(d.day, 2);
    assert s[..4] == PadNat(d.year, 4);
    assert s[4..6] == PadNat(d.month, 2);
    assert s[6..] == PadNat(d.day, 2);
    PadNatRoundTrip(d.year, 4);
    PadNatRoundTrip(d.month, 2);
    PadNatRoundTrip(d.day, 2);
  }

  /** Different days have different prefixes. */
  lemma PrefixInjective(d1: Date, d2: Date)
    requires ValidDate(d1) && ValidDate(d2)
    requires Prefix(d1) == Prefix(d2)
    ensures d1 == d2
  {
    assert DateStamp(d1) == Prefix(d1)[4..12];
    assert DateStamp(d2) == Prefix(d2)[4..12];
    DateStampParts(d1);
    DateStampParts(d2);
  }

  /** A receipt number determines its day and its count. */
  lemma ReceiptNumberInjective(d1: Date, k1: nat, d2: Date, k2: nat)
    requires ValidDate(d1) && ValidDate(d2)
    requires ReceiptNumber(d1, k1) == ReceiptNumber(d2, k2)
    ensures d1 == d2 && k1 == k2
  {
    var r := ReceiptNumber(d1, k1);
    assert r[..13] == Prefix(d1) && r[..13] == Prefix(d2);
    PrefixInjective(d1, d2);
    assert r[13..] == PadNat(k1, 4) && r[13..] == PadNat(k2, 4);
    PadNatRoundTrip(k1, 4);
    PadNatRoundTrip(k2, 4);
  }

  /** Every receipt of the day's first n numbers is one of them, by its count. */
  lemma {:induction false} DayBlockIndex(d: Date, n: nat, r: string) returns (k: nat)
    requires ValidDate(d) && r in DayBlock(d, n)
    ensures 1 <= k <= n && r == ReceiptNumber(d, k)
  {
    if r == ReceiptNumber(d, n) {
      k := n;
    } else {
      k := DayBlockIndex(d, n - 1, r);
    }
  }

  /** The day's first n numbers are n distinct receipts. */
  lemma {:induction false} DayBlockSize(d: Date, n: nat)
    requires ValidDate(d)
    ensures |DayBlock(d, n)| == n
  {
    if n > 0 {
      DayBlockSize(d, n - 1);
      if ReceiptNumber(d, n) in DayBlock(d, n - 1) {
        var k := DayBlockIndex(d, n - 1, ReceiptNumber(d, n));
        ReceiptNumberInjective(d, n, d, k);
        assert false;
      }
    }
  }

  /** No receipt has been issued yet. */
  lemma DenseEmpty()
    ensures Dense({})
  {
  }

  /** The next number of day `d` is not among the receipts of a dense ledger. */
  lemma NextIsFresh(issued: set<string>, d: Date)
    requires ValidDate(d) && Dense(issued)
    ensures NextReceipt(issued, d) !in issued
  {
    var n := |IssuedOn(issued, d)|;
    var next := ReceiptNumber(d, n + 1);
    assert HasPrefix(next, Prefix(d));
    assert DenseOn(issued, d);
    if next in issued {
      assert next in DayBlock(d, n);
      var k := DayBlockIndex(d, n, next);
      ReceiptNumberInjective(d, n + 1, d, k);
      assert false;
    }
  }

  /** A receipt of day `d` does not count toward any other day. */
  lemma OtherDayUnchanged(issued: set<string>, d: Date, e: Date, r: string)
    requires ValidDate(d) && ValidDate(e) && d != e && HasPrefix(r, Prefix(d))
    ensures IssuedOn(issued + {r}, e) == IssuedOn(issued, e)
  {
    if HasPrefix(r, Prefix(e)) {
      assert r[..13] == Prefix(d);
      PrefixInjective(d, e);
    }
  }

  /**
   * Issuing the next receipt number for day `d` from a dense ledger yields a number
   * not yet issued, raises the day's count by one and keeps the ledger dense.
   */
  lemma IssueFresh(issued: set<string>, d: Date)
    requires ValidDate(d) && Dense(issued)
    ensures NextReceipt(issued, d) !in issued
    ensures |IssuedOn(issued + {NextReceipt(issued, d)}, d)| == |IssuedOn(issued, d)| + 1
    ensures Dense(issued + {NextReceipt(issued, d)})
  {
    var n := |IssuedOn(issued, d)|;
    var next := ReceiptNumber(d, n + 1);
    NextIsFresh(issued, d);
    assert DenseOn(issued, d);
    var after := issued + {next};
    assert HasPrefix(next, Prefix(d));
    assert IssuedOn(after, d) == IssuedOn(issued, d) + {next};
    assert IssuedOn(after, d) == DayBlock(d, n + 1);
    DayBlockSize(d, n + 1);
    forall e | ValidDate(e) ensures DenseOn(after, e) {
      if e != d {
        OtherDayUnchanged(issued, d, e, next);
        assert DenseOn(issued, e);
      }
    }
  }
}
