/**
  The date texts of the two subscription forms: a picked date written as
  `Y-MM-DD` for the backend, and a `Y-M-D` text shown as `D/M/Y`.
 */
module Dates {
  import opened Text

  /**
    A date picker's value as `getFullYear`, `getMonth` (0-based) and `getDate`
    read it.
   */
  datatype PickedDate = PickedDate(year: nat, month: nat, day: nat)

  /** What `getMonth` and `getDate` can return. */
  predicate IsCalendarDate(d: PickedDate)
  {
    d.month < 12 && 1 <= d.day <= 31
  }

  /** Three texts joined by dashes, grouped as the first, a dash, then the rest. */
  function DashJoin(a: string, b: string, c: string): string
  {
    a + "-" + (b + "-" + c)
  }

  /**
    `formatDateForBackend` (the edit form) and `formatDate` (the creation
    form), which are the same template: the year, then the 1-based month and
    the day, each padded to two digits, joined by dashes.
   */
  function FormatDate(d: PickedDate): string
  {
    DashJoin(NatToString(d.year), Pad2(NatToString(d.month + 1)), Pad2(NatToString(d.day)))
  }

  /** The backend text always holds the year, both dashes and two digits each for month and day. */
  lemma FormatDateLength(d: PickedDate)
    ensures |FormatDate(d)| >= 7
  {
    assert |Pad2(NatToString(d.month + 1))| >= 2 && |Pad2(NatToString(d.day))| >= 2;
  }

  /** A dash-free run of digits. */
  lemma DigitsHaveNoDash(s: string)
    requires AllDigits(s)
    ensures '-' !in s && '/' !in s
  {
    assert forall k :: 0 <= k < |s| ==> s[k] != '-' && s[k] != '/';
  }

  /** A numeral below 100, padded: two digits with the same value. */
  lemma Pad2Small(n: nat)
    requires n < 100
    ensures var p := Pad2(NatToString(n)); |p| == 2 && AllDigits(p) && DecimalValue(p) == n
  {
    NatToStringShort(n);
    Pad2Value(NatToString(n));
    DecimalRoundTrip(n);
  }

  /** Three runs of digits joined by dashes, as the text `s`, split back into the three runs. */
  lemma DashedParts(s: string, y: string, m: string, dd: string)
    requires AllDigits(y) && AllDigits(m) && AllDigits(dd)
    requires s == DashJoin(y, m, dd)
    ensures Split(s, '-') == [y, m, dd]
  {
    DigitsHaveNoDash(y);
    DigitsHaveNoDash(m);
    DigitsHaveNoDash(dd);
    SplitThree(y, m, dd, '-');
  }

  /**
    The backend text of a calendar date splits at its dashes into the year,
    a two-digit month numbered from 1 and a two-digit day, which read back as
    the date picked.
   */
  lemma FormatDateReadsBack(d: PickedDate)
    requires IsCalendarDate(d)
    ensures var parts := Split(FormatDate(d), '-');
      && |parts| == 3
      && parts == [NatToString(d.year), Pad2(NatToString(d.month + 1)), Pad2(NatToString(d.day))]
      && |parts[1]| == 2 && |parts[2]| == 2
      && AllDigits(parts[0]) && AllDigits(parts[1]) && AllDigits(parts[2])
      && DecimalValue(parts[0]) == d.year
      && DecimalValue(parts[1]) == d.month + 1
      && DecimalValue(parts[2]) == d.day
  {
    FormatDateSplits(d);
    Pad2Small(d.month + 1);
    Pad2Small(d.day);
    DecimalRoundTrip(d.year);
  }

  /** The backend text splits at its dashes into the year, the padded month and the padded day. */
  lemma FormatDateSplits(d: PickedDate)
    ensures Split(FormatDate(d), '-') == [NatToString(d.year), Pad2(NatToString(d.month + 1)), Pad2(NatToString(d.day))]
  {
    var y, m, dd := NatToString(d.year), Pad2(NatToString(d.month + 1)), Pad2(NatToString(d.day));
    Pad2Value(NatToString(d.month + 1));
    Pad2Value(NatToString(d.day));
    DashedParts(FormatDate(d), y, m, dd);
  }

  /** Four, two and two digits joined by dashes: ten characters, dashes at 4 and 7, digits elsewhere. */
  lemma DashedLayout(y: string, m: string, dd: string)
    requires |y| == 4 && |m| == 2 && |dd| == 2
    requires AllDigits(y) && AllDigits(m) && AllDigits(dd)
    ensures var r := DashJoin(y, m, dd);
      && |r| == 10 && r[4] == '-' && r[7] == '-'
      && forall k :: 0 <= k < 10 && k != 4 && k != 7 ==> IsDigit(r[k])
  {
    var r := DashJoin(y, m, dd);
    assert forall k :: 0 <= k < 4 ==> r[k] == y[k];
    assert forall k :: 5 <= k < 7 ==> r[k] == m[k - 5];
    assert forall k :: 8 <= k < 10 ==> r[k] == dd[k - 8];
  }

  /** With a four-digit year the text is ten characters, with its dashes at 4 and 7 and digits elsewhere. */
  lemma FormatDateLayout(d: PickedDate)
    requires IsCalendarDate(d) && 1000 <= d.year <= 9999
    ensures var r := FormatDate(d);
      && |r| == 10 && r[4] == '-' && r[7] == '-'
      && forall k :: 0 <= k < 10 && k != 4 && k != 7 ==> IsDigit(r[k])
  {
    var y, m, dd := NatToString(d.year), Pad2(NatToString(d.month + 1)), Pad2(NatToString(d.day));
    assert |y| == 4 by { NatToStringFourDigits(d.year); }
    assert |m| == 2 && AllDigits(m) by { Pad2Small(d.month + 1); }
    assert |dd| == 2 && AllDigits(dd) by { Pad2Small(d.day); }
    DashedLayout(y, m, dd);
  }

  /** A destructured part of the split: JavaScript renders a missing one as 'undefined'. */
  function PartOr(parts: seq<string>, i: nat): string
  {
    if i < |parts| then parts[i] else "undefined"
  }

  /** `formatDateForDisplay`: the first three dash-separated parts, reversed and joined by slashes. */
  function FormatDateForDisplay(date: string): string
  {
    var parts := Split(date, '-');
    PartOr(parts, 2) + "/" + PartOr(parts, 1) + "/" + PartOr(parts, 0)
  }

  /** The display text of `A-B-C` is `C/B/A`. */
  lemma DisplayReverses(a: string, b: string, c: string)
    requires '-' !in a && '-' !in b && '-' !in c
    ensures FormatDateForDisplay(DashJoin(a, b, c)) == c + "/" + b + "/" + a
  {
    SplitThree(a, b, c, '-');
  }

  /** Displaying a picked date: day and month padded to two digits, the month numbered from 1, then the year. */
  lemma DisplayOfFormatDate(d: PickedDate)
    ensures FormatDateForDisplay(FormatDate(d)) ==
      Pad2(NatToString(d.day)) + "/" + Pad2(NatToString(d.month + 1)) + "/" + NatToString(d.year)
  {
    var y, m, dd := NatToString(d.year), Pad2(NatToString(d.month + 1)), Pad2(NatToString(d.day));
    assert '-' !in y by { DigitsHaveNoDash(y); }
    assert '-' !in m by { Pad2Value(NatToString(d.month + 1)); DigitsHaveNoDash(m); }
    assert '-' !in dd by { Pad2Value(NatToString(d.day)); DigitsHaveNoDash(dd); }
    DisplayReverses(y, m, dd);
  }
}
