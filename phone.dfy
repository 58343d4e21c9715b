/**
  The registration screen's phone formatter: keep the digits, at most ten of
  them, and regroup them 3-3-4 with dashes, leaving out empty groups; and the
  dash stripping applied to the field before it is sent.
 */
module Phone {
  import opened Text
  import opened Wrappers

  /** The most digits the formatter keeps. */
  const MaxDigits := 10

  /**
    `limited.match(/^(\d{0,3})(\d{0,3})(\d{0,4})$/)`: the pattern fails on a
    non-digit or on more than ten characters; otherwise each group greedily
    takes what it can, which is what the pattern's first match is.
   */
  function MatchGroups(limited: string): Option<(string, string, string)>
  {
    if |limited| <= MaxDigits && AllDigits(limited) then
      var a := if |limited| < 3 then |limited| else 3;
      var b := if |limited| < 6 then |limited| else 6;
      Some((limited[..a], limited[a..b], limited[b..]))
    else None
  }

  /** `.filter(Boolean)` on a list of strings: the non-empty ones, in order. */
  function NonEmpty(parts: seq<string>): (r: seq<string>)
    ensures forall k :: 0 <= k < |r| ==> r[k] != ""
  {
    if parts == [] then []
    else (if parts[0] == "" then [] else [parts[0]]) + NonEmpty(parts[1..])
  }

  /** `formatPhoneNumber`. */
  function FormatPhoneNumber(text: string): string
  {
    var limited := Take(Digits(text), MaxDigits);
    match MatchGroups(limited)
    case None => ""
    case Some(g) => Join(NonEmpty([g.0, g.1, g.2]), "-")
  }

  /** `phone.replace(/-/g, '')`, the number as the registration request carries it. */
  function StripDashes(phone: string): string
  {
    RemoveAll(phone, '-')
  }

  /** The digits the formatter keeps: the first ten of the input's digits. */
  function KeptDigits(text: string): (d: string)
    ensures |d| <= MaxDigits && AllDigits(d)
  {
    Take(Digits(text), MaxDigits)
  }

  /** The layout of a run of at most ten digits: 3 digits, dash, 3 digits, dash, the rest. */
  function Layout(d: string): string
  {
    if |d| <= 3 then d
    else if |d| <= 6 then d[..3] + "-" + d[3..]
    else d[..3] + "-" + d[3..6] + "-" + d[6..]
  }

  /** The `!match` branch that returns '' is dead: the limited digits always match. */
  lemma GroupsAlwaysMatch(text: string)
    ensures MatchGroups(Take(Digits(text), MaxDigits)).Some?
  {
  }

  /** `.filter(Boolean)` on the three groups. */
  lemma NonEmptyThree(a: string, b: string, c: string)
    ensures NonEmpty([a, b, c]) ==
      (if a == "" then [] else [a]) + (if b == "" then [] else [b]) + (if c == "" then [] else [c])
  {
    assert [a, b, c][1..] == [b, c];
    assert [b, c][1..] == [c];
    assert [c][1..] == [];
    assert NonEmpty([c]) == (if c == "" then [] else [c]);
    assert NonEmpty([b, c]) == (if b == "" then [] else [b]) + NonEmpty([c]);
    assert NonEmpty([a, b, c]) == (if a == "" then [] else [a]) + NonEmpty([b, c]);
  }

  /** The formatted number is the kept digits laid out 3-3-4. */
  lemma FormatIsLayout(text: string)
    ensures FormatPhoneNumber(text) == Layout(KeptDigits(text))
  {
    var d := KeptDigits(text);
    var g := MatchGroups(d).value;
    NonEmptyThree(g.0, g.1, g.2);
    if |d| == 0 {
      assert NonEmpty([g.0, g.1, g.2]) == [];
    } else if |d| <= 3 {
      assert NonEmpty([g.0, g.1, g.2]) == [d];
    } else if |d| <= 6 {
      assert NonEmpty([g.0, g.1, g.2]) == [d[..3], d[3..]];
      assert [d[..3], d[3..]][1..] == [d[3..]];
      assert Join([d[3..]], "-") == d[3..];
      assert Join([d[..3], d[3..]], "-") == d[..3] + "-" + Join([d[3..]], "-");
    } else {
      var x, y, z := d[..3], d[3..6], d[6..];
      assert NonEmpty([g.0, g.1, g.2]) == [x, y, z];
      assert [x, y, z][1..] == [y, z] && [y, z][1..] == [z];
      assert Join([z], "-") == z;
      assert Join([y, z], "-") == y + "-" + Join([z], "-");
      assert Join([x, y, z], "-") == x + "-" + Join([y, z], "-");
      assert x + "-" + (y + "-" + z) == x + "-" + y + "-" + z;
    }
  }

  /**
    Shape of a formatted number: only digits and dashes, at most twelve
    characters, dashes only at positions 3 and 7, a dash at 3 exactly when more
    than three digits were kept and at 7 exactly when more than six were; so no
    leading, trailing or doubled dash, and never more than two dashes.
   */
  lemma FormatShape(text: string)
    ensures var r, n := FormatPhoneNumber(text), |KeptDigits(text)|;
      && (forall k :: 0 <= k < |r| ==> IsDigit(r[k]) || r[k] == '-')
      && |r| <= 12
      && (forall k :: 0 <= k < |r| && r[k] == '-' ==> k == 3 || k == 7)
      && (|r| > 3 ==> (r[3] == '-' <==> n > 3))
      && (|r| > 7 ==> (r[7] == '-' <==> n > 6))
      && (n > 3 ==> |r| > 4)
      && (n > 6 ==> |r| > 8)
      && (|r| > 0 ==> r[0] != '-' && r[|r| - 1] != '-')
      && (forall k :: 0 <= k < |r| - 1 ==> !(r[k] == '-' && r[k + 1] == '-'))
  {
    FormatIsLayout(text);
    var d := KeptDigits(text);
    var r := Layout(d);
    if |d| <= 3 {
      assert r == d;
    } else if |d| <= 6 {
      assert forall k :: 0 <= k < 3 ==> r[k] == d[k];
      assert forall k :: 3 < k < |r| ==> r[k] == d[k - 1];
    } else {
      assert forall k :: 0 <= k < 3 ==> r[k] == d[k];
      assert forall k :: 3 < k < 7 ==> r[k] == d[k - 1];
      assert forall k :: 7 < k < |r| ==> r[k] == d[k - 2];
    }
  }

  /** Stripping dashes sees through one inserted dash. */
  lemma StripAroundDash(x: string, y: string)
    ensures StripDashes(x + "-" + y) == StripDashes(x) + StripDashes(y)
  {
    var xd := x + "-";
    assert RemoveAll("-", '-') == [] by { assert "-"[1..] == []; }
    RemoveAllAppend(x, "-", '-');
    assert RemoveAll(xd, '-') == RemoveAll(x, '-');
    RemoveAllAppend(xd, y, '-');
  }

  /** Keeping the digits sees through one inserted dash. */
  lemma DigitsAroundDash(x: string, y: string)
    ensures Digits(x + "-" + y) == Digits(x) + Digits(y)
  {
    var xd := x + "-";
    assert Digits("-") == [] by { assert "-"[1..] == []; }
    DigitsAppend(x, "-");
    assert Digits(xd) == Digits(x);
    DigitsAppend(xd, y);
  }

  /** Stripping dashes, and keeping digits, both see through one inserted dash. */
  lemma AroundDash(x: string, y: string)
    ensures StripDashes(x + "-" + y) == StripDashes(x) + StripDashes(y)
    ensures Digits(x + "-" + y) == Digits(x) + Digits(y)
  {
    StripAroundDash(x, y);
    DigitsAroundDash(x, y);
  }

  /** A run of digits is left alone by both. */
  lemma DigitRunFixed(d: string)
    requires AllDigits(d)
    ensures StripDashes(d) == d && Digits(d) == d
  {
    assert forall k :: 0 <= k < |d| ==> d[k] != '-';
    RemoveAllAbsent(d, '-');
    DigitsOfDigits(d);
  }

  /** Deleting the dashes gives back exactly the kept digits, in order. */
  lemma StripDashesOfFormat(text: string)
    ensures StripDashes(FormatPhoneNumber(text)) == KeptDigits(text)
    ensures Digits(FormatPhoneNumber(text)) == KeptDigits(text)
  {
    FormatIsLayout(text);
    var d := KeptDigits(text);
    if |d| <= 3 {
      DigitRunFixed(d);
    } else {
      assert AllDigits(d[..3]) && AllDigits(d[3..]);
      DigitRunFixed(d[..3]);
      if |d| <= 6 {
        DigitRunFixed(d[3..]);
        AroundDash(d[..3], d[3..]);
        assert d[..3] + d[3..] == d;
      } else {
        assert AllDigits(d[3..6]) && AllDigits(d[6..]);
        DigitRunFixed(d[3..6]);
        DigitRunFixed(d[6..]);
        AroundDash(d[..3], d[3..6]);
        AroundDash(d[..3] + "-" + d[3..6], d[6..]);
        assert d[..3] + d[3..6] + d[6..] == d;
      }
    }
  }

  /** The empty field is a formatted number: the formatter leaves it empty. */
  lemma FormatEmpty()
    ensures FormatPhoneNumber("") == ""
  {
    FormatIsLayout("");
  }

  /** Formatting an already formatted number changes nothing. */
  lemma FormatIdempotent(text: string)
    ensures FormatPhoneNumber(FormatPhoneNumber(text)) == FormatPhoneNumber(text)
  {
    var f := FormatPhoneNumber(text);
    StripDashesOfFormat(text);
    assert KeptDigits(f) == KeptDigits(text);
    FormatIsLayout(f);
    FormatIsLayout(text);
  }
}
