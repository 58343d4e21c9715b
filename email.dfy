/**
  The e-mail check shared by the registration and login screens: the pattern
  /^[^\s@]+@[^\s@]+\.[^\s@]+$/ and the three-valued flag the screens keep
  beside the e-mail field (no verdict yet, valid, invalid).
 */
module Email {
  import opened Text
  import opened Wrappers

  /** A character the class `[^\s@]` accepts. */
  predicate IsAtom(c: char)
  {
    !IsJsWhitespace(c) && c != '@'
  }

  predicate AllAtoms(s: string)
  {
    forall k :: 0 <= k < |s| ==> IsAtom(s[k])
  }

  predicate NoWhitespace(s: string)
  {
    forall k :: 0 <= k < |s| ==> !IsJsWhitespace(s[k])
  }

  /**
    The pattern read literally: an '@' at `i` and a '.' at `j` cut the whole
    text into three non-empty runs of `[^\s@]` characters.
   */
  ghost predicate MatchesEmailPattern(s: string)
  {
    exists i: nat, j: nat ::
      0 < i && i + 1 < j && j + 1 < |s| && s[i] == '@' && s[j] == '.' &&
      AllAtoms(s[..i]) && AllAtoms(s[i + 1..j]) && AllAtoms(s[j + 1..])
  }

  /** The domain part holds a '.' with at least one character on either side. */
  predicate HasInnerDot(d: string)
  {
    exists k :: 0 < k < |d| - 1 && d[k] == '.'
  }

  /**
    `validateEmail`: no whitespace anywhere, exactly one '@' (the first one
    has none after it), something before it, and a dot inside what follows.
   */
  predicate ValidateEmail(s: string)
  {
    NoWhitespace(s) && '@' in s &&
    var i := IndexOf(s, '@');
    0 < i && '@' !in s[i + 1..] && HasInnerDot(s[i + 1..])
  }

  /** A slice whose every character is an atom is a run of atoms. */
  lemma AtomsOfSlice(s: string, lo: nat, hi: nat)
    requires lo <= hi <= |s|
    requires forall m :: lo <= m < hi ==> IsAtom(s[m])
    ensures AllAtoms(s[lo..hi])
  {
    var t := s[lo..hi];
    forall m | 0 <= m < |t| ensures IsAtom(t[m]) {
      assert t[m] == s[lo + m];
    }
  }

  /** Each character of a run of atoms is an atom of the whole text. */
  lemma AtomsInSlice(s: string, lo: nat, hi: nat)
    requires lo <= hi <= |s|
    requires AllAtoms(s[lo..hi])
    ensures forall m :: lo <= m < hi ==> IsAtom(s[m])
  {
    var t := s[lo..hi];
    forall m | lo <= m < hi ensures IsAtom(s[m]) {
      assert s[m] == t[m - lo];
    }
  }

  lemma ValidateEmailSound(s: string)
    requires ValidateEmail(s)
    ensures MatchesEmailPattern(s)
  {
    var i := IndexOf(s, '@');
    var d := s[i + 1..];
    var k :| 0 < k < |d| - 1 && d[k] == '.';
    var j := i + 1 + k;
    assert s[j] == '.' by { assert s[j] == d[k]; }
    assert AllAtoms(s[..i]) by {
      forall m | 0 <= m < i ensures IsAtom(s[m]) {
        assert s[m] == s[..i][m];
      }
      AtomsOfSlice(s, 0, i);
      assert s[0..i] == s[..i];
    }
    assert forall m :: i + 1 <= m < |s| ==> IsAtom(s[m]) by {
      forall m | i + 1 <= m < |s| ensures IsAtom(s[m]) {
        assert s[m] == d[m - i - 1];
      }
    }
    AtomsOfSlice(s, i + 1, j);
    AtomsOfSlice(s, j + 1, |s|);
    assert s[j + 1..|s|] == s[j + 1..];
  }

  /** The three runs of the pattern make every character but the '@' an atom. */
  lemma AtomsAround(s: string, i: nat, j: nat)
    requires 0 < i && i + 1 < j && j + 1 < |s| && s[j] == '.'
    requires AllAtoms(s[..i]) && AllAtoms(s[i + 1..j]) && AllAtoms(s[j + 1..])
    ensures forall m :: 0 <= m < |s| && m != i ==> IsAtom(s[m])
  {
    assert s[0..i] == s[..i] && s[j + 1..|s|] == s[j + 1..];
    AtomsInSlice(s, 0, i);
    AtomsInSlice(s, i + 1, j);
    AtomsInSlice(s, j + 1, |s|);
  }

  /** An '@' at `i` among atoms is the text's only '@', and nothing in the text is whitespace. */
  lemma SingleAt(s: string, i: nat)
    requires i < |s| && s[i] == '@'
    requires forall m :: 0 <= m < |s| && m != i ==> IsAtom(s[m])
    ensures NoWhitespace(s) && '@' in s && IndexOf(s, '@') == i && '@' !in s[i + 1..]
  {
    assert '@' !in s[..i] by {
      forall m | 0 <= m < i ensures s[..i][m] != '@' {
        assert s[..i][m] == s[m];
      }
    }
    IndexOfAt(s, '@', i);
    var d := s[i + 1..];
    assert '@' !in d by {
      forall m | 0 <= m < |d| ensures d[m] != '@' {
        assert d[m] == s[i + 1 + m];
      }
    }
  }

  lemma ValidateEmailComplete(s: string)
    requires MatchesEmailPattern(s)
    ensures ValidateEmail(s)
  {
    var i: nat, j: nat :|
      0 < i && i + 1 < j && j + 1 < |s| && s[i] == '@' && s[j] == '.' &&
      AllAtoms(s[..i]) && AllAtoms(s[i + 1..j]) && AllAtoms(s[j + 1..]);
    AtomsAround(s, i, j);
    SingleAt(s, i);
    var d := s[i + 1..];
    assert d[j - i - 1] == '.';
    assert HasInnerDot(d);
  }

  /** `validateEmail` gives exactly the pattern's verdict, in both directions. */
  lemma ValidateEmailMatchesPattern(s: string)
    ensures ValidateEmail(s) <==> MatchesEmailPattern(s)
  {
    if ValidateEmail(s) {
      ValidateEmailSound(s);
    }
    if MatchesEmailPattern(s) {
      ValidateEmailComplete(s);
    }
  }

  /** The flag beside the field: no verdict for an empty text, else the check's verdict. */
  function EmailFlag(text: string): (flag: Option<bool>)
    ensures flag == None <==> text == ""
    ensures flag == Some(true) <==> text != "" && MatchesEmailPattern(text)
  {
    ValidateEmailMatchesPattern(text);
    if |text| > 0 then Some(ValidateEmail(text)) else None
  }
}
