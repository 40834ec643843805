/** The character classes and word shapes of the scanners, character by character. */
module Alphabets {
  import opened Common
  import opened JsText
  import opened CssScanner
  import opened CssImportant
  import opened ExprResolver

  // ---------------------------------------------------------------- single characters

  /** The white space and line terminators of ECMAScript, one by one. */
  const WHITE_SPACE := {
    9, 10, 11, 12, 13, 32, 160, 5760, 8192, 8193, 8194, 8195, 8196, 8197, 8198, 8199, 8200, 8201, 8202, 8232, 8233,
    8239, 8287, 12288, 65279}

  lemma SpacesByCode(c: char)
    ensures IsSpace(c) <==> c as int in WHITE_SPACE
  {
  }

  lemma DigitsByName(c: char)
    ensures IsDigit(c) <==> c in "0123456789"
  {
    if IsDigit(c) {
      assert "0123456789"[c as int - 48] == c;
    }
  }

  /** Only the capital letters change, each to its small one. */
  lemma LowerCaseByCode(c: char)
    ensures LowerCase(c) as int == c as int + if 65 <= c as int <= 90 then 32 else 0
  {
  }

  /** What may start an identifier, and what may follow, by their codes. */
  lemma IdentifiersByCode(c: char)
    ensures var n := c as int;
            && (IdentStart(c) <==> 97 <= n <= 122 || 65 <= n <= 90 || n == 95 || n == 36)
            && (IdentPart(c) <==> 97 <= n <= 122 || 65 <= n <= 90 || n == 95 || n == 36 || 48 <= n <= 57)
  {
  }

  // ---------------------------------------------------------------- numbers

  predicate AllDigits(s: string)
  {
    s != [] && forall i :: 0 <= i < |s| ==> '0' <= s[i] <= '9'
  }

  lemma {:induction false} DigitsRun(s: string)
    ensures var n := DigitsLength(s);
            && (forall i :: 0 <= i < n ==> '0' <= s[i] <= '9') && (n < |s| ==> !('0' <= s[n] <= '9'))
  {
    if s != [] && IsDigit(s[0]) {
      DigitsRun(s[1..]);
      assert forall i :: 0 < i < |s| ==> s[i] == s[1..][i - 1];
    }
  }

  lemma AllDigitsIff(s: string)
    ensures s != [] && DigitsLength(s) == |s| <==> AllDigits(s)
  {
    DigitsRun(s);
  }

  /** Digits, a point at `k`, and digits. */
  predicate PointAt(s: string, k: nat)
  {
    k < |s| && s[k] == '.' && AllDigits(s[..k]) && AllDigits(s[k + 1..])
  }

  lemma PointIsFirst(s: string, k: nat)
    requires PointAt(s, k)
    ensures k == DigitsLength(s) && IsUnsignedNumber(s)
  {
    DigitsRun(s);
    AllDigitsIff(s[k + 1..]);
    assert forall i :: 0 <= i < k ==> s[i] == s[..k][i];
  }

  lemma UnsignedIff(s: string)
    ensures IsUnsignedNumber(s) <==> AllDigits(s) || exists k: nat :: PointAt(s, k)
  {
    AllDigitsIff(s);
    DigitsRun(s);
    if k: nat :| PointAt(s, k) {
      PointIsFirst(s, k);
    } else if IsUnsignedNumber(s) && !AllDigits(s) {
      var n := DigitsLength(s);
      AllDigitsIff(s[n + 1..]);
      assert PointAt(s, n);
    }
  }

  /** A number is digits, possibly a point and more digits, and possibly a minus sign before it all. */
  lemma NumbersAre(s: string)
    ensures IsNumber(s)
            <==> var body := if s != [] && s[0] == '-' then s[1..] else s;
                 AllDigits(body) || exists k: nat :: PointAt(body, k)
  {
    UnsignedIff(if s != [] && s[0] == '-' then s[1..] else s);
  }

  // ---------------------------------------------------------------- the important mark

  /** The text is the word, in capital or small letters. */
  predicate Spells(text: string, word: string)
  {
    |text| == |word|
    && forall i :: 0 <= i < |text| ==> text[i] == word[i] || text[i] as int + 32 == word[i] as int
  }

  /** An exclamation mark at `k`, white space, and the word up to the end. */
  predicate MarkAt(d: string, k: nat)
  {
    && k + 10 <= |d| && d[k] == '!' && Spells(d[|d| - 9..], "important")
    && forall i :: k < i < |d| - 9 ==> IsSpace(d[i])
  }

  lemma EndsImportantIff(d: string)
    ensures EndsImportant(d) <==> |d| >= 9 && Spells(d[|d| - 9..], "important")
  {
    if |d| >= 9 {
      var tail := d[|d| - 9..];
      forall i | 0 <= i < 9
        ensures LowerCase(d[|d| - 9 + i]) == IMPORTANT[i]
                <==> tail[i] == "important"[i] || tail[i] as int + 32 == "important"[i] as int
      {
        assert tail[i] == d[|d| - 9 + i];
        SmallLetter(IMPORTANT[i], tail[i]);
      }
    }
  }

  lemma SmallLetter(small: char, c: char)
    requires 'a' <= small <= 'z'
    ensures LowerCase(c) == small <==> c == small || c as int + 32 == small as int
  {
  }

  lemma {:induction false} TrimRightStops(s: string)
    ensures forall i :: |TrimRight(s)| <= i < |s| ==> IsSpace(s[i])
  {
    if s != [] && IsSpace(s[|s| - 1]) {
      TrimRightStops(s[..|s| - 1]);
    }
  }

  /** A declaration counts as marked exactly when it ends in the mark, however it is spaced and capitalised. */
  lemma MarkedIff(d: string)
    ensures HasMark(d) <==> exists k: nat :: MarkAt(d, k)
  {
    EndsImportantIff(d);
    if |d| >= 9 {
      var front := d[..|d| - 9];
      var head := TrimRight(front);
      TrimRightStops(front);
      if HasMark(d) {
        assert MarkAt(d, |head| - 1);
      }
      if k: nat :| MarkAt(d, k) {
        assert front[k] == '!' && !IsSpace('!');
        assert |head| == k + 1;
      }
    }
  }
}
