/** Characters and strings: ASCII letters and digits, white space, decimal numerals. */
module Text {

  predicate IsDigit(c: char) {
    '0' <= c <= '9'
  }

  predicate IsLowerAlnum(c: char) {
    'a' <= c <= 'z' || IsDigit(c)
  }

  predicate IsWord(c: char) {
    'a' <= c <= 'z' || 'A' <= c <= 'Z' || IsDigit(c) || c == '_'
  }

  /** What `trim` and `\s` call white space. */
  predicate IsSpace(c: char) {
    || c == ' ' || '\t' <= c <= '\r'
    || c == '\U{00A0}' || c == '\U{1680}' || '\U{2000}' <= c <= '\U{200A}'
    || c == '\U{2028}' || c == '\U{2029}' || c == '\U{202F}' || c == '\U{205F}' || c == '\U{3000}' || c == '\U{FEFF}'
  }

  function LowerChar(c: char): char {
    if 'A' <= c <= 'Z' then c - 'A' + 'a' else c
  }

  function Lower(s: string): (r: string)
    ensures |r| == |s|
  {
    seq(|s|, i requires 0 <= i < |s| => LowerChar(s[i]))
  }

  /** Letters and digits only, in lower case. */
  function Filtered(s: string): string {
    if s == "" then ""
    else if IsLowerAlnum(s[0]) then [s[0]] + Filtered(s[1..])
    else Filtered(s[1..])
  }

  function Key(s: string): string {
    Filtered(Lower(s))
  }

  /** A key is made character by character: letters in lower case and digits stay, everything
      else goes.  So texts with the same letters and digits, in any case, have the same key. */
  lemma KeyExactly(c: char, rest: string)
    ensures Key("") == ""
    ensures Key([c] + rest) ==
            (if 'a' <= c <= 'z' || '0' <= c <= '9' then [c]
             else if 'A' <= c <= 'Z' then [c - 'A' + 'a'] else "") + Key(rest)
  {
    var s := [c] + rest;
    assert Lower(s)[0] == LowerChar(c) && Lower(s)[1..] == Lower(rest);
  }

  lemma {:induction false} KeyAdds(a: string, b: string)
    ensures Key(a + b) == Key(a) + Key(b)
  {
    if a == "" {
      assert a + b == b;
    } else {
      assert a == [a[0]] + a[1..] && a + b == [a[0]] + (a[1..] + b);
      KeyExactly(a[0], a[1..]);
      KeyExactly(a[0], a[1..] + b);
      KeyAdds(a[1..], b);
    }
  }

  function TrimLeft(s: string): string {
    if s != "" && IsSpace(s[0]) then TrimLeft(s[1..]) else s
  }

  function TrimRight(s: string): string {
    if s != "" && IsSpace(s[|s| - 1]) then TrimRight(s[..|s| - 1]) else s
  }

  function Trim(s: string): string {
    TrimRight(TrimLeft(s))
  }

  ghost predicate AllDigits(s: string) {
    forall i :: 0 <= i < |s| ==> IsDigit(s[i])
  }

  function DigitOf(n: nat): (c: char)
    requires n < 10
    ensures IsDigit(c) && c as int - '0' as int == n
  {
    '0' + n as char
  }

  /** The decimal numeral of a number. */
  function Decimal(n: nat): (s: string)
    ensures |s| > 0
  {
    if n < 10 then [DigitOf(n)] else Decimal(n / 10) + [DigitOf(n % 10)]
  }

  /** The number a string of digits denotes. */
  function Value(s: string): nat {
    if s == "" || !IsDigit(s[|s| - 1]) then 0
    else 10 * Value(s[..|s| - 1]) + (s[|s| - 1] as int - '0' as int)
  }

  lemma {:induction false} DecimalDigits(n: nat)
    ensures AllDigits(Decimal(n))
  {
    if n >= 10 {
      DecimalDigits(n / 10);
    }
  }

  /** Reading a numeral back gives the number. */
  lemma {:induction false} ValueOfDecimal(n: nat)
    ensures Value(Decimal(n)) == n
  {
    if n >= 10 {
      ValueOfDecimal(n / 10);
      assert Decimal(n)[..|Decimal(n)| - 1] == Decimal(n / 10);
    }
  }

  function Pow10(k: nat): (r: nat)
    ensures r >= 1
  {
    if k == 0 then 1 else 10 * Pow10(k - 1)
  }

  /** A numeral has at most k digits exactly when the number is below 10^k. */
  lemma {:induction false} DecimalLengthExactly(n: nat, k: nat)
    requires k >= 1
    ensures |Decimal(n)| <= k <==> n < Pow10(k)
  {
    if n >= 10 {
      if k >= 2 {
        DecimalLengthExactly(n / 10, k - 1);
      }
    } else {
      assert Pow10(k) == 10 * Pow10(k - 1);
    }
  }

  ghost predicate AllSpaces(s: string) {
    forall i :: 0 <= i < |s| ==> IsSpace(s[i])
  }

  ghost predicate Trimmed(s: string) {
    s != "" && !IsSpace(s[0]) && !IsSpace(s[|s| - 1])
  }

  /** What trimming takes away is white space at both ends, and all of it. */
  lemma TrimExactly(s: string) returns (before: string, after: string)
    ensures s == before + Trim(s) + after && AllSpaces(before) && AllSpaces(after)
    ensures Trim(s) == "" || Trimmed(Trim(s))
  {
    before := TrimsLeft(s);
    after := TrimsRight(TrimLeft(s));
    assert s == before + TrimLeft(s) && TrimLeft(s) == Trim(s) + after;
    if Trim(s) != "" {
      assert TrimLeft(s)[0] == Trim(s)[0];
    }
  }

  lemma {:induction false} TrimsLeft(s: string) returns (before: string)
    ensures s == before + TrimLeft(s) && AllSpaces(before)
    ensures TrimLeft(s) != "" ==> !IsSpace(TrimLeft(s)[0])
  {
    before := "";
    if s != "" && IsSpace(s[0]) {
      before := TrimsLeft(s[1..]);
      assert s == [s[0]] + s[1..];
      before := [s[0]] + before;
    }
  }

  lemma {:induction false} TrimsRight(s: string) returns (after: string)
    ensures s == TrimRight(s) + after && AllSpaces(after)
    ensures TrimRight(s) != "" ==> !IsSpace(TrimRight(s)[|TrimRight(s)| - 1])
  {
    after := "";
    if s != "" && IsSpace(s[|s| - 1]) {
      after := TrimsRight(s[..|s| - 1]);
      assert s == s[..|s| - 1] + [s[|s| - 1]];
      after := after + [s[|s| - 1]];
    }
  }
}
