/** Prices in FCFA, which has no decimals: the printer of amounts, and the parser of what
    people type into a spreadsheet. */
module Price {
  import opened Wrappers
  import opened Text

  // ---------------------------------------------------------------------
  // Printing
  // ---------------------------------------------------------------------

  const NARROW_SPACE: char := '\U{202F}'

  function Pad3(n: nat): (s: string)
    requires n < 1000
    ensures |s| == 3
  {
    [DigitOf(n / 100), DigitOf(n / 10 % 10), DigitOf(n % 10)]
  }

  /** The number in groups of three digits. */
  function Grouped(n: nat, separator: char): (s: string)
    ensures |s| > 0
  {
    if n < 1000 then Decimal(n) else Grouped(n / 1000, separator) + [separator] + Pad3(n % 1000)
  }

  function FormatXaf(n: nat): string {
    "FCFA " + Grouped(n, NARROW_SPACE)
  }

  // ---------------------------------------------------------------------
  // Parsing
  // ---------------------------------------------------------------------

  predicate StartsWith(s: string, word: string) {
    |s| >= |word| && forall i :: 0 <= i < |word| ==> LowerChar(s[i]) == word[i]
  }

  /** Removes "fcfa", "xaf", "cfa", and an "f" that ends a word, in any case. */
  function StripCurrency(s: string): string {
    if s == "" then ""
    else if StartsWith(s, "fcfa") then StripCurrency(s[4..])
    else if StartsWith(s, "xaf") then StripCurrency(s[3..])
    else if StartsWith(s, "cfa") then StripCurrency(s[3..])
    else if LowerChar(s[0]) == 'f' && (|s| == 1 || !IsWord(s[1])) then StripCurrency(s[1..])
    else [s[0]] + StripCurrency(s[1..])
  }

  predicate IsPoint(c: char) {
    c == '.' || c == ','
  }

  /** Ends in a point and one or two digits. */
  predicate HasCents(s: string) {
    || (|s| >= 2 && IsPoint(s[|s| - 2]) && IsDigit(s[|s| - 1]))
    || (|s| >= 3 && IsPoint(s[|s| - 3]) && IsDigit(s[|s| - 2]) && IsDigit(s[|s| - 1]))
  }

  /** "12500,00" is "12500". */
  function DropZeroCents(s: string): string {
    if |s| >= 2 && IsPoint(s[|s| - 2]) && s[|s| - 1] == '0' then s[..|s| - 2]
    else if |s| >= 3 && IsPoint(s[|s| - 3]) && s[|s| - 2..] == "00" then s[..|s| - 3]
    else s
  }

  predicate IsSeparator(c: char) {
    IsSpace(c) || IsPoint(c) || c == '\''
  }

  function WithoutSeparators(s: string): string {
    if s == "" then ""
    else if IsSeparator(s[0]) then WithoutSeparators(s[1..])
    else [s[0]] + WithoutSeparators(s[1..])
  }

  predicate OnlyDigits(s: string) {
    forall i :: 0 <= i < |s| ==> IsDigit(s[i])
  }

  /** The amount a cell denotes; None when it is not a whole amount of at most 12 digits. */
  function PriceOf(raw: string): Option<nat> {
    var value := DropZeroCents(Trim(StripCurrency(raw)));
    var digits := WithoutSeparators(value);
    if HasCents(value) || !(1 <= |digits| <= 12) || !OnlyDigits(digits) then None else Some(Value(digits))
  }

  // ---------------------------------------------------------------------
  // Parsing undoes printing
  // ---------------------------------------------------------------------

  lemma ThreeDigits(n: nat)
    ensures n / 10 / 10 / 10 == n / 1000
    ensures n % 10 == n % 1000 % 10
    ensures n / 10 % 10 == n % 1000 / 10 % 10
    ensures n / 10 / 10 % 10 == n % 1000 / 100
  {
    var thousands, rest := n / 1000, n % 1000;
    assert n == 1000 * thousands + rest;
    assert n / 10 == 100 * thousands + rest / 10;
    assert n / 10 / 10 == 10 * thousands + rest / 100;
  }

  lemma DecimalSplits(n: nat)
    requires n >= 1000
    ensures Decimal(n) == Decimal(n / 1000) + Pad3(n % 1000)
  {
    ThreeDigits(n);
    var tens, hundreds := n / 10, n / 10 / 10;
    assert Decimal(n) == Decimal(tens) + [DigitOf(n % 10)];
    assert Decimal(tens) == Decimal(hundreds) + [DigitOf(tens % 10)];
    assert Decimal(hundreds) == Decimal(n / 1000) + [DigitOf(hundreds % 10)];
  }

  lemma {:induction false} WithoutSeparatorsConcat(a: string, b: string)
    ensures WithoutSeparators(a + b) == WithoutSeparators(a) + WithoutSeparators(b)
  {
    if a == "" {
      assert a + b == b;
    } else {
      assert (a + b)[1..] == a[1..] + b;
      WithoutSeparatorsConcat(a[1..], b);
    }
  }

  lemma {:induction false} DigitsHaveNoSeparators(s: string)
    requires AllDigits(s)
    ensures WithoutSeparators(s) == s
  {
    if s != "" {
      assert AllDigits(s[1..]);
      DigitsHaveNoSeparators(s[1..]);
    }
  }

  /** What the groups look like to the parser. */
  lemma {:induction false} GroupedShape(n: nat, separator: char)
    requires IsSeparator(separator)
    ensures var g := Grouped(n, separator);
            && WithoutSeparators(g) == Decimal(n)
            && (forall i :: 0 <= i < |g| ==> !IsLetter(g[i]))
            && EndsInDigits(g)
  {
    if n < 1000 {
      DecimalDigits(n);
      DigitsHaveNoSeparators(Decimal(n));
    } else {
      var head, tail := Grouped(n / 1000, separator), Pad3(n % 1000);
      GroupedShape(n / 1000, separator);
      DecimalSplits(n);
      JoinGroups(head, separator, tail);
    }
  }

  lemma JoinGroups(head: string, separator: char, tail: string)
    requires IsSeparator(separator) && AllDigits(tail)
    ensures WithoutSeparators(head + [separator] + tail) == WithoutSeparators(head) + tail
  {
    DigitsHaveNoSeparators(tail);
    WithoutSeparatorsConcat(head, [separator]);
    WithoutSeparatorsConcat(head + [separator], tail);
  }

  /** Nothing to strip. */
  lemma {:induction false} StripsNothing(s: string)
    requires forall i :: 0 <= i < |s| ==> !IsLetter(s[i])
    ensures StripCurrency(s) == s
  {
    if s != "" {
      NoWordHere(s, "fcfa");
      NoWordHere(s, "xaf");
      NoWordHere(s, "cfa");
      StripsNothing(s[1..]);
    }
  }

  lemma NoWordHere(s: string, word: string)
    requires s != "" && !IsLetter(s[0]) && word != "" && 'a' <= word[0] <= 'z'
    ensures !StartsWith(s, word)
  {
    assert LowerChar(s[0]) != word[0];
  }

  predicate IsLetter(c: char) {
    'a' <= c <= 'z' || 'A' <= c <= 'Z'
  }

  lemma TrimsNothing(s: string)
    requires s != "" && !IsSpace(s[0]) && !IsSpace(s[|s| - 1])
    ensures Trim(s) == s && Trim(" " + s) == s
  {
    assert (" " + s)[1..] == s;
  }

  /** Grouped by spaces, dots or commas, a whole amount parses exactly when it is below 10^12. */
  lemma GroupedParses(n: nat, separator: char)
    requires IsSeparator(separator)
    ensures PriceOf(Grouped(n, separator)) == if n < 1_000_000_000_000 then Some(n) else None
  {
    var g := Grouped(n, separator);
    GroupedShape(n, separator);
    StripsNothing(g);
    DigitsAreNoSpaces(g);
    TrimsNothing(g);
    NoCentsDropped(g);
    CleanParses(n, g, g);
  }

  lemma DigitsAreNoSpaces(g: string)
    requires g != "" && IsDigit(g[0]) && IsDigit(g[|g| - 1])
    ensures !IsSpace(g[0]) && !IsSpace(g[|g| - 1])
  {
  }

  /** What is left of a cell once currency and spaces are gone, when it is groups of
      digits. */
  lemma CleanParses(n: nat, raw: string, g: string)
    requires WithoutSeparators(g) == Decimal(n) && EndsInDigits(g)
    requires DropZeroCents(Trim(StripCurrency(raw))) == g
    ensures PriceOf(raw) == if n < 1_000_000_000_000 then Some(n) else None
  {
    DecimalDigits(n);
    DecimalLengthExactly(n, 12);
    TenToTheTwelfth();
    ValueOfDecimal(n);
    NoCentsDropped(g);
  }

  lemma TenToTheTwelfth()
    ensures Pow10(12) == 1_000_000_000_000
  {
    assert Pow10(4) == 10_000 && Pow10(8) == 100_000_000;
  }

  /** The parser undoes the printer: what the shop prints can be pasted back. */
  lemma PriceRoundTrip(n: nat)
    ensures PriceOf(FormatXaf(n)) == if n < 1_000_000_000_000 then Some(n) else None
  {
    var g := Grouped(n, NARROW_SPACE);
    GroupedShape(n, NARROW_SPACE);
    var raw := FormatXaf(n);
    LabelStripped(raw, g);
    NoCentsDropped(g);
    CleanParses(n, raw, g);
  }

  lemma LabelStripped(raw: string, g: string)
    requires raw == "FCFA " + g
    requires g != "" && IsDigit(g[0]) && IsDigit(g[|g| - 1]) && forall i :: 0 <= i < |g| ==> !IsLetter(g[i])
    ensures Trim(StripCurrency(raw)) == g
  {
    LabelSplits(raw, g);
    StripsLabel(raw, " " + g);
    DigitsAreNoSpaces(g);
    TrimsNothing(g);
  }

  lemma LabelSplits(raw: string, g: string)
    requires raw == "FCFA " + g
    ensures raw == "FCFA" + (" " + g)
  {
  }

  lemma StripsLabel(raw: string, rest: string)
    requires raw == "FCFA" + rest && forall i :: 0 <= i < |rest| ==> !IsLetter(rest[i])
    ensures StripCurrency(raw) == rest
  {
    LabelIsCurrency(raw, rest);
    StripsNothing(rest);
  }

  lemma LabelIsCurrency(raw: string, rest: string)
    requires raw == "FCFA" + rest
    ensures |raw| >= 4 && raw[4..] == rest && StartsWith(raw, "fcfa")
  {
    forall i | 0 <= i < 4 ensures LowerChar(raw[i]) == "fcfa"[i] {
      assert raw[i] == "FCFA"[i];
    }
  }

  // ---------------------------------------------------------------------
  // The ways people write an amount
  // ---------------------------------------------------------------------

  /** Nothing, or a point and one or two zeros. */
  predicate ZeroCents(s: string) {
    s == "" || (|s| == 2 && IsPoint(s[0]) && s[1] == '0') || (|s| == 3 && IsPoint(s[0]) && s[1] == '0' && s[2] == '0')
  }

  predicate IsCurrency(word: string) {
    Lower(word) in {"fcfa", "xaf", "cfa", "f"}
  }

  lemma StripsOne(s: string)
    requires s != "" && !IsLetter(s[0])
    ensures StripCurrency(s) == [s[0]] + StripCurrency(s[1..])
  {
    NoWordHere(s, "fcfa");
    NoWordHere(s, "xaf");
    NoWordHere(s, "cfa");
  }

  /** What stands before the first letter stays. */
  lemma {:induction false} StripsBehind(head: string, tail: string)
    requires forall i :: 0 <= i < |head| ==> !IsLetter(head[i])
    ensures StripCurrency(head + tail) == head + StripCurrency(tail)
  {
    if head == "" {
      assert head + tail == tail;
    } else {
      var s := head + tail;
      StripsOne(s);
      assert s[0] == head[0] && s[1..] == head[1..] + tail;
      StripsBehind(head[1..], tail);
      assert head == [head[0]] + head[1..];
    }
  }

  lemma StripsCurrency(word: string)
    requires IsCurrency(word)
    ensures StripCurrency(word) == ""
  {
    assert |word| == |Lower(word)|;
    assert forall i :: 0 <= i < |word| ==> Lower(word)[i] == LowerChar(word[i]);
    if Lower(word) == "fcfa" {
      assert StartsWith(word, "fcfa") && word[4..] == "";
    } else if Lower(word) == "xaf" {
      assert StartsWith(word, "xaf") && word[3..] == "";
    } else if Lower(word) == "cfa" {
      assert LowerChar(word[0]) == 'c';
      assert StartsWith(word, "cfa") && word[3..] == "";
    } else {
      assert word[1..] == "";
    }
  }

  /** The last characters of a grouped amount are digits. */
  ghost predicate EndsInDigits(g: string) {
    && g != "" && IsDigit(g[0]) && IsDigit(g[|g| - 1])
    && (|g| >= 2 ==> IsDigit(g[|g| - 2])) && (|g| >= 3 ==> IsDigit(g[|g| - 3]))
  }

  lemma NoCentsDropped(g: string)
    requires EndsInDigits(g)
    ensures DropZeroCents(g) == g && !HasCents(g)
  {
  }

  lemma OneZeroDropped(g: string, point: char)
    requires g != "" && IsPoint(point)
    ensures DropZeroCents(g + [point, '0']) == g
  {
    var s := g + [point, '0'];
    assert s[|s| - 2] == point && s[|s| - 1] == '0';
    assert s[..|s| - 2] == g;
  }

  lemma TwoZerosDropped(g: string, point: char)
    requires g != "" && IsPoint(point)
    ensures DropZeroCents(g + [point, '0', '0']) == g
  {
    var s := g + [point, '0', '0'];
    assert s[|s| - 3] == point && s[|s| - 2] == '0' && s[|s| - 1] == '0';
    assert s[|s| - 2..] == "00";
    assert s[..|s| - 3] == g;
  }

  lemma ZeroCentsDropped(g: string, cents: string)
    requires ZeroCents(cents) && EndsInDigits(g)
    ensures DropZeroCents(g + cents) == g
  {
    if |cents| == 2 {
      OneZeroDropped(g, cents[0]);
      assert cents == [cents[0], '0'];
    } else if |cents| == 3 {
      TwoZerosDropped(g, cents[0]);
      assert cents == [cents[0], '0', '0'];
    } else {
      NoCentsDropped(g);
      assert g + cents == g;
    }
  }

  /** An amount grouped by thousands, with or without zero cents, and with or without a
      currency in any case behind it, close by or after a space. */
  lemma WrittenFormsParse(n: nat, separator: char, cents: string, gap: string, word: string)
    requires IsSeparator(separator) && ZeroCents(cents) && (gap == "" || gap == " ") && (word == "" || IsCurrency(word))
    ensures PriceOf(Grouped(n, separator) + cents + gap + word) == if n < 1_000_000_000_000 then Some(n) else None
  {
    var g := Grouped(n, separator);
    GroupedShape(n, separator);
    AmountForm(g, cents);
    StripsForm(g + cents, gap, word);
    ZeroCentsDropped(g, cents);
    CleanParses(n, g + cents + gap + word, g);
  }

  lemma AmountForm(g: string, cents: string)
    requires ZeroCents(cents) && EndsInDigits(g) && forall i :: 0 <= i < |g| ==> !IsLetter(g[i])
    ensures var s := g + cents;
            IsDigit(s[0]) && IsDigit(s[|s| - 1]) && forall i :: 0 <= i < |s| ==> !IsLetter(s[i])
  {
    assert forall i :: 0 <= i < |cents| ==> !IsLetter(cents[i]);
  }

  lemma StripsForm(amount: string, gap: string, word: string)
    requires amount != "" && IsDigit(amount[0]) && IsDigit(amount[|amount| - 1])
    requires forall i :: 0 <= i < |amount| ==> !IsLetter(amount[i])
    requires (gap == "" || gap == " ") && (word == "" || IsCurrency(word))
    ensures Trim(StripCurrency(amount + gap + word)) == amount
  {
    StripsBehind(amount + gap, word);
    if word != "" {
      StripsCurrency(word);
    }
    assert StripCurrency(amount + gap + word) == amount + gap;
    TrimsBehind(amount, gap);
  }

  lemma TrimsBehind(s: string, gap: string)
    requires s != "" && IsDigit(s[0]) && IsDigit(s[|s| - 1]) && (gap == "" || gap == " ")
    ensures Trim(s + gap) == s
  {
    DigitsAreNoSpaces(s);
    if gap == "" {
      assert s + gap == s;
    } else {
      var t := s + gap;
      assert t[0] == s[0] && t[|t| - 1] == ' ' && t[..|t| - 1] == s;
      assert TrimLeft(t) == t && TrimRight(s) == s;
    }
  }

  /** A sign, or a letter of no currency, is never part of a price. */
  lemma OtherCharactersAreRefused(raw: string, i: nat)
    requires i < |raw| && !IsDigit(raw[i]) && !IsSeparator(raw[i]) && LowerChar(raw[i]) !in {'f', 'c', 'a', 'x'}
    ensures PriceOf(raw) == None
  {
    var c := raw[i];
    StripKeeps(raw, c);
    TrimKeeps(StripCurrency(raw), c);
    CentsKeep(Trim(StripCurrency(raw)), c);
    SeparatorsKeep(DropZeroCents(Trim(StripCurrency(raw))), c);
  }

  lemma TrimKeeps(s: string, c: char)
    requires c in s && !IsSpace(c)
    ensures c in Trim(s)
  {
    var before, after := TrimExactly(s);
  }

  lemma CentsKeep(s: string, c: char)
    requires c in s && !IsDigit(c) && !IsPoint(c)
    ensures c in DropZeroCents(s)
  {
    var n := |s|;
    if n >= 2 && IsPoint(s[n - 2]) && s[n - 1] == '0' {
      assert s == s[..n - 2] + [s[n - 2], s[n - 1]];
    } else if n >= 3 && IsPoint(s[n - 3]) && s[n - 2..] == "00" {
      assert s == s[..n - 3] + [s[n - 3]] + s[n - 2..];
    }
  }

  lemma {:induction false} StripKeeps(s: string, c: char)
    requires c in s && LowerChar(c) !in {'f', 'c', 'a', 'x'}
    ensures c in StripCurrency(s)
  {
    if StartsWith(s, "fcfa") {
      assert s == s[..4] + s[4..] && forall k :: 0 <= k < 4 ==> LowerChar(s[k]) == "fcfa"[k];
      StripKeeps(s[4..], c);
    } else if StartsWith(s, "xaf") {
      assert s == s[..3] + s[3..] && forall k :: 0 <= k < 3 ==> LowerChar(s[k]) == "xaf"[k];
      StripKeeps(s[3..], c);
    } else if StartsWith(s, "cfa") {
      assert s == s[..3] + s[3..] && forall k :: 0 <= k < 3 ==> LowerChar(s[k]) == "cfa"[k];
      StripKeeps(s[3..], c);
    } else {
      assert s == [s[0]] + s[1..];
      if c in s[1..] {
        StripKeeps(s[1..], c);
      }
    }
  }

  lemma {:induction false} SeparatorsKeep(s: string, c: char)
    requires c in s && !IsSeparator(c)
    ensures c in WithoutSeparators(s)
  {
    assert s == [s[0]] + s[1..];
    if c in s[1..] {
      SeparatorsKeep(s[1..], c);
    }
  }

  // ---------------------------------------------------------------------
  // Real decimals are refused
  // ---------------------------------------------------------------------

  /** Stripping goes on alike in front of a tail without letters that starts with a
      character no word contains. */
  lemma {:induction false} StripKeepsTail(head: string, tail: string) returns (rest: string)
    requires tail != "" && !IsWord(tail[0]) && forall i :: 0 <= i < |tail| ==> !IsLetter(tail[i])
    ensures StripCurrency(head + tail) == rest + tail
  {
    var s := head + tail;
    if head == "" {
      assert s == tail;
      StripsNothing(tail);
      rest := "";
    } else if StartsWith(s, "fcfa") {
      PrefixInHead(head, tail, "fcfa");
      assert s[4..] == head[4..] + tail;
      rest := StripKeepsTail(head[4..], tail);
    } else if StartsWith(s, "xaf") {
      PrefixInHead(head, tail, "xaf");
      assert s[3..] == head[3..] + tail;
      rest := StripKeepsTail(head[3..], tail);
    } else if StartsWith(s, "cfa") {
      PrefixInHead(head, tail, "cfa");
      assert s[3..] == head[3..] + tail;
      rest := StripKeepsTail(head[3..], tail);
    } else {
      assert s[1..] == head[1..] + tail;
      rest := StripKeepsTail(head[1..], tail);
      if !(LowerChar(s[0]) == 'f' && !IsWord(s[1])) {
        assert StripCurrency(s) == [s[0]] + (rest + tail);
        rest := [s[0]] + rest;
      }
    }
  }

  lemma PrefixInHead(head: string, tail: string, word: string)
    requires tail != "" && !IsWord(tail[0]) && StartsWith(head + tail, word)
    requires forall i :: 0 <= i < |word| ==> 'a' <= word[i] <= 'z'
    ensures |word| <= |head|
  {
    var s := head + tail;
    forall i | 0 <= i < |word| ensures IsWord(s[i]) {
      assert LowerChar(s[i]) == word[i];
    }
    assert !IsWord(s[|head|]);
  }

  lemma {:induction false} TrimKeepsTail(head: string, tail: string) returns (rest: string)
    requires tail != "" && !IsSpace(tail[0]) && !IsSpace(tail[|tail| - 1])
    ensures Trim(head + tail) == rest + tail
  {
    if head != "" && IsSpace(head[0]) {
      assert (head + tail)[1..] == head[1..] + tail;
      rest := TrimKeepsTail(head[1..], tail);
    } else {
      rest := head;
    }
  }

  /** An amount that ends in a point and one or two digits that are not all zero is no
      price, whatever stands in front. */
  lemma RealDecimalsAreRefused(head: string, point: char, cents: string)
    requires IsPoint(point) && 1 <= |cents| <= 2 && AllDigits(cents)
    requires exists i :: 0 <= i < |cents| && cents[i] != '0'
    ensures PriceOf(head + [point] + cents) == None
  {
    var tail := [point] + cents;
    assert head + [point] + cents == head + tail;
    var kept := StripKeepsTail(head, tail);
    var rest := TrimKeepsTail(kept, tail);
    EndsInCents(rest, point, cents);
  }

  lemma EndsInCents(rest: string, point: char, cents: string)
    requires IsPoint(point) && 1 <= |cents| <= 2 && AllDigits(cents)
    requires exists i :: 0 <= i < |cents| && cents[i] != '0'
    ensures var value := rest + ([point] + cents); DropZeroCents(value) == value && HasCents(value)
  {
    var value := rest + ([point] + cents);
    var n := |value|;
    if |cents| == 1 {
      assert value[n - 2] == point && value[n - 1] == cents[0];
      assert n >= 3 ==> value[n - 2..][0] == point;
    } else {
      assert value[n - 3] == point && value[n - 2] == cents[0] && value[n - 1] == cents[1];
      assert value[n - 2..] == cents;
    }
  }

  // ---------------------------------------------------------------------
  // The parser
  // ---------------------------------------------------------------------

  /** Ends in a point and one or two digits that are not all zero. */
  ghost predicate EndsInRealCents(raw: string) {
    exists head, point, cents :: raw == head + [point] + cents && RealCents(point, cents)
  }

  ghost predicate RealCents(point: char, cents: string) {
    IsPoint(point) && 1 <= |cents| <= 2 && AllDigits(cents) && exists i :: 0 <= i < |cents| && cents[i] != '0'
  }

  /** The amount is one of twelve digits; it is what was printed or grouped by thousands, and
      there is none when the cell has real decimals. */
  method ParsePrice(raw: string) returns (price: Option<nat>)
    ensures price == PriceOf(raw)
    ensures forall n: nat :: n < 1_000_000_000_000 && raw == FormatXaf(n) ==> price == Some(n)
    ensures forall n: nat, separator ::
              n < 1_000_000_000_000 && IsSeparator(separator) && raw == Grouped(n, separator) ==> price == Some(n)
    ensures EndsInRealCents(raw) ==> price == None
    ensures price.Some? ==> price.value < 1_000_000_000_000
  {
    PriceFacts(raw);
    var value := Trim(StripCurrency(raw));
    value := DropZeroCents(value);
    if HasCents(value) {
      return None;
    }
    var digits := WithoutSeparators(value);
    if !(1 <= |digits| <= 12 && OnlyDigits(digits)) {
      return None;
    }
    price := Some(Value(digits));
  }

  lemma PriceFacts(raw: string)
    ensures forall n: nat :: n < 1_000_000_000_000 && raw == FormatXaf(n) ==> PriceOf(raw) == Some(n)
    ensures forall n: nat, separator ::
              n < 1_000_000_000_000 && IsSeparator(separator) && raw == Grouped(n, separator) ==>
                PriceOf(raw) == Some(n)
    ensures EndsInRealCents(raw) ==> PriceOf(raw) == None
    ensures PriceOf(raw).Some? ==> PriceOf(raw).value < 1_000_000_000_000
  {
    forall n: nat | n < 1_000_000_000_000 && raw == FormatXaf(n) ensures PriceOf(raw) == Some(n) {
      PriceRoundTrip(n);
    }
    forall n: nat, separator | n < 1_000_000_000_000 && IsSeparator(separator) && raw == Grouped(n, separator)
      ensures PriceOf(raw) == Some(n)
    {
      GroupedParses(n, separator);
    }
    if EndsInRealCents(raw) {
      var head, point, cents :| raw == head + [point] + cents && RealCents(point, cents);
      RealDecimalsAreRefused(head, point, cents);
    }
    if PriceOf(raw).Some? {
      ValueBelow(WithoutSeparators(DropZeroCents(Trim(StripCurrency(raw)))), 12);
      TenToTheTwelfth();
    }
  }

  lemma {:induction false} ValueBelow(s: string, k: nat)
    requires |s| <= k
    ensures Value(s) < Pow10(k)
  {
    if s != "" {
      ValueBelow(s[..|s| - 1], k - 1);
    }
  }
}
