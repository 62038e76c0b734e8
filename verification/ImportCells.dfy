/** What the cells of a spreadsheet row say: conditions, quantities, lists, trucks. */
module ImportCells {
  import opened Wrappers
  import opened Text
  import opened Price
  import opened ImportTypes

  function OrNone(cell: string): Option<string> {
    if cell == "" then None else Some(cell)
  }

  function ConditionOf(cell: string): Option<Condition> {
    var key := Key(cell);
    if key in {"new", "neuf", "neuve"} then Some(NEW)
    else if key in {"used", "occasion", "usage", "usagee"} then Some(USED)
    else if key in {"reconditioned", "reconditionne", "reconditionnee", "refurbished", "renove"}
      then Some(RECONDITIONED)
    else if key == "constructor" then Some(NO_CONDITION)
    else None
  }

  function StatusOf(cell: string): Option<ProductStatus> {
    var key := Key(cell);
    if key in {"published", "publie", "enligne", "online"} then Some(PUBLISHED)
    else if key in {"draft", "brouillon", "hidden", "cache"} then Some(DRAFT)
    else if key == "constructor" then Some(NO_STATUS)
    else None
  }

  function WithoutSpaces(s: string): string {
    if s == "" then "" else if IsSpace(s[0]) then WithoutSpaces(s[1..]) else [s[0]] + WithoutSpaces(s[1..])
  }

  function QuantityOf(cell: string): Option<nat> {
    var digits := WithoutSpaces(cell);
    if 1 <= |digits| <= 7 && OnlyDigits(digits) then Some(Value(digits)) else None
  }

  function Split(s: string, separator: char): (parts: seq<string>)
    ensures |parts| > 0
  {
    if s == "" then [""]
    else
      var rest := Split(s[1..], separator);
      if s[0] == separator then [""] + rest else [[s[0]] + rest[0]] + rest[1..]
  }

  /** Trimmed, without empty values and repetitions, in the order of first appearance. */
  function Collect(parts: seq<string>): seq<string> {
    if parts == [] then []
    else
      var before, v := Collect(parts[..|parts| - 1]), Trim(parts[|parts| - 1]);
      if v == "" || v in before then before else before + [v]
  }

  function SplitMulti(cell: string): seq<string> {
    Collect(Split(cell, '|'))
  }

  // ---------------------------------------------------------------------
  // Trucks
  // ---------------------------------------------------------------------

  predicate FourDigits(s: string) {
    |s| == 4 && OnlyDigits(s)
  }

  datatype Years = Years(start: nat, end: Option<nat>)

  /** "2012-2024", "2012+" or "2012". */
  function YearsOf(s: string): Option<Years> {
    if |s| < 4 || !FourDigits(s[..4]) then None
    else
      var rest := TrimLeft(s[4..]);
      if rest == "" || rest == "+" then Some(Years(Value(s[..4]), None))
      else if rest[0] in {'-', '\U{2013}'} && FourDigits(TrimLeft(rest[1..])) then
        Some(Years(Value(s[..4]), Some(Value(TrimLeft(rest[1..])))))
      else None
  }

  function Join(parts: seq<string>, separator: string): string {
    if parts == [] then "" else if |parts| == 1 then parts[0] else parts[0] + separator + Join(parts[1..], separator)
  }

  function TrimAll(parts: seq<string>): (trimmed: seq<string>)
    ensures |trimmed| == |parts|
  {
    seq(|parts|, i requires 0 <= i < |parts| => Trim(parts[i]))
  }

  /** "Make / Model / 2012-2024 / Engine", engine optional. */
  function VehicleOf(cell: string): Option<VehicleRef> {
    var parts := TrimAll(Split(cell, '/'));
    if |parts| < 3 || parts[0] == "" || parts[1] == "" then None
    else
      match YearsOf(parts[2])
      case None => None
      case Some(years) =>
        if years.end.Some? && years.end.value < years.start then None
        else Some(VehicleRef(parts[0], parts[1], years.start, years.end, OrNone(Trim(Join(parts[3..], " / ")))))
  }

  function TrucksOf(cells: seq<string>): (trucks: seq<Option<VehicleRef>>)
    ensures |trucks| == |cells|
  {
    seq(|cells|, i requires 0 <= i < |cells| => VehicleOf(cells[i]))
  }

  // ---------------------------------------------------------------------
  // Words and numbers
  // ---------------------------------------------------------------------

  /** The words for each condition, compared by letters and digits only. */
  lemma ConditionsExactly(cell: string)
    ensures ConditionOf(cell) == Some(NEW) <==> Key(cell) == "new" || Key(cell) == "neuf" || Key(cell) == "neuve"
    ensures ConditionOf(cell) == Some(USED) <==>
              Key(cell) == "used" || Key(cell) == "occasion" || Key(cell) == "usage" || Key(cell) == "usagee"
    ensures ConditionOf(cell) == Some(RECONDITIONED) <==>
              || Key(cell) == "reconditioned" || Key(cell) == "reconditionne" || Key(cell) == "reconditionnee"
              || Key(cell) == "refurbished" || Key(cell) == "renove"
    ensures ConditionOf(cell) == Some(NO_CONDITION) <==> Key(cell) == "constructor"
  {
  }

  /** The words for each status. */
  lemma StatusesExactly(cell: string)
    ensures StatusOf(cell) == Some(PUBLISHED) <==>
              Key(cell) == "published" || Key(cell) == "publie" || Key(cell) == "enligne" || Key(cell) == "online"
    ensures StatusOf(cell) == Some(DRAFT) <==>
              Key(cell) == "draft" || Key(cell) == "brouillon" || Key(cell) == "hidden" || Key(cell) == "cache"
    ensures StatusOf(cell) == Some(NO_STATUS) <==> Key(cell) == "constructor"
    ensures StatusOf(cell) != Some(ARCHIVED)
  {
  }

  ghost predicate OnlyLetters(word: string) {
    forall i :: 0 <= i < |word| ==> 'a' <= word[i] <= 'z' || 'A' <= word[i] <= 'Z'
  }

  /** The key of a word of letters is the word in lower case. */
  lemma {:induction false} KeyOfWord(word: string)
    requires OnlyLetters(word)
    ensures Key(word) == Lower(word)
  {
    if word != "" {
      assert OnlyLetters(word[1..]);
      assert word == [word[0]] + word[1..] && Lower(word) == [LowerChar(word[0])] + Lower(word[1..]);
      KeyExactly(word[0], word[1..]);
      KeyOfWord(word[1..]);
    }
  }

  /** So a word of letters is read whatever its case is: "Neuf", "NEUF" and "neuf". */
  lemma WordsAreRead(word: string)
    requires OnlyLetters(word)
    ensures ConditionOf(word) == Some(NEW) <==> Lower(word) in {"new", "neuf", "neuve"}
    ensures ConditionOf(word) == Some(USED) <==> Lower(word) in {"used", "occasion", "usage", "usagee"}
    ensures StatusOf(word) == Some(PUBLISHED) <==> Lower(word) in {"published", "publie", "enligne", "online"}
    ensures StatusOf(word) == Some(DRAFT) <==> Lower(word) in {"draft", "brouillon", "hidden", "cache"}
  {
    KeyOfWord(word);
    ConditionsExactly(word);
    StatusesExactly(word);
  }

  lemma {:induction false} WithoutSpacesAdds(a: string, b: string)
    ensures WithoutSpaces(a + b) == WithoutSpaces(a) + WithoutSpaces(b)
  {
    if a == "" {
      assert a + b == b;
    } else {
      assert (a + b)[1..] == a[1..] + b;
      WithoutSpacesAdds(a[1..], b);
    }
  }

  lemma {:induction false} DigitsHaveNoSpaces(s: string)
    requires AllDigits(s)
    ensures WithoutSpaces(s) == s
  {
    if s != "" {
      assert AllDigits(s[1..]);
      DigitsHaveNoSpaces(s[1..]);
    }
  }

  /** A quantity is read back when it has at most seven digits, and refused otherwise. */
  lemma QuantityRoundTrip(n: nat)
    ensures QuantityOf(Decimal(n)) == if n < 10_000_000 then Some(n) else None
  {
    DecimalDigits(n);
    DigitsHaveNoSpaces(Decimal(n));
    ValueOfDecimal(n);
    DecimalLengthExactly(n, 7);
    assert Pow10(7) == 10_000_000 by {
      assert Pow10(3) == 1_000;
    }
  }

  /** White space in it does not matter, wherever it stands. */
  lemma QuantityIgnoresSpaces(a: string, gap: string, b: string)
    requires AllSpaces(gap)
    ensures QuantityOf(a + gap + b) == QuantityOf(a + b)
  {
    SpacesVanish(gap);
    WithoutSpacesAdds(a + gap, b);
    WithoutSpacesAdds(a, gap);
    WithoutSpacesAdds(a, b);
    assert WithoutSpaces(a) + "" == WithoutSpaces(a);
  }

  lemma {:induction false} SpacesVanish(gap: string)
    requires AllSpaces(gap)
    ensures WithoutSpaces(gap) == ""
  {
    if gap != "" {
      assert AllSpaces(gap[1..]);
      SpacesVanish(gap[1..]);
    }
  }

  /** Any other character makes it no quantity. */
  lemma QuantityRefuses(cell: string, i: nat)
    requires i < |cell| && !IsDigit(cell[i]) && !IsSpace(cell[i])
    ensures QuantityOf(cell) == None
  {
    SpacesKeep(cell, cell[i]);
  }

  lemma {:induction false} SpacesKeep(s: string, c: char)
    requires c in s && !IsSpace(c)
    ensures c in WithoutSpaces(s)
  {
    assert s == [s[0]] + s[1..];
    if c in s[1..] {
      SpacesKeep(s[1..], c);
    }
  }

  // ---------------------------------------------------------------------
  // Cells that hold several values
  // ---------------------------------------------------------------------

  /** Splitting loses nothing but the separators, and no part contains one. */
  lemma {:induction false} SplitExactly(s: string, separator: char)
    ensures Join(Split(s, separator), [separator]) == s
    ensures forall i :: 0 <= i < |Split(s, separator)| ==> separator !in Split(s, separator)[i]
  {
    if s != "" {
      var rest := Split(s[1..], separator);
      SplitExactly(s[1..], separator);
      assert s == [s[0]] + s[1..];
      if s[0] == separator {
        assert ([""] + rest)[1..] == rest;
      } else {
        var parts := [[s[0]] + rest[0]] + rest[1..];
        assert parts[1..] == rest[1..];
        assert separator !in rest[0];
        forall i | 0 <= i < |parts| ensures separator !in parts[i] {
          if i > 0 {
            assert parts[i] == rest[i];
          }
        }
      }
    }
  }

  /** The values keep the order in which they first appear: the list of the first parts is
      where the list of all parts begins. */
  lemma {:induction false} CollectKeepsOrder(parts: seq<string>, n: nat)
    requires n <= |parts|
    ensures Collect(parts[..n]) <= Collect(parts)
  {
    if n < |parts| {
      var last := |parts| - 1;
      CollectKeepsOrder(parts[..last], n);
      assert parts[..last][..n] == parts[..n];
    } else {
      assert parts[..n] == parts;
    }
  }

  lemma {:induction false} CollectExactly(parts: seq<string>)
    ensures forall i, j :: 0 <= i < j < |Collect(parts)| ==> Collect(parts)[i] != Collect(parts)[j]
    ensures forall v :: v in Collect(parts) <==> v != "" && exists i :: 0 <= i < |parts| && Trim(parts[i]) == v
  {
    if parts != [] {
      var n := |parts| - 1;
      CollectExactly(parts[..n]);
      assert forall i :: 0 <= i < n ==> parts[..n][i] == parts[i];
      forall v ensures v in Collect(parts) <==> v != "" && exists i :: 0 <= i < |parts| && Trim(parts[i]) == v {
        assert v in Collect(parts) <==> v in Collect(parts[..n]) || (v == Trim(parts[n]) && v != "");
        if v in Collect(parts[..n]) {
          var i :| 0 <= i < n && Trim(parts[..n][i]) == v;
          assert Trim(parts[i]) == v;
        }
      }
    }
  }

  /** A cell without the separator is one part, and a separator ends a part. */
  lemma {:induction false} SplitsAt(head: string, separator: char, tail: string)
    requires separator !in head
    ensures Split(head, separator) == [head]
    ensures Split(head + [separator] + tail, separator) == [head] + Split(tail, separator)
  {
    if head == "" {
      assert head + [separator] + tail == [separator] + tail;
    } else {
      SplitsAt(head[1..], separator, tail);
      assert head == [head[0]] + head[1..];
      assert (head + [separator] + tail)[1..] == head[1..] + [separator] + tail;
    }
  }

  // ---------------------------------------------------------------------
  // The documented form of a truck
  // ---------------------------------------------------------------------

  /** A name that a cell can hold: trimmed, not empty, without a slash. */
  ghost predicate CleanName(s: string) {
    Trimmed(s) && '/' !in s
  }

  predicate IsYear(n: nat) {
    1000 <= n <= 9999
  }

  /** "2012-2024", or "2012+" when production goes on. */
  function YearsCell(start: nat, end: Option<nat>): string {
    Decimal(start) + if end.Some? then "-" + Decimal(end.value) else "+"
  }

  /** "Make / Model / 2012-2024 / Engine", as the template writes it. */
  function VehicleCell(v: VehicleRef): string {
    v.manufacturer + " / " + v.model + " / " + YearsCell(v.yearStart, v.yearEnd)
    + if v.engine.Some? then " / " + v.engine.value else ""
  }

  lemma YearHasFourDigits(n: nat)
    requires IsYear(n)
    ensures FourDigits(Decimal(n)) && Value(Decimal(n)) == n
  {
    ValueOfDecimal(n);
    DecimalDigits(n);
    assert |Decimal(n / 10 / 10 / 10)| == 1;
    assert |Decimal(n / 10 / 10)| == 2;
    assert |Decimal(n / 10)| == 3;
  }

  lemma YearsRoundTrip(start: nat, end: Option<nat>)
    requires IsYear(start) && (end.Some? ==> IsYear(end.value))
    ensures YearsOf(YearsCell(start, end)) == Some(Years(start, end))
    ensures var s := YearsCell(start, end); CleanName(s)
  {
    var s := YearsCell(start, end);
    YearHasFourDigits(start);
    assert s[..4] == Decimal(start);
    if end.Some? {
      YearHasFourDigits(end.value);
      assert s[4..] == "-" + Decimal(end.value);
      assert TrimLeft(s[4..])[1..] == Decimal(end.value);
    } else {
      assert s[4..] == "+";
    }
  }

  /** Also with white space around the dash, and with the long dash. */
  lemma YearsAreRead(start: nat, end: nat, dash: char, gap: string, gap': string)
    requires IsYear(start) && IsYear(end) && dash in {'-', '\U{2013}'} && AllSpaces(gap) && AllSpaces(gap')
    ensures YearsOf(Decimal(start) + gap + [dash] + gap' + Decimal(end)) == Some(Years(start, Some(end)))
  {
    YearHasFourDigits(start);
    YearHasFourDigits(end);
    var s, tail := Decimal(start) + gap + [dash] + gap' + Decimal(end), [dash] + (gap' + Decimal(end));
    assert s == Decimal(start) + (gap + tail);
    HeadAndTail(Decimal(start), gap + tail);
    TrimsGap(gap, tail);
    assert tail[1..] == gap' + Decimal(end);
    TrimsGap(gap', Decimal(end));
  }

  lemma HeadAndTail(head: string, tail: string)
    requires |head| == 4
    ensures (head + tail)[..4] == head && (head + tail)[4..] == tail
  {
  }

  /** Production that goes on, and a single year. */
  lemma OpenYearsAreRead(start: nat, gap: string)
    requires IsYear(start) && AllSpaces(gap)
    ensures YearsOf(Decimal(start) + gap + "+") == YearsOf(Decimal(start)) == Some(Years(start, None))
  {
    YearHasFourDigits(start);
    assert Decimal(start) + gap + "+" == Decimal(start) + (gap + "+");
    HeadAndTail(Decimal(start), gap + "+");
    TrimsGap(gap, "+");
    HeadAndTail(Decimal(start), "");
    assert Decimal(start) + "" == Decimal(start);
  }

  lemma {:induction false} TrimsGap(gap: string, s: string)
    requires AllSpaces(gap) && s != "" && !IsSpace(s[0])
    ensures TrimLeft(gap + s) == s
  {
    if gap == "" {
      assert gap + s == s;
    } else {
      assert (gap + s)[1..] == gap[1..] + s && AllSpaces(gap[1..]);
      TrimsGap(gap[1..], s);
    }
  }

  lemma TrimsAround(s: string)
    requires Trimmed(s)
    ensures Trim(s) == s && Trim(" " + s) == s && Trim(s + " ") == s && Trim(" " + s + " ") == s
  {
    assert (" " + s)[1..] == s && (" " + s + " ")[1..] == s + " " && (s + " ")[..|s|] == s;
  }

  /** What is left of the cell after make and model. */
  function YearsAndEngine(v: VehicleRef): string {
    " " + YearsCell(v.yearStart, v.yearEnd) + if v.engine.Some? then " / " + v.engine.value else ""
  }

  lemma SplitsTail(v: VehicleRef)
    requires '/' !in YearsCell(v.yearStart, v.yearEnd) && (v.engine.Some? ==> '/' !in v.engine.value)
    ensures var years := " " + YearsCell(v.yearStart, v.yearEnd);
            Split(YearsAndEngine(v), '/') == if v.engine.Some? then [years + " ", " " + v.engine.value] else [years]
  {
    var years := " " + YearsCell(v.yearStart, v.yearEnd);
    if v.engine.Some? {
      assert YearsAndEngine(v) == (years + " ") + ['/'] + (" " + v.engine.value);
      SplitsAt(years + " ", '/', " " + v.engine.value);
      SplitsAt(" " + v.engine.value, '/', "");
    } else {
      assert YearsAndEngine(v) == years;
      SplitsAt(years, '/', "");
    }
  }

  lemma SplitsCell(v: VehicleRef)
    requires '/' !in v.manufacturer && '/' !in v.model
    ensures Split(VehicleCell(v), '/') == [v.manufacturer + " ", " " + v.model + " "] + Split(YearsAndEngine(v), '/')
  {
    var a, b, rest := v.manufacturer + " ", " " + v.model + " ", YearsAndEngine(v);
    assert VehicleCell(v) == a + ['/'] + (b + ['/'] + rest);
    SplitsAt(a, '/', b + ['/'] + rest);
    SplitsAt(b, '/', rest);
  }

  ghost predicate WellWritten(v: VehicleRef) {
    && CleanName(v.manufacturer) && CleanName(v.model) && (v.engine.Some? ==> CleanName(v.engine.value))
    && IsYear(v.yearStart) && (v.yearEnd.Some? ==> IsYear(v.yearEnd.value))
  }

  lemma TrimsParts(manufacturer: string, model: string, years: string, engine: seq<string>)
    requires Trimmed(manufacturer) && Trimmed(model) && Trimmed(years) && |engine| <= 1 &&
              (engine != [] ==> Trimmed(engine[0]))
    ensures TrimAll([manufacturer + " ", " " + model + " "] + if engine != []
            then [" " + years + " ", " " + engine[0]] else [" " + years])
              == [manufacturer, model, years] + engine
  {
    TrimsAround(manufacturer);
    TrimsAround(model);
    TrimsAround(years);
    if engine != [] {
      TrimsAround(engine[0]);
    }
  }

  lemma PartsOfCell(v: VehicleRef)
    requires WellWritten(v)
    ensures TrimAll(Split(VehicleCell(v), '/')) ==
              [v.manufacturer, v.model, YearsCell(v.yearStart, v.yearEnd)] + if v.engine.Some?
                then [v.engine.value] else []
  {
    var years := YearsCell(v.yearStart, v.yearEnd);
    YearsRoundTrip(v.yearStart, v.yearEnd);
    SplitsTail(v);
    SplitsCell(v);
    TrimsParts(v.manufacturer, v.model, years, if v.engine.Some? then [v.engine.value] else []);
  }

  /** A truck written in the documented form is read back as it is, unless its production
      ends before it starts: then it is refused. */
  lemma VehicleRoundTrip(v: VehicleRef)
    requires WellWritten(v)
    ensures VehicleOf(VehicleCell(v)) == if v.yearEnd.Some? && v.yearEnd.value < v.yearStart then None else Some(v)
  {
    PartsOfCell(v);
    YearsRoundTrip(v.yearStart, v.yearEnd);
    var engine := if v.engine.Some? then [v.engine.value] else [];
    assert TrimAll(Split(VehicleCell(v), '/'))[3..] == engine;
    assert Join(engine, " / ") == v.engine.GetOr("");
    if v.engine.Some? {
      TrimsAround(v.engine.value);
    }
  }
}
