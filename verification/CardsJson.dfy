/** Card-id arrays in messages: the printer (game_view_builder.cpp) and the parser (message.cpp). */
module CardsJson {
  import opened Cards

  /** Largest value of the library's unsigned long. */
  const ULONG_MAX := 0xffff_ffff_ffff_ffff

  predicate IsDigit(c: char) {
    '0' <= c <= '9'
  }

  predicate IsBlank(c: char) {
    c == ' ' || c == ','
  }

  // ----- printing -----

  function Decimal(n: nat): (s: string)
    ensures s != "" && forall i :: 0 <= i < |s| ==> IsDigit(s[i])
  {
    if n < 10 then ['0' + n as char] else Decimal(n / 10) + ['0' + (n % 10) as char]
  }

  function Joined(cards: seq<CardId>, k: nat): string
    requires k <= |cards|
  {
    if k == 0 then "" else Joined(cards, k - 1) + (if k > 1 then "," else "") + Decimal(cards[k - 1])
  }

  function Printed(cards: seq<CardId>): string {
    "[" + Joined(cards, |cards|) + "]"
  }

  method CardIdsToJsonArray(cards: seq<CardId>) returns (s: string)
    ensures s == Printed(cards)
  {
    s := "[";
    for i := 0 to |cards|
      invariant s == "[" + Joined(cards, i)
    {
      if i > 0 {
        s := s + ",";
      }
      s := s + Decimal(cards[i]);
    }
    s := s + "]";
  }

  // ----- parsing -----

  /** How a call ends: with a list, with the exception for a number that is too large, or not at all. */
  datatype Outcome = Parsed(cards: seq<CardId>) | OutOfRange | Endless

  predicate Stands(s: string, key: string, i: nat) {
    i + |key| <= |s| && s[i..i + |key|] == key
  }

  /** First position from `pos` on where `key` stands; -1 if nowhere. */
  function Find(s: string, key: string, pos: nat): (r: int)
    ensures r >= -1 && (r >= 0 ==> pos <= r && Stands(s, key, r))
    ensures forall i: nat :: pos <= i && (r == -1 || i < r) ==> !Stands(s, key, i)
    decreases |s| - pos
  {
    if Stands(s, key, pos) then pos else if pos < |s| then Find(s, key, pos + 1) else -1
  }

  function SkipBlanks(s: string, pos: nat): (r: nat)
    requires pos <= |s|
    ensures pos <= r <= |s| && (forall i :: pos <= i < r ==> IsBlank(s[i])) && (r < |s| ==> !IsBlank(s[r]))
    decreases |s| - pos
  {
    if pos < |s| && IsBlank(s[pos]) then SkipBlanks(s, pos + 1) else pos
  }

  function SkipDigits(s: string, pos: nat): (r: nat)
    requires pos <= |s|
    ensures pos <= r <= |s| && (forall i :: pos <= i < r ==> IsDigit(s[i])) && (r < |s| ==> !IsDigit(s[r]))
    decreases |s| - pos
  {
    if pos < |s| && IsDigit(s[pos]) then SkipDigits(s, pos + 1) else pos
  }

  function Value(digits: string): nat
    requires forall i :: 0 <= i < |digits| ==> IsDigit(digits[i])
  {
    if digits == "" then 0
    else
      var last := digits[|digits| - 1];
      assert IsDigit(last);
      Value(digits[..|digits| - 1]) * 10 + (last - '0') as nat
  }

  predicate AtEnd(s: string, pos: nat)
    requires pos <= |s|
  {
    pos == |s| || s[pos] == ']'
  }

  /** The loop from `pos` on. A turn that does not move the position would be repeated for ever. */
  function Scan(s: string, pos: nat): Outcome
    requires pos <= |s|
    decreases |s| - pos
  {
    if AtEnd(s, pos) then Parsed([])
    else
      var start := SkipBlanks(s, pos);
      if AtEnd(s, start) then Parsed([])
      else
        var end := SkipDigits(s, start);
        if end == start then Endless
        else if Value(s[start..end]) > ULONG_MAX then OutOfRange
        else match Scan(s, end)
          case Parsed(rest) => Parsed([Value(s[start..end]) % 0x1_0000] + rest)
          case other => other
  }

  const KEY := "\"cards\":"

  function Parse(json: string): Outcome {
    var key := Find(json, KEY, 0);
    if key < 0 then Parsed([])
    else
      var open := Find(json, "[", key);
      if open < 0 then Parsed([]) else Scan(json, open + 1)
  }

  method ParseNumber(s: string, start: nat) returns (end: nat)
    requires start <= |s|
    ensures end == SkipDigits(s, start)
  {
    end := start;
    while end < |s| && IsDigit(s[end])
      invariant start <= end <= |s| && SkipDigits(s, start) == SkipDigits(s, end)
    {
      end := end + 1;
    }
  }

  method SkipSeparators(s: string, start: nat) returns (pos: nat)
    requires start <= |s|
    ensures pos == SkipBlanks(s, start)
  {
    pos := start;
    while pos < |s| && IsBlank(s[pos])
      invariant start <= pos <= |s| && SkipBlanks(s, start) == SkipBlanks(s, pos)
    {
      pos := pos + 1;
    }
  }

  /** What comes before the rest of the scan. */
  function Before(cards: seq<CardId>, o: Outcome): Outcome {
    match o
    case Parsed(rest) => Parsed(cards + rest)
    case other => other
  }

  /** One number of the list. */
  lemma ScanNumber(s: string, pos: nat, cards: seq<CardId>)
    requires pos <= |s| && !AtEnd(s, pos) && !AtEnd(s, SkipBlanks(s, pos))
    requires var start := SkipBlanks(s, pos);
             SkipDigits(s, start) != start && Value(s[start..SkipDigits(s, start)]) <= ULONG_MAX
    ensures var start := SkipBlanks(s, pos); var end := SkipDigits(s, start);
            Before(cards, Scan(s, pos)) == Before(cards + [Value(s[start..end]) % 0x1_0000], Scan(s, end))
  {
    hide SkipBlanks, SkipDigits, Value;
    var start := SkipBlanks(s, pos);
    var end := SkipDigits(s, start);
    var number := [Value(s[start..end]) % 0x1_0000];
    if Scan(s, end).Parsed? {
      assert cards + (number + Scan(s, end).cards) == (cards + number) + Scan(s, end).cards;
    }
  }

  method ParseCardsArray(json: string) returns (r: Outcome)
    ensures r == Parse(json)
  {
    hide Find, SkipBlanks, SkipDigits, Value;
    var key := Find(json, KEY, 0);
    if key < 0 {
      return Parsed([]);
    }
    var open := Find(json, "[", key);
    if open < 0 {
      return Parsed([]);
    }
    var pos := open + 1;
    var cards: seq<CardId> := [];
    while pos < |json| && json[pos] != ']'
      invariant open < pos <= |json|
      invariant Before(cards, Scan(json, pos)) == Parse(json)
    {
      ghost var before := pos;
      pos := SkipSeparators(json, pos);
      if pos >= |json| || json[pos] == ']' {
        break;
      }
      var end := ParseNumber(json, pos);
      if end == pos {
        return Endless;
      }
      var number := Value(json[pos..end]);
      if number > ULONG_MAX {
        return OutOfRange;
      }
      ScanNumber(json, before, cards);
      cards := cards + [number % 0x1_0000];
      pos := end;
    }
    r := Parsed(cards);
  }

  // ----- round trip -----

  lemma {:induction false} ValueOfDecimal(n: nat)
    ensures Value(Decimal(n)) == n
  {
    if n >= 10 {
      ValueOfDecimal(n / 10);
      var s := Decimal(n);
      assert s[..|s| - 1] == Decimal(n / 10);
    } else {
      assert Value(Decimal(n)[..0]) == 0;
    }
  }

  lemma {:induction false} SkipBlanksIs(s: string, pos: nat, r: nat)
    requires pos <= r <= |s| && (forall i :: pos <= i < r ==> IsBlank(s[i])) && (r < |s| ==> !IsBlank(s[r]))
    ensures SkipBlanks(s, pos) == r
    decreases r - pos
  {
    if pos < r {
      SkipBlanksIs(s, pos + 1, r);
    }
  }

  lemma {:induction false} SkipDigitsIs(s: string, pos: nat, r: nat)
    requires pos <= r <= |s| && (forall i :: pos <= i < r ==> IsDigit(s[i])) && (r < |s| ==> !IsDigit(s[r]))
    ensures SkipDigits(s, pos) == r
    decreases r - pos
  {
    if pos < r {
      SkipDigitsIs(s, pos + 1, r);
    }
  }

  /** The printed list from card `k` on. */
  function JoinedFrom(cards: seq<CardId>, k: nat): string
    requires k <= |cards|
    decreases |cards| - k
  {
    if k == |cards| then "" else (if k > 0 then "," else "") + Decimal(cards[k]) + JoinedFrom(cards, k + 1)
  }

  lemma {:induction false} JoinedSplits(cards: seq<CardId>, k: nat)
    requires k <= |cards|
    ensures Joined(cards, k) + JoinedFrom(cards, k) == Joined(cards, |cards|)
    decreases |cards| - k
  {
    hide Decimal;
    if k < |cards| {
      JoinedSplits(cards, k + 1);
      var comma, d := if k > 0 then "," else "", Decimal(cards[k]);
      assert Joined(cards, k + 1) == Joined(cards, k) + comma + d;
      assert Joined(cards, k) + (comma + d + JoinedFrom(cards, k + 1)) ==
          (Joined(cards, k) + comma + d) + JoinedFrom(cards, k + 1);
    } else {
      assert Joined(cards, k) + "" == Joined(cards, k);
    }
  }

  /** A printed number is read back, whatever separator comes before it. */
  lemma ScanPrinted(s: string, pos: nat, comma: string, n: CardId, after: nat)
    requires pos + |comma| + |Decimal(n)| == after < |s| && (comma == "" || comma == ",")
    requires s[pos..after] == comma + Decimal(n) && !IsDigit(s[after])
    ensures Scan(s, pos) == Before([n], Scan(s, after))
  {
    hide Decimal, Scan, Value;
    var start, d := pos + |comma|, Decimal(n);
    assert s[start..after] == s[pos..after][|comma|..] == d;
    forall i | start <= i < after
      ensures IsDigit(s[i])
    {
      assert s[i] == d[i - start];
    }
    assert comma == "," ==> s[pos] == s[pos..after][0] == ',';
    SkipBlanksIs(s, pos, start);
    SkipDigitsIs(s, start, after);
    ValueOfDecimal(n);
    ScanNumber(s, pos, []);
    BeforeNothing(Scan(s, pos));
  }

  lemma BeforeNothing(o: Outcome)
    ensures Before([], o) == o
  {
  }

  /** What follows a number of the list is a comma or the closing bracket. */
  lemma NextIsSeparator(cards: seq<CardId>, k: nat, post: string)
    requires 0 < k <= |cards|
    ensures var rest := JoinedFrom(cards, k) + "]" + post; rest != "" && !IsDigit(rest[0])
  {
    hide Decimal;
  }

  lemma SplitRest(s: string, pos: nat, a: string, rest: string)
    requires pos <= |s| && s[pos..] == a + rest
    ensures pos + |a| <= |s| && s[pos..pos + |a|] == a && s[pos + |a|..] == rest
  {
    assert s[pos..][..|a|] == a && s[pos..][|a|..] == rest;
  }

  lemma JoinedStep(cards: seq<CardId>, k: nat, post: string)
    requires k < |cards|
    ensures JoinedFrom(cards, k) + "]" + post ==
            ((if k > 0 then "," else "") + Decimal(cards[k])) + (JoinedFrom(cards, k + 1) + "]" + post)
  {
    hide Decimal;
  }

  lemma {:induction false} ScanList(s: string, pos: nat, cards: seq<CardId>, k: nat, post: string)
    requires pos <= |s| && k <= |cards| && s[pos..] == JoinedFrom(cards, k) + "]" + post
    ensures Scan(s, pos) == Parsed(cards[k..])
    decreases |cards| - k
  {
    hide Decimal, Before, JoinedFrom, Scan;
    if k == |cards| {
      ScanClosed(s, pos, cards, post);
    } else {
      var comma, rest := if k > 0 then "," else "", JoinedFrom(cards, k + 1) + "]" + post;
      JoinedStep(cards, k, post);
      SplitRest(s, pos, comma + Decimal(cards[k]), rest);
      var after := pos + |comma + Decimal(cards[k])|;
      NextIsSeparator(cards, k + 1, post);
      assert s[after] == s[after..][0];
      ScanPrinted(s, pos, comma, cards[k], after);
      ScanList(s, after, cards, k + 1, post);
      BeforeParsed(cards[k], cards[k + 1..]);
      assert cards[k..] == [cards[k]] + cards[k + 1..];
    }
  }

  lemma ScanClosed(s: string, pos: nat, cards: seq<CardId>, post: string)
    requires pos <= |s| && s[pos..] == JoinedFrom(cards, |cards|) + "]" + post
    ensures Scan(s, pos) == Parsed(cards[|cards|..])
  {
    assert s[pos..][0] == s[pos];
  }

  lemma BeforeParsed(x: CardId, rest: seq<CardId>)
    ensures Before([x], Parsed(rest)) == Parsed([x] + rest)
  {
  }

  /** Parsing what the printer printed after the key gives the cards back, in any message in which the key
      does not occur earlier. */
  lemma RoundTrip(pre: string, cards: seq<CardId>, post: string)
    requires forall i: nat :: i < |pre| ==> !Stands(pre + KEY + Printed(cards) + post, KEY, i)
    ensures Parse(pre + KEY + Printed(cards) + post) == Parsed(cards)
  {
    hide Scan, Printed, Find, JoinedFrom;
    var json := pre + KEY + Printed(cards) + post;
    assert |KEY| == 8;
    PrintedIs(cards, post);
    KeyAndBracket(pre, JoinedFrom(cards, 0) + "]" + post, json);
    FindIs(json, KEY, 0, |pre|);
    FindIs(json, "[", |pre|, |pre| + 8);
    ScanList(json, |pre| + 9, cards, 0, post);
    assert cards[0..] == cards;
  }

  lemma PrintedIs(cards: seq<CardId>, post: string)
    ensures Printed(cards) + post == "[" + (JoinedFrom(cards, 0) + "]" + post)
  {
    hide Decimal, JoinedFrom;
    JoinedSplits(cards, 0);
    assert Joined(cards, 0) == "";
    hide Joined;
    assert Joined(cards, 0) + JoinedFrom(cards, 0) == JoinedFrom(cards, 0);
  }

  lemma KeyAndBracket(pre: string, list: string, json: string)
    requires json == pre + KEY + ("[" + list)
    ensures Stands(json, KEY, |pre|) && Stands(json, "[", |pre| + 8) && json[|pre| + 9..] == list
    ensures forall i :: |pre| <= i < |pre| + 8 ==> !Stands(json, "[", i)
  {
    assert |KEY| == 8;
    assert json[|pre|..|pre| + 8] == KEY;
    assert json[|pre| + 8..|pre| + 9] == "[";
    forall i | |pre| <= i < |pre| + 8
      ensures !Stands(json, "[", i)
    {
      assert json[i] == KEY[i - |pre|] != '[';
      assert json[i..i + 1][0] == json[i];
    }
  }

  lemma FindIs(s: string, key: string, pos: nat, r: nat)
    requires pos <= r && Stands(s, key, r) && forall i :: pos <= i < r ==> !Stands(s, key, i)
    ensures Find(s, key, pos) == r
  {
  }

  // ----- when the parser does not come back -----

  /** A character that ends the list, or to which the loop has no answer. */
  predicate Odd(c: char) {
    !IsDigit(c) && !IsBlank(c)
  }

  /** `b` is the first character of the list that is no digit, comma or space, and it does not close it. */
  ghost predicate BreaksAt(s: string, pos: nat, b: int) {
    pos <= b < |s| && Odd(s[b]) && s[b] != ']' && forall i :: pos <= i < b ==> !Odd(s[i])
  }

  /** The digits of one whole number of the list. */
  ghost predicate NumberAt(s: string, pos: nat, i: int, j: int) {
    && pos <= i < j <= |s|
    && (forall k :: pos <= k < i ==> !Odd(s[k])) && (forall k :: i <= k < j ==> IsDigit(s[k]))
    && (i == pos || !IsDigit(s[i - 1])) && (j == |s| || !IsDigit(s[j]))
  }

  /** The list has a number that is too large for the library. */
  ghost predicate TooLarge(s: string, pos: nat) {
    exists i, j :: NumberAt(s, pos, i, j) && Value(s[i..j]) > ULONG_MAX
  }

  ghost predicate Broken(s: string, pos: nat) {
    exists b :: BreaksAt(s, pos, b)
  }

  /** How the scan ends, said of the text alone. */
  ghost predicate ScanEnds(s: string, pos: nat)
    requires pos <= |s|
  {
    && (Scan(s, pos) == OutOfRange <==> TooLarge(s, pos))
    && (Scan(s, pos) == Endless <==> Broken(s, pos) && !TooLarge(s, pos))
  }

  lemma NoNumber(s: string, pos: nat, start: nat, i: int, j: int)
    requires pos <= start <= |s| && (forall k :: pos <= k < start ==> IsBlank(s[k])) && (start < |s| ==> Odd(s[start]))
    ensures !NumberAt(s, pos, i, j)
  {
    if pos <= i < start {
      assert IsBlank(s[i]);
    } else if start <= i < |s| {
      assert Odd(s[start]);
    }
  }

  lemma NothingLeft(s: string, pos: nat)
    requires pos <= |s| && (AtEnd(s, pos) || AtEnd(s, SkipBlanks(s, pos)))
    ensures Scan(s, pos) == Parsed([]) && !TooLarge(s, pos) && !Broken(s, pos)
  {
    var start := SkipBlanks(s, pos);
    forall i, j
      ensures !NumberAt(s, pos, i, j)
    {
      NoNumber(s, pos, start, i, j);
    }
  }

  lemma StopsAtOdd(s: string, pos: nat)
    requires pos <= |s| && !AtEnd(s, pos)
    requires var start := SkipBlanks(s, pos); !AtEnd(s, start) && SkipDigits(s, start) == start
    ensures Scan(s, pos) == Endless && !TooLarge(s, pos) && Broken(s, pos)
  {
    var start := SkipBlanks(s, pos);
    assert BreaksAt(s, pos, start);
    forall i, j
      ensures !NumberAt(s, pos, i, j)
    {
      NoNumber(s, pos, start, i, j);
    }
  }

  /** The numbers of the list are the first one and those behind it. */
  lemma NextNumbers(s: string, pos: nat, start: nat, end: nat, i: int, j: int)
    requires pos <= start < end <= |s| && (forall k :: pos <= k < start ==> IsBlank(s[k]))
    requires (forall k :: start <= k < end ==> IsDigit(s[k])) && (end < |s| ==> !IsDigit(s[end]))
    ensures NumberAt(s, pos, i, j) <==> (i == start && j == end) || NumberAt(s, end, i, j)
  {
    if NumberAt(s, pos, i, j) {
      assert IsDigit(s[i]);
    }
    if NumberAt(s, end, i, j) {
      assert IsDigit(s[i]);
    }
  }

  lemma BreaksLater(s: string, pos: nat, end: nat, b: int)
    requires pos <= end <= |s| && forall k :: pos <= k < end ==> !Odd(s[k])
    ensures BreaksAt(s, pos, b) <==> BreaksAt(s, end, b)
  {
  }

  lemma FirstNumber(s: string, pos: nat, start: nat, end: nat)
    requires pos <= start < end <= |s| && (forall k :: pos <= k < start ==> IsBlank(s[k]))
    requires (forall k :: start <= k < end ==> IsDigit(s[k])) && (end < |s| ==> !IsDigit(s[end]))
    ensures TooLarge(s, pos) <==> Value(s[start..end]) > ULONG_MAX || TooLarge(s, end)
    ensures Broken(s, pos) <==> Broken(s, end)
  {
    hide Value, NumberAt, BreaksAt;
    forall i, j
      ensures NumberAt(s, pos, i, j) <==> (i == start && j == end) || NumberAt(s, end, i, j)
    {
      NextNumbers(s, pos, start, end, i, j);
    }
    forall b
      ensures BreaksAt(s, pos, b) <==> BreaksAt(s, end, b)
    {
      BreaksLater(s, pos, end, b);
    }
  }

  lemma {:induction false} ScanMeaning(s: string, pos: nat)
    requires pos <= |s|
    ensures ScanEnds(s, pos)
    decreases |s| - pos
  {
    hide Value, TooLarge, Broken;
    var start := SkipBlanks(s, pos);
    var end := SkipDigits(s, start);
    if AtEnd(s, pos) || AtEnd(s, start) {
      NothingLeft(s, pos);
    } else if end == start {
      StopsAtOdd(s, pos);
    } else {
      FirstNumber(s, pos, start, end);
      ScanMeaning(s, end);
    }
  }

  /** First place of a key at or after a position. */
  ghost predicate FirstAt(s: string, key: string, pos: nat, r: nat) {
    pos <= r && Stands(s, key, r) && forall i: nat :: pos <= i < r ==> !Stands(s, key, i)
  }

  /** The list begins at `pos`: behind the first bracket behind the first key. */
  ghost predicate ListAt(json: string, pos: nat) {
    exists key: nat, open: nat :: FirstAt(json, KEY, 0, key) && FirstAt(json, "[", key, open) && pos == open + 1
  }

  lemma FirstAtIsFind(s: string, key: string, pos: nat, r: nat)
    ensures FirstAt(s, key, pos, r) <==> Find(s, key, pos) == r
  {
  }

  /** The parser reads the list if there is one, and finds no cards if there is none. */
  lemma ParseReads(json: string)
    ensures forall pos: nat :: ListAt(json, pos) ==> pos <= |json| && Parse(json) == Scan(json, pos)
    ensures (forall pos: nat :: !ListAt(json, pos)) ==> Parse(json) == Parsed([])
  {
    hide Scan, Find, FirstAt;
    var key := Find(json, KEY, 0);
    forall k: nat
      ensures FirstAt(json, KEY, 0, k) <==> k == key
    {
      FirstAtIsFind(json, KEY, 0, k);
    }
    if key >= 0 {
      var open := Find(json, "[", key);
      forall o: nat
        ensures FirstAt(json, "[", key, o) <==> o == open
      {
        FirstAtIsFind(json, "[", key, o);
      }
      if open >= 0 {
        var k: nat, o: nat := key, open;
        assert FirstAt(json, KEY, 0, k) && FirstAt(json, "[", k, o);
        assert ListAt(json, o + 1);
      }
    }
  }

  /** The parser throws exactly if a number of the list is too large. */
  lemma OutOfRangeIff(json: string)
    ensures Parse(json) == OutOfRange <==> exists pos: nat :: ListAt(json, pos) && TooLarge(json, pos)
  {
    hide Scan, Parse, ListAt, TooLarge, Broken;
    ParseReads(json);
    forall pos: nat | ListAt(json, pos)
      ensures ScanEnds(json, pos)
    {
      ScanMeaning(json, pos);
    }
  }

  /** The parser loops for ever exactly if a character other than digits, commas and spaces stands in the
      list before it is closed, and no number before that character is too large. */
  lemma EndlessIff(json: string)
    ensures Parse(json) == Endless <==> exists pos: nat ::
              ListAt(json, pos) && Broken(json, pos) && !TooLarge(json, pos)
  {
    hide Scan, Parse, ListAt, TooLarge, Broken;
    ParseReads(json);
    forall pos: nat | ListAt(json, pos)
      ensures ScanEnds(json, pos)
    {
      ScanMeaning(json, pos);
    }
  }

  /** A quoted number, for one, is never got past. */
  lemma QuotedNumberIsEndless()
    ensures Parse("\"cards\":[\"7\"]") == Endless
  {
    var json := "\"cards\":[\"7\"]";
    assert |json| == 13 && json[0..8] == KEY;
    assert json[8..9] == "[" && json[9] == '"';
    forall i | 0 <= i < 8
      ensures !Stands(json, "[", i)
    {
      assert json[i..i + 1][0] == json[i];
    }
    FindIs(json, KEY, 0, 0);
    FindIs(json, "[", 0, 8);
    StopsAtOdd(json, 9);
  }

  // ----- decimal notation -----

  /** The value of a numeral is that of its digits, tenfold from place to place; printing gives the digits of
      the number back, the last first. */
  lemma DecimalPlaces(n: nat, digits: string, last: char)
    requires (forall i :: 0 <= i < |digits| ==> IsDigit(digits[i])) && IsDigit(last)
    ensures Value(digits + [last]) == 10 * Value(digits) + (last as int - 48)
    ensures Decimal(n)[|Decimal(n)| - 1] as int == 48 + n % 10
    ensures n >= 10 ==> Decimal(n)[..|Decimal(n)| - 1] == Decimal(n / 10)
    ensures n < 10 ==> |Decimal(n)| == 1
  {
    assert (digits + [last])[..|digits|] == digits;
  }

  /** Two cards, as a message shows them. */
  lemma PrintedPair()
    ensures Printed([7, 12]) == "[7,12]"
  {
    assert Decimal(7) == "7" && Decimal(1) == "1" && Decimal(12) == Decimal(1) + ['2'];
    assert Joined([7, 12], 1) == Joined([7, 12], 0) + "" + "7";
  }
}
