/** Base64 with a running accumulator (sha1.cpp), against the three-byte blocks of RFC 4648, section 4. */
module Base64 {
  import opened Arithmetic

  type Byte = x: int | 0 <= x < 256

  /** A six-bit group. */
  type Sextet = x: int | 0 <= x < 64

  /** A signed 32-bit result of a left shift: congruent modulo 2 to the 32. */
  function Wrap(x: int): (r: int)
    ensures -0x8000_0000 <= r < 0x8000_0000
  {
    (x + 0x8000_0000) % 0x1_0000_0000 - 0x8000_0000
  }

  /** x >> n for the even shifts that occur; arithmetic, so a floor also for negative x. */
  function Shift(x: int, n: int): int
    requires n == 0 || n == 2 || n == 4 || n == 6
  {
    if n == 0 then x else if n == 2 then x / 4 else if n == 4 then x / 16 else x / 64
  }

  /** x & 0x3F on two's complement numbers. */
  function Low6(x: int): Sextet {
    x % 64
  }

  /** x & 0xFF on two's complement numbers. */
  function Low8(x: int): Byte {
    x % 256
  }

  /** The character of a six-bit value. */
  function Letter(v: Sextet): char {
    if v < 26 then 'A' + v as char
    else if v < 52 then 'a' + (v - 26) as char
    else if v < 62 then '0' + (v - 52) as char
    else if v == 62 then '+' else '/'
  }

  /** Value of a character, or -1. */
  function Digit(c: char): (v: int)
    ensures -1 <= v < 64
  {
    if 'A' <= c <= 'Z' then (c - 'A') as int
    else if 'a' <= c <= 'z' then (c - 'a') as int + 26
    else if '0' <= c <= '9' then (c - '0') as int + 52
    else if c == '+' then 62
    else if c == '/' then 63
    else -1
  }

  predicate IsSpace(c: char) {
    c == ' ' || 9 as char <= c <= 13 as char
  }

  lemma LetterDigit(v: Sextet)
    ensures Digit(Letter(v)) == v && Letter(v) != '=' && !IsSpace(Letter(v))
  {
  }

  // ----- what the encoder has to produce -----

  function Chars(sextets: seq<Sextet>): (s: string)
    ensures |s| == |sextets| && forall i :: 0 <= i < |s| ==> s[i] == Letter(sextets[i])
  {
    seq(|sextets|, i requires 0 <= i < |sextets| => Letter(sextets[i]))
  }

  /** Three bytes are four characters of six bits each. */
  function Block(a: Byte, b: Byte, c: Byte): (r: seq<Sextet>)
    ensures |r| == 4
  {
    var n: int := a * 65536 + b * 256 + c;
    [n / 262144 % 64, n / 4096 % 64, n / 64 % 64, n % 64]
  }

  /** A last group of one or two bytes is filled up with zero bytes; its last characters become '='. */
  function Encoded(d: seq<Byte>): string {
    if d == [] then ""
    else if |d| == 1 then Chars(Block(d[0], 0, 0)[..2]) + "=="
    else if |d| == 2 then Chars(Block(d[0], d[1], 0)[..3]) + "="
    else Chars(Block(d[0], d[1], d[2])) + Encoded(d[3..])
  }

  lemma {:induction false} EncodedLength(d: seq<Byte>)
    ensures |Encoded(d)| % 4 == 0 && |Encoded(d)| == (|d| + 2) / 3 * 4
  {
    hide Block, Letter;
    if |d| >= 3 {
      EncodedLength(d[3..]);
    }
  }

  /** The four groups of a block, byte by byte. */
  lemma BlockGroups(a: Byte, b: Byte, c: Byte)
    ensures Block(a, b, c) == [a / 4, a % 4 * 16 + b / 16, b % 16 * 4 + c / 64, c % 64]
  {
    var n: int := a * 65536 + b * 256 + c;
    DivMod(a / 4, 0, 64, a / 4);
    DivMod(n, a / 4, 262144, a % 4 * 65536 + b * 256 + c);
    DivMod(n, a * 16 + b / 16, 4096, b % 16 * 256 + c);
    DivMod(a * 16 + b / 16, a / 4, 64, a % 4 * 16 + b / 16);
    DivMod(n, a * 1024 + b * 4 + c / 64, 64, c % 64);
    DivMod(a * 1024 + b * 4 + c / 64, a * 16 + b / 16, 64, b % 16 * 4 + c / 64);
  }

  // ----- the encoder -----

  /** The six-bit groups that byte `i` - 1 completes. */
  function Added(d: seq<Byte>, i: nat): (r: seq<Sextet>)
    requires 0 < i <= |d|
    ensures |r| == if i % 3 == 0 then 2 else 1
  {
    if i % 3 == 1 then [d[i - 1] / 4]
    else if i % 3 == 2 then [d[i - 2] % 4 * 16 + d[i - 1] / 16]
    else [d[i - 2] % 16 * 4 + d[i - 1] / 64, d[i - 1] % 64]
  }

  /** The groups complete after `i` bytes, as the loop finds them. */
  function Sextets(d: seq<Byte>, i: nat): seq<Sextet>
    requires i <= |d|
  {
    if i == 0 then [] else Sextets(d, i - 1) + Added(d, i)
  }

  /** How many bits are left over after `i` bytes, and their value: the low bits of the last byte. */
  function LeftBits(i: nat): nat {
    if i % 3 == 1 then 2 else if i % 3 == 2 then 4 else 0
  }

  function Left(d: seq<Byte>, i: nat): (v: nat)
    requires i <= |d|
    ensures v < 16
  {
    if i % 3 == 1 then d[i - 1] % 4 else if i % 3 == 2 then d[i - 1] % 16 else 0
  }

  /** The accumulator ends in the left-over bits. */
  ghost predicate Holds(val: int, bits: nat, v: nat) {
    (bits == 2 ==> val % 4 == v) && (bits == 4 ==> val % 16 == v)
  }

  /** Shifting a byte in keeps the lowest four bits above it, whatever is lost at the top. */
  lemma ShiftIn(val: int, c: Byte) returns (h: int)
    ensures Wrap(val * 256) + c == 4096 * h + val % 16 * 256 + c
  {
    var m := (val * 256 + 0x8000_0000) / 0x1_0000_0000;
    h := val / 16 - m * 0x10_0000;
    assert val == 16 * (val / 16) + val % 16;
    assert Wrap(val * 256) == val * 256 - m * 0x1_0000_0000;
  }

  /** What the shifts read after one byte more. */
  lemma ByteIn(val: int, bits: nat, v: nat, c: Byte)
    requires Holds(val, bits, v) && (bits == 0 || bits == 2 || bits == 4)
    ensures var w := Wrap(val * 256) + c;
            && (bits == 0 ==> Low6(Shift(w, 2)) == c / 4 && w % 4 == c % 4)
            && (bits == 2 ==> Low6(Shift(w, 4)) == v * 16 + c / 16 && w % 16 == c % 16)
            && (bits == 4 ==> Low6(Shift(w, 6)) == v * 4 + c / 64 && Low6(Shift(w, 0)) == c % 64)
  {
    hide Wrap;
    var w, u := Wrap(val * 256) + c, val % 16;
    var h := ShiftIn(val, c);
    if bits == 0 {
      DivMod(w, 1024 * h + 64 * u + c / 4, 4, c % 4);
      DivMod(1024 * h + 64 * u + c / 4, 16 * h + u, 64, c / 4);
    } else if bits == 2 {
      DivMod(val, 4 * (val / 16) + u / 4, 4, u % 4);
      DivMod(w, 256 * h + 16 * u + c / 16, 16, c % 16);
      DivMod(256 * h + 16 * u + c / 16, 4 * h + u / 4, 64, v * 16 + c / 16);
    } else {
      DivMod(w, 64 * h + 4 * u + c / 64, 64, c % 64);
      DivMod(64 * h + 4 * u + c / 64, h, 64, v * 4 + c / 64);
    }
  }

  /** The characters still missing after the last byte: the left-over bits filled up with zeros. */
  function Rest(d: seq<Byte>): seq<Sextet> {
    if |d| % 3 == 1 then [Left(d, |d|) * 16] else if |d| % 3 == 2 then [Left(d, |d|) * 4] else []
  }

  function Padding(n: nat): string {
    if n % 3 == 1 then "==" else if n % 3 == 2 then "=" else ""
  }

  lemma CharsConcat(a: seq<Sextet>, b: seq<Sextet>)
    ensures Chars(a + b) == Chars(a) + Chars(b)
  {
  }

  /** The groups of a longer list: the first block, then the groups of the rest. */
  lemma {:induction false} FirstBlock(d: seq<Byte>, i: nat)
    requires 3 <= i <= |d|
    ensures Sextets(d, i) == Block(d[0], d[1], d[2]) + Sextets(d[3..], i - 3)
  {
    hide Block, Added;
    if i == 3 {
      FirstThree(d);
    } else {
      FirstBlock(d, i - 1);
      AddedLater(d, i);
    }
  }

  lemma AddedLater(d: seq<Byte>, i: nat)
    requires 3 < i <= |d|
    ensures Added(d, i) == Added(d[3..], i - 3)
  {
    var e := d[3..];
    assert d[i - 1] == e[i - 4] && i % 3 == (i - 3) % 3;
    assert i % 3 != 1 ==> d[i - 2] == e[i - 5];
  }

  lemma Joined(a: Sextet, b: Sextet, c: Sextet, e: Sextet)
    ensures [a] + [b] + [c, e] == [a, b, c, e]
    ensures [a, b, c, e][..2] == [a] + [b] && [a, b, c, e][..3] == [a] + [b] + [c]
  {
  }

  /** The groups of one block, byte by byte. */
  lemma BlockIsAdded(d: seq<Byte>)
    requires |d| >= 3
    ensures Block(d[0], d[1], d[2]) == Added(d, 1) + Added(d, 2) + Added(d, 3)
  {
    hide Block, Added;
    BlockGroups(d[0], d[1], d[2]);
    FirstAdded(d);
    Joined(d[0] / 4, d[0] % 4 * 16 + d[1] / 16, d[1] % 16 * 4 + d[2] / 64, d[2] % 64);
  }

  lemma FirstThree(d: seq<Byte>)
    requires |d| >= 3
    ensures Sextets(d, 3) == Block(d[0], d[1], d[2]) + Sextets(d[3..], 0)
  {
    hide Block, Added;
    BlockIsAdded(d);
    ThreeSteps(d);
  }

  lemma ThreeSteps(d: seq<Byte>)
    requires |d| >= 3
    ensures Sextets(d, 3) == Added(d, 1) + Added(d, 2) + Added(d, 3)
  {
    SextetsTwo(d);
    hide Added;
    assert Sextets(d, 3) == Sextets(d, 2) + Added(d, 3);
  }

  lemma FirstAdded(d: seq<Byte>)
    requires |d| >= 1
    ensures Added(d, 1) == [d[0] / 4]
    ensures |d| >= 2 ==> Added(d, 2) == [d[0] % 4 * 16 + d[1] / 16]
    ensures |d| >= 3 ==> Added(d, 3) == [d[1] % 16 * 4 + d[2] / 64, d[2] % 64]
  {
  }

  /** The groups found byte by byte are those of the blocks. */
  lemma {:induction false} SextetsAreBlocks(d: seq<Byte>)
    ensures Chars(Sextets(d, |d|) + Rest(d)) + Padding(|d|) == Encoded(d)
  {
    hide Block, Chars, Added;
    if |d| == 0 {
      NoChars();
    } else if |d| < 3 {
      ShortBlock(d);
    } else {
      var e := d[3..];
      SextetsAreBlocks(e);
      FirstBlock(d, |d|);
      SameRest(d);
      hide Sextets, Rest;
      assert Sextets(d, |d|) + Rest(d) == Block(d[0], d[1], d[2]) + (Sextets(e, |e|) + Rest(e));
      CharsConcat(Block(d[0], d[1], d[2]), Sextets(e, |e|) + Rest(e));
    }
  }

  lemma SextetsOne(d: seq<Byte>)
    requires |d| >= 1
    ensures Sextets(d, 1) == Added(d, 1)
  {
    hide Added;
    assert Sextets(d, 0) == [];
  }

  lemma SextetsTwo(d: seq<Byte>)
    requires |d| >= 2
    ensures Sextets(d, 2) == Added(d, 1) + Added(d, 2)
  {
    SextetsOne(d);
    hide Added;
    assert Sextets(d, 2) == Sextets(d, 1) + Added(d, 2);
  }

  lemma ShortBlock(d: seq<Byte>)
    requires |d| == 1 || |d| == 2
    ensures Chars(Sextets(d, |d|) + Rest(d)) + Padding(|d|) == Encoded(d)
  {
    hide Block, Chars, Added, Sextets, Rest, Encoded, Padding;
    ShortEncoded(d);
    if |d| == 1 {
      SextetsOne(d);
      OneByte(d);
    } else {
      SextetsTwo(d);
      TwoBytes(d);
    }
  }

  lemma ShortEncoded(d: seq<Byte>)
    ensures |d| == 1 ==> Encoded(d) == Chars(Block(d[0], 0, 0)[..2]) + Padding(|d|)
    ensures |d| == 2 ==> Encoded(d) == Chars(Block(d[0], d[1], 0)[..3]) + Padding(|d|)
  {
    hide Block, Chars;
  }

  lemma OneByte(d: seq<Byte>)
    requires |d| == 1
    ensures Added(d, 1) + Rest(d) == Block(d[0], 0, 0)[..2]
  {
    hide Block, Added;
    FirstAdded(d);
    BlockGroups(d[0], 0, 0);
    Joined(d[0] / 4, d[0] % 4 * 16, 0, 0);
  }

  lemma TwoBytes(d: seq<Byte>)
    requires |d| == 2
    ensures Added(d, 1) + Added(d, 2) + Rest(d) == Block(d[0], d[1], 0)[..3]
  {
    hide Block, Added;
    FirstAdded(d);
    BlockGroups(d[0], d[1], 0);
    Joined(d[0] / 4, d[0] % 4 * 16 + d[1] / 16, d[1] % 16 * 4, 0);
  }

  lemma NoChars()
    ensures Chars([]) == ""
  {
  }

  lemma SameRest(d: seq<Byte>)
    requires |d| >= 3
    ensures Rest(d) == Rest(d[3..]) && Padding(|d|) == Padding(|d[3..]|)
  {
    assert |d| % 3 == |d[3..]| % 3;
    if |d| > 3 {
      assert d[|d| - 1] == d[3..][|d[3..]| - 1];
    }
  }

  /** One byte: as many characters as there are six bits together. */
  method EncodeByte(val: int, valb: int, c: Byte, ghost d: seq<Byte>, ghost i: nat)
      returns (val': int, valb': int, added: string)
    requires i < |d| && c == d[i] && valb == LeftBits(i) - 6 && Holds(val, LeftBits(i), Left(d, i))
    ensures valb' == LeftBits(i + 1) - 6 && Holds(val', LeftBits(i + 1), Left(d, i + 1))
    ensures added == Chars(Added(d, i + 1))
  {
    hide Wrap, Shift, Letter;
    ByteIn(val, LeftBits(i), Left(d, i), c);
    val' := Wrap(val * 256) + c;
    valb' := valb + 8;
    added := "";
    ghost var groups, first := Added(d, i + 1), valb';
    while valb' >= 0
      invariant |added| <= |groups| && valb' == first - 6 * |added| && (valb' >= 0 <==> |added| < |groups|)
      invariant forall k :: 0 <= k < |added| ==> added[k] == Letter(groups[k])
    {
      added := added + [Letter(Low6(Shift(val', valb')))];
      valb' := valb' - 6;
    }
  }

  method Encode(data: seq<Byte>) returns (out: string)
    ensures out == Encoded(data)
  {
    hide Wrap, Shift, Letter, Added, Encoded;
    out := "";
    var val, valb := 0, -6;
    for i := 0 to |data|
      invariant valb == LeftBits(i) - 6 && Holds(val, LeftBits(i), Left(data, i))
      invariant out == Chars(Sextets(data, i))
    {
      var more;
      val, valb, more := EncodeByte(val, valb, data[i], data, i);
      CharsConcat(Sextets(data, i), Added(data, i + 1));
      out := out + more;
    }
    ghost var groups := Sextets(data, |data|) + Rest(data);
    CharsConcat(Sextets(data, |data|), Rest(data));
    if valb > -6 {
      ByteIn(val, LeftBits(|data|), Left(data, |data|), 0);
      out := out + [Letter(Low6(Shift(Wrap(val * 256), valb + 8)))];
    }
    SextetsAreBlocks(data);
    EncodedLength(data);
    out := Pad(out, |data|);
  }

  /** Fills up with '=' to a multiple of four. */
  method Pad(s: string, ghost n: nat) returns (out: string)
    requires (|s| + |Padding(n)|) % 4 == 0
    ensures out == s + Padding(n)
  {
    out := s;
    while |out| % 4 != 0
      invariant |s| <= |out| <= |s| + |Padding(n)| && out == s + Padding(n)[..|out| - |s|]
      decreases |s| + |Padding(n)| - |out|
    {
      out := out + "=";
    }
  }

  // ----- the decoder -----

  /** The values of the first `k` characters that have one; spaces, '=' and other characters are passed over. */
  function Digits(s: string, k: nat): seq<Sextet>
    requires k <= |s|
  {
    if k == 0 then []
    else Digits(s, k - 1) + if IsSpace(s[k - 1]) || s[k - 1] == '=' || Digit(s[k - 1]) < 0 then []
        else [Digit(s[k - 1])]
  }

  /** The byte that digit `i` - 1 completes. */
  function Completed(ds: seq<Sextet>, i: nat): (r: seq<Byte>)
    requires 0 < i <= |ds|
    ensures |r| == if i % 4 == 1 then 0 else 1
  {
    if i % 4 == 1 then []
    else
      var a: int, b: int := ds[i - 2], ds[i - 1];
      if i % 4 == 2 then [a * 4 + b / 16] else if i % 4 == 3 then [a % 16 * 16 + b / 4] else [a % 4 * 64 + b]
  }

  function Bytes(ds: seq<Sextet>, i: nat): seq<Byte>
    requires i <= |ds|
  {
    if i == 0 then [] else Bytes(ds, i - 1) + Completed(ds, i)
  }

  function Decoded(s: string): seq<Byte> {
    Bytes(Digits(s, |s|), |Digits(s, |s|)|)
  }

  function KeptBits(i: nat): nat {
    if i % 4 == 1 then 6 else if i % 4 == 2 then 4 else if i % 4 == 3 then 2 else 0
  }

  function Kept(ds: seq<Sextet>, i: nat): (v: nat)
    requires i <= |ds|
    ensures v < 64
  {
    if i % 4 == 1 then ds[i - 1] else if i % 4 == 2 then ds[i - 1] % 16 else if i % 4 == 3 then ds[i - 1] % 4 else 0
  }

  ghost predicate Keeps(val: int, bits: nat, v: nat) {
    (bits == 6 ==> val % 64 == v) && (bits == 4 ==> val % 16 == v) && (bits == 2 ==> val % 4 == v)
  }

  lemma ShiftDigit(val: int, c: Sextet) returns (h: int)
    ensures Wrap(val * 64) + c == 4096 * h + val % 64 * 64 + c
  {
    var m := (val * 64 + 0x8000_0000) / 0x1_0000_0000;
    h := val / 64 - m * 0x10_0000;
    assert val == 64 * (val / 64) + val % 64;
    assert Wrap(val * 64) == val * 64 - m * 0x1_0000_0000;
  }

  /** What the shifts read after one digit more. */
  lemma DigitIn(val: int, bits: nat, v: nat, c: Sextet)
    requires Keeps(val, bits, v) && (bits == 0 || bits == 2 || bits == 4 || bits == 6)
    ensures var w := Wrap(val * 64) + c;
            && (bits == 0 ==> w % 64 == c)
            && (bits == 6 ==> Low8(Shift(w, 4)) == v * 4 + c / 16 && w % 16 == c % 16)
            && (bits == 4 ==> Low8(Shift(w, 2)) == v * 16 + c / 4 && w % 4 == c % 4)
            && (bits == 2 ==> Low8(Shift(w, 0)) == v * 64 + c)
  {
    hide Wrap;
    var w, u := Wrap(val * 64) + c, val % 64;
    var h := ShiftDigit(val, c);
    if bits == 0 {
      DivMod(w, 64 * h + u, 64, c);
    } else if bits == 6 {
      DivMod(w, 256 * h + 4 * u + c / 16, 16, c % 16);
      DivMod(256 * h + 4 * u + c / 16, h, 256, v * 4 + c / 16);
    } else if bits == 4 {
      DivMod(val, 4 * (val / 64) + u / 16, 16, u % 16);
      DivMod(w, 1024 * h + 16 * u + c / 4, 4, c % 4);
      DivMod(1024 * h + 16 * u + c / 4, 4 * h + u / 16, 256, v * 16 + c / 4);
    } else {
      DivMod(val, 16 * (val / 64) + u / 4, 4, u % 4);
      DivMod(w, 16 * h + u / 4, 256, v * 64 + c);
    }
  }

  /** One digit: a byte as soon as there are eight bits together. */
  method DecodeDigit(val: int, valb: int, c: Sextet, ghost ds: seq<Sextet>, ghost i: nat)
      returns (val': int, valb': int, more: seq<Byte>)
    requires i < |ds| && c == ds[i] && valb == KeptBits(i) - 8 && Keeps(val, KeptBits(i), Kept(ds, i))
    ensures valb' == KeptBits(i + 1) - 8 && Keeps(val', KeptBits(i + 1), Kept(ds, i + 1))
    ensures more == Completed(ds, i + 1)
  {
    hide Wrap, Shift, Low8;
    DigitIn(val, KeptBits(i), Kept(ds, i), c);
    val' := Wrap(val * 64) + c;
    valb' := valb + 6;
    more := [];
    if valb' >= 0 {
      more := [Low8(Shift(val', valb'))];
      valb' := valb' - 8;
    }
  }

  lemma {:induction false} DigitsPrefix(s: string, k: nat, l: nat)
    requires k <= l <= |s|
    ensures Digits(s, k) <= Digits(s, l)
    decreases l - k
  {
    hide Digit, IsSpace;
    if k < l {
      DigitsPrefix(s, k, l - 1);
    }
  }

  method Decode(encoded: string) returns (out: seq<Byte>)
    ensures out == Decoded(encoded)
  {
    hide Wrap, Shift, Low8, Digit, IsSpace, Completed;
    out := [];
    var val, valb := 0, -8;
    ghost var ds, i := Digits(encoded, |encoded|), 0;
    for k := 0 to |encoded|
      invariant i == |Digits(encoded, k)| <= |ds|
      invariant valb == KeptBits(i) - 8 && Keeps(val, KeptBits(i), Kept(ds, i))
      invariant out == Bytes(ds, i)
    {
      DigitsPrefix(encoded, k + 1, |encoded|);
      var c := encoded[k];
      if IsSpace(c) || c == '=' {
        continue;
      }
      var decoded := Digit(c);
      if decoded < 0 {
        continue;
      }
      assert Digits(encoded, k + 1)[i] == decoded;
      var more;
      val, valb, more := DecodeDigit(val, valb, decoded, ds, i);
      out := out + more;
      i := i + 1;
    }
  }

  // ----- round trip -----

  /** The bytes of a longer list of digits: those of the first four, then those of the rest. */
  lemma {:induction false} FirstBytes(ds: seq<Sextet>, i: nat)
    requires 4 <= i <= |ds|
    ensures Bytes(ds, i) == Bytes(ds[..4], 4) + Bytes(ds[4..], i - 4)
  {
    hide Completed;
    if i == 4 {
      BytesOfPrefix(ds, 4);
    } else {
      FirstBytes(ds, i - 1);
      CompletedLater(ds, i);
    }
  }

  lemma {:induction false} BytesOfPrefix(ds: seq<Sextet>, k: nat)
    requires k <= 4 <= |ds|
    ensures Bytes(ds, k) == Bytes(ds[..4], k)
  {
    hide Completed;
    if k > 0 {
      BytesOfPrefix(ds, k - 1);
      CompletedInPrefix(ds, k);
    }
  }

  lemma CompletedInPrefix(ds: seq<Sextet>, k: nat)
    requires 0 < k <= 4 <= |ds|
    ensures Completed(ds, k) == Completed(ds[..4], k)
  {
    assert ds[k - 1] == ds[..4][k - 1];
    assert k > 1 ==> ds[k - 2] == ds[..4][k - 2];
  }

  lemma CompletedLater(ds: seq<Sextet>, i: nat)
    requires 4 < i <= |ds|
    ensures Completed(ds, i) == Completed(ds[4..], i - 4)
  {
    var e := ds[4..];
    assert ds[i - 1] == e[i - 5] && i % 4 == (i - 4) % 4;
    assert i % 4 != 1 ==> ds[i - 2] == e[i - 6];
  }

  /** The values of up to four digits. */
  lemma FewBytes(ds: seq<Sextet>)
    ensures |ds| >= 2 ==> Bytes(ds, 2) == Completed(ds, 2)
    ensures |ds| >= 3 ==> Bytes(ds, 3) == Completed(ds, 2) + Completed(ds, 3)
    ensures |ds| >= 4 ==> Bytes(ds, 4) == Completed(ds, 2) + Completed(ds, 3) + Completed(ds, 4)
  {
    hide Completed;
    if |ds| >= 2 {
      assert Bytes(ds, 1) == Bytes(ds, 0) + Completed(ds, 1);
      assert Bytes(ds, 2) == Bytes(ds, 1) + Completed(ds, 2);
    }
  }

  /** Six-bit groups put together again. */
  lemma GroupsAgain(a: Byte, b: Byte, c: Byte)
    ensures a / 4 * 4 + (a % 4 * 16 + b / 16) / 16 == a
    ensures (a % 4 * 16 + b / 16) % 16 * 16 + (b % 16 * 4 + c / 64) / 4 == b
    ensures (b % 16 * 4 + c / 64) % 4 * 64 + c % 64 == c
  {
    DivMod(a % 4 * 16 + b / 16, a % 4, 16, b / 16);
    DivMod(b % 16 * 4 + c / 64, b % 16, 4, c / 64);
  }

  lemma BlockBytes(a: Byte, b: Byte, c: Byte)
    ensures var ds := Block(a, b, c);
            Completed(ds, 2) == [a] && Completed(ds, 3) == [b] && Completed(ds, 4) == [c]
  {
    BlockGroups(a, b, c);
    hide Block;
    GroupsAgain(a, b, c);
  }

  lemma {:induction false} DigitsConcat(a: string, b: string, k: nat)
    requires k <= |b|
    ensures Digits(a + b, |a| + k) == Digits(a, |a|) + Digits(b, k)
  {
    hide Digit, IsSpace;
    if k == 0 {
      DigitsSame(a + b, a, |a|);
    } else {
      DigitsConcat(a, b, k - 1);
      assert (a + b)[|a| + k - 1] == b[k - 1];
    }
  }

  lemma {:induction false} DigitsSame(a: string, b: string, k: nat)
    requires k <= |a| && k <= |b| && a[..k] == b[..k]
    ensures Digits(a, k) == Digits(b, k)
  {
    hide Digit, IsSpace;
    if k > 0 {
      assert a[..k - 1] == a[..k][..k - 1] && b[..k - 1] == b[..k][..k - 1];
      assert a[k - 1] == a[..k][k - 1] == b[..k][k - 1];
      DigitsSame(a, b, k - 1);
    }
  }

  /** Letters are read back as their values. */
  lemma {:induction false} DigitsOfChars(sextets: seq<Sextet>, k: nat)
    requires k <= |sextets|
    ensures Digits(Chars(sextets), k) == sextets[..k]
  {
    hide Letter, Digit, IsSpace;
    if k > 0 {
      DigitsOfChars(sextets, k - 1);
      LetterDigit(sextets[k - 1]);
      assert sextets[..k] == sextets[..k - 1] + [sextets[k - 1]];
    }
  }

  lemma PaddingHasNoDigits(s: string)
    requires s == "=" || s == "=="
    ensures Digits(s, |s|) == []
  {
    assert |s| == 2 ==> Digits(s, 1) == Digits(s, 0);
  }

  /** The digits of characters and padding. */
  lemma PaddedDigits(sextets: seq<Sextet>, pad: string)
    requires pad == "=" || pad == "=="
    ensures Digits(Chars(sextets) + pad, |sextets| + |pad|) == sextets
  {
    hide Digits;
    DigitsConcat(Chars(sextets), pad, |pad|);
    DigitsOfChars(sextets, |sextets|);
    PaddingHasNoDigits(pad);
    assert sextets[..|sextets|] == sextets;
  }

  lemma EncodedDigits(d: seq<Byte>)
    requires |d| >= 3
    ensures Digits(Encoded(d), |Encoded(d)|) == Block(d[0], d[1], d[2]) + Digits(Encoded(d[3..]), |Encoded(d[3..])|)
  {
    hide Digits, Block;
    var block := Block(d[0], d[1], d[2]);
    DigitsConcat(Chars(block), Encoded(d[3..]), |Encoded(d[3..])|);
    DigitsOfChars(block, 4);
    assert block[..4] == block;
  }

  lemma ShortRoundTrip(d: seq<Byte>)
    requires |d| == 1 || |d| == 2
    ensures Decoded(Encoded(d)) == d
  {
    hide Digits, Bytes, Block, Completed, Chars;
    var b: Byte := if |d| == 2 then d[1] else 0;
    var ds := Block(d[0], b, 0)[..|d| + 1];
    PaddedDigits(ds, if |d| == 1 then "==" else "=");
    FewBytes(ds);
    BlockBytes(d[0], b, 0);
    PrefixCompleted(Block(d[0], b, 0), |d| + 1);
  }

  lemma PrefixCompleted(ds: seq<Sextet>, k: nat)
    requires 2 <= k <= |ds|
    ensures Completed(ds[..k], 2) == Completed(ds, 2) && (k >= 3 ==> Completed(ds[..k], 3) == Completed(ds, 3))
  {
  }

  /** Whatever is encoded is decoded to itself. */
  lemma {:induction false} RoundTrip(d: seq<Byte>)
    ensures Decoded(Encoded(d)) == d
  {
    hide Digits, Bytes, Block, Completed, Chars, Encoded;
    if |d| == 0 {
      NothingEncoded();
    } else if |d| < 3 {
      ShortRoundTrip(d);
    } else {
      RoundTrip(d[3..]);
      EncodedDigits(d);
      var block, ds := Block(d[0], d[1], d[2]), Digits(Encoded(d), |Encoded(d)|);
      assert ds[..4] == block && ds[4..] == Digits(Encoded(d[3..]), |Encoded(d[3..])|);
      FirstBytes(ds, |ds|);
      FewBytes(block);
      BlockBytes(d[0], d[1], d[2]);
      assert d == [d[0]] + [d[1]] + [d[2]] + d[3..];
    }
  }

  lemma NothingEncoded()
    ensures Decoded(Encoded([])) == []
  {
  }

  // ----- the standard's alphabet -----

  const ALPHABET := "ABCDEFGHIJKLMNOPQRSTUVWXYZabcdefghijklmnopqrstuvwxyz0123456789+/"

  /** The letters are those of table 1 of RFC 4648. */
  lemma StandardAlphabet(v: Sextet)
    ensures |ALPHABET| == 64 && Letter(v) == ALPHABET[v]
  {
    var letters := "ABCDEFGHIJKLMNOPQRSTUVWXYZ";
    if v < 26 {
      assert ALPHABET[v] == letters[v];
    }
  }
}
