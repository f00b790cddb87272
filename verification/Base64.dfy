/** `base64.StdEncoding`: the standard alphabet and padding of section 4 of RFC 4648. */
module Base64 {
  import opened ByteStrings
  import opened Wrappers

  /** One symbol for a six-bit group. */
  function Symbol(v: int): (c: byte)
    requires 0 <= v < 64
  {
    if v < 26 then (v + 65) as char
    else if v < 52 then (v + 71) as char
    else if v < 62 then (v - 4) as char
    else if v == 62 then '+' else '/'
  }

  predicate IsSymbol(c: char) {
    'A' <= c <= 'Z' || 'a' <= c <= 'z' || '0' <= c <= '9' || c == '+' || c == '/'
  }

  function SymbolValue(c: char): (v: int)
    requires IsSymbol(c)
    ensures 0 <= v < 64
  {
    if 'A' <= c <= 'Z' then c as int - 65
    else if 'a' <= c <= 'z' then c as int - 71
    else if '0' <= c <= '9' then c as int + 4
    else if c == '+' then 62 else 63
  }

  lemma SymbolRoundTrip(v: int)
    requires 0 <= v < 64
    ensures IsSymbol(Symbol(v)) && SymbolValue(Symbol(v)) == v
  {
  }

  /** Three bytes become four symbols; a last group of one or two bytes is padded. */
  function Encode(s: Bytes): Bytes {
    if s == [] then []
    else
      var a := s[0] as int;
      if |s| == 1 then
        [Symbol(a / 4), Symbol(a % 4 * 16), '=', '=']
      else
        var b := s[1] as int;
        if |s| == 2 then
          [Symbol(a / 4), Symbol(a % 4 * 16 + b / 16), Symbol(b % 16 * 4), '=']
        else
          EncodeGroup(s[0], s[1], s[2]) + Encode(s[3..])
  }

  function EncodeGroup(a: byte, b: byte, c: byte): (r: Bytes)
    ensures |r| == 4 && forall i :: 0 <= i < 4 ==> IsSymbol(r[i])
  {
    var (a, b, c) := (a as int, b as int, c as int);
    [Symbol(a / 4), Symbol(a % 4 * 16 + b / 16), Symbol(b % 16 * 4 + c / 64), Symbol(c % 64)]
  }

  /** The decoder skips line breaks wherever they stand. */
  function DropLineBreaks(s: Bytes): (r: Bytes)
    ensures forall i :: 0 <= i < |r| ==> r[i] != '\n' && r[i] != '\r'
  {
    if s == [] then []
    else if s[0] == '\n' || s[0] == '\r' then DropLineBreaks(s[1..])
    else [s[0]] + DropLineBreaks(s[1..])
  }

  function Decode(s: Bytes): Option<Bytes> {
    DecodeGroups(DropLineBreaks(s))
  }

  /** Four symbols become three bytes. Padding ends the input and replaces at most the last
      two symbols of a group; the unused low bits before it are not checked. */
  function DecodeGroups(s: Bytes): Option<Bytes> {
    if s == [] then Some([])
    else if |s| < 4 || !IsSymbol(s[0]) || !IsSymbol(s[1]) then None
    else
      var p, q := SymbolValue(s[0]), SymbolValue(s[1]);
      var a := Low8(p * 4 + q / 16);
      if s[2] == '=' then
        if s[3] == '=' && |s| == 4 then Some([a]) else None
      else if !IsSymbol(s[2]) then None
      else
        var r := SymbolValue(s[2]);
        var b := Low8(q % 16 * 16 + r / 4);
        if s[3] == '=' then
          if |s| == 4 then Some([a, b]) else None
        else if !IsSymbol(s[3]) then None
        else
          match DecodeGroups(s[4..])
          case None => None
          case Some(rest) => Some([a, b, Low8(r % 4 * 64 + SymbolValue(s[3]))] + rest)
  }

  function Low8(v: int): byte
    requires 0 <= v < 256
  {
    v as char
  }

  lemma {:induction false} EncodeHasNoLineBreaks(s: Bytes)
    ensures forall c :: c in Encode(s) ==> IsSymbol(c) || c == '='
    ensures DropLineBreaks(Encode(s)) == Encode(s)
  {
    if |s| >= 3 {
      EncodeHasNoLineBreaks(s[3..]);
      assert Encode(s)[4..] == Encode(s[3..]);
    }
    DropLineBreaksFixed(Encode(s));
  }

  lemma {:induction false} DropLineBreaksFixed(s: Bytes)
    requires forall i :: 0 <= i < |s| ==> s[i] != '\n' && s[i] != '\r'
    ensures DropLineBreaks(s) == s
  {
    if s != [] {
      DropLineBreaksFixed(s[1..]);
    }
  }

  /** The four six-bit values of a group of three bytes give the bytes back. */
  lemma GroupBits(a: int, b: int, c: int)
    requires 0 <= a < 256 && 0 <= b < 256 && 0 <= c < 256
    ensures 0 <= a % 4 * 16 + b / 16 < 64 && 0 <= b % 16 * 4 + c / 64 < 64
    ensures a / 4 * 4 + (a % 4 * 16 + b / 16) / 16 == a
    ensures (a % 4 * 16 + b / 16) % 16 * 16 + (b % 16 * 4 + c / 64) / 4 == b
    ensures (b % 16 * 4 + c / 64) % 4 * 64 + c % 64 == c
  {
  }

  lemma FullGroup(a: byte, b: byte, c: byte, rest: Bytes)
    ensures DecodeGroups(EncodeGroup(a, b, c) + rest) ==
            match DecodeGroups(rest) case None => None case Some(x) => Some([a, b, c] + x)
  {
    GroupBits(a as int, b as int, c as int);
    var p, q, r, t := a as int / 4, a as int % 4 * 16 + b as int / 16, b as int % 16 * 4 + c as int / 64, c as int % 64;
    SymbolRoundTrip(p);
    SymbolRoundTrip(q);
    SymbolRoundTrip(r);
    SymbolRoundTrip(t);
    var s := EncodeGroup(a, b, c) + rest;
    assert s[0] == Symbol(p) && s[1] == Symbol(q) && s[2] == Symbol(r) && s[3] == Symbol(t) && s[4..] == rest;
  }

  lemma LastGroup1(a: byte)
    ensures DecodeGroups(Encode([a])) == Some([a])
  {
    GroupBits(a as int, 0, 0);
    SymbolRoundTrip(a as int / 4);
    SymbolRoundTrip(a as int % 4 * 16);
  }

  lemma LastGroup2(a: byte, b: byte)
    ensures DecodeGroups(Encode([a, b])) == Some([a, b])
  {
    GroupBits(a as int, b as int, 0);
    SymbolRoundTrip(a as int / 4);
    SymbolRoundTrip(a as int % 4 * 16 + b as int / 16);
    SymbolRoundTrip(b as int % 16 * 4);
  }

  lemma {:induction false} DecodeGroupsEncode(s: Bytes)
    ensures DecodeGroups(Encode(s)) == Some(s)
  {
    if |s| < 3 {
      ShortGroup(s);
    } else {
      DecodeGroupsEncode(s[3..]);
      OneMoreGroup(s[0], s[1], s[2], Encode(s[3..]), s[3..]);
      FirstThree(s);
    }
  }

  lemma {:induction false} ShortGroup(s: Bytes)
    requires |s| < 3
    ensures DecodeGroups(Encode(s)) == Some(s)
  {
    if s == [] {
    } else if |s| == 1 {
      LastGroup1(s[0]);
      assert s == [s[0]];
    } else {
      LastGroup2(s[0], s[1]);
      assert s == [s[0], s[1]];
    }
  }

  lemma FirstThree<T>(s: seq<T>)
    requires |s| >= 3
    ensures s == [s[0], s[1], s[2]] + s[3..]
  {
  }

  lemma {:induction false} OneMoreGroup(a: byte, b: byte, c: byte, rest: Bytes, s: Bytes)
    requires DecodeGroups(rest) == Some(s)
    ensures DecodeGroups(EncodeGroup(a, b, c) + rest) == Some([a, b, c] + s)
  {
    FullGroup(a, b, c, rest);
  }

  /** The alphabet of table 1 in section 4 of RFC 4648: three runs of consecutive characters
      and two more symbols. */
  lemma SymbolsAre(v: int)
    requires 0 <= v < 64
    ensures Symbol(0) == 'A' && Symbol(26) == 'a' && Symbol(52) == '0' && Symbol(62) == '+' && Symbol(63) == '/'
    ensures v < 25 || 26 <= v < 51 || 52 <= v < 61 ==> Symbol(v + 1) as int == Symbol(v) as int + 1
  {
  }

  /** The byte at a position, zeros beyond the end. */
  function ByteAt(s: Bytes, i: nat): (b: int)
    ensures 0 <= b < 256
  {
    if i < |s| then s[i] as int else 0
  }

  /** Three bytes as one number of 24 bits. */
  function Word(a: int, b: int, c: int): int {
    a * 65536 + b * 256 + c
  }

  /** One of the four groups of six bits in a word, the first being the highest. */
  function Sextet(word: int, i: int): (v: int)
    ensures 0 <= v < 64
  {
    if i == 0 then word / 262144 % 64
    else if i == 1 then word / 4096 % 64
    else if i == 2 then word / 64 % 64
    else word % 64
  }

  lemma HighBits(a: int, b: int, c: int)
    requires 0 <= a < 256 && 0 <= b < 256 && 0 <= c < 256
    ensures Sextet(Word(a, b, c), 0) == a / 4 && Sextet(Word(a, b, c), 1) == a % 4 * 16 + b / 16
  {
    FirstSextet(a, b, c);
    SecondSextet(a, b, c);
  }

  lemma FirstSextet(a: int, b: int, c: int)
    requires 0 <= a < 256 && 0 <= b < 256 && 0 <= c < 256
    ensures Sextet(Word(a, b, c), 0) == a / 4
  {
    Shift262144(Word(a, b, c), a / 4, a % 4 * 65536 + b * 256 + c);
    Last64(a / 4, 0, a / 4);
  }

  lemma Shift262144(n: int, q: int, r: int)
    requires n == 262144 * q + r && 0 <= r < 262144
    ensures n / 262144 == q
  {
  }

  lemma Shift64(n: int, q: int, r: int)
    requires n == 64 * q + r && 0 <= r < 64
    ensures n / 64 == q
  {
  }

  lemma SecondSextet(a: int, b: int, c: int)
    requires 0 <= a < 256 && 0 <= b < 256 && 0 <= c < 256
    ensures Sextet(Word(a, b, c), 1) == a % 4 * 16 + b / 16
  {
    Shift4096(Word(a, b, c), 16 * a + b / 16, b % 16 * 256 + c);
    Last64(16 * a + b / 16, a / 4, a % 4 * 16 + b / 16);
  }

  lemma Shift4096(n: int, q: int, r: int)
    requires n == 4096 * q + r && 0 <= r < 4096
    ensures n / 4096 == q
  {
  }

  lemma Last64(n: int, q: int, r: int)
    requires n == 64 * q + r && 0 <= r < 64
    ensures n % 64 == r
  {
  }

  lemma LowBits(a: int, b: int, c: int)
    requires 0 <= a < 256 && 0 <= b < 256 && 0 <= c < 256
    ensures Sextet(Word(a, b, c), 2) == b % 16 * 4 + c / 64 && Sextet(Word(a, b, c), 3) == c % 64
  {
    var high := a * 1024 + b * 4 + c / 64;
    Shift64(Word(a, b, c), high, c % 64);
    Last64(Word(a, b, c), high, c % 64);
    Last64(high, a * 16 + b / 16, b % 16 * 4 + c / 64);
  }

  /** The symbol at position `k`: the six bits that start `6 * k` bits into the input, or
      padding if all of them lie beyond it. */
  function SymbolAt(s: Bytes, k: nat): char {
    var i := k / 4 * 3;
    if 6 * k >= 8 * |s| then '='
    else Symbol(Sextet(Word(ByteAt(s, i), ByteAt(s, i + 1), ByteAt(s, i + 2)), k % 4))
  }

  /** The encoding symbol by symbol; its length is the next multiple of four. */
  lemma {:induction false} EncodeAt(s: Bytes, k: nat)
    ensures |Encode(s)| == (|s| + 2) / 3 * 4
    ensures k < |Encode(s)| ==> Encode(s)[k] == SymbolAt(s, k)
  {
    if |s| >= 3 {
      EncodeAt(s[3..], if k < 4 then 0 else k - 4);
      LongerAt(s, k);
    } else if |s| == 2 {
      TwoBytesAt(s, k);
    } else if |s| == 1 {
      OneByteAt(s, k);
    }
  }

  lemma {:induction false} LongerAt(s: Bytes, k: nat)
    requires |s| >= 3 && |Encode(s[3..])| == (|s| - 1) / 3 * 4
    requires 4 <= k < |Encode(s)| ==> Encode(s[3..])[k - 4] == SymbolAt(s[3..], k - 4)
    ensures |Encode(s)| == (|s| + 2) / 3 * 4
    ensures k < |Encode(s)| ==> Encode(s)[k] == SymbolAt(s, k)
  {
    assert Encode(s) == EncodeGroup(s[0], s[1], s[2]) + Encode(s[3..]);
    if k < 4 {
      FirstGroupAt(s, k);
    } else {
      SymbolShifts(s, k);
    }
  }

  lemma {:induction false} SymbolShifts(s: Bytes, k: nat)
    requires |s| >= 3 && k >= 4
    ensures SymbolAt(s, k) == SymbolAt(s[3..], k - 4)
  {
    var i := k / 4 * 3;
    assert (k - 4) / 4 * 3 == i - 3 && (k - 4) % 4 == k % 4;
    assert ByteAt(s, i) == ByteAt(s[3..], i - 3) && ByteAt(s, i + 1) == ByteAt(s[3..], i - 2)
      && ByteAt(s, i + 2) == ByteAt(s[3..], i - 1);
  }

  lemma {:induction false} FirstGroupAt(s: Bytes, k: nat)
    requires |s| >= 3 && k < 4
    ensures EncodeGroup(s[0], s[1], s[2])[k] == SymbolAt(s, k)
  {
    FirstSymbolsAt(s, k);
    GroupAt(s[0], s[1], s[2], k);
  }

  lemma {:induction false} FirstSymbolsAt(s: Bytes, k: nat)
    requires |s| >= 3 && k < 4
    ensures SymbolAt(s, k) == Symbol(Sextet(Word(s[0] as int, s[1] as int, s[2] as int), k))
  {
    assert k / 4 == 0 && k % 4 == k && 6 * k < 8 * |s|;
  }

  lemma GroupAt(a: byte, b: byte, c: byte, k: nat)
    requires k < 4
    ensures EncodeGroup(a, b, c)[k] == Symbol(Sextet(Word(a as int, b as int, c as int), k))
  {
    if k < 2 {
      HighBits(a as int, b as int, c as int);
    } else {
      LowBits(a as int, b as int, c as int);
    }
  }

  lemma {:induction false} TwoBytesAt(s: Bytes, k: nat)
    requires |s| == 2
    ensures |Encode(s)| == 4 && (k < 4 ==> Encode(s)[k] == SymbolAt(s, k))
  {
    HighBits(s[0] as int, s[1] as int, 0);
    LowBits(s[0] as int, s[1] as int, 0);
  }

  lemma {:induction false} OneByteAt(s: Bytes, k: nat)
    requires |s| == 1
    ensures |Encode(s)| == 4 && (k < 4 ==> Encode(s)[k] == SymbolAt(s, k))
  {
    HighBits(s[0] as int, 0, 0);
  }

  /** The decoder skips line breaks wherever they stand. */
  lemma DecodeSkipsBreak(before: Bytes, after: Bytes, lineBreak: byte)
    requires lineBreak == '\n' || lineBreak == '\r'
    ensures Decode(before + [lineBreak] + after) == Decode(before + after)
  {
    DropSkipsBreak(before, after, lineBreak);
  }

  lemma {:induction false} DropSkipsBreak(before: Bytes, after: Bytes, lineBreak: byte)
    requires lineBreak == '\n' || lineBreak == '\r'
    ensures DropLineBreaks(before + [lineBreak] + after) == DropLineBreaks(before + after)
  {
    var s, t := before + [lineBreak] + after, before + after;
    if before == [] {
      assert s[0] == lineBreak && s[1..] == after && t == after;
    } else {
      assert s[0] == before[0] && s[1..] == before[1..] + [lineBreak] + after;
      assert t[0] == before[0] && t[1..] == before[1..] + after;
      DropSkipsBreak(before[1..], after, lineBreak);
    }
  }

  /** Apart from line breaks only whole groups of four decode. */
  lemma {:induction false} DecodedIsWhole(s: Bytes)
    ensures DecodeGroups(s).Some? ==> |s| % 4 == 0
  {
    if |s| >= 4 { DecodedIsWhole(s[4..]); }
  }

  /** The bits that padding leaves over are not looked at. */
  lemma {:induction false} PaddedGroup(s: Bytes)
    requires |s| == 4 && IsSymbol(s[0]) && IsSymbol(s[1]) && s[3] == '='
    ensures s[2] == '=' ==>
      DecodeGroups(s) == Some([Low8(SymbolValue(s[0]) * 4 + SymbolValue(s[1]) / 16)])
    ensures IsSymbol(s[2]) ==>
      DecodeGroups(s) == Some([Low8(SymbolValue(s[0]) * 4 + SymbolValue(s[1]) / 16),
                               Low8(SymbolValue(s[1]) % 16 * 16 + SymbolValue(s[2]) / 4)])
  {
  }

  /** Decoding undoes encoding on every byte string. */
  lemma DecodeEncode(s: Bytes)
    ensures Decode(Encode(s)) == Some(s)
  {
    EncodeHasNoLineBreaks(s);
    DecodeGroupsEncode(s);
  }
}
