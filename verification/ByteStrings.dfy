/** Go strings as byte sequences, and the few library routines over them that the
    pipeline uses (ASCII forms of `strings.TrimSpace`, `ToUpper`, `ToLower`). */
module ByteStrings {
  /** One byte of a Go string. */
  type byte = c: char | c as int < 256

  type Bytes = seq<byte>

  predicate IsSpace(c: char) {
    c == ' ' || 9 <= c as int <= 13
  }

  /** Blank, tab, line feed, vertical tab, form feed, carriage return. */
  lemma SpacesAre(c: char)
    ensures IsSpace(c) <==> c in {' ', '\t', '\n', '\U{B}', '\U{C}', '\r'}
  {
  }

  function TrimLeft(s: Bytes): (r: Bytes)
    ensures |r| > 0 ==> !IsSpace(r[0])
    ensures |r| <= |s| && r == s[|s| - |r|..]
    ensures forall i :: 0 <= i < |s| - |r| ==> IsSpace(s[i])
  {
    if s != [] && IsSpace(s[0]) then TrimLeft(s[1..]) else s
  }

  function TrimRight(s: Bytes): (r: Bytes)
    ensures |r| > 0 ==> !IsSpace(r[|r| - 1])
    ensures |r| <= |s| && r == s[..|r|]
    ensures forall i :: |r| <= i < |s| ==> IsSpace(s[i])
  {
    if s != [] && IsSpace(s[|s| - 1]) then TrimRight(s[..|s| - 1]) else s
  }

  function TrimSpace(s: Bytes): Bytes {
    TrimRight(TrimLeft(s))
  }

  /** Trimming takes white space off the two ends, all of it and nothing else. */
  lemma {:induction false} TrimSpaceIs(s: Bytes) returns (left: Bytes, right: Bytes)
    ensures s == left + TrimSpace(s) + right
    ensures forall i :: 0 <= i < |left| ==> IsSpace(left[i])
    ensures forall i :: 0 <= i < |right| ==> IsSpace(right[i])
    ensures TrimSpace(s) != [] ==> !IsSpace(TrimSpace(s)[0]) && !IsSpace(TrimSpace(s)[|TrimSpace(s)| - 1])
  {
    left, right := Around(s, TrimLeft(s), TrimRight(TrimLeft(s)));
  }

  lemma Around(s: Bytes, middle: Bytes, core: Bytes) returns (left: Bytes, right: Bytes)
    requires |core| <= |middle| <= |s| && core == middle[..|core|] && middle == s[|s| - |middle|..]
    requires forall i :: 0 <= i < |s| - |middle| ==> IsSpace(s[i])
    requires forall i :: |core| <= i < |middle| ==> IsSpace(middle[i])
    requires (middle != [] ==> !IsSpace(middle[0])) && (core != [] ==> !IsSpace(core[|core| - 1]))
    ensures s == left + core + right
    ensures core != [] ==> !IsSpace(core[0]) && !IsSpace(core[|core| - 1])
    ensures forall i :: 0 <= i < |left| ==> IsSpace(left[i])
    ensures forall i :: 0 <= i < |right| ==> IsSpace(right[i])
  {
    left, right := s[..|s| - |middle|], middle[|core|..];
  }

  /** A string with no white space at either end is its own trim. */
  lemma TrimSpaceFixed(s: Bytes)
    requires s != [] ==> !IsSpace(s[0]) && !IsSpace(s[|s| - 1])
    ensures TrimSpace(s) == s
  {
  }

  /** Surrounding white space never reaches the result. */
  lemma {:induction false} TrimSpaceAround(left: Bytes, s: Bytes, right: Bytes)
    requires forall i :: 0 <= i < |left| ==> IsSpace(left[i])
    requires forall i :: 0 <= i < |right| ==> IsSpace(right[i])
    ensures TrimSpace(left + s + right) == TrimSpace(s)
    decreases |left|
  {
    if left == [] {
      assert left + s + right == s + right;
      TrimSpaceRight(s, right);
    } else {
      assert (left + s + right)[1..] == left[1..] + s + right;
      TrimSpaceAround(left[1..], s, right);
    }
  }

  lemma {:induction false} TrimSpaceRight(s: Bytes, right: Bytes)
    requires forall i :: 0 <= i < |right| ==> IsSpace(right[i])
    ensures TrimSpace(s + right) == TrimSpace(s)
  {
    if right == [] {
      assert s + right == s;
    } else {
      var n := |right| - 1;
      assert s + right == (s + right[..n]) + [right[n]];
      TrimLeftThenSpace(s + right[..n], right[n]);
      TrimSpaceRight(s, right[..n]);
    }
  }

  lemma {:induction false} TrimLeftThenSpace(s: Bytes, c: byte)
    requires IsSpace(c)
    ensures TrimSpace(s + [c]) == TrimSpace(s)
  {
    var t := s + [c];
    if s == [] {
      assert t == [c] && t[1..] == [];
      assert TrimLeft(t) == TrimLeft([]);
    } else {
      assert t[0] == s[0];
      if IsSpace(s[0]) {
        assert t[1..] == s[1..] + [c];
        TrimLeftThenSpace(s[1..], c);
      } else {
        TrimRightThenSpace(s, c);
      }
    }
  }

  lemma {:induction false} TrimRightThenSpace(s: Bytes, c: byte)
    requires IsSpace(c)
    ensures TrimRight(s + [c]) == TrimRight(s)
  {
    var t := s + [c];
    assert t[|t| - 1] == c && t[..|t| - 1] == s;
  }

  function Upper(c: byte): byte {
    if 'a' <= c <= 'z' then (c as int - 32) as char else c
  }

  function ToUpper(s: Bytes): (r: Bytes)
    ensures |r| == |s|
  {
    seq(|s|, i requires 0 <= i < |s| => Upper(s[i]))
  }

  function Lower(c: char): char {
    if 'A' <= c <= 'Z' then (c as int + 32) as char else c
  }

  function ToLower(s: string): (r: string)
    ensures |r| == |s|
  {
    seq(|s|, i requires 0 <= i < |s| => Lower(s[i]))
  }

  /** Two bytes that are one letter, or one byte, up to case. */
  predicate SameLetter(c: char, d: char) {
    || c == d
    || ('A' <= c <= 'Z' && d as int == c as int + 32)
    || ('A' <= d <= 'Z' && c as int == d as int + 32)
  }

  predicate SameButCase(s: string, t: string) {
    |s| == |t| && forall i :: 0 <= i < |s| ==> SameLetter(s[i], t[i])
  }

  /** Upper-casing forgets the case of letters and nothing else, and leaves a string without
      lower-case letters as it is. */
  lemma ToUpperIs(s: Bytes, t: Bytes)
    ensures ToUpper(s) == ToUpper(t) <==> SameButCase(s, t)
    ensures (forall i :: 0 <= i < |s| ==> !('a' <= s[i] <= 'z')) ==> ToUpper(s) == s
  {
    if ToUpper(s) == ToUpper(t) {
      forall i | 0 <= i < |s| ensures SameLetter(s[i], t[i]) {
        assert ToUpper(s)[i] == Upper(s[i]) && ToUpper(t)[i] == Upper(t[i]);
      }
    }
  }

  /** So does lower-casing, the other way round. */
  lemma ToLowerIs(s: string, t: string)
    ensures ToLower(s) == ToLower(t) <==> SameButCase(s, t)
    ensures (forall i :: 0 <= i < |s| ==> !('A' <= s[i] <= 'Z')) ==> ToLower(s) == s
  {
    if ToLower(s) == ToLower(t) {
      forall i | 0 <= i < |s| ensures SameLetter(s[i], t[i]) {
        assert ToLower(s)[i] == Lower(s[i]) && ToLower(t)[i] == Lower(t[i]);
      }
    }
  }

  predicate HasPrefix(s: string, prefix: string) {
    prefix <= s
  }

  predicate NoColon(s: string) {
    ':' !in s
  }
}
