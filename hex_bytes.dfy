/** Hex-digit strings read as byte strings: the byte-pair reversal and the
    leading-zero trimming the gas-limit conversion is built from, and the
    numeric meaning of a hex string in either byte order. */
module HexBytes {

  predicate IsHexDigit(c: char) {
    ('0' <= c <= '9') || ('a' <= c <= 'f') || ('A' <= c <= 'F')
  }

  predicate IsHex(s: string) {
    forall i :: 0 <= i < |s| ==> IsHexDigit(s[i])
  }

  function DigitValue(c: char): (v: nat)
    requires IsHexDigit(c)
    ensures v < 16
  {
    if '0' <= c <= '9' then c as int - '0' as int
    else if 'a' <= c <= 'f' then c as int - 'a' as int + 10
    else c as int - 'A' as int + 10
  }

  /** The value of a hex string read most significant digit first. */
  function Value(s: string): nat
    requires IsHex(s)
    decreases |s|
  {
    if s == [] then 0 else 16 * Value(s[..|s| - 1]) + DigitValue(s[|s| - 1])
  }

  /** The value of an even-length hex string read as bytes, least significant byte first. */
  function LittleEndianValue(s: string): nat
    requires IsHex(s) && |s| % 2 == 0
    decreases |s|
  {
    if s == [] then 0
    else 16 * DigitValue(s[0]) + DigitValue(s[1]) + 256 * LittleEndianValue(s[2..])
  }

  /** The j-th byte (two hex digits) of an even-length string. */
  function Pair(s: string, j: nat): string
    requires 2 * j + 2 <= |s|
  {
    s[2 * j..2 * j + 2]
  }

  /** Reverses the order of the byte pairs of an even-length string,
      keeping the two digits of each pair in place: "90d003" becomes "03d090". */
  function ReversePairs(s: string): (r: string)
    requires |s| % 2 == 0
    ensures |r| == |s|
    decreases |s|
  {
    if s == [] then [] else ReversePairs(s[2..]) + s[..2]
  }

  /** Drops every leading '0' character. */
  function TrimLeadingZeros(s: string): (r: string)
    ensures |r| <= |s| && r == s[|s| - |r|..]
    ensures r == [] || r[0] != '0'
    ensures forall i :: 0 <= i < |s| - |r| ==> s[i] == '0'
    decreases |s|
  {
    if s != [] && s[0] == '0' then TrimLeadingZeros(s[1..]) else s
  }

  /** Byte j of the reversed string is byte |s|/2 - 1 - j of the original. */
  lemma {:induction false} ReversePairsAt(s: string, j: nat)
    requires |s| % 2 == 0 && 2 * j + 2 <= |s|
    ensures Pair(ReversePairs(s), j) == Pair(s, |s| / 2 - 1 - j)
    decreases |s|
  {
    var n := |s| / 2;
    var t := s[2..];
    assert ReversePairs(s) == ReversePairs(t) + s[..2];
    if j < n - 1 {
      ReversePairsAt(t, j);
      assert Pair(ReversePairs(s), j) == Pair(ReversePairs(t), j);
      assert Pair(t, |t| / 2 - 1 - j) == Pair(s, n - 1 - j);
    } else {
      assert Pair(ReversePairs(s), j) == s[..2];
    }
  }

  lemma {:induction false} ReversePairsAppend(a: string, b: string)
    requires |a| % 2 == 0 && |b| % 2 == 0
    ensures ReversePairs(a + b) == ReversePairs(b) + ReversePairs(a)
    decreases |a|
  {
    if a == [] {
      assert a + b == b;
    } else {
      assert (a + b)[2..] == a[2..] + b;
      assert (a + b)[..2] == a[..2];
      ReversePairsAppend(a[2..], b);
    }
  }

  /** Reversing the byte order twice gives back the original string. */
  lemma {:induction false} ReversePairsInvolution(s: string)
    requires |s| % 2 == 0
    ensures ReversePairs(ReversePairs(s)) == s
    decreases |s|
  {
    if s != [] {
      var head, tail := s[..2], s[2..];
      assert ReversePairs(head) == head by {
        assert head[2..] == [];
        assert head[..2] == head;
      }
      ReversePairsAppend(ReversePairs(tail), head);
      ReversePairsInvolution(tail);
      assert head + tail == s;
    }
  }

  lemma {:induction false} ValueAppendPair(a: string, p: string)
    requires IsHex(a) && IsHex(p) && |p| == 2
    ensures IsHex(a + p)
    ensures Value(a + p) == 256 * Value(a) + 16 * DigitValue(p[0]) + DigitValue(p[1])
  {
    var ap := a + p;
    assert ap[..|ap| - 1] == a + [p[0]];
    assert (a + [p[0]])[..|a|] == a;
  }

  /** Reversing the byte order turns the little-endian reading into the big-endian one. */
  lemma {:induction false} ValueReversePairs(s: string)
    requires IsHex(s) && |s| % 2 == 0
    ensures IsHex(ReversePairs(s))
    ensures Value(ReversePairs(s)) == LittleEndianValue(s)
    decreases |s|
  {
    if s != [] {
      ValueReversePairs(s[2..]);
      ValueAppendPair(ReversePairs(s[2..]), s[..2]);
    }
  }

  lemma {:induction false} ValueLeadingZero(s: string)
    requires IsHex(s)
    ensures IsHex("0" + s) && Value("0" + s) == Value(s)
    decreases |s|
  {
    if s != [] {
      var z := "0" + s;
      assert z[..|z| - 1] == "0" + s[..|s| - 1];
      ValueLeadingZero(s[..|s| - 1]);
    }
  }

  /** Leading zeros carry no value. */
  lemma {:induction false} ValueTrimLeadingZeros(s: string)
    requires IsHex(s)
    ensures IsHex(TrimLeadingZeros(s))
    ensures Value(TrimLeadingZeros(s)) == Value(s)
    decreases |s|
  {
    if s != [] && s[0] == '0' {
      var t := s[1..];
      assert IsHex(t);
      assert TrimLeadingZeros(s) == TrimLeadingZeros(t);
      ValueTrimLeadingZeros(t);
      assert "0" + t == s;
      ValueLeadingZero(t);
    }
  }
}
