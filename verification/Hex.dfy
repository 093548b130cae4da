/** Hex: the lowercase encoder of 32-byte words and the CLI's 64-digit parser. */
module Hex {
  import opened Bytes

  datatype HexError = WrongLength(len: nat) | NonHexCharacter | DecodeFailed(at: int)

  /** Strings are taken as their UTF-8 bytes: '0' is 48, '+' is 43, 'A' is 65, 'a' is 97. */
  function Digit(n: int): (d: byte)
    requires 0 <= n < 16
  {
    if n < 10 then 48 + n else 87 + n
  }

  predicate IsHexDigit(c: byte) {
    48 <= c <= 57 || 65 <= c <= 70 || 97 <= c <= 102
  }

  function DigitValue(c: byte): (n: int)
    requires IsHexDigit(c)
    ensures 0 <= n < 16
  {
    if c <= 57 then c - 48 else if c <= 70 then c - 55 else c - 87
  }

  /** The digits, in order: '0' to '9', then 'a' to 'f', or 'A' to 'F' when read. */
  lemma {:induction false} DigitsInOrder(n: int, c: byte)
    requires 0 <= n < 16
    ensures var lower: Bytes := [48, 49, 50, 51, 52, 53, 54, 55, 56, 57, 97, 98, 99, 100, 101, 102];
            var upper: Bytes := [48, 49, 50, 51, 52, 53, 54, 55, 56, 57, 65, 66, 67, 68, 69, 70];
            && Digit(n) == lower[n]
            && (IsHexDigit(c) <==> exists k :: 0 <= k < 16 && (c == lower[k] || c == upper[k]))
            && (IsHexDigit(c) ==> (DigitValue(c) == n <==> c == lower[n] || c == upper[n]))
  {
    var lower: Bytes := [48, 49, 50, 51, 52, 53, 54, 55, 56, 57, 97, 98, 99, 100, 101, 102];
    var upper: Bytes := [48, 49, 50, 51, 52, 53, 54, 55, 56, 57, 65, 66, 67, 68, 69, 70];
    if IsHexDigit(c) {
      var k := if c <= 57 then c - 48 else if c <= 70 then c - 55 else c - 87;
      assert c == lower[k] || c == upper[k];
    }
  }

  function ToLower(c: byte): byte {
    if 65 <= c <= 90 then c + 32 else c
  }

  /** `u8::from_str_radix(pair, 16)`, which takes a leading plus sign. */
  function FromStrRadix16(pair: Bytes): (r: Option<byte>)
    requires |pair| == 2
  {
    if IsHexDigit(pair[0]) && IsHexDigit(pair[1]) then Some(16 * DigitValue(pair[0]) + DigitValue(pair[1]))
    else if pair[0] == 43 && IsHexDigit(pair[1]) then Some(DigitValue(pair[1]))
    else None
  }

  predicate IsHex64(s: Bytes) {
    |s| == 64 && forall i :: 0 <= i < 64 ==> IsHexDigit(s[i])
  }

  /** The word that 64 hex digits denote: two digits a byte, the high one first. */
  ghost predicate Denotes(s: Bytes, w: Word)
    requires IsHex64(s)
  {
    forall i :: 0 <= i < 32 ==> w[i] == 16 * DigitValue(s[2 * i]) + DigitValue(s[2 * i + 1])
  }

  method Parse32ByteHex(s: Bytes) returns (r: Result<Word, HexError>)
    ensures r.Ok? <==> IsHex64(s)
    ensures r.Ok? ==> Denotes(s, r.value)
    ensures r.Err? ==> r.error == if |s| != 64 then WrongLength(|s|) else NonHexCharacter
  {
    if |s| != 64 {
      return Err(WrongLength(|s|));
    }
    if exists i :: 0 <= i < |s| && !IsHexDigit(s[i]) {
      return Err(NonHexCharacter);
    }
    var out: Word := seq(32, _ => 0);
    for i := 0 to 32
      invariant |out| == 32
      invariant forall k :: 0 <= k < i ==> out[k] == 16 * DigitValue(s[2 * k]) + DigitValue(s[2 * k + 1])
    {
      var pair := s[i * 2..i * 2 + 2];
      var b := FromStrRadix16(pair);
      if b.None? {
        return Err(DecodeFailed(i));
      }
      out := out[i := b.value];
    }
    return Ok(out);
  }

  method BytesToHex(w: Word) returns (s: Bytes)
    ensures IsHex64(s) && Denotes(s, w)
    ensures forall i :: 0 <= i < 64 ==> ToLower(s[i]) == s[i]
  {
    s := [];
    for i := 0 to 32
      invariant |s| == 2 * i
      invariant forall k :: 0 <= k < |s| ==> IsHexDigit(s[k]) && ToLower(s[k]) == s[k]
      invariant forall k :: 0 <= k < i ==> w[k] == 16 * DigitValue(s[2 * k]) + DigitValue(s[2 * k + 1])
    {
      s := s + [Digit(w[i] / 16), Digit(w[i] % 16)];
    }
  }

  lemma {:induction false} DigitsAgree(a: byte, b: byte)
    requires IsHexDigit(a) && IsHexDigit(b) && DigitValue(a) == DigitValue(b)
    ensures ToLower(a) == ToLower(b)
  {
  }

  /** A word has one spelling up to letter case: parsing then encoding gives the input in lower case. */
  lemma {:induction false} OneSpelling(s: Bytes, t: Bytes, w: Word)
    requires IsHex64(s) && IsHex64(t) && Denotes(s, w) && Denotes(t, w)
    ensures forall i :: 0 <= i < 64 ==> ToLower(s[i]) == ToLower(t[i])
  {
    forall i | 0 <= i < 64 ensures ToLower(s[i]) == ToLower(t[i]) {
      var k := i / 2;
      assert w[k] == 16 * DigitValue(s[2 * k]) + DigitValue(s[2 * k + 1])
                  == 16 * DigitValue(t[2 * k]) + DigitValue(t[2 * k + 1]);
      DigitsAgree(s[2 * k], t[2 * k]);
      DigitsAgree(s[2 * k + 1], t[2 * k + 1]);
      assert i == 2 * k || i == 2 * k + 1;
    }
  }

  /** Spellings that differ in letter case only denote the same word. */
  lemma {:induction false} OneMeaning(s: Bytes, t: Bytes, v: Word, w: Word)
    requires IsHex64(s) && IsHex64(t) && Denotes(s, v) && Denotes(t, w)
    requires forall i :: 0 <= i < 64 ==> ToLower(s[i]) == ToLower(t[i])
    ensures v == w
  {
  }

  /** Encoding a word and parsing the result gives the word back. */
  method HexRoundTrip(w: Word) returns (back: Result<Word, HexError>)
    ensures back == Ok(w)
  {
    var s := BytesToHex(w);
    back := Parse32ByteHex(s);
    OneMeaning(s, s, w, back.value);
  }
}
