/** Which strings are base64: exactly those an encoder prints (section 4 of RFC 4648). */
module Base64 {
  type byte = x: int | 0 <= x < 256

  function Digit64(c: char): int {
    if 'A' <= c <= 'Z' then c as int - 'A' as int
    else if 'a' <= c <= 'z' then c as int - 'a' as int + 26
    else if '0' <= c <= '9' then c as int - '0' as int + 52
    else if c == '+' then 62 else if c == '/' then 63 else -1
  }

  /** Canonical padded base64: whole quads, and no stray bits before the padding. */
  predicate IsBase64(s: string) {
    && |s| % 4 == 0
    && (s == "" ||
        (var pad := if s[|s| - 2] == '=' then 2 else if s[|s| - 1] == '=' then 1 else 0;
         && (pad == 2 ==> s[|s| - 1] == '=')
         && (forall i :: 0 <= i < |s| - pad ==> Digit64(s[i]) >= 0)
         && (pad == 1 ==> Digit64(s[|s| - 2]) % 4 == 0)
         && (pad == 2 ==> Digit64(s[|s| - 3]) % 16 == 0)))
  }

  function Char64(n: int): char
    requires 0 <= n < 64
  {
    if n < 26 then ('A' as int + n) as char
    else if n < 52 then ('a' as int + n - 26) as char
    else if n < 62 then ('0' as int + n - 52) as char
    else if n == 62 then '+' else '/'
  }

  function Quad(a: byte, b: byte, c: byte): (q: string)
    ensures |q| == 4
  {
    [Char64(a / 4), Char64(a % 4 * 16 + b / 16), Char64(b % 16 * 4 + c / 64), Char64(c % 64)]
  }

  /** Three bytes to four characters, the last one or two bytes padded out. */
  function Encode64(bytes: seq<byte>): string {
    if bytes == [] then ""
    else if |bytes| == 1 then Quad(bytes[0], 0, 0)[..2] + "=="
    else if |bytes| == 2 then Quad(bytes[0], bytes[1], 0)[..3] + "="
    else Quad(bytes[0], bytes[1], bytes[2]) + Encode64(bytes[3..])
  }

  lemma DigitOfChar(n: int)
    requires 0 <= n < 64
    ensures Digit64(Char64(n)) == n
  {
  }

  lemma CharOfDigit(c: char)
    requires Digit64(c) >= 0
    ensures Digit64(c) < 64 && Char64(Digit64(c)) == c && c != '='
  {
  }

  lemma QuadDigits(a: byte, b: byte, c: byte)
    ensures var q := Quad(a, b, c);
      && Digit64(q[0]) == a / 4 && Digit64(q[1]) == a % 4 * 16 + b / 16
      && Digit64(q[2]) == b % 16 * 4 + c / 64 && Digit64(q[3]) == c % 64
  {
    DigitOfChar(a / 4);
    DigitOfChar(a % 4 * 16 + b / 16);
    DigitOfChar(b % 16 * 4 + c / 64);
    DigitOfChar(c % 64);
  }

  predicate AllDigits(q: string) { forall i :: 0 <= i < |q| ==> Digit64(q[i]) >= 0 }

  lemma DigitsInFront(q: string, rest: string)
    requires |q| == 4 && AllDigits(q)
    ensures IsBase64(q + rest) <==> IsBase64(rest)
  {
    var s := q + rest;
    if rest != "" && |rest| % 4 == 0 {
      assert s[|s| - 1] == rest[|rest| - 1] && s[|s| - 2] == rest[|rest| - 2] && s[|s| - 3] == rest[|rest| - 3];
      if IsBase64(s) { assert forall i :: 0 <= i < |rest| ==> rest[i] == s[i + 4]; }
    } else if rest == "" {
      CharOfDigit(q[2]);
      CharOfDigit(q[3]);
    }
  }

  lemma OneByte(a: byte)
    ensures IsBase64(Quad(a, 0, 0)[..2] + "==")
  {
    QuadDigits(a, 0, 0);
    var q := Quad(a, 0, 0);
    var s := q[..2] + "==";
    assert |s| == 4 && s[0] == q[0] && s[1] == q[1] && s[2] == '=' && s[3] == '=';
  }

  lemma TwoBytes(a: byte, b: byte)
    ensures IsBase64(Quad(a, b, 0)[..3] + "=")
  {
    QuadDigits(a, b, 0);
    var q := Quad(a, b, 0);
    var s := q[..3] + "=";
    CharOfDigit(q[2]);
    assert |s| == 4 && s[0] == q[0] && s[1] == q[1] && s[2] == q[2] && s[3] == '=';
  }

  lemma {:induction false} EncodedIsBase64(bytes: seq<byte>)
    ensures IsBase64(Encode64(bytes))
  {
    if |bytes| == 1 {
      OneByte(bytes[0]);
    } else if |bytes| == 2 {
      TwoBytes(bytes[0], bytes[1]);
    } else if bytes != [] {
      EncodedIsBase64(bytes[3..]);
      QuadDigits(bytes[0], bytes[1], bytes[2]);
      DigitsInFront(Quad(bytes[0], bytes[1], bytes[2]), Encode64(bytes[3..]));
    }
  }

  /** The three bytes of four digits. */
  lemma Unquad(w: int, x: int, y: int, z: int) returns (a: byte, b: byte, c: byte)
    requires 0 <= w < 64 && 0 <= x < 64 && 0 <= y < 64 && 0 <= z < 64
    ensures a / 4 == w && a % 4 * 16 + b / 16 == x && b % 16 * 4 + c / 64 == y && c % 64 == z
    ensures x % 16 == 0 && y == 0 ==> b == 0
    ensures y % 4 == 0 && z == 0 ==> c == 0
  {
    a, b, c := w * 4 + x / 16, x % 16 * 16 + y / 4, y % 4 * 64 + z;
  }

  lemma UnquadText(q: string) returns (a: byte, b: byte, c: byte)
    requires |q| == 4 && AllDigits(q)
    ensures Quad(a, b, c) == q
  {
    CharOfDigit(q[0]);
    CharOfDigit(q[1]);
    CharOfDigit(q[2]);
    CharOfDigit(q[3]);
    a, b, c := Unquad(Digit64(q[0]), Digit64(q[1]), Digit64(q[2]), Digit64(q[3]));
  }

  lemma LastOne(s: string) returns (a: byte)
    requires IsBase64(s) && |s| == 4 && s[2] == '='
    ensures Encode64([a]) == s
  {
    CharOfDigit(s[0]);
    CharOfDigit(s[1]);
    var b, c;
    a, b, c := Unquad(Digit64(s[0]), Digit64(s[1]), 0, 0);
    assert Quad(a, 0, 0)[..2] == s[..2];
    assert s == s[..2] + "==";
  }

  lemma LastTwo(s: string) returns (a: byte, b: byte)
    requires IsBase64(s) && |s| == 4 && s[2] != '=' && s[3] == '='
    ensures Encode64([a, b]) == s
  {
    CharOfDigit(s[0]);
    CharOfDigit(s[1]);
    CharOfDigit(s[2]);
    var c;
    a, b, c := Unquad(Digit64(s[0]), Digit64(s[1]), Digit64(s[2]), 0);
    assert Quad(a, b, 0)[..3] == s[..3];
    assert s == s[..3] + "=";
  }

  lemma LastThree(s: string) returns (a: byte, b: byte, c: byte)
    requires |s| == 4 && AllDigits(s)
    ensures Encode64([a, b, c]) == s
  {
    a, b, c := UnquadText(s);
    assert [a, b, c][3..] == [];
    assert s + "" == s;
  }

  lemma LastQuad(s: string) returns (bytes: seq<byte>)
    requires IsBase64(s) && |s| == 4
    ensures Encode64(bytes) == s
  {
    if s[2] == '=' {
      var a := LastOne(s);
      bytes := [a];
    } else if s[3] == '=' {
      var a, b := LastTwo(s);
      bytes := [a, b];
    } else {
      var a, b, c := LastThree(s);
      bytes := [a, b, c];
    }
  }

  lemma {:induction false} Decoded(s: string) returns (bytes: seq<byte>)
    requires IsBase64(s)
    ensures Encode64(bytes) == s
  {
    if s == "" {
      bytes := [];
    } else if |s| == 4 {
      bytes := LastQuad(s);
    } else {
      var q, rest := s[..4], s[4..];
      assert s == q + rest;
      assert AllDigits(q);
      DigitsInFront(q, rest);
      var a, b, c := UnquadText(q);
      var more := Decoded(rest);
      bytes := [a, b, c] + more;
      assert bytes[3..] == more;
    }
  }

  /** A photo is accepted exactly when some bytes print as it. */
  lemma Base64Exactly(s: string)
    ensures IsBase64(s) <==> exists bytes :: Encode64(bytes) == s
  {
    if IsBase64(s) { var bytes := Decoded(s); }
    if bytes :| Encode64(bytes) == s { EncodedIsBase64(bytes); }
  }
}
