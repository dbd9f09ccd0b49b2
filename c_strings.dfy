/** The two pieces of C string handling the Wi-Fi code relies on: `strlcpy`
    into a fixed-size buffer, and the dotted-quad text that `snprintf` with
    `IPSTR` produces. A C string is modelled by its characters without the
    terminating NUL; a buffer is a sequence (or array) of characters. */
module CStrings {
  import opened Esp

  const Nul: char := '\0'

  predicate NoNul(s: seq<char>) {
    forall i :: 0 <= i < |s| ==> s[i] != Nul
  }

  /** The string a C reader sees in a buffer: everything before the first NUL. */
  function CString(buf: seq<char>): (s: seq<char>)
    ensures NoNul(s) && s <= buf
    ensures |s| < |buf| ==> buf[|s|] == Nul
  {
    if |buf| == 0 then []
    else if buf[0] == Nul then []
    else [buf[0]] + CString(buf[1..])
  }

  function Min(a: int, b: int): int { if a <= b then a else b }

  /** What `strlcpy(dst, src, size)` keeps of `src`: at most `size - 1` characters. */
  function Truncated(src: seq<char>, size: nat): seq<char>
    requires size > 0
  {
    src[..Min(|src|, size - 1)]
  }

  /** The buffer after `strlcpy`: the kept prefix of `src`, a NUL, then the
      buffer's old bytes, which `strlcpy` does not touch. */
  function StrlcpyBuffer(before: seq<char>, src: seq<char>): seq<char>
    requires |before| > 0
  {
    var k := Min(|src|, |before| - 1);
    src[..k] + [Nul] + before[k + 1..]
  }

  /** `strlcpy(dst, src, dst.Length)`; returns `strlen(src)` as the C function does. */
  method Strlcpy(dst: array<char>, src: seq<char>) returns (n: nat)
    requires dst.Length > 0 && NoNul(src)
    modifies dst
    ensures n == |src|
    ensures dst[..] == StrlcpyBuffer(old(dst[..]), src)
  {
    var k := Min(|src|, dst.Length - 1);
    var i := 0;
    while i < k
      invariant 0 <= i <= k
      invariant forall j :: 0 <= j < i ==> dst[j] == src[j]
      invariant forall j :: i <= j < dst.Length ==> dst[j] == old(dst[j])
    {
      dst[i] := src[i];
      i := i + 1;
    }
    dst[k] := Nul;
    n := |src|;
    ghost var want := StrlcpyBuffer(old(dst[..]), src);
    assert |want| == dst.Length;
    assert forall j :: 0 <= j < dst.Length ==> dst[..][j] == want[j];
  }

  lemma {:induction false} CStringOfTerminated(s: seq<char>, rest: seq<char>)
    requires NoNul(s)
    ensures CString(s + [Nul] + rest) == s
  {
    if s != [] {
      assert (s + [Nul] + rest)[1..] == s[1..] + [Nul] + rest;
      CStringOfTerminated(s[1..], rest);
    }
  }

  /** After `strlcpy` the buffer reads back as the source, cut to fit with its
      terminator; the source comes back whole exactly when it is shorter than the buffer. */
  lemma StrlcpyReadsBack(before: seq<char>, src: seq<char>)
    requires |before| > 0 && NoNul(src)
    ensures CString(StrlcpyBuffer(before, src)) == Truncated(src, |before|)
    ensures |Truncated(src, |before|)| < |before|
    ensures Truncated(src, |before|) <= src
    ensures Truncated(src, |before|) == src <==> |src| < |before|
  {
    var k := Min(|src|, |before| - 1);
    assert NoNul(src[..k]);
    CStringOfTerminated(src[..k], before[k + 1..]);
  }

  // ---- decimal text of an octet and the dotted quad of `IPSTR` ----

  function DigitChar(d: nat): (c: char)
    requires d < 10
  {
    (d + '0' as int) as char
  }

  predicate IsDigit(c: char) { '0' <= c <= '9' }

  predicate AllDigits(s: seq<char>) {
    forall i :: 0 <= i < |s| ==> IsDigit(s[i])
  }

  /** `%d` of a non-negative value: no sign, no leading zeros. */
  function Decimal(n: nat): (s: seq<char>)
    ensures |s| > 0
    ensures AllDigits(s)
  {
    if n < 10 then [DigitChar(n)] else Decimal(n / 10) + [DigitChar(n % 10)]
  }

  /** The value of a string of decimal digits. */
  function DecimalValue(s: seq<char>): nat
    requires AllDigits(s)
  {
    if |s| == 0 then 0
    else
      assert IsDigit(s[|s| - 1]);
      DecimalValue(s[..|s| - 1]) * 10 + (s[|s| - 1] as int - '0' as int)
  }

  lemma {:induction false} DecimalRoundTrip(n: nat)
    ensures DecimalValue(Decimal(n)) == n
  {
    if n >= 10 {
      var s := Decimal(n);
      assert s[..|s| - 1] == Decimal(n / 10);
      DecimalRoundTrip(n / 10);
    }
  }

  lemma DecimalOfOctetIsShort(n: nat)
    requires n < 256
    ensures |Decimal(n)| <= 3
  {
    if n >= 10 {
      assert Decimal(n) == Decimal(n / 10) + [DigitChar(n % 10)];
      if n / 10 >= 10 {
        assert Decimal(n / 10) == Decimal(n / 10 / 10) + [DigitChar(n / 10 % 10)];
        assert n / 10 / 10 < 10;
      }
    }
  }

  /** The text `IPSTR` gives four octets: `a.b.c.d`. */
  function DottedQuad(q: seq<Byte>): (s: seq<char>)
    requires |q| == 4
    ensures 7 <= |s| <= 15 && NoNul(s)
  {
    DecimalOfOctetIsShort(q[0] as nat);
    DecimalOfOctetIsShort(q[1] as nat);
    DecimalOfOctetIsShort(q[2] as nat);
    DecimalOfOctetIsShort(q[3] as nat);
    Decimal(q[0] as nat) + ("." + (Decimal(q[1] as nat) + ("." + (Decimal(q[2] as nat) + ("." + Decimal(q[3] as nat))))))
  }

  /** The dot-separated fields of a string (`"a.b"` gives `["a", "b"]`). */
  function Fields(s: seq<char>): (f: seq<seq<char>>)
    ensures |f| > 0
  {
    if |s| == 0 then [[]]
    else
      var rest := Fields(s[1..]);
      if s[0] == '.' then [[]] + rest else [[s[0]] + rest[0]] + rest[1..]
  }

  predicate IsOctetText(t: seq<char>) {
    0 < |t| <= 3 && AllDigits(t) && DecimalValue(t) < 256
  }

  /** Reads a dotted quad back into its four octets. */
  function ParseDottedQuad(s: seq<char>): Option<seq<Byte>> {
    var f := Fields(s);
    if |f| == 4 && (forall i :: 0 <= i < 4 ==> IsOctetText(f[i])) then
      Some([DecimalValue(f[0]) as Byte, DecimalValue(f[1]) as Byte, DecimalValue(f[2]) as Byte, DecimalValue(f[3]) as Byte])
    else None
  }

  lemma {:induction false} FieldsOfDigits(x: seq<char>, rest: seq<char>)
    requires AllDigits(x)
    ensures Fields(x + rest) == [x + Fields(rest)[0]] + Fields(rest)[1..]
  {
    var f := Fields(rest);
    if x == [] {
      assert x + rest == rest && x + f[0] == f[0];
      assert f == [f[0]] + f[1..];
    } else {
      var s := x + rest;
      assert s[1..] == x[1..] + rest;
      assert s[0] == x[0] && IsDigit(x[0]);
      FieldsOfDigits(x[1..], rest);
      var r := Fields(s[1..]);
      assert r == [x[1..] + f[0]] + f[1..];
      assert Fields(s) == [[s[0]] + r[0]] + r[1..];
      assert [x[0]] + (x[1..] + f[0]) == x + f[0];
    }
  }

  lemma FieldsOfField(x: seq<char>, rest: seq<char>)
    requires AllDigits(x)
    ensures Fields(x + ("." + rest)) == [x] + Fields(rest)
  {
    var t := "." + rest;
    FieldsOfDigits(x, t);
    assert t[0] == '.' && t[1..] == rest;
    assert Fields(t) == [[]] + Fields(rest);
    assert Fields(t)[0] == [] && Fields(t)[1..] == Fields(rest);
    assert x + [] == x;
  }

  lemma FieldsOfLast(x: seq<char>)
    requires AllDigits(x)
    ensures Fields(x) == [x]
  {
    FieldsOfDigits(x, []);
    assert x + [] == x;
  }

  lemma FieldsOfFour(d0: seq<char>, d1: seq<char>, d2: seq<char>, d3: seq<char>)
    requires AllDigits(d0) && AllDigits(d1) && AllDigits(d2) && AllDigits(d3)
    ensures Fields(d0 + ("." + (d1 + ("." + (d2 + ("." + d3)))))) == [d0, d1, d2, d3]
  {
    FieldsOfLast(d3);
    FieldsOfField(d2, d3);
    FieldsOfField(d1, d2 + ("." + d3));
    FieldsOfField(d0, d1 + ("." + (d2 + ("." + d3))));
  }

  lemma OctetText(n: nat)
    requires n < 256
    ensures IsOctetText(Decimal(n)) && DecimalValue(Decimal(n)) == n
  {
    DecimalOfOctetIsShort(n);
    DecimalRoundTrip(n);
  }

  /** The dotted quad fits the 16-byte buffer `wifi_connection_get_ip` asks
      for, and it names exactly the four octets it was made from. */
  lemma DottedQuadRoundTrip(q: seq<Byte>)
    requires |q| == 4
    ensures |DottedQuad(q)| <= 15 && NoNul(DottedQuad(q))
    ensures ParseDottedQuad(DottedQuad(q)) == Some(q)
  {
    OctetText(q[0] as nat);
    OctetText(q[1] as nat);
    OctetText(q[2] as nat);
    OctetText(q[3] as nat);
    FieldsOfFour(Decimal(q[0] as nat), Decimal(q[1] as nat), Decimal(q[2] as nat), Decimal(q[3] as nat));
    var f := Fields(DottedQuad(q));
    assert forall i :: 0 <= i < 4 ==> IsOctetText(f[i]);
    assert [DecimalValue(f[0]) as Byte, DecimalValue(f[1]) as Byte, DecimalValue(f[2]) as Byte, DecimalValue(f[3]) as Byte] == q;
  }
}
