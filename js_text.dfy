/**
 * The few JavaScript string operations the ticket form relies on:
 * String.prototype.trim, Array.prototype.join over strings, and the
 * decimal rendering of an integer.
 */
module JsText {

  /** The code points String.prototype.trim removes: ECMAScript WhiteSpace and LineTerminator. */
  predicate IsTrimmable(c: char) {
    || c == '\t' || c == '\n' || c == '\U{000B}' || c == '\U{000C}' || c == '\r' || c == ' '
    || c == '\U{00A0}' || c == '\U{1680}' || ('\U{2000}' <= c <= '\U{200A}')
    || c == '\U{2028}' || c == '\U{2029}' || c == '\U{202F}' || c == '\U{205F}'
    || c == '\U{3000}' || c == '\U{FEFF}'
  }

  predicate AllTrimmable(s: string) {
    forall i :: 0 <= i < |s| ==> IsTrimmable(s[i])
  }

  /** Drops leading white space. */
  function TrimStart(s: string): string {
    if |s| > 0 && IsTrimmable(s[0]) then TrimStart(s[1..]) else s
  }

  /** The result of `TrimStart` is the longest suffix of `s` that does not start with white space. */
  lemma {:induction false} TrimStartSuffix(s: string)
    ensures var r := TrimStart(s);
      && |r| <= |s| && r == s[|s| - |r|..]
      && AllTrimmable(s[..|s| - |r|])
      && (r == [] || !IsTrimmable(r[0]))
  {
    if |s| > 0 && IsTrimmable(s[0]) {
      TrimStartSuffix(s[1..]);
      var r := TrimStart(s[1..]);
      assert s[..|s| - |r|] == [s[0]] + s[1..][..|s| - 1 - |r|];
    }
  }

  /** Drops trailing white space. */
  function TrimEnd(s: string): string {
    if |s| > 0 && IsTrimmable(s[|s| - 1]) then TrimEnd(s[..|s| - 1]) else s
  }

  /** The result of `TrimEnd` is the longest prefix of `s` that does not end with white space. */
  lemma {:induction false} TrimEndPrefix(s: string)
    ensures var r := TrimEnd(s);
      && |r| <= |s| && r == s[..|r|]
      && AllTrimmable(s[|r|..])
      && (r == [] || !IsTrimmable(r[|r| - 1]))
  {
    if |s| > 0 && IsTrimmable(s[|s| - 1]) {
      TrimEndPrefix(s[..|s| - 1]);
      var r := TrimEnd(s[..|s| - 1]);
      assert s[|r|..] == s[..|s| - 1][|r|..] + [s[|s| - 1]];
    }
  }

  /** String.prototype.trim. */
  function Trim(s: string): string {
    TrimEnd(TrimStart(s))
  }

  /** A string trims to "" exactly when every one of its characters is white space. */
  lemma TrimEmptyIff(s: string)
    ensures Trim(s) == "" <==> AllTrimmable(s)
  {
    var t := TrimStart(s);
    TrimStartSuffix(s);
    TrimEndPrefix(t);
    if Trim(s) == "" {
      assert t == [] by {
        assert t[0..] == t;
      }
      assert s[..|s|] == s;
    }
  }

  /** Trimming twice is trimming once. */
  lemma TrimIdempotent(s: string)
    ensures Trim(Trim(s)) == Trim(s)
  {
    var t := Trim(s);
    var u := TrimStart(s);
    TrimStartSuffix(s);
    TrimEndPrefix(u);
    TrimStartSuffix(t);
    TrimEndPrefix(t);
    if t != [] {
      assert t[0] == u[0];
      assert TrimStart(t) == t;
      assert TrimEnd(t) == t;
    } else {
      assert TrimStart(t) == t;
    }
  }

  /** Array.prototype.join of strings with separator `sep`. */
  function Join(parts: seq<string>, sep: string): (r: string)
    ensures |parts| == 0 ==> r == ""
    ensures |parts| == 1 ==> r == parts[0]
  {
    if |parts| == 0 then ""
    else if |parts| == 1 then parts[0]
    else parts[0] + sep + Join(parts[1..], sep)
  }

  /** Joining grows at the end too: the separator goes between the old join and the new last part. */
  lemma {:induction false} JoinSnoc(parts: seq<string>, p: string, sep: string)
    requires |parts| > 0
    ensures Join(parts + [p], sep) == Join(parts, sep) + sep + p
  {
    if |parts| == 1 {
      assert (parts + [p])[1..] == [p];
    } else {
      assert (parts + [p])[1..] == parts[1..] + [p];
      JoinSnoc(parts[1..], p, sep);
    }
  }

  function DigitChar(d: nat): (c: char)
    requires d < 10
  {
    ('0' as int + d) as char
  }

  function DigitValue(c: char): nat {
    if '0' <= c <= '9' then (c as int - '0' as int) as nat else 0
  }

  /** The decimal digits of `n`, as String(n) writes a non-negative integer. */
  function NatToDecimal(n: nat): (r: string)
    ensures |r| >= 1
    ensures forall i :: 0 <= i < |r| ==> '0' <= r[i] <= '9'
    ensures |r| > 1 ==> r[0] != '0'
  {
    if n < 10 then [DigitChar(n)] else NatToDecimal(n / 10) + [DigitChar(n % 10)]
  }

  /** The number a string of decimal digits denotes. */
  function DecimalValue(s: string): nat {
    if |s| == 0 then 0 else 10 * DecimalValue(s[..|s| - 1]) + DigitValue(s[|s| - 1])
  }

  /** Reading back the digits String(n) writes gives `n`. */
  lemma {:induction false} DecimalRoundTrip(n: nat)
    ensures DecimalValue(NatToDecimal(n)) == n
  {
    var r := NatToDecimal(n);
    if n >= 10 {
      var q, d := n / 10, n % 10;
      DecimalRoundTrip(q);
      assert r[..|r| - 1] == NatToDecimal(q);
      assert DigitValue(r[|r| - 1]) == d;
      assert n == 10 * q + d;
    }
  }
}
