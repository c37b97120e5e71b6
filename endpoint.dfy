/**
 * The "host:port" text of the connection form and how performConnection
 * turns it into the host and port it dials: String.prototype.split on ':'
 * and JavaScript's parseInt(text, 10), with 5555 as the fallback port.
 */
module Endpoint {
  import opened Wrappers

  /** The port used when the text has no colon or its port does not parse to a non-zero number. */
  const DefaultPort: int := 5555

  datatype Endpoint = Endpoint(host: string, port: int)

  predicate IsDigit(c: char) { '0' <= c <= '9' }

  /** The characters JavaScript's TrimString removes: WhiteSpace and LineTerminator. */
  predicate IsJsSpace(c: char) {
    var k := c as int;
    || 0x09 <= k <= 0x0D
    || k == 0x20 || k == 0xA0 || k == 0x1680
    || 0x2000 <= k <= 0x200A
    || k == 0x2028 || k == 0x2029 || k == 0x202F || k == 0x205F
    || k == 0x3000 || k == 0xFEFF
  }

  predicate AllDigits(s: string) {
    forall i | 0 <= i < |s| :: IsDigit(s[i])
  }

  function DigitValue(c: char): (d: nat)
    requires IsDigit(c)
    ensures d < 10
  {
    c as int - '0' as int
  }

  function Digit(d: nat): (c: char)
    requires d < 10
    ensures IsDigit(c) && DigitValue(c) == d
  {
    ('0' as int + d) as char
  }

  /** The number a run of decimal digits denotes, most significant digit first. */
  function DigitsValue(ds: string): nat
    requires AllDigits(ds)
    decreases |ds|
  {
    if ds == [] then 0 else 10 * DigitsValue(ds[..|ds| - 1]) + DigitValue(ds[|ds| - 1])
  }

  /** The length of the longest prefix of `s` that is white space. */
  function SpaceRun(s: string): (n: nat)
    ensures n <= |s|
    ensures forall i | 0 <= i < n :: IsJsSpace(s[i])
    ensures n < |s| ==> !IsJsSpace(s[n])
    decreases |s|
  {
    if s != [] && IsJsSpace(s[0]) then 1 + SpaceRun(s[1..]) else 0
  }

  /** The length of the longest prefix of `s` made of decimal digits. */
  function DigitRun(s: string): (n: nat)
    ensures n <= |s|
    ensures AllDigits(s[..n])
    ensures n < |s| ==> !IsDigit(s[n])
    decreases |s|
  {
    if s != [] && IsDigit(s[0]) then 1 + DigitRun(s[1..]) else 0
  }

  /**
   * parseInt(s, 10): skip leading white space, read an optional sign, then
   * the longest run of decimal digits; no digit at all gives NaN (None).
   * Anything after the digits is ignored, so "80abc" reads as 80.
   */
  function ParseInt(s: string): (r: Option<int>)
    ensures r.Some? ==>
      var t := s[SpaceRun(s)..];
      t != [] && (IsDigit(t[0]) || t[0] == '-' || t[0] == '+')
    ensures r.Some? && r.value < 0 ==> s[SpaceRun(s)] == '-'
  {
    ParseTail(s[SpaceRun(s)..])
  }

  /** What parseInt reads once the leading white space is skipped. */
  function ParseTail(t: string): (r: Option<int>)
    ensures r.Some? ==> t != [] && (IsDigit(t[0]) || t[0] == '-' || t[0] == '+')
    ensures r.Some? && r.value < 0 ==> t[0] == '-'
  {
    var negative := t != [] && t[0] == '-';
    var u := if t != [] && (t[0] == '-' || t[0] == '+') then t[1..] else t;
    match Magnitude(u)
    case None => None
    case Some(m) => var v: int := m; Some(if negative then -v else v)
  }

  /** The value of the digit run at the front of `u`; none when it is empty. */
  function Magnitude(u: string): (r: Option<nat>)
    ensures r.Some? <==> u != [] && IsDigit(u[0])
  {
    var n := DigitRun(u);
    if n == 0 then None else Some(DigitsValue(u[..n]))
  }

  /** The decimal numeral of a natural number, as JavaScript prints it. */
  function NatDecimal(n: nat): (ds: string)
    ensures |ds| >= 1 && AllDigits(ds)
    ensures DigitsValue(ds) == n
    decreases n
  {
    if n < 10 then [Digit(n)] else NatDecimal(n / 10) + [Digit(n % 10)]
  }

  /** The decimal numeral of an integer, with a leading '-' when negative. */
  function IntDecimal(n: int): string {
    if n < 0 then "-" + NatDecimal(-n) else NatDecimal(n)
  }

  lemma {:induction false} DigitRunOfDigits(ds: string, rest: string)
    requires AllDigits(ds)
    requires rest == [] || !IsDigit(rest[0])
    ensures DigitRun(ds + rest) == |ds|
    decreases |ds|
  {
    if ds != [] {
      assert (ds + rest)[1..] == ds[1..] + rest;
      DigitRunOfDigits(ds[1..], rest);
    }
  }

  /** parseInt reads back the numeral of any integer, whatever non-digit text follows it. */
  lemma ParseIntDecimal(n: int, rest: string)
    requires rest == [] || !IsDigit(rest[0])
    ensures ParseInt(IntDecimal(n) + rest) == Some(n)
  {
    var ds := NatDecimal(if n < 0 then -n else n);
    var s := IntDecimal(n) + rest;
    assert !IsJsSpace(s[0]);
    assert SpaceRun(s) == 0;
    var u := ds + rest;
    if n < 0 {
      assert s == "-" + u;
      assert s[1..] == u;
    } else {
      assert s == u;
    }
    DigitRunOfDigits(ds, rest);
    assert u[..|ds|] == ds;
  }

  lemma {:induction false} SpaceRunAppend(w: string, s: string)
    requires forall i | 0 <= i < |w| :: IsJsSpace(w[i])
    ensures SpaceRun(w + s) == |w| + SpaceRun(s)
    decreases |w|
  {
    if w != [] {
      var ws := w + s;
      assert ws[0] == w[0] && IsJsSpace(ws[0]);
      assert ws[1..] == w[1..] + s;
      SpaceRunAppend(w[1..], s);
      assert SpaceRun(ws) == 1 + SpaceRun(ws[1..]);
    } else {
      assert w + s == s;
    }
  }

  /** Leading white space does not change what parseInt reads. */
  lemma ParseIntSkipsSpace(w: string, s: string)
    requires forall i | 0 <= i < |w| :: IsJsSpace(w[i])
    ensures ParseInt(w + s) == ParseInt(s)
  {
    SpaceRunAppend(w, s);
    var t := s[SpaceRun(s)..];
    assert (w + s)[SpaceRun(w + s)..] == t;
    assert ParseInt(w + s) == ParseInt(s) by {
      assert ParseInt(w + s) == ParseTail(t);
      assert ParseInt(s) == ParseTail(t);
    }
  }

  /** Text that starts with neither white space, a sign nor a digit reads as NaN. */
  lemma ParseIntNoDigits(s: string)
    requires s == [] || (!IsJsSpace(s[0]) && !IsDigit(s[0]) && s[0] != '-' && s[0] != '+')
    ensures ParseInt(s) == None
  {
  }

  /**
   * String.prototype.split with a one-character separator: the pieces of `s`
   * between separators, in order.
   */
  function Split(s: string, sep: char): (parts: seq<string>)
    ensures |parts| >= 1
    ensures forall i | 0 <= i < |parts| :: sep !in parts[i]
    ensures sep in s <==> |parts| >= 2
    ensures |parts[0]| <= |s| && s[..|parts[0]|] == parts[0]
    ensures |parts| >= 2 ==> |parts[0]| < |s| && s[|parts[0]|] == sep
    decreases |s|
  {
    if s == [] then [""]
    else
      var rest := Split(s[1..], sep);
      assert s == [s[0]] + s[1..];
      if s[0] == sep then [""] + rest
      else [[s[0]] + rest[0]] + rest[1..]
  }

  /** Array.prototype.join with a one-character separator. */
  function Join(parts: seq<string>, sep: char): string
    requires |parts| >= 1
    decreases |parts|
  {
    if |parts| == 1 then parts[0] else parts[0] + [sep] + Join(parts[1..], sep)
  }

  /** Splitting loses nothing: joining the pieces gives the text back. */
  lemma {:induction false} SplitThenJoin(s: string, sep: char)
    ensures Join(Split(s, sep), sep) == s
    decreases |s|
  {
    if s != [] {
      var rest := Split(s[1..], sep);
      SplitThenJoin(s[1..], sep);
      if s[0] == sep {
        assert ([""] + rest)[1..] == rest;
      } else if |rest| > 1 {
        assert ([[s[0]] + rest[0]] + rest[1..])[1..] == rest[1..];
      }
    }
  }

  lemma {:induction false} SplitNoSeparator(h: string, sep: char)
    requires sep !in h
    ensures Split(h, sep) == [h]
    decreases |h|
  {
    if h != [] {
      SplitNoSeparator(h[1..], sep);
      assert [h[0]] + h[1..] == h;
    }
  }

  /** The text before the first separator is the first piece; the rest splits on its own. */
  lemma {:induction false} SplitAfterFirst(h: string, t: string, sep: char)
    requires sep !in h
    ensures Split(h + [sep] + t, sep) == [h] + Split(t, sep)
    decreases |h|
  {
    var s := h + [sep] + t;
    if h == [] {
      assert s[1..] == t;
    } else {
      assert s[1..] == h[1..] + [sep] + t;
      SplitAfterFirst(h[1..], t, sep);
      assert [h[0]] + h[1..] == h;
    }
  }

  /** Joining pieces free of the separator and splitting again gives the pieces back. */
  lemma {:induction false} JoinThenSplit(parts: seq<string>, sep: char)
    requires |parts| >= 1
    requires forall i | 0 <= i < |parts| :: sep !in parts[i]
    ensures Split(Join(parts, sep), sep) == parts
    decreases |parts|
  {
    if |parts| == 1 {
      SplitNoSeparator(parts[0], sep);
    } else {
      JoinThenSplit(parts[1..], sep);
      SplitAfterFirst(parts[0], Join(parts[1..], sep), sep);
    }
  }

  /** Text without a separator in front does not change where the first piece ends. */
  lemma {:induction false} SplitPrefix(a: string, b: string, sep: char)
    requires sep !in a
    ensures Split(a + b, sep)[0] == a + Split(b, sep)[0]
    decreases |a|
  {
    if a != [] {
      var ab := a + b;
      assert ab[0] == a[0] && a[0] != sep;
      assert ab[1..] == a[1..] + b;
      SplitPrefix(a[1..], b, sep);
      var rest := Split(ab[1..], sep);
      assert Split(ab, sep) == [[a[0]] + rest[0]] + rest[1..];
      assert [a[0]] + (a[1..] + Split(b, sep)[0]) == a + Split(b, sep)[0];
    } else {
      assert a + b == b;
    }
  }

  /** `parseInt(text, 10) || 5555`: NaN and 0 are falsy and fall back to the default. */
  function PortOrDefault(parsed: Option<int>): (port: int)
    ensures port != 0
    ensures parsed.Some? && parsed.value != 0 ==> port == parsed.value
    ensures parsed.None? || parsed == Some(0) ==> port == DefaultPort
  {
    if parsed.Some? && parsed.value != 0 then parsed.value else DefaultPort
  }

  /**
   * The endpoint performConnection dials: the whole text with port 5555 when
   * it has no colon, otherwise the text before the first colon and the port
   * read from the second colon-separated piece.
   */
  function ParseEndpoint(address: string): (e: Endpoint)
    ensures e.port != 0
    ensures ':' !in address ==> e == Endpoint(address, DefaultPort)
    ensures ':' in address ==>
      && ':' !in e.host
      && |e.host| < |address|
      && address[..|e.host|] == e.host
      && address[|e.host|] == ':'
  {
    if ':' !in address then Endpoint(address, DefaultPort)
    else
      var parts := Split(address, ':');
      Endpoint(parts[0], PortOrDefault(ParseInt(parts[1])))
  }

  /** After "host:", the port is read from the text up to the next colon, if any. */
  lemma EndpointPortSegment(host: string, tail: string)
    requires ':' !in host
    ensures ParseEndpoint(host + ":" + tail)
         == Endpoint(host, PortOrDefault(ParseInt(Split(tail, ':')[0])))
  {
    SplitAfterFirst(host, tail, ':');
    assert ':' in host + ":" + tail by {
      assert (host + ":" + tail)[|host|] == ':';
    }
  }

  /**
   * "host:<numeral>" round-trips for every non-zero port, whatever non-digit
   * text follows the numeral ("h:80abc" and "h:80:90" both dial port 80).
   */
  lemma EndpointOfDecimalPort(host: string, port: int, rest: string)
    requires ':' !in host
    requires port != 0
    requires rest == [] || !IsDigit(rest[0])
    ensures ParseEndpoint(host + ":" + IntDecimal(port) + rest) == Endpoint(host, port)
  {
    var numeral := IntDecimal(port);
    assert ':' !in numeral by {
      var ds := NatDecimal(if port < 0 then -port else port);
      assert forall i | 0 <= i < |ds| :: ds[i] != ':';
    }
    EndpointNumeralPort(host, numeral, rest);
    ParseIntDecimal(port, Split(rest, ':')[0]);
  }

  /**
   * After "host:" and a colon-free numeral, the port is read from the
   * numeral and whatever follows it up to the next colon.
   */
  lemma EndpointNumeralPort(host: string, numeral: string, rest: string)
    requires ':' !in host && ':' !in numeral
    requires rest == [] || !IsDigit(rest[0])
    ensures var piece := Split(rest, ':')[0];
      && (piece == [] || !IsDigit(piece[0]))
      && ParseEndpoint(host + ":" + numeral + rest)
         == Endpoint(host, PortOrDefault(ParseInt(numeral + piece)))
  {
    assert host + ":" + numeral + rest == host + ":" + (numeral + rest);
    EndpointPortSegment(host, numeral + rest);
    SplitPrefix(numeral, rest, ':');
    var piece := Split(rest, ':')[0];
    if piece != [] {
      assert piece[0] == rest[0];
    }
  }

  /**
   * A port piece made of digits, leading zeros included, dials the number
   * they denote ("h:05555" dials 5555, "h:080x" dials 80), and 5555 when
   * that number is 0.
   */
  lemma EndpointDigitsPort(host: string, ds: string, rest: string)
    requires ':' !in host
    requires |ds| > 0 && AllDigits(ds)
    requires rest == [] || !IsDigit(rest[0])
    ensures var v: int := DigitsValue(ds);
      ParseEndpoint(host + ":" + ds + rest) == Endpoint(host, if v == 0 then DefaultPort else v)
  {
    assert ':' !in ds by {
      assert forall i | 0 <= i < |ds| :: ds[i] != ':';
    }
    EndpointNumeralPort(host, ds, rest);
    ParseIntDigits(ds, Split(rest, ':')[0]);
  }

  /** The same after a sign: "h:+80" dials 80, "h:-80" dials -80, and "h:-0" dials 5555. */
  lemma EndpointSignedPort(host: string, sign: string, ds: string, rest: string)
    requires ':' !in host
    requires sign == "-" || sign == "+"
    requires |ds| > 0 && AllDigits(ds)
    requires rest == [] || !IsDigit(rest[0])
    ensures var v: int := DigitsValue(ds);
      ParseEndpoint(host + ":" + (sign + ds) + rest)
      == Endpoint(host, if v == 0 then DefaultPort else if sign == "-" then -v else v)
  {
    var numeral := sign + ds;
    assert ':' !in numeral by {
      assert forall i | 0 <= i < |numeral| :: numeral[i] != ':';
    }
    EndpointNumeralPort(host, numeral, rest);
    var piece := Split(rest, ':')[0];
    ParseSignedDigits(sign, ds, piece);
    assert numeral + piece == sign + ds + piece;
  }

  /**
   * The NaN fallback of `|| 5555`: a port piece that is empty or starts with
   * anything but white space, a sign or a digit dials 5555 ("h:", "h:x80", "h::9").
   */
  lemma EndpointNonNumericPort(host: string, rest: string)
    requires ':' !in host
    requires rest == [] || (!IsJsSpace(rest[0]) && !IsDigit(rest[0]) && rest[0] != '-' && rest[0] != '+')
    ensures ParseEndpoint(host + ":" + rest) == Endpoint(host, DefaultPort)
  {
    EndpointPortSegment(host, rest);
    var piece := Split(rest, ':')[0];
    if piece != [] {
      assert piece[0] == rest[0];
    }
    ParseIntNoDigits(piece);
  }

  /** A sign with no digit after it reads as NaN ("-", "+x", "-:9"). */
  lemma {:induction false} ParseIntSignNoDigits(c: char, rest: string)
    requires c == '-' || c == '+'
    requires rest == [] || !IsDigit(rest[0])
    ensures ParseInt([c] + rest) == None
  {
    SpaceRunNone([c] + rest);
    ParseTailSigned(c, rest);
  }

  /** The NaN fallback for a bare sign: "h:-", "h:+x" and "h:-:9" dial 5555. */
  lemma EndpointSignNoDigits(host: string, c: char, rest: string)
    requires ':' !in host
    requires c == '-' || c == '+'
    requires rest == [] || !IsDigit(rest[0])
    ensures ParseEndpoint(host + ":" + ([c] + rest)) == Endpoint(host, DefaultPort)
  {
    EndpointPortSegment(host, [c] + rest);
    SplitPrefix([c], rest, ':');
    var piece := Split(rest, ':')[0];
    if piece != [] {
      assert piece[0] == rest[0];
    }
    ParseIntSignNoDigits(c, piece);
  }

  /** A run of zeros is a run of digits that denotes 0. */
  lemma {:induction false} ZerosValue(zeros: string)
    requires forall i | 0 <= i < |zeros| :: zeros[i] == '0'
    ensures AllDigits(zeros) && DigitsValue(zeros) == 0
    decreases |zeros|
  {
    if zeros != [] {
      ZerosValue(zeros[..|zeros| - 1]);
    }
  }

  /**
   * parseInt reads any run of digits, leading zeros included ("080" reads
   * as 80), whatever non-digit text follows.
   */
  lemma {:induction false} ParseIntDigits(ds: string, rest: string)
    requires |ds| > 0 && AllDigits(ds)
    requires rest == [] || !IsDigit(rest[0])
    ensures ParseInt(ds + rest) == Some(DigitsValue(ds) as int)
  {
    ParseTailDigits(ds, rest);
    assert IsDigit((ds + rest)[0]);
    SpaceRunNone(ds + rest);
  }

  /** The same after a sign: "+80" reads as 80 and "-080" as -80. */
  lemma {:induction false} ParseSignedDigits(sign: string, ds: string, rest: string)
    requires sign == "-" || sign == "+"
    requires |ds| > 0 && AllDigits(ds)
    requires rest == [] || !IsDigit(rest[0])
    ensures var v: int := DigitsValue(ds);
      ParseInt(sign + ds + rest) == Some(if sign == "-" then -v else v)
  {
    var c := sign[0];
    assert sign + ds + rest == [c] + (ds + rest);
    ParseTailDigits(ds, rest);
    SpaceRunNone([c] + (ds + rest));
    ParseTailSigned(c, ds + rest);
  }

  lemma {:induction false} ParseTailSigned(c: char, u: string)
    requires c == '-' || c == '+'
    ensures ParseTail([c] + u) == match Magnitude(u)
      case None => None
      case Some(m) => var v: int := m; Some(if c == '-' then -v else v)
  {
    assert ([c] + u)[1..] == u;
  }

  lemma {:induction false} SpaceRunNone(s: string)
    requires s != [] && !IsJsSpace(s[0])
    ensures ParseInt(s) == ParseTail(s)
  {
    assert SpaceRun(s) == 0;
    assert s[0..] == s;
  }

  /** What parseInt reads from a digit run with no sign or white space before it. */
  lemma {:induction false} ParseTailDigits(ds: string, rest: string)
    requires |ds| > 0 && AllDigits(ds)
    requires rest == [] || !IsDigit(rest[0])
    ensures Magnitude(ds + rest) == Some(DigitsValue(ds))
    ensures ParseTail(ds + rest) == Some(DigitsValue(ds) as int)
  {
    DigitRunOfDigits(ds, rest);
    assert (ds + rest)[..|ds|] == ds;
    assert IsDigit((ds + rest)[0]);
  }

  /**
   * The zero fallback of `|| 5555`: a port piece that reads as 0 ("h:0",
   * "h:00", "h:000abc") dials 5555; signed zeros are `EndpointSignedPort`'s.
   */
  lemma EndpointZeroPort(host: string, zeros: string, rest: string)
    requires ':' !in host
    requires |zeros| > 0 && forall i | 0 <= i < |zeros| :: zeros[i] == '0'
    requires rest == [] || !IsDigit(rest[0])
    ensures ParseEndpoint(host + ":" + zeros + rest) == Endpoint(host, DefaultPort)
  {
    ZerosValue(zeros);
    EndpointDigitsPort(host, zeros, rest);
  }
}
