/**
 * split_uri of the coap client driver: cuts a "coap://server[:port]/path"
 * argument into a server, a port and a path by writing NUL into the caller's
 * buffer and returning indices into it.
 *
 * SplitSpec and SplitUri are the code as written. CorrectedSplitSpec and
 * SplitUriCorrected repair its two defects (reading past the terminator after
 * an unclosed '[' and leaving ":port" in the host name); the lemmas after each
 * state what the two versions promise.
 */
module UriSplit {
  import opened Wrappers
  import opened CStrings

  const PortModulus: nat := 0x1_0000

  /** An `unsigned short`. */
  type Port = x: int | 0 <= x < PortModulus

  const Scheme: seq<char> := "coap://"

  /** The argument starts with "coap://"; on a C string this is `strncmp(str, "coap://", 7) == 0` (SchemeIsStrncmp). */
  predicate HasCoapScheme(s: seq<char>)
    ensures HasCoapScheme(s) <==> |s| >= 7 && forall k :: 0 <= k < 7 ==> s[k] == Scheme[k]
  {
    |s| >= 7 && s[..7] == Scheme
  }

  /**
   * The scheme test agrees with strncmp against the literal "coap://", which
   * stops at a NUL: a C string shorter than the scheme fails both.
   */
  lemma {:induction false} SchemeIsStrncmp(s: seq<char>)
    requires IsCString(s)
    ensures HasCoapScheme(s) <==> StrNEq(s, Scheme + [NUL], 7)
  {
    var t := Scheme + [NUL];
    if |s| >= 8 {
      assert s[..7] == Scheme <==> StrNEq(s, t, 7) by {
        assert StrNEq(s, t, 7) <==> s[0] == t[0] && StrNEq(s[1..], t[1..], 6);
      }
    }
  }

  /** What split_uri hands back: `*server` (None when it is never assigned), `*port`, `*path`. */
  datatype UriParts = UriParts(server: Option<nat>, port: Port, path: nat)

  /** The code as written either completes or reads the cell after the terminator. */
  datatype Split = Parts(parts: UriParts) | ReadsPastEnd(at: nat)

  /** The port an `unsigned short` holds after reading a numeral digit by digit. */
  function ShortValue(ds: seq<char>): Port
    requires AllDigits(ds)
  {
    DecimalValue(ds) % PortModulus
  }

  /** `if (*p++ == ':') { *port = 0; while (isdigit(*p)) ... }` with p in bounds. */
  function PortAfterHost(b: seq<char>, p: nat, defaultPort: Port): (port: Port)
    requires Terminated(b) && p < |b|
    ensures b[p] != ':' ==> port == defaultPort
    ensures b[p] == ':' && !IsDigit(b[p + 1]) ==> port == 0
  {
    if b[p] == ':' then ShortValue(b[p + 1..DigitsEnd(b, p + 1)]) else defaultPort
  }

  lemma SchemeLength(s: seq<char>)
    requires IsCString(s) && HasCoapScheme(s)
    ensures |s| >= 8
    ensures forall k :: 0 <= k < 7 ==> s[k] == Scheme[k]
  {
    assert s[6] == s[..7][6] == '/';
  }

  /**
   * The first step of split_uri on a "coap://" string: the first '/' after the
   * scheme becomes NUL and the path starts after it; without one the path is the
   * empty string at the terminator.
   */
  function CutPath(s: seq<char>): (r: (seq<char>, nat))
    requires IsCString(s) && HasCoapScheme(s)
    ensures |r.0| == |s| && 7 <= r.1 < |s|
    ensures r.1 == |s| - 1 || (s[r.1 - 1] == '/' && r.0[r.1 - 1] == NUL)
    ensures forall k :: 0 <= k < |s| && r.0[k] != s[k] ==> k == r.1 - 1 && s[k] == '/' && r.0[k] == NUL
    ensures FirstStop(s, 7, '/', if r.0 == s then r.1 else r.1 - 1)
  {
    SchemeLength(s);
    var stop := ScanTo(s, 7, '/');
    if s[stop] == '/' then (s[stop := NUL], stop + 1) else (s, stop)
  }

  lemma CutPathTerminated(s: seq<char>)
    requires IsCString(s) && HasCoapScheme(s)
    ensures Terminated(CutPath(s).0) && |CutPath(s).0| == |s| >= 8
    ensures CutPath(s).0[..7] == s[..7]
  {
    SchemeLength(s);
  }

  /**
   * split_uri as written, on the buffer contents s: the outcome and the buffer
   * afterwards. A server in brackets ends at the first ']' (which becomes NUL)
   * and the port check reads the cell after it, even when no ']' was found.
   */
  function SplitSpec(s: seq<char>, defaultPort: Port): (r: (Split, seq<char>))
    requires IsCString(s)
    ensures |r.1| == |s| && Terminated(r.1)
    ensures r.0.ReadsPastEnd? ==> r.0.at == |s|
    ensures r.0.Parts? ==> (r.0.parts.server.None? <==> !HasCoapScheme(s)) && r.0.parts.path < |s|
  {
    if !HasCoapScheme(s) then (Parts(UriParts(None, defaultPort, 0)), s)
    else
      CutPathTerminated(s);
      var (b, path) := CutPath(s);
      if b[7] == '[' then
        var close := ScanTo(b, 8, ']');
        var b' := b[close := NUL];
        if close + 1 == |b'| then (ReadsPastEnd(close + 1), b')
        else (Parts(UriParts(Some(8), PortAfterHost(b', close + 1, defaultPort), path)), b')
      else
        (Parts(UriParts(Some(7), PortAfterHost(b, ScanTo(b, 7, ':'), defaultPort), path)), b)
  }

  /** Where the host part ends in the corrected split, and the buffer once a ']' there is cut. */
  function CorrectedHostEnd(b: seq<char>): (r: (seq<char>, nat))
    requires Terminated(b) && |b| >= 8
    ensures Terminated(r.0) && |r.0| == |b| && 7 <= r.1 < |b|
  {
    if b[7] == '[' then
      var close := ScanTo(b, 8, ']');
      if b[close] == ']' then (b[close := NUL], close + 1) else (b, close)
    else (b, ScanTo(b, 7, ':'))
  }

  /**
   * split_uri with both defects repaired: the step past ']' happens only when a
   * ']' was found, and the ':' before the port becomes NUL so that the server
   * string is the host alone.
   */
  function CorrectedSplitSpec(s: seq<char>, defaultPort: Port): (r: (UriParts, seq<char>))
    requires IsCString(s)
    ensures |r.1| == |s| && Terminated(r.1)
    ensures (r.0.server.None? <==> !HasCoapScheme(s)) && r.0.path < |s|
  {
    if !HasCoapScheme(s) then (UriParts(None, defaultPort, 0), s)
    else
      CutPathTerminated(s);
      var (b, path) := CutPath(s);
      var server := if b[7] == '[' then 8 else 7;
      var (b', p) := CorrectedHostEnd(b);
      var (port, b'') := CorrectedPort(b', p, defaultPort);
      (UriParts(Some(server), port, path), b'')
  }

  /** The corrected split's last step: a ':' where the host part ends becomes NUL and the digits after it are the port. */
  function CorrectedPort(b: seq<char>, p: nat, defaultPort: Port): (r: (Port, seq<char>))
    requires Terminated(b) && p < |b|
    ensures Terminated(r.1) && |r.1| == |b|
    ensures r.1 == if b[p] == ':' then b[p := NUL] else b
  {
    if b[p] == ':' then
      var cut := b[p := NUL];
      (ShortValue(cut[p + 1..DigitsEnd(cut, p + 1)]), cut)
    else
      (defaultPort, b)
  }

  /** Adding whole multiples of the modulus does not change an unsigned short. */
  lemma ModShift(k: int, y: int)
    ensures (k * PortModulus + y) % PortModulus == y % PortModulus
  {
    var x := k * PortModulus + y;
    assert x == (k + y / PortModulus) * PortModulus + y % PortModulus;
  }

  /** One step of `*port *= 10; *port += *p - '0';` on an unsigned short. */
  lemma PortStep(v: nat, d: nat)
    ensures ((v % PortModulus) * 10 % PortModulus + d) % PortModulus == (v * 10 + d) % PortModulus
  {
    var q, r := v / PortModulus, v % PortModulus;
    var q2, r2 := r * 10 / PortModulus, r * 10 % PortModulus;
    assert v * 10 + d == (q * 10 + q2) * PortModulus + (r2 + d);
    ModShift(q * 10 + q2, r2 + d);
  }

  /** The port loop: digits from i on, each step reduced as an unsigned short. */
  method ParsePort(a: array<char>, i: nat) returns (port: Port, end: nat)
    requires Terminated(a[..]) && i < a.Length
    ensures end == DigitsEnd(a[..], i)
    ensures port == ShortValue(a[i..end])
  {
    port, end := 0, i;
    while IsDigit(a[end])
      invariant i <= end < a.Length
      invariant forall k :: i <= k < end ==> IsDigit(a[k])
      invariant port == ShortValue(a[i..end])
      decreases a.Length - end
    {
      ghost var before := a[i..end];
      port := (port * 10) % PortModulus;
      port := (port + (a[end] as int - '0' as int)) % PortModulus;
      end := end + 1;
      assert a[i..end][..|a[i..end]| - 1] == before;
      PortStep(DecimalValue(before), DigitValue(a[end - 1]));
    }
    ghost var found := DigitsEnd(a[..], i);
    assert !(found < end) && !(end < found);
  }

  /** The first step of split_uri, in place: cut the path off at the first '/'. */
  method CutPathInPlace(a: array<char>) returns (path: nat)
    requires IsCString(a[..]) && HasCoapScheme(a[..])
    modifies a
    ensures (a[..], path) == CutPath(old(a[..]))
  {
    SchemeLength(a[..]);
    path := FindStop(a, 7, '/');
    if a[path] != NUL {
      a[path] := NUL;
      path := path + 1;
    }
  }

  /**
   * The host step of split_uri as written: a bracketed server ends at the first
   * ']' or NUL, which becomes NUL, and the port check starts one cell further
   * on; any other server ends at the first ':' or NUL.
   */
  method CutHostAsWritten(a: array<char>) returns (p: nat)
    requires Terminated(a[..]) && a.Length >= 8
    modifies a
    ensures old(a[7]) == '[' ==> p == ScanTo(old(a[..]), 8, ']') + 1 && a[..] == old(a[..])[p - 1 := NUL]
    ensures old(a[7]) != '[' ==> p == ScanTo(old(a[..]), 7, ':') && a[..] == old(a[..])
  {
    if a[7] == '[' {
      ghost var b := a[..];
      p := FindStop(a, 8, ']');
      a[p] := NUL;
      assert a[..] == b[p := NUL];
      p := p + 1;
    } else {
      p := FindStop(a, 7, ':');
    }
  }

  /** split_uri as written, in place on the argument's buffer. */
  method SplitUri(a: array<char>, defaultPort: Port) returns (r: Split)
    requires IsCString(a[..])
    modifies a
    ensures (r, a[..]) == SplitSpec(old(a[..]), defaultPort)
  {
    var port := defaultPort;
    if !HasCoapScheme(a[..]) {
      return Parts(UriParts(None, port, 0));
    }
    CutPathTerminated(a[..]);
    var path := CutPathInPlace(a);
    var server := if a[7] == '[' then 8 else 7;
    var p := CutHostAsWritten(a);
    if p == a.Length {
      // `*p++ == ':'` reads the cell after the terminator
      return ReadsPastEnd(p);
    }
    if a[p] == ':' {
      port, p := ParsePort(a, p + 1);
    }
    r := Parts(UriParts(Some(server), port, path));
  }

  /** The corrected split's second step, in place: find where the host part ends and cut a closing ']'. */
  method CutHostInPlace(a: array<char>) returns (p: nat)
    requires Terminated(a[..]) && a.Length >= 8
    modifies a
    ensures (a[..], p) == CorrectedHostEnd(old(a[..]))
  {
    ghost var b := a[..];
    if a[7] == '[' {
      p := FindStop(a, 8, ']');
      if a[p] == ']' {
        a[p] := NUL;
        assert a[..] == b[p := NUL];
        p := p + 1;
      }
    } else {
      p := FindStop(a, 7, ':');
    }
  }

  /** The corrected split's last step, in place: cut at a ':' and read the port after it. */
  method CutPortInPlace(a: array<char>, p: nat, defaultPort: Port) returns (port: Port)
    requires Terminated(a[..]) && p < a.Length
    modifies a
    ensures (port, a[..]) == CorrectedPort(old(a[..]), p, defaultPort)
  {
    port := defaultPort;
    if a[p] == ':' {
      ghost var b := a[..];
      a[p] := NUL;
      assert a[..] == b[p := NUL];
      var end;
      port, end := ParsePort(a, p + 1);
    }
  }

  /** split_uri with the two defects repaired, in place on the argument's buffer. */
  method SplitUriCorrected(a: array<char>, defaultPort: Port) returns (r: UriParts)
    requires IsCString(a[..])
    modifies a
    ensures (r, a[..]) == CorrectedSplitSpec(old(a[..]), defaultPort)
  {
    var port := defaultPort;
    if !HasCoapScheme(a[..]) {
      return UriParts(None, port, 0);
    }
    CutPathTerminated(a[..]);
    var path := CutPathInPlace(a);
    var server := if a[7] == '[' then 8 else 7;
    var p := CutHostInPlace(a);
    port := CutPortInPlace(a, p, defaultPort);
    r := UriParts(Some(server), port, path);
  }
}

/** What split_uri as written promises, and where it breaks. */
module UriSplitProperties {
  import opened Wrappers
  import opened CStrings
  import opened UriSplit

  /** Without the "coap://" scheme the whole argument is the path, the server is not set and nothing is written. */
  lemma SplitRelativeReference(s: seq<char>, defaultPort: Port)
    requires IsCString(s) && !HasCoapScheme(s)
    ensures SplitSpec(s, defaultPort) == (Parts(UriParts(None, defaultPort, 0)), s)
    ensures CorrectedSplitSpec(s, defaultPort) == (UriParts(None, defaultPort, 0), s)
  {
  }

  /** The code as written leaves every cell after the path's cut as it was, and the path starts at or after that cut. */
  lemma SplitKeepsTail(s: seq<char>, defaultPort: Port, stop: nat)
    requires IsCString(s) && HasCoapScheme(s) && FirstStop(s, 7, '/', stop)
    ensures var (r, b) := SplitSpec(s, defaultPort);
      && Terminated(b) && |b| == |s| && b[stop] == NUL
      && (forall k :: stop < k < |s| ==> b[k] == s[k])
      && (r.Parts? ==> r.parts.path == if s[stop] == '/' then stop + 1 else stop)
  {
    SchemeLength(s);
    ScanToFirst(s, 7, '/', stop);
    CutPathTerminated(s);
    if s[7] == '[' {
      BracketBuffer(s, defaultPort, stop);
    }
  }

  /**
   * The path starts after the first '/' following the scheme, which becomes
   * NUL; without a '/' it is the empty string at the terminator. Either way the
   * path string is the rest of the argument.
   */
  lemma SplitPath(s: seq<char>, defaultPort: Port, stop: nat)
    requires IsCString(s) && HasCoapScheme(s) && FirstStop(s, 7, '/', stop)
    requires SplitSpec(s, defaultPort).0.Parts?
    ensures var (r, b) := SplitSpec(s, defaultPort);
      && r.parts.path == (if s[stop] == '/' then stop + 1 else stop)
      && b[stop] == NUL
      && StringAt(b, r.parts.path) == s[r.parts.path..|s| - 1]
  {
    SplitKeepsTail(s, defaultPort, stop);
    var (r, b) := SplitSpec(s, defaultPort);
    StringAtCopy(s, b, r.parts.path, |s| - 1);
  }

  /** In a "coap://[" argument the first ']' scan stops no later than the path's cut. */
  lemma BracketBuffer(s: seq<char>, defaultPort: Port, stop: nat)
    requires IsCString(s) && HasCoapScheme(s) && FirstStop(s, 7, '/', stop)
    requires |s| > 7 && s[7] == '['
    ensures var b0 := CutPath(s).0;
      && b0 == (if s[stop] == '/' then s[stop := NUL] else s)
      && 8 <= stop && b0[7] == '['
      && ScanTo(b0, 8, ']') <= stop
      && SplitSpec(s, defaultPort).1 == b0[ScanTo(b0, 8, ']') := NUL]
  {
    SchemeLength(s);
    assert ScanTo(s, 7, '/') == stop;
    CutPathTerminated(s);
    var b0 := CutPath(s).0;
    assert 8 <= stop && b0[stop] == NUL;
  }

  /** With a ']' before the path, the code as written cuts at that ']' and at the path and nowhere else. */
  lemma BracketedCut(s: seq<char>, defaultPort: Port, stop: nat, close: nat)
    requires IsCString(s) && HasCoapScheme(s) && FirstStop(s, 7, '/', stop)
    requires |s| > 7 && s[7] == '['
    requires FirstStop(s, 8, ']', close) && close < stop
    ensures var b := SplitSpec(s, defaultPort).1;
      && Terminated(b) && |b| == |s| && b[close] == NUL && b[stop] == NUL
      && (forall k :: 0 <= k < |s| && k != close && k != stop ==> b[k] == s[k])
      && SplitSpec(s, defaultPort).0 == Parts(UriParts(Some(8), PortAfterHost(b, close + 1, defaultPort), CutPath(s).1))
  {
    BracketBuffer(s, defaultPort, stop);
    var b0 := CutPath(s).0;
    assert forall k :: 8 <= k <= close ==> b0[k] == s[k];
    ScanToFirst(b0, 8, ']', close);
  }

  /** On a buffer that differs from the argument only at the ']' and the path's cut, the bracketed host reads as in the argument. */
  lemma BracketedFromBuffer(s: seq<char>, b: seq<char>, defaultPort: Port, stop: nat, close: nat)
    requires IsCString(s) && |s| > 8 && FirstStop(s, 7, '/', stop) && FirstStop(s, 8, ']', close) && close < stop
    requires Terminated(b) && |b| == |s| && b[close] == NUL && b[stop] == NUL
    requires forall k :: 0 <= k < |s| && k != close && k != stop ==> b[k] == s[k]
    ensures StringAt(b, 8) == s[8..close]
    ensures PortAfterHost(b, close + 1, defaultPort) ==
      if s[close + 1] == ':' then ShortValue(s[close + 2..DigitsEnd(s, close + 2)]) else defaultPort
  {
    ScanToFirst(b, 8, NUL, close);
    assert b[8..close] == s[8..close];
    if s[close + 1] == ':' {
      DigitsEndLocal(s, b, close + 2);
    }
  }

  /**
   * A bracketed server starts after '[' and ends at the first ']', which becomes
   * NUL; the port is read only when ':' follows that ']' directly.
   */
  lemma SplitBracketedHost(s: seq<char>, defaultPort: Port, stop: nat, close: nat)
    requires IsCString(s) && HasCoapScheme(s) && FirstStop(s, 7, '/', stop)
    requires |s| > 7 && s[7] == '['
    requires FirstStop(s, 8, ']', close) && close < stop
    ensures var (r, b) := SplitSpec(s, defaultPort);
      && r.Parts? && r.parts.server == Some(8)
      && b[close] == NUL && StringAt(b, 8) == s[8..close]
      && r.parts.port == (if s[close + 1] == ':' then ShortValue(s[close + 2..DigitsEnd(s, close + 2)]) else defaultPort)
  {
    BracketedCut(s, defaultPort, stop, close);
    BracketedFromBuffer(s, SplitSpec(s, defaultPort).1, defaultPort, stop, close);
  }

  /** Without '[' the code as written cuts only at the path; the port check starts at the first ':' or the cut. */
  lemma HostnameCut(s: seq<char>, defaultPort: Port, stop: nat)
    requires IsCString(s) && HasCoapScheme(s) && FirstStop(s, 7, '/', stop) && s[7] != '['
    ensures var b := SplitSpec(s, defaultPort).1;
      && Terminated(b) && |b| == |s| && b[stop] == NUL
      && (forall k :: 0 <= k < |s| && k != stop ==> b[k] == s[k])
      && SplitSpec(s, defaultPort).0 == Parts(UriParts(Some(7), PortAfterHost(b, ScanTo(b, 7, ':'), defaultPort), CutPath(s).1))
  {
    SchemeLength(s);
    ScanToFirst(s, 7, '/', stop);
    CutPathTerminated(s);
  }

  /** On a buffer that differs from the argument only at the path's cut, the host name reads as in the argument. */
  lemma HostnameFromBuffer(s: seq<char>, b: seq<char>, defaultPort: Port, stop: nat, colon: nat)
    requires IsCString(s) && |s| > 7 && FirstStop(s, 7, '/', stop) && FirstStop(s, 7, ':', colon)
    requires Terminated(b) && |b| == |s| && b[stop] == NUL
    requires forall k :: 0 <= k < |s| && k != stop ==> b[k] == s[k]
    ensures StringAt(b, 7) == s[7..stop]
    ensures PortAfterHost(b, ScanTo(b, 7, ':'), defaultPort) ==
      if colon < stop then ShortValue(s[colon + 1..DigitsEnd(s, colon + 1)]) else defaultPort
  {
    ScanToFirst(b, 7, NUL, stop);
    assert b[7..stop] == s[7..stop];
    if colon < stop {
      ScanToFirst(b, 7, ':', colon);
      DigitsEndLocal(s, b, colon + 1);
    } else {
      ScanToFirst(b, 7, ':', stop);
    }
  }

  /**
   * A server that is a host name or IPv4 address is everything from the scheme
   * to the first '/': no NUL is written at ':', so the server string keeps
   * ":port". The port is read only from a ':' before that '/'.
   */
  lemma SplitHostnameKeepsPort(s: seq<char>, defaultPort: Port, stop: nat, colon: nat)
    requires IsCString(s) && HasCoapScheme(s) && FirstStop(s, 7, '/', stop)
    requires s[7] != '[' && FirstStop(s, 7, ':', colon)
    ensures var (r, b) := SplitSpec(s, defaultPort);
      && r.Parts? && r.parts.server == Some(7)
      && StringAt(b, 7) == s[7..stop]
      && r.parts.port == (if colon < stop then ShortValue(s[colon + 1..DigitsEnd(s, colon + 1)]) else defaultPort)
  {
    HostnameCut(s, defaultPort, stop);
    HostnameFromBuffer(s, SplitSpec(s, defaultPort).1, defaultPort, stop, colon);
  }

  /** A ':' before the path with no digit after it sets the port to 0, not to the default. */
  lemma SplitPortWithoutDigits(s: seq<char>, defaultPort: Port, stop: nat, colon: nat)
    requires IsCString(s) && HasCoapScheme(s) && FirstStop(s, 7, '/', stop)
    requires s[7] != '[' && FirstStop(s, 7, ':', colon) && colon < stop && !IsDigit(s[colon + 1])
    ensures SplitSpec(s, defaultPort).0 == Parts(UriParts(Some(7), 0, SplitSpec(s, defaultPort).0.parts.path))
  {
    SplitHostnameKeepsPort(s, defaultPort, stop, colon);
    assert s[colon + 1..DigitsEnd(s, colon + 1)] == [];
  }

  /** A ':' right after the bracketed server's ']' with no digit after it also sets the port to 0. */
  lemma SplitBracketPortWithoutDigits(s: seq<char>, defaultPort: Port, stop: nat, close: nat)
    requires IsCString(s) && HasCoapScheme(s) && FirstStop(s, 7, '/', stop)
    requires |s| > 7 && s[7] == '[' && FirstStop(s, 8, ']', close) && close < stop
    requires s[close + 1] == ':' && !IsDigit(s[close + 2])
    ensures SplitSpec(s, defaultPort).0 == Parts(UriParts(Some(8), 0, SplitSpec(s, defaultPort).0.parts.path))
  {
    SplitBracketedHost(s, defaultPort, stop, close);
    assert s[close + 2..DigitsEnd(s, close + 2)] == [];
  }

  /**
   * The code as written reads the cell after the terminator exactly when the
   * server opens with '[' and neither a ']' nor a '/' follows.
   */
  lemma SplitReadsPastEndIff(s: seq<char>, defaultPort: Port)
    requires IsCString(s)
    ensures SplitSpec(s, defaultPort).0.ReadsPastEnd? <==>
      && HasCoapScheme(s) && |s| > 7 && s[7] == '['
      && forall k :: 8 <= k < |s| - 1 ==> s[k] != ']' && s[k] != '/'
  {
    if HasCoapScheme(s) && SplitSpec(s, defaultPort).0.ReadsPastEnd? {
      SchemeLength(s);
      var stop := ScanTo(s, 7, '/');
      BracketBuffer(s, defaultPort, stop);
      assert stop == |s| - 1;
    }
    if HasCoapScheme(s) && |s| > 7 && s[7] == '[' && forall k :: 8 <= k < |s| - 1 ==> s[k] != ']' && s[k] != '/' {
      SchemeLength(s);
      var stop := ScanTo(s, 7, '/');
      assert stop == |s| - 1;
      BracketBuffer(s, defaultPort, stop);
    }
  }

  /** The only cells split_uri writes are a '/' or a ']', and it writes NUL there. */
  lemma SplitCutsOnlySeparators(s: seq<char>, defaultPort: Port)
    requires IsCString(s)
    ensures var b := SplitSpec(s, defaultPort).1;
      && |b| == |s|
      && forall k :: 0 <= k < |s| && b[k] != s[k] ==> b[k] == NUL && (s[k] == '/' || s[k] == ']')
  {
    if HasCoapScheme(s) {
      SchemeLength(s);
      var stop := ScanTo(s, 7, '/');
      CutPathTerminated(s);
      if s[7] == '[' {
        BracketBuffer(s, defaultPort, stop);
      }
    }
  }

  /**
   * An unclosed '[' before a path: the step past the stop cell lands on the
   * path's first cell, and the port is read from there.
   */
  lemma UnclosedBracketPortFromPath(s: seq<char>, defaultPort: Port, stop: nat)
    requires IsCString(s) && HasCoapScheme(s) && FirstStop(s, 7, '/', stop)
    requires |s| > 7 && s[7] == '[' && stop < |s| - 1
    requires forall k :: 8 <= k < stop ==> s[k] != ']'
    ensures SplitSpec(s, defaultPort).0 == Parts(UriParts(Some(8),
      if s[stop + 1] == ':' then ShortValue(s[stop + 2..DigitsEnd(s, stop + 2)]) else defaultPort,
      stop + 1))
  {
    BracketBuffer(s, defaultPort, stop);
    var b0 := CutPath(s).0;
    assert b0 == s[stop := NUL];
    ScanToFirst(b0, 8, ']', stop);
    var b := SplitSpec(s, defaultPort).1;
    assert b == b0;
    if s[stop + 1] == ':' {
      DigitsEndLocal(s, b, stop + 2);
    }
  }

  /** An unclosed '[' with no path: the port check reads past the terminator. */
  lemma AsWrittenReadsPastEnd(defaultPort: Port)
    ensures SplitSpec("coap://[::1" + [NUL], defaultPort).0 == ReadsPastEnd(12)
  {
    var s := "coap://[::1" + [NUL];
    assert HasCoapScheme(s);
    SplitReadsPastEndIff(s, defaultPort);
  }

  /** An unclosed '[' before a path: the port is read from the path. */
  lemma AsWrittenPortFromPath(defaultPort: Port)
    ensures SplitSpec("coap://[h/:80" + [NUL], defaultPort).0 == Parts(UriParts(Some(8), 80, 10))
  {
    var s := "coap://[h/:80" + [NUL];
    assert HasCoapScheme(s);
    ScanToFirst(s, 7, '/', 9);
    var b0 := s[9 := NUL];
    assert ScanTo(b0, 8, ']') == 9;
    var b := b0[9 := NUL];
    assert DigitsEnd(b, 11) == 13;
    assert b[11..13] == "80";
    assert DecimalValue("80") == 80 by {
      assert "80"[..1] == "8";
    }
  }

  /** A host name with a port: the server string is "h:5", not "h". */
  lemma AsWrittenServerKeepsPort(defaultPort: Port)
    ensures var (r, b) := SplitSpec("coap://h:5/x" + [NUL], defaultPort);
      r == Parts(UriParts(Some(7), 5, 11)) && StringAt(b, 7) == "h:5"
  {
    var s := "coap://h:5/x" + [NUL];
    assert HasCoapScheme(s);
    assert FirstStop(s, 7, ':', 8);
    SplitHostnameKeepsPort(s, defaultPort, 10, 8);
    SplitPath(s, defaultPort, 10);
    assert DigitsEnd(s, 9) == 10;
    assert s[9..10] == "5";
    assert DecimalValue("5") == 5 by {
      assert "5"[..0] == [];
    }
  }

  /** The corrected split's host part for a host name: it ends at the first ':' before the path, if any. */
  lemma CorrectedHostnameEnd(s: seq<char>, stop: nat)
    requires IsCString(s) && HasCoapScheme(s) && FirstStop(s, 7, '/', stop) && s[7] != '['
    ensures var b0 := CutPath(s).0;
      && Terminated(b0) && |b0| == |s| && b0[stop] == NUL
      && (forall k :: 0 <= k < |s| && k != stop ==> b0[k] == s[k])
      && var (b1, p) := CorrectedHostEnd(b0);
         && b1 == b0 && 7 <= p <= stop
         && (forall k :: 7 <= k < p ==> s[k] != ':')
         && (p < stop ==> s[p] == ':')
  {
    SchemeLength(s);
    ScanToFirst(s, 7, '/', stop);
    CutPathTerminated(s);
  }

  /** The corrected split's host part for a bracketed address: it ends at the first ']' before the path, if any. */
  lemma CorrectedBracketEnd(s: seq<char>, stop: nat)
    requires IsCString(s) && HasCoapScheme(s) && FirstStop(s, 7, '/', stop) && s[7] == '['
    ensures var b0 := CutPath(s).0;
      && Terminated(b0) && |b0| == |s| && b0[stop] == NUL && 8 <= stop
      && (forall k :: 0 <= k < |s| && k != stop ==> b0[k] == s[k])
      && var close := ScanTo(b0, 8, ']');
         && close <= stop
         && (forall k :: 8 <= k < close ==> s[k] != ']')
         && var (b1, p) := CorrectedHostEnd(b0);
            && (close < stop ==> s[close] == ']' && b1 == b0[close := NUL] && p == close + 1)
            && (close == stop ==> b1 == b0 && p == stop)
  {
    SchemeLength(s);
    ScanToFirst(s, 7, '/', stop);
    CutPathTerminated(s);
    var b0 := CutPath(s).0;
    assert b0[stop] == NUL;
  }

  /** The server string of the corrected split ends where its host part ends. */
  lemma CorrectedServerEnd(s: seq<char>, defaultPort: Port, stop: nat) returns (end: nat)
    requires IsCString(s) && HasCoapScheme(s) && FirstStop(s, 7, '/', stop)
    ensures var (r, b) := CorrectedSplitSpec(s, defaultPort);
      var server := if s[7] == '[' then 8 else 7;
      var delimiter := if s[7] == '[' then ']' else ':';
      && Terminated(b) && |b| == |s|
      && r.server == Some(server)
      && server <= end <= stop && b[end] == NUL
      && (forall k :: server <= k < end ==> b[k] == s[k] && s[k] != delimiter)
      && (end == stop || s[end] == delimiter)
  {
    var (r, b) := CorrectedSplitSpec(s, defaultPort);
    var b0 := CutPath(s).0;
    var (b1, p) := CorrectedHostEnd(b0);
    if s[7] == '[' {
      CorrectedBracketEnd(s, stop);
      end := ScanTo(b0, 8, ']');
    } else {
      CorrectedHostnameEnd(s, stop);
      end := p;
    }
  }

  /** A server string cut from the argument before the path and before any delimiter holds neither. */
  lemma HostFromBuffer(s: seq<char>, b: seq<char>, server: nat, end: nat, stop: nat, delimiter: char)
    requires IsCString(s) && FirstStop(s, 7, '/', stop) && 7 <= server
    requires Terminated(b) && |b| == |s| && server <= end <= stop && b[end] == NUL
    requires forall k :: server <= k < end ==> b[k] == s[k] && s[k] != delimiter
    ensures var host := StringAt(b, server);
      && host == s[server..end]
      && forall k :: 0 <= k < |host| ==> host[k] != '/' && host[k] != delimiter
  {
    StringAtCopy(s, b, server, end);
  }

  /**
   * The corrected split hands back the host alone: the server string stops at
   * the ':' before a port (or at ']' for a bracketed address) and at the path.
   */
  lemma CorrectedServerIsHost(s: seq<char>, defaultPort: Port, stop: nat)
    requires IsCString(s) && HasCoapScheme(s) && FirstStop(s, 7, '/', stop)
    ensures var (r, b) := CorrectedSplitSpec(s, defaultPort);
      var server := if s[7] == '[' then 8 else 7;
      var delimiter := if s[7] == '[' then ']' else ':';
      var host := StringAt(b, server);
      && |b| == |s|
      && r.server == Some(server)
      && host == s[server..server + |host|]
      && (forall k :: 0 <= k < |host| ==> host[k] != '/' && host[k] != delimiter)
      && (server + |host| == stop || s[server + |host|] == delimiter)
  {
    var b := CorrectedSplitSpec(s, defaultPort).1;
    var end := CorrectedServerEnd(s, defaultPort, stop);
    if s[7] == '[' {
      HostFromBuffer(s, b, 8, end, stop, ']');
    } else {
      HostFromBuffer(s, b, 7, end, stop, ':');
    }
  }

  /** In the corrected split a ':' in the path never sets the port. */
  lemma CorrectedPortOnlyFromAuthority(s: seq<char>, defaultPort: Port, stop: nat)
    requires IsCString(s) && HasCoapScheme(s) && FirstStop(s, 7, '/', stop)
    requires forall k :: 7 <= k < stop ==> s[k] != ':'
    ensures CorrectedSplitSpec(s, defaultPort).0.port == defaultPort
  {
    if s[7] == '[' {
      CorrectedBracketEnd(s, stop);
    } else {
      CorrectedHostnameEnd(s, stop);
    }
  }

  /** Cutting at the ':' does not change the digits read after it. */
  lemma CorrectedPortAgrees(b: seq<char>, p: nat, defaultPort: Port)
    requires Terminated(b) && p < |b|
    ensures CorrectedPort(b, p, defaultPort).0 == PortAfterHost(b, p, defaultPort)
  {
    if b[p] == ':' {
      DigitsEndLocal(b, b[p := NUL], p + 1);
    }
  }

  /** Where a bracketed server is closed before the path, the code as written reads the port where the corrected host part ends. */
  lemma AsWrittenAtHostEnd(s: seq<char>, defaultPort: Port, stop: nat)
    requires IsCString(s) && HasCoapScheme(s) && FirstStop(s, 7, '/', stop)
    requires s[7] == '[' ==> exists k :: 8 <= k < stop && s[k] == ']'
    ensures var (b1, p) := CorrectedHostEnd(CutPath(s).0);
      SplitSpec(s, defaultPort).0 == Parts(UriParts(Some(if s[7] == '[' then 8 else 7), PortAfterHost(b1, p, defaultPort), CutPath(s).1))
  {
    if s[7] == '[' {
      CorrectedBracketEnd(s, stop);
      var k :| 8 <= k < stop && s[k] == ']';
      assert ScanTo(CutPath(s).0, 8, ']') <= k;
    } else {
      CorrectedHostnameEnd(s, stop);
    }
  }

  /** The corrected split reads its port where its host part ends. */
  lemma CorrectedAtHostEnd(s: seq<char>, defaultPort: Port)
    requires IsCString(s) && HasCoapScheme(s)
    ensures |s| >= 8
    ensures var (b1, p) := CorrectedHostEnd(CutPath(s).0);
      CorrectedSplitSpec(s, defaultPort).0 == UriParts(Some(if s[7] == '[' then 8 else 7), CorrectedPort(b1, p, defaultPort).0, CutPath(s).1)
  {
    CutPathTerminated(s);
  }

  /** With no '[' or a closed '[' before the path, both splits return the same server index, port and path. */
  lemma CorrectedAgreesAwayFromDefect(s: seq<char>, defaultPort: Port, stop: nat)
    requires IsCString(s) && HasCoapScheme(s) && FirstStop(s, 7, '/', stop)
    requires s[7] == '[' ==> exists k :: 8 <= k < stop && s[k] == ']'
    ensures SplitSpec(s, defaultPort).0 == Parts(CorrectedSplitSpec(s, defaultPort).0)
  {
    AsWrittenAtHostEnd(s, defaultPort, stop);
    CorrectedAtHostEnd(s, defaultPort);
    CutPathTerminated(s);
    var (b1, p) := CorrectedHostEnd(CutPath(s).0);
    CorrectedPortAgrees(b1, p, defaultPort);
  }

  /** The corrected split on an unclosed '[' with no path: the server is the rest of the argument and the port the default. */
  lemma CorrectedUnclosedBracket(defaultPort: Port)
    ensures CorrectedSplitSpec("coap://[::1" + [NUL], defaultPort).0 == UriParts(Some(8), defaultPort, 11)
  {
    var s := "coap://[::1" + [NUL];
    assert HasCoapScheme(s);
    ScanToFirst(s, 7, '/', 11);
    CorrectedBracketEnd(s, 11);
  }

  /** The corrected split on an unclosed '[' before a path: the ':' in the path is not a port. */
  lemma CorrectedPathColon(defaultPort: Port)
    ensures CorrectedSplitSpec("coap://[h/:80" + [NUL], defaultPort).0 == UriParts(Some(8), defaultPort, 10)
  {
    var s := "coap://[h/:80" + [NUL];
    assert HasCoapScheme(s);
    ScanToFirst(s, 7, '/', 9);
    CorrectedPortOnlyFromAuthority(s, defaultPort, 9);
  }

  /** The corrected split on a host name with a port: same parts as the code as written, and the server string is "h". */
  lemma CorrectedHostPort(defaultPort: Port)
    ensures var (r, b) := CorrectedSplitSpec("coap://h:5/x" + [NUL], defaultPort);
      r == UriParts(Some(7), 5, 11) && StringAt(b, 7) == "h"
  {
    var s := "coap://h:5/x" + [NUL];
    assert HasCoapScheme(s);
    ScanToFirst(s, 7, '/', 10);
    CorrectedServerIsHost(s, defaultPort, 10);
    AsWrittenServerKeepsPort(defaultPort);
    CorrectedAgreesAwayFromDefect(s, defaultPort, 10);
  }
}
