/**
 * Two routines of the API gateway (openresty/gateway/main.go): the route lookup that picks the
 * backend for a request path, and the parser of the `traceparent` header of W3C Trace Context
 * (section 3.2 of the Trace Context recommendation).
 */
module Gateway {
  import opened Common
  import Text

  /** A path and the backend its requests are proxied to. */
  datatype ServiceRoute = ServiceRoute(path: string, serviceHost: string)

  /** The configured routing table. */
  const ServiceRoutes: seq<ServiceRoute> := [
    ServiceRoute("/webhook", "http://webhook:8081"),
    ServiceRoute("/", "http://webhook:8081")
  ]

  /** The three passes of the lookup. */
  datatype MatchKind = Exact | Prefix | Root

  /** Whether a route is taken by the given pass: equal paths; a prefix other than "/"; the "/" route. */
  predicate Matches(route: ServiceRoute, path: string, kind: MatchKind) {
    match kind
    case Exact => path == route.path
    case Prefix => Text.HasPrefix(path, route.path) && route.path != "/"
    case Root => route.path == "/"
  }

  /** The index of the first route the pass takes, if any. */
  function FirstMatch(routes: seq<ServiceRoute>, path: string, kind: MatchKind): (r: Option<nat>)
    ensures r.Some? ==> (r.value < |routes| && Matches(routes[r.value], path, kind) &&
                         forall j :: 0 <= j < r.value ==> !Matches(routes[j], path, kind))
    ensures r.None? <==> forall j :: 0 <= j < |routes| ==> !Matches(routes[j], path, kind)
  {
    if routes == [] then None
    else if Matches(routes[0], path, kind) then Some(0)
    else
      var rest := FirstMatch(routes[1..], path, kind);
      assert forall j :: 1 <= j < |routes| ==> routes[j] == routes[1..][j - 1];
      if rest.Some? then Some(rest.value + 1) else None
  }

  /** The route of a path: the first exact match, else the first prefix match, else the first "/" route. */
  function RouteFor(routes: seq<ServiceRoute>, path: string): Option<ServiceRoute> {
    var exact := FirstMatch(routes, path, Exact);
    var prefix := FirstMatch(routes, path, Prefix);
    var root := FirstMatch(routes, path, Root);
    if exact.Some? then Some(routes[exact.value])
    else if prefix.Some? then Some(routes[prefix.value])
    else if root.Some? then Some(routes[root.value])
    else None
  }

  /** findRoute: three searches over the table, each returning at its first hit. */
  method FindRoute(routes: seq<ServiceRoute>, path: string) returns (route: Option<ServiceRoute>)
    ensures route == RouteFor(routes, path)
  {
    var i := 0;
    while i < |routes|
      invariant 0 <= i <= |routes|
      invariant forall j :: 0 <= j < i ==> !Matches(routes[j], path, Exact)
    {
      if path == routes[i].path {
        return Some(routes[i]);
      }
      i := i + 1;
    }
    i := 0;
    while i < |routes|
      invariant 0 <= i <= |routes|
      invariant forall j :: 0 <= j < i ==> !Matches(routes[j], path, Prefix)
    {
      if Text.HasPrefix(path, routes[i].path) && routes[i].path != "/" {
        return Some(routes[i]);
      }
      i := i + 1;
    }
    i := 0;
    while i < |routes|
      invariant 0 <= i <= |routes|
      invariant forall j :: 0 <= j < i ==> !Matches(routes[j], path, Root)
    {
      if routes[i].path == "/" {
        return Some(routes[i]);
      }
      i := i + 1;
    }
    return None;
  }

  /**
   * A path finds a route exactly when some route equals it, is a prefix of it, or is "/"; so the
   * lookup fails only on a table without a "/" route.
   */
  lemma RouteFound(routes: seq<ServiceRoute>, path: string)
    ensures RouteFor(routes, path).Some? <==>
      exists j :: 0 <= j < |routes| && (routes[j].path == path || Text.HasPrefix(path, routes[j].path) || routes[j].path == "/")
    ensures RouteFor(routes, path).Some? ==> RouteFor(routes, path).value in routes
  {
    if exists j :: 0 <= j < |routes| && (routes[j].path == path || Text.HasPrefix(path, routes[j].path) || routes[j].path == "/") {
      var j :| 0 <= j < |routes| && (routes[j].path == path || Text.HasPrefix(path, routes[j].path) || routes[j].path == "/");
      if routes[j].path == path {
        assert Matches(routes[j], path, Exact);
      } else if routes[j].path == "/" {
        assert Matches(routes[j], path, Root);
      } else {
        assert Matches(routes[j], path, Prefix);
      }
    }
  }

  /** A route equal to the path wins over every prefix match, even one listed before it. */
  lemma ExactWins(routes: seq<ServiceRoute>, path: string, k: nat)
    requires k < |routes| && routes[k].path == path
    requires forall j :: 0 <= j < k ==> routes[j].path != path
    ensures RouteFor(routes, path) == Some(routes[k])
  {
    assert Matches(routes[k], path, Exact);
  }

  /**
   * With the configured table every path is routed to the webhook service: paths starting with
   * "/webhook" (such as "/webhookx") by the "/webhook" route, all others by the "/" route.
   */
  lemma ConfiguredRouting(path: string)
    ensures RouteFor(ServiceRoutes, path).Some?
    ensures RouteFor(ServiceRoutes, path).value.serviceHost == "http://webhook:8081"
    ensures Text.HasPrefix(path, "/webhook") ==> RouteFor(ServiceRoutes, path) == Some(ServiceRoutes[0])
    ensures !Text.HasPrefix(path, "/webhook") ==> RouteFor(ServiceRoutes, path) == Some(ServiceRoutes[1])
  {
    assert Matches(ServiceRoutes[1], path, Root);
    if Text.HasPrefix(path, "/webhook") {
      assert Matches(ServiceRoutes[0], path, Prefix);
    } else {
      assert !Matches(ServiceRoutes[0], path, Exact);
      if path == "/" {
        assert Matches(ServiceRoutes[1], path, Exact);
      } else {
        assert !Matches(ServiceRoutes[1], path, Exact);
      }
    }
  }

  newtype byte = x: int | 0 <= x < 256

  /** A digit encoding/hex accepts, in either case. */
  predicate IsHexDigit(c: char) {
    ('0' <= c <= '9') || ('a' <= c <= 'f') || ('A' <= c <= 'F')
  }

  function HexValue(c: char): (v: int)
    requires IsHexDigit(c)
    ensures 0 <= v < 16
  {
    if '0' <= c <= '9' then c as int - '0' as int
    else if 'a' <= c <= 'f' then c as int - 'a' as int + 10
    else c as int - 'A' as int + 10
  }

  /**
   * hex.DecodeString: pairs of hex digits, high digit first; an odd length or a character that
   * is not a hex digit is an error.
   */
  function HexDecode(s: string): (r: Option<seq<byte>>)
    ensures r.Some? <==> |s| % 2 == 0 && forall k :: 0 <= k < |s| ==> IsHexDigit(s[k])
    ensures r.Some? ==> |r.value| == |s| / 2
    decreases |s|
  {
    if s == [] then Some([])
    else if |s| == 1 || !IsHexDigit(s[0]) || !IsHexDigit(s[1]) then None
    else
      var rest := HexDecode(s[2..]);
      assert forall k :: 2 <= k < |s| ==> s[k] == s[2..][k - 2];
      if rest.None? then None
      else Some([(HexValue(s[0]) * 16 + HexValue(s[1])) as byte] + rest.value)
  }

  /** Byte k of a decoding is the value of digits 2k (high) and 2k+1 (low). */
  lemma {:induction false} HexDecodeBytes(s: string)
    requires HexDecode(s).Some?
    ensures forall k :: 0 <= k < |HexDecode(s).value| ==>
      HexDecode(s).value[k] as int == HexValue(s[2 * k]) * 16 + HexValue(s[2 * k + 1])
    decreases |s|
  {
    if s != [] {
      var rest := s[2..];
      HexDecodeBytes(rest);
      var b := HexDecode(s).value;
      assert b[1..] == HexDecode(rest).value;
      forall k | 1 <= k < |b|
        ensures b[k] as int == HexValue(s[2 * k]) * 16 + HexValue(s[2 * k + 1])
      {
        assert b[k] == HexDecode(rest).value[k - 1];
        assert s[2 * k] == rest[2 * (k - 1)] && s[2 * k + 1] == rest[2 * (k - 1) + 1];
      }
    }
  }

  /** Lower-case hex digit of a value below 16. */
  function HexDigit(v: int): (c: char)
    requires 0 <= v < 16
    ensures IsHexDigit(c) && HexValue(c) == v
  {
    if v < 10 then ('0' as int + v) as char else ('a' as int + v - 10) as char
  }

  /** The lower-case hex spelling of bytes, as a W3C trace context writes ids. */
  function HexEncode(b: seq<byte>): (s: string)
    ensures |s| == 2 * |b| && forall k :: 0 <= k < |s| ==> IsHexDigit(s[k])
  {
    if b == [] then []
    else
      var rest := HexEncode(b[1..]);
      var s := [HexDigit(b[0] as int / 16), HexDigit(b[0] as int % 16)] + rest;
      assert forall k :: 2 <= k < |s| ==> s[k] == rest[k - 2];
      s
  }

  /** Decoding the hex spelling of bytes gives them back. */
  lemma {:induction false} HexRoundTrip(b: seq<byte>)
    ensures HexDecode(HexEncode(b)) == Some(b)
  {
    if b != [] {
      HexRoundTrip(b[1..]);
      var s := HexEncode(b);
      var hi := HexDigit(b[0] as int / 16);
      var lo := HexDigit(b[0] as int % 16);
      assert s == [hi, lo] + HexEncode(b[1..]);
      assert s[0] == hi && s[1] == lo && s[2..] == HexEncode(b[1..]);
      assert HexValue(hi) * 16 + HexValue(lo) == b[0] as int;
      assert HexDecode(s) == Some([(HexValue(hi) * 16 + HexValue(lo)) as byte] + b[1..]);
      assert [b[0]] + b[1..] == b;
    }
  }

  /** n zero bytes. */
  function Zeros(n: nat): (z: seq<byte>)
    ensures |z| == n
  {
    if n == 0 then [] else [0] + Zeros(n - 1)
  }

  /**
   * copy(dst[:], src) into a zeroed n-byte array: the first n bytes of src, zero-padded when
   * src is shorter.
   */
  function Padded(src: seq<byte>, n: nat): (r: seq<byte>)
    ensures |r| == n
    ensures forall k :: 0 <= k < n ==> r[k] == if k < |src| then src[k] else 0
  {
    if |src| >= n then src[..n]
    else
      var r := src + Zeros(n - |src|);
      ZerosAreZero(n - |src|);
      assert forall k :: |src| <= k < n ==> r[k] == Zeros(n - |src|)[k - |src|];
      r
  }

  lemma {:induction false} ZerosAreZero(n: nat)
    ensures forall k :: 0 <= k < n ==> Zeros(n)[k] == 0
  {
    if n > 0 {
      ZerosAreZero(n - 1);
      assert forall k :: 1 <= k < n ==> Zeros(n)[k] == Zeros(n - 1)[k - 1];
    }
  }

  /** The sampled bit of the trace flags. */
  const FlagsSampled: byte := 1

  datatype TraceContext = TraceContext(traceID: seq<byte>, spanID: seq<byte>, flags: byte)

  datatype TraceError = InvalidFormat | InvalidTraceID | InvalidParentID

  /**
   * parseW3CTraceContext: four '-'-separated fields, the version unchecked, the trace id and
   * the parent id hex-decoded into 16 and 8 bytes, and the sampled flag set exactly when the
   * flags field is "01".
   */
  function ParseW3CTraceContext(traceparent: string): (r: Result<TraceContext, TraceError>)
    ensures r == Err(InvalidFormat) <==> |Text.Split(traceparent, '-')| != 4
    ensures r.Ok? ==> |r.value.traceID| == 16 && |r.value.spanID| == 8
    ensures r.Ok? ==> (r.value.flags == FlagsSampled <==> Text.Split(traceparent, '-')[3] == "01")
    ensures r.Ok? ==> r.value.flags == 0 || r.value.flags == FlagsSampled
    ensures var parts := Text.Split(traceparent, '-');
      |parts| == 4 ==> (r == Err(InvalidTraceID) <==> HexDecode(parts[1]).None?)
    ensures var parts := Text.Split(traceparent, '-');
      |parts| == 4 ==> (r == Err(InvalidParentID) <==> HexDecode(parts[1]).Some? && HexDecode(parts[2]).None?)
    ensures var parts := Text.Split(traceparent, '-');
      r.Ok? ==> (|parts| == 4 && HexDecode(parts[1]).Some? && HexDecode(parts[2]).Some? &&
                 r.value.traceID == Padded(HexDecode(parts[1]).value, 16) &&
                 r.value.spanID == Padded(HexDecode(parts[2]).value, 8))
  {
    var parts := Text.Split(traceparent, '-');
    if |parts| != 4 then Err(InvalidFormat)
    else
      match HexDecode(parts[1])
      case None => Err(InvalidTraceID)
      case Some(traceID) =>
        match HexDecode(parts[2])
        case None => Err(InvalidParentID)
        case Some(parentID) =>
          var flags: byte := if parts[3] == "01" then FlagsSampled else 0;
          Ok(TraceContext(Padded(traceID, 16), Padded(parentID, 8), flags))
  }

  /** The result of parsing a header with the given four dash-free fields. */
  function FieldsResult(traceField: string, parentField: string, flagsField: string): Result<TraceContext, TraceError> {
    match HexDecode(traceField)
    case None => Err(InvalidTraceID)
    case Some(traceID) =>
      match HexDecode(parentField)
      case None => Err(InvalidParentID)
      case Some(parentID) =>
        Ok(TraceContext(Padded(traceID, 16), Padded(parentID, 8), if flagsField == "01" then FlagsSampled else 0))
  }

  /**
   * A header made of four dash-free fields parses field by field; in particular the version
   * field never affects the result.
   */
  lemma ParseFields(version: string, traceField: string, parentField: string, flagsField: string)
    requires '-' !in version && '-' !in traceField && '-' !in parentField && '-' !in flagsField
    ensures ParseW3CTraceContext(version + "-" + traceField + "-" + parentField + "-" + flagsField) ==
      FieldsResult(traceField, parentField, flagsField)
  {
    var fields := [version, traceField, parentField, flagsField];
    var header := version + "-" + traceField + "-" + parentField + "-" + flagsField;
    assert Text.Join(fields[3..], '-') == flagsField;
    assert Text.Join(fields[2..], '-') == parentField + "-" + flagsField by {
      assert fields[2..][1..] == fields[3..];
    }
    assert Text.Join(fields[1..], '-') == traceField + "-" + parentField + "-" + flagsField by {
      assert fields[1..][1..] == fields[2..];
    }
    assert Text.Join(fields, '-') == header by {
      assert fields[1..] == fields[1..];
    }
    Text.SplitJoin(fields, '-');
  }

  /** A header of a dash-free version, two hex-encoded ids and "01" parses to the decoded, padded ids, sampled. */
  lemma EncodedHeader(version: string, traceID: seq<byte>, spanID: seq<byte>)
    requires '-' !in version
    ensures ParseW3CTraceContext(version + "-" + HexEncode(traceID) + "-" + HexEncode(spanID) + "-01") ==
      Ok(TraceContext(Padded(traceID, 16), Padded(spanID, 8), FlagsSampled))
  {
    var t := HexEncode(traceID);
    var p := HexEncode(spanID);
    assert '-' !in t by { assert forall k :: 0 <= k < |t| ==> IsHexDigit(t[k]); }
    assert '-' !in p by { assert forall k :: 0 <= k < |p| ==> IsHexDigit(p[k]); }
    assert version + "-" + t + "-" + p + "-01" == version + "-" + t + "-" + p + "-" + "01";
    ParseFields(version, t, p, "01");
    HexRoundTrip(traceID);
    HexRoundTrip(spanID);
  }

  /**
   * Writing a 16-byte trace id and an 8-byte parent id in lower-case hex behind any dash-free
   * version, with flags "01", parses back to those ids, sampled.
   */
  lemma TraceparentRoundTrip(version: string, traceID: seq<byte>, spanID: seq<byte>)
    requires '-' !in version && |traceID| == 16 && |spanID| == 8
    ensures ParseW3CTraceContext(version + "-" + HexEncode(traceID) + "-" + HexEncode(spanID) + "-01") ==
      Ok(TraceContext(traceID, spanID, FlagsSampled))
  {
    EncodedHeader(version, traceID, spanID);
    assert Padded(traceID, 16) == traceID;
    assert Padded(spanID, 8) == spanID;
  }

  /**
   * Shorter ids are zero-filled: hex of at most 16 and at most 8 bytes parses to those bytes
   * followed by zeros up to the fixed widths.
   */
  lemma ShortIdsZeroFilled(version: string, traceID: seq<byte>, spanID: seq<byte>)
    requires '-' !in version && |traceID| <= 16 && |spanID| <= 8
    ensures ParseW3CTraceContext(version + "-" + HexEncode(traceID) + "-" + HexEncode(spanID) + "-01") ==
      Ok(TraceContext(traceID + Zeros(16 - |traceID|), spanID + Zeros(8 - |spanID|), FlagsSampled))
  {
    EncodedHeader(version, traceID, spanID);
    PaddedShort(traceID, 16);
    PaddedShort(spanID, 8);
  }

  /** Copying a shorter source appends zeros. */
  lemma PaddedShort(src: seq<byte>, n: nat)
    requires |src| <= n
    ensures Padded(src, n) == src + Zeros(n - |src|)
  {
    ZerosAreZero(n - |src|);
    var z := src + Zeros(n - |src|);
    assert forall k :: |src| <= k < n ==> z[k] == Zeros(n - |src|)[k - |src|];
  }
}
