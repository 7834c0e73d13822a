/** The daemon client of api/api.go: an `ApiLink` holding the daemon's base
    URL and port, a plain GET, the query-string assembly of `Query`, and the
    parameter list of the block-data range query.

    The HTTP round trip (`http.Get` followed by `ioutil.ReadAll`) is the
    `Transport` oracle; JSON decoding of the block data is a parameter. */
module ApiClient {
  import opened SiaTypes

  /** A query parameter, rendered verbatim as `Key=Value`. */
  datatype Parameter = Parameter(key: string, value: string)

  /** The outcome of an HTTP GET that reached the daemon: its status code,
      its body, and the error reading the body failed with, if any. */
  datatype HttpReply = HttpReply(statusCode: int, body: string, readError: Option<Error>)

  /** `http.Get` then `ioutil.ReadAll` on a URL; `Err` is a transport failure. */
  type Transport = string -> Result<HttpReply>

  const LocalhostUrl := "http://localhost:"
  const Non200Prefix := "Sia Daemon Returned Non-200: "
  const BlockDataCall := "/blockexplorer/blockdata"

  /** What a GET on `fullUrl` gives back: the body and the error. A reply
      with a status other than 200 is an error carrying the body; a 200
      reply carries whatever error reading the body produced; a transport
      failure has no body. */
  function Fetch(transport: Transport, fullUrl: string): (out: (string, Option<Error>))
    ensures transport(fullUrl).Err? ==> out == ("", Some(transport(fullUrl).error))
    ensures transport(fullUrl).Ok? ==>
              var reply := transport(fullUrl).value;
              && out.0 == reply.body
              && (reply.statusCode != 200 ==> out.1 == Some(Error(Non200Prefix + reply.body)))
              && (reply.statusCode == 200 ==> out.1 == reply.readError)
  {
    match transport(fullUrl)
    case Err(e) => ("", Some(e))
    case Ok(reply) =>
      if reply.statusCode != 200 then (reply.body, Some(Error(Non200Prefix + reply.body)))
      else (reply.body, reply.readError)
  }

  /** A reply that reached the daemon is reported as an error exactly when
      its status is not 200 or its body could not be read. */
  lemma FetchErrorIffNot200(transport: Transport, fullUrl: string)
    requires transport(fullUrl).Ok?
    ensures Fetch(transport, fullUrl).1.Some? <==>
              transport(fullUrl).value.statusCode != 200 || transport(fullUrl).value.readError.Some?
  {
  }

  // ---------------------------------------------------------------------
  // Query strings
  // ---------------------------------------------------------------------

  function Render(p: Parameter): (r: string)
    ensures '=' in r
  {
    p.key + "=" + p.value
  }

  function Rendered(ps: seq<Parameter>): (rs: seq<string>)
    ensures |rs| == |ps|
    ensures forall i :: 0 <= i < |ps| ==> rs[i] == Render(ps[i])
  {
    seq(|ps|, i requires 0 <= i < |ps| => Render(ps[i]))
  }

  /** `parts` joined with one `sep` between consecutive parts. */
  function JoinWith(parts: seq<string>, sep: char): string
  {
    if parts == [] then ""
    else if |parts| == 1 then parts[0]
    else JoinWith(parts[..|parts| - 1], sep) + [sep] + parts[|parts| - 1]
  }

  /** The URL suffix `Query` builds: the call, a "?", and the rendered
      parameters in order, separated by "&". */
  function QueryString(apiCall: string, ps: seq<Parameter>): (q: string)
    ensures |q| > |apiCall| && q[..|apiCall| + 1] == apiCall + "?"
    ensures ps == [] ==> q == apiCall + "?"
  {
    apiCall + "?" + JoinWith(Rendered(ps), '&')
  }

  /** `s` cut at every occurrence of `sep` (always at least one piece). */
  function SplitOn(s: string, sep: char): (pieces: seq<string>)
    ensures |pieces| > 0
  {
    if s == [] then [""]
    else
      var rest := SplitOn(s[1..], sep);
      if s[0] == sep then [""] + rest else [[s[0]] + rest[0]] + rest[1..]
  }

  /** A `Key=Value` piece cut at its first "=". */
  function SplitPair(s: string): Parameter
  {
    if s == [] then Parameter("", "")
    else if s[0] == '=' then Parameter("", s[1..])
    else
      var p := SplitPair(s[1..]);
      Parameter([s[0]] + p.key, p.value)
  }

  /** A reader of the query part of a URL, independent of `Query`. */
  function ParseQuery(q: string): seq<Parameter>
  {
    if q == "" then []
    else
      var pieces := SplitOn(q, '&');
      seq(|pieces|, i requires 0 <= i < |pieces| => SplitPair(pieces[i]))
  }

  lemma {:induction false} SplitOnAppend(x: string, y: string, sep: char)
    ensures SplitOn(x + [sep] + y, sep) == SplitOn(x, sep) + SplitOn(y, sep)
  {
    if x == [] {
      assert x + [sep] + y == [sep] + y;
      assert ([sep] + y)[1..] == y;
    } else {
      assert (x + [sep] + y)[1..] == x[1..] + [sep] + y;
      assert (x + [sep] + y)[0] == x[0];
      SplitOnAppend(x[1..], y, sep);
    }
  }

  lemma {:induction false} SplitOnWithout(x: string, sep: char)
    requires sep !in x
    ensures SplitOn(x, sep) == [x]
  {
    if x != [] {
      SplitOnWithout(x[1..], sep);
      assert [x[0]] + x[1..] == x;
    }
  }

  lemma {:induction false} SplitJoin(parts: seq<string>, sep: char)
    requires parts != []
    requires forall i :: 0 <= i < |parts| ==> sep !in parts[i]
    ensures SplitOn(JoinWith(parts, sep), sep) == parts
  {
    if |parts| == 1 {
      SplitOnWithout(parts[0], sep);
    } else {
      var init := parts[..|parts| - 1];
      SplitJoin(init, sep);
      SplitOnAppend(JoinWith(init, sep), parts[|parts| - 1], sep);
      SplitOnWithout(parts[|parts| - 1], sep);
    }
  }

  lemma {:induction false} SplitPairRender(p: Parameter)
    requires '=' !in p.key
    ensures SplitPair(Render(p)) == p
    decreases |p.key|
  {
    if p.key != [] {
      var rest := Parameter(p.key[1..], p.value);
      SplitPairRender(rest);
      assert Render(p)[1..] == Render(rest);
      assert [p.key[0]] + p.key[1..] == p.key;
    } else {
      assert Render(p) == "=" + p.value;
    }
  }

  /** A parameter that `Query` renders unambiguously: no "&" anywhere and no
      "=" in the key. `Query` does no escaping, so other parameters do not
      survive the trip. */
  predicate Plain(p: Parameter)
  {
    '&' !in p.key && '&' !in p.value && '=' !in p.key
  }

  /** Round trip: reading back the query part of the URL `Query` builds gives
      the parameter list, in order, whenever every parameter is plain. */
  lemma QueryRoundTrip(apiCall: string, ps: seq<Parameter>)
    requires forall i :: 0 <= i < |ps| ==> Plain(ps[i])
    ensures ParseQuery(QueryString(apiCall, ps)[|apiCall| + 1..]) == ps
  {
    var q := JoinWith(Rendered(ps), '&');
    assert QueryString(apiCall, ps)[|apiCall| + 1..] == q;
    if ps != [] {
      var rs := Rendered(ps);
      SplitJoin(rs, '&');
      JoinNonEmpty(rs, '&');
      forall i | 0 <= i < |ps| ensures SplitPair(rs[i]) == ps[i] {
        SplitPairRender(ps[i]);
      }
    }
  }

  lemma JoinNonEmpty(parts: seq<string>, sep: char)
    requires parts != [] && parts[|parts| - 1] != ""
    ensures JoinWith(parts, sep) != ""
  {
  }

  /** The separators: consecutive parameters are separated by exactly one
      "&", and the string ends with the last parameter, never with a "&". */
  lemma QuerySeparators(apiCall: string, ps: seq<Parameter>, p: Parameter)
    ensures ps != [] ==> QueryString(apiCall, ps + [p]) == QueryString(apiCall, ps) + "&" + Render(p)
    ensures ps == [] ==> QueryString(apiCall, ps + [p]) == apiCall + "?" + Render(p)
  {
    var rs := Rendered(ps + [p]);
    if ps != [] {
      assert rs[..|rs| - 1] == Rendered(ps);
    }
  }

  /** One step of `Query`'s loop: the text built so far, followed by the
      next rendered parameter, is the query string of one more parameter. */
  lemma QueryStep(apiCall: string, ps: seq<Parameter>, i: nat)
    requires i < |ps|
    ensures QueryString(apiCall, ps[..i]) + (if 0 < i then "&" else "") + Render(ps[i])
            == QueryString(apiCall, ps[..i + 1])
  {
    assert ps[..i + 1] == ps[..i] + [ps[i]];
    QuerySeparators(apiCall, ps[..i], ps[i]);
  }

  // ---------------------------------------------------------------------
  // Decimal rendering of heights
  // ---------------------------------------------------------------------

  const TwoTo63: int := 0x8000_0000_0000_0000

  function DigitChar(d: nat): char
    requires d < 10
  {
    ('0' as int + d) as char
  }

  predicate IsDigits(s: string)
  {
    forall i :: 0 <= i < |s| ==> '0' <= s[i] <= '9'
  }

  /** The decimal digits of `n`, most significant first, no leading zero. */
  function Decimal(n: nat): (s: string)
    ensures |s| > 0
    ensures IsDigits(s)
    ensures |s| > 1 ==> s[0] != '0'
  {
    if n < 10 then [DigitChar(n)] else Decimal(n / 10) + [DigitChar(n % 10)]
  }

  /** Reads a string of decimal digits back. */
  function ParseDecimal(s: string): nat
    requires IsDigits(s)
  {
    if s == [] then 0 else ParseDecimal(s[..|s| - 1]) * 10 + (s[|s| - 1] as int - '0' as int)
  }

  lemma {:induction false} DecimalRoundTrip(n: nat)
    ensures ParseDecimal(Decimal(n)) == n
  {
    if n >= 10 {
      DecimalRoundTrip(n / 10);
      var s := Decimal(n);
      assert s[..|s| - 1] == Decimal(n / 10);
    }
  }

  /** A signed decimal: an optional "-" followed by at least one digit. */
  predicate IsSignedDecimal(s: string)
  {
    if s != [] && s[0] == '-' then |s| > 1 && IsDigits(s[1..]) else s != [] && IsDigits(s)
  }

  /** Reads a signed decimal back. */
  function ParseSigned(s: string): int
    requires IsSignedDecimal(s)
  {
    if s[0] == '-' then -(ParseDecimal(s[1..]) as int) else ParseDecimal(s)
  }

  /** The form `strconv.Itoa` writes: no leading zero, and no "-0". */
  predicate IsCanonicalSigned(s: string)
  {
    && IsSignedDecimal(s)
    && (s[0] == '-' ==> s[1] != '0')
    && (s[0] != '-' && |s| > 1 ==> s[0] != '0')
  }

  lemma {:induction false} LeadingDigitPositive(s: string)
    requires IsDigits(s) && s != [] && s[0] != '0'
    ensures ParseDecimal(s) >= 1
    ensures |s| > 1 ==> ParseDecimal(s) >= 10
  {
    if |s| > 1 {
      var init := s[..|s| - 1];
      assert init[0] == s[0];
      LeadingDigitPositive(init);
    }
  }

  /** Two digit strings without a leading zero that read to the same
      number are the same string. */
  lemma {:induction false} CanonicalDigitsUnique(s: string, t: string)
    requires IsDigits(s) && s != [] && (|s| > 1 ==> s[0] != '0')
    requires IsDigits(t) && t != [] && (|t| > 1 ==> t[0] != '0')
    requires ParseDecimal(s) == ParseDecimal(t)
    ensures s == t
  {
    if |s| > 1 {
      LeadingDigitPositive(s);
    }
    if |t| > 1 {
      LeadingDigitPositive(t);
    }
    if |s| > 1 && |t| > 1 {
      var si, ti := s[..|s| - 1], t[..|t| - 1];
      assert si[0] == s[0] && ti[0] == t[0];
      CanonicalDigitsUnique(si, ti);
      assert s == si + [s[|s| - 1]] && t == ti + [t[|t| - 1]];
    }
  }

  /** The value a uint64 takes once cast to a 64-bit int. */
  function AsInt64(h: BlockHeight): int
  {
    if h < TwoTo63 then h else h - HeightLimit
  }

  /** `strconv.Itoa(int(h))` for a `types.BlockHeight`: heights below 2^63
      are rendered as their plain decimal digits; the cast wraps heights
      from 2^63 on to negative numbers, which are rendered with a "-". */
  function ItoaHeight(h: BlockHeight): (r: string)
    ensures IsCanonicalSigned(r) && ParseSigned(r) == AsInt64(h)
    ensures h < TwoTo63 ==> IsDigits(r) && ParseDecimal(r) == h
    ensures h >= TwoTo63 ==> r[0] == '-'
  {
    if h < TwoTo63 then
      DecimalRoundTrip(h);
      Decimal(h)
    else
      var d := Decimal(HeightLimit - h);
      DecimalRoundTrip(HeightLimit - h);
      assert ("-" + d)[1..] == d;
      "-" + d
  }

  /** The canonical rendering of a height's 64-bit value is unique, so
      `ItoaHeight`'s contract determines its result. */
  lemma ItoaHeightUnique(h: BlockHeight, r: string)
    requires IsCanonicalSigned(r) && ParseSigned(r) == AsInt64(h)
    ensures r == ItoaHeight(h)
  {
    var itoa := ItoaHeight(h);
    if r[0] == '-' {
      LeadingDigitPositive(r[1..]);
    }
    if itoa[0] == '-' {
      LeadingDigitPositive(itoa[1..]);
    }
    if r[0] == '-' {
      CanonicalDigitsUnique(r[1..], itoa[1..]);
      assert r == [r[0]] + r[1..] && itoa == [itoa[0]] + itoa[1..];
    } else {
      CanonicalDigitsUnique(r, itoa);
    }
  }

  /** The parameter list `GetBlockData` sends: "start" then "finish", each
      height rendered by `strconv.Itoa(int(height))`. */
  function BlockDataParams(start: BlockHeight, end: BlockHeight): (ps: seq<Parameter>)
    ensures |ps| == 2
    ensures ps[0] == Parameter("start", ItoaHeight(start))
    ensures ps[1] == Parameter("finish", ItoaHeight(end))
    ensures start < TwoTo63 ==> IsDigits(ps[0].value) && ParseDecimal(ps[0].value) == start
    ensures end < TwoTo63 ==> IsDigits(ps[1].value) && ParseDecimal(ps[1].value) == end
  {
    [Parameter("start", ItoaHeight(start)), Parameter("finish", ItoaHeight(end))]
  }

  // ---------------------------------------------------------------------
  // The link
  // ---------------------------------------------------------------------

  /** `ApiLink`: the daemon's base URL and port, fixed at creation. */
  datatype ApiLink = ApiLink(url: string, port: string)
  {
    /** `Get`: one GET on `url + port + apiCall`. */
    method Get(transport: Transport, apiCall: string) returns (response: string, err: Option<Error>)
      ensures (response, err) == Fetch(transport, url + port + apiCall)
    {
      var reply := transport(url + port + apiCall);
      if reply.Err? {
        return "", Some(reply.error);
      }
      response, err := reply.value.body, reply.value.readError;
      if reply.value.statusCode != 200 {
        err := Some(Error(Non200Prefix + response));
      }
    }

    /** `Query`: append "?" and the parameters to the call, then `Get` it. */
    method Query(transport: Transport, apiCall: string, parameters: seq<Parameter>)
      returns (response: string, err: Option<Error>)
      ensures (response, err) == Fetch(transport, url + port + QueryString(apiCall, parameters))
    {
      var call := apiCall + "?";
      for i := 0 to |parameters|
        invariant call == QueryString(apiCall, parameters[..i]) + (if 0 < i < |parameters| then "&" else "")
      {
        var param := parameters[i];
        ghost var before := call;
        QueryStep(apiCall, parameters, i);
        assert param.key + "=" + param.value == Render(param);
        if i != |parameters| - 1 {
          call := call + (param.key + "=" + param.value + "&");
          assert call == (before + Render(param)) + "&";
        } else {
          call := call + (param.key + "=" + param.value);
        }
      }
      assert parameters[..|parameters|] == parameters;
      assert call == QueryString(apiCall, parameters);
      response, err := Get(transport, call);
    }

    /** `GetBlockData`: the range query for `[start, end)`; its reply is
        decoded by `decode` unless the query failed. */
    method GetBlockData(transport: Transport, decode: string -> Result<seq<BlockSummary>>, start: BlockHeight, end: BlockHeight)
      returns (blocks: seq<BlockSummary>, err: Option<Error>)
      ensures var (body, fetchErr) := Fetch(transport, url + port + QueryString(BlockDataCall, BlockDataParams(start, end)));
              if fetchErr.Some? then blocks == [] && err == fetchErr
              else match decode(body)
                   case Ok(bs) => blocks == bs && err == None
                   case Err(e) => blocks == [] && err == Some(e)
    {
      var blocksJson: string;
      blocksJson, err := Query(transport, BlockDataCall, BlockDataParams(start, end));
      if err.Some? {
        return [], err;
      }
      match decode(blocksJson)
      case Ok(bs) => blocks, err := bs, None;
      case Err(e) => blocks, err := [], Some(e);
    }
  }

  /** `New`: a link to the daemon on localhost at `port`. */
  function New(port: string): (link: ApiLink)
    ensures link.url == LocalhostUrl && link.port == port
  {
    ApiLink(LocalhostUrl, port)
  }
}
