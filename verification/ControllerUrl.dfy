/** The controller URL parser shared, word for word, by the Clusteragent and the InfraViz
    reconciler, and the event endpoint that InfraViz derives from its result. */
module ControllerUrl {
  import opened Text

  datatype Rejection = WrongFormat | WrongPort | WrongScheme

  datatype Endpoint = Endpoint(host: string, port: nat, ssl: bool)

  datatype UrlResult = Accepted(endpoint: Endpoint) | Rejected(reason: Rejection)

  // ---------- What the parser decides, read off the text itself ----------

  function Protocol(url: string): string {
    BeforeFirst(url, ':')
  }

  function HostPart(url: string): string {
    BeforeFirst(AfterFirst(url, ':'), ':')
  }

  function PortPart(url: string): string {
    AfterFirst(AfterFirst(url, ':'), ':')
  }

  /** Exactly the URLs the parser accepts. */
  predicate Acceptable(url: string) {
    && Contains(url, "http")
    && 1 <= Count(url, ':') <= 2
    && (Count(url, ':') == 2 ==>
          IsDecimal(PortPart(url)) && MIN_INT <= DecimalValue(PortPart(url)) <= MAX_INT)
  }

  /** Go's conversion `uint16(port)`, for negative ports too. */
  function Uint16(port: int): nat {
    port % 0x1_0000
  }

  function EndpointOf(url: string): Endpoint
    requires Acceptable(url)
  {
    var ssl := 's' in Protocol(url);
    var port :=
      if Count(url, ':') == 2 then Uint16(DecimalValue(PortPart(url)))
      else if ssl then 443 else 80;
    Endpoint(TrimLeft(HostPart(url), '/'), port, ssl)
  }

  function ParseUrl(url: string): UrlResult {
    if Acceptable(url) then Accepted(EndpointOf(url))
    else if !Contains(url, "http") then Rejected(WrongScheme)
    else if 1 <= Count(url, ':') <= 2 then Rejected(WrongPort)
    else Rejected(WrongFormat)
  }

  /** The parser as the controllers run it, on the pieces between colons. */
  method ValidateControllerUrl(controllerUrl: string) returns (result: UrlResult)
    ensures result == ParseUrl(controllerUrl)
  {
    if Contains(controllerUrl, "http") {
      var arr := Split(controllerUrl, ':');
      if |arr| > 3 || |arr| < 2 {
        return Rejected(WrongFormat);
      }
      SplitPieces(controllerUrl);
      var protocol := arr[0];
      ContainsChar(protocol, 's');
      var controllerDns := TrimLeft(arr[1], '/');
      var controllerPort := 0;
      if |arr| != 3 {
        if Contains(protocol, "s") {
          controllerPort := 443;
        } else {
          controllerPort := 80;
        }
      } else {
        var port := Atoi(arr[2]);
        if port == None {
          return Rejected(WrongPort);
        }
        controllerPort := port.value;
      }
      var ssl := false;
      if Contains(protocol, "s") {
        ssl := true;
      }
      result := Accepted(Endpoint(controllerDns, Uint16(controllerPort), ssl));
    } else {
      result := Rejected(WrongScheme);
    }
  }

  lemma {:induction false} SplitAtFirst(s: string, c: char)
    ensures Count(s, c) == 0 ==> Split(s, c) == [s] && BeforeFirst(s, c) == s
    ensures Count(s, c) > 0 ==>
              && Split(s, c) == [BeforeFirst(s, c)] + Split(AfterFirst(s, c), c)
              && Count(AfterFirst(s, c), c) == Count(s, c) - 1
  {
    if s != "" {
      assert s == [s[0]] + s[1..];
      if s[0] != c {
        SplitAtFirst(s[1..], c);
      }
    }
  }

  lemma SplitPieces(url: string)
    requires 1 <= Count(url, ':') <= 2
    ensures Split(url, ':')[0] == Protocol(url)
    ensures Split(url, ':')[1] == HostPart(url)
    ensures Count(url, ':') == 2 ==> Split(url, ':')[2] == PortPart(url)
  {
    SplitAtFirst(url, ':');
    var rest := AfterFirst(url, ':');
    SplitAtFirst(rest, ':');
    SplitAtFirst(AfterFirst(rest, ':'), ':');
  }

  // ---------- Acceptance and shape ----------

  /** A URL is accepted exactly when it holds "http" and reads
      protocol ":" slashes host, with nothing or ":" and an int of Go's range after it;
      the parts are then unique and give the endpoint: the port is that int modulo 65536, or the
      default of the protocol. The host never holds a colon and never starts with a slash. */
  lemma AcceptedShape(url: string) returns (protocol: string, slashes: string, host: string, port: string)
    requires ParseUrl(url).Accepted?
    ensures Contains(url, "http")
    ensures var e := ParseUrl(url).endpoint;
            || (url == protocol + ":" + slashes + host && e.port == if 's' in protocol then 443 else 80)
            || (url == protocol + ":" + slashes + host + ":" + port
                && Atoi(port).Some? && e.port == Uint16(Atoi(port).value))
    ensures Free(protocol, ':') && AllAre(slashes, '/') && Free(host, ':') && !StartsWith(host, '/')
    ensures ParseUrl(url).endpoint.host == host
    ensures ParseUrl(url).endpoint.ssl <==> 's' in protocol
    ensures ParseUrl(url).endpoint.port < 0x1_0000
  {
    hide ParseUrl, Contains, Count, BeforeFirst, AfterFirst, Atoi, TrimLeft, Protocol, HostPart, PortPart, Uint16;
    AcceptedParts(url);
    protocol, host, port := Protocol(url), TrimLeft(HostPart(url), '/'), PortPart(url);
    slashes := TrimLeftShape(HostPart(url), '/');
    UrlFromParts(url);
    FreeSuffix(slashes, host, ':');
    if Count(url, ':') == 2 {
      Regroup(protocol, slashes, host, port);
    } else {
      assert protocol + ":" + (slashes + host) == protocol + ":" + slashes + host;
    }
  }

  lemma AcceptedParts(url: string)
    requires ParseUrl(url).Accepted?
    ensures Contains(url, "http") && 1 <= Count(url, ':') <= 2
    ensures var e := ParseUrl(url).endpoint;
            && e.host == TrimLeft(HostPart(url), '/') && (e.ssl <==> 's' in Protocol(url)) && e.port < 0x1_0000
            && (Count(url, ':') == 1 ==> e.port == if 's' in Protocol(url) then 443 else 80)
            && (Count(url, ':') == 2 ==> Atoi(PortPart(url)).Some? && e.port == Uint16(Atoi(PortPart(url)).value))
  {
    hide Contains, Count, BeforeFirst, AfterFirst, DigitsValue, TrimLeft;
  }

  lemma UrlFromParts(url: string)
    requires 1 <= Count(url, ':') <= 2
    ensures Free(Protocol(url), ':') && Free(HostPart(url), ':')
    ensures url == Protocol(url) + ":"
                   + (if Count(url, ':') == 1 then HostPart(url) else HostPart(url) + ":" + PortPart(url))
  {
    var rest := AfterFirst(url, ':');
    CountFree(url, ':');
    CutAtFirst(url, ':');
    SplitAtFirst(url, ':');
    CountFree(rest, ':');
    CutAtFirst(rest, ':');
  }

  lemma FreeSuffix(a: string, b: string, c: char)
    requires Free(a + b, c)
    ensures Free(b, c)
  {
    assert forall i | 0 <= i < |b| :: b[i] == (a + b)[|a| + i];
  }

  lemma Regroup(protocol: string, slashes: string, host: string, port: string)
    ensures protocol + ":" + (slashes + host + ":" + port)
         == protocol + ":" + slashes + host + ":" + port
  {
  }

  /** The converse of AcceptedShape: every text of that shape is accepted, with or without a
      port, and parses to the parts it was put together from. */
  lemma ShapeAccepted(protocol: string, slashes: string, host: string, port: string)
    requires Free(protocol, ':') && AllAre(slashes, '/') && Free(host, ':') && !StartsWith(host, '/')
    ensures var url := protocol + ":" + slashes + host;
            Contains(url, "http") ==>
              ParseUrl(url) == Accepted(Endpoint(host, if 's' in protocol then 443 else 80, 's' in protocol))
    ensures var url := protocol + ":" + slashes + host + ":" + port;
            Contains(url, "http") && Atoi(port).Some? ==>
              ParseUrl(url) == Accepted(Endpoint(host, Uint16(Atoi(port).value), 's' in protocol))
  {
    assert Free(slashes + host, ':');
    TrimLeftPadding(slashes, host, '/');
    var bare := protocol + ":" + slashes + host;
    assert bare == protocol + [':'] + (slashes + host);
    FirstOfConcat(protocol, slashes + host, ':');
    FirstOfConcat(slashes + host, port, ':');
    var full := protocol + ":" + slashes + host + ":" + port;
    assert full == protocol + [':'] + (slashes + host + [':'] + port);
    FirstOfConcat(protocol, slashes + host + [':'] + port, ':');
    if Atoi(port).Some? {
      NumberIsFree(port);
      CountFree(port, ':');
    }
  }

  /** Why a URL is rejected: for the missing "http" first, then for the number of its pieces between
      colons, then for a third piece that is no int. */
  lemma RejectedFor(url: string)
    ensures ParseUrl(url) == Rejected(WrongScheme) <==> !Contains(url, "http")
    ensures ParseUrl(url) == Rejected(WrongFormat) <==>
              Contains(url, "http") && |Split(url, ':')| != 2 && |Split(url, ':')| != 3
    ensures ParseUrl(url) == Rejected(WrongPort) <==>
              Contains(url, "http") && |Split(url, ':')| == 3 && Atoi(Split(url, ':')[2]) == None
  {
    hide Contains, DigitsValue, Count, BeforeFirst, AfterFirst, Split;
    if 1 <= Count(url, ':') <= 2 {
      SplitPieces(url);
    }
  }

  lemma NumberIsFree(s: string)
    requires Atoi(s).Some?
    ensures Free(s, ':')
  {
    hide DigitsValue;
    assert forall i | 0 <= i < |Magnitude(s)| :: Magnitude(s)[i] == s[|s| - |Magnitude(s)| + i];
    forall i | 0 <= i < |s|
      ensures s[i] != ':'
    {
      if i >= |s| - |Magnitude(s)| {
        assert IsDigit(Magnitude(s)[i - (|s| - |Magnitude(s)|)]);
      }
    }
  }

  // ---------- Normalisation ----------

  function Scheme(ssl: bool): string {
    if ssl then "https" else "http"
  }

  /** The URL `scheme://host:port` of an endpoint, as InfraViz prints event endpoints. */
  function RenderUrl(e: Endpoint): string {
    Scheme(e.ssl) + "://" + e.host + ":" + Itoa(e.port)
  }

  /** The conversion to 16 bits takes away a multiple of 65536 and leaves a port. */
  lemma PortIsCongruent(port: int)
    ensures 0 <= Uint16(port) < 0x1_0000 && (port - Uint16(port)) % 0x1_0000 == 0
    ensures 0 <= port < 0x1_0000 ==> Uint16(port) == port
  {
  }

  /** The port of an accepted URL that names one differs from that number by a multiple of 65536, and
      not at all when the number is a port. */
  lemma NamedPort(protocol: string, slashes: string, host: string, port: string)
    requires Free(protocol, ':') && AllAre(slashes, '/') && Free(host, ':') && !StartsWith(host, '/')
    requires Contains(protocol + ":" + slashes + host + ":" + port, "http") && Atoi(port).Some?
    ensures var n, r := Atoi(port).value, ParseUrl(protocol + ":" + slashes + host + ":" + port);
            && r.Accepted? && 0 <= r.endpoint.port < 0x1_0000 && (n - r.endpoint.port) % 0x1_0000 == 0
            && (0 <= n < 0x1_0000 ==> r.endpoint.port == n)
  {
    hide ParseUrl, Contains, Atoi, Uint16;
    ShapeAccepted(protocol, slashes, host, port);
    PortIsCongruent(Atoi(port).value);
  }

  /** A printed endpoint is accepted; it parses to itself if its port is one. */
  lemma RenderedIsAccepted(e: Endpoint)
    requires Free(e.host, ':') && !StartsWith(e.host, '/')
    requires e.port <= MAX_INT
    ensures ParseUrl(RenderUrl(e)) == Accepted(e.(port := Uint16(e.port)))
    ensures e.port < 0x1_0000 ==> ParseUrl(RenderUrl(e)) == Accepted(e)
  {
    hide ParseUrl, Contains, Uint16, Atoi, Itoa;
    PortIsCongruent(e.port);
    RenderHasHttp(e.ssl, "://" + e.host + ":" + Itoa(e.port));
    RenderGrouping(Scheme(e.ssl), e.host, Itoa(e.port));
    ItoaThenAtoi(e.port);
    ShapeAccepted(Scheme(e.ssl), "//", e.host, Itoa(e.port));
  }

  lemma RenderGrouping(scheme: string, host: string, port: string)
    ensures scheme + "://" + host + ":" + port == scheme + ":" + "//" + host + ":" + port
    ensures scheme + "://" + host + ":" + port == scheme + ("://" + host + ":" + port)
  {
  }

  lemma RenderHasHttp(ssl: bool, rest: string)
    ensures Contains(Scheme(ssl) + rest, "http")
    ensures 's' in Scheme(ssl) <==> ssl
  {
    assert "http" <= Scheme(ssl) + rest;
    assert "https"[4] == 's';
  }

  /** Printing what the parser found and parsing it again changes nothing. */
  lemma NormalisationIsFixedPoint(url: string)
    requires ParseUrl(url).Accepted?
    ensures ParseUrl(RenderUrl(ParseUrl(url).endpoint)) == ParseUrl(url)
  {
    hide RenderUrl, Contains, Acceptable, Count;
    var _, _, _, _ := AcceptedShape(url);
    RenderedIsAccepted(ParseUrl(url).endpoint);
  }

  // ---------- The event endpoint of InfraViz ----------

  /** The endpoint chosen when the CR gives none. */
  function EventUrl(requested: string, controller: Endpoint): string {
    if requested != "" then requested
    else if Contains(controller.host, "appdynamics.com") then "https://analytics.api.appdynamics.com"
    else Scheme(controller.ssl) + "://" + controller.host + ":9080"
  }

  /** A derived, non-SaaS event endpoint is itself a valid controller URL: the controller's
      own host and protocol on port 9080. */
  lemma DerivedEventUrlIsAccepted(url: string)
    requires ParseUrl(url).Accepted?
    requires !Contains(ParseUrl(url).endpoint.host, "appdynamics.com")
    ensures ParseUrl(EventUrl("", ParseUrl(url).endpoint))
         == Accepted(ParseUrl(url).endpoint.(port := 9080))
  {
    hide Contains, Acceptable, Count;
    var e := ParseUrl(url).endpoint;
    var _, _, _, _ := AcceptedShape(url);
    RenderedIsAccepted(e.(port := 9080));
    PrintedEventPort();
    assert Scheme(e.ssl) + "://" + e.host + ":" + "9080" == Scheme(e.ssl) + "://" + e.host + ":9080";
  }

  lemma PrintedEventPort()
    ensures Itoa(9080) == "9080"
  {
    assert NatToString(9) == "9";
    assert NatToString(90) == "9" + "0";
    assert NatToString(908) == "9" + "0" + "8";
  }
}
