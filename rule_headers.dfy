/**
 * The headers a plugin's rules server receives: the matched host, rule, proxy and pac rules as
 * raw/value pairs, the request's URLs and identity, and (for response rules) the upstream status,
 * on a copy of the request's or response's headers, sent to 127.0.0.1 over plain HTTP.
 */
module RuleHeaders {
  import opened Common
  import opened UriEncoding

  const CurHostHeader := "x-whistle-host"
  const LocalHostHeader := "x-whistle-local-host"
  const CurRuleHeader := "x-whistle-rule"
  const RuleValueHeader := "x-whistle-rule-value"
  const CurProxyHeader := "x-whistle-proxy"
  const ProxyValueHeader := "x-whistle-proxy-value"
  const CurPacHeader := "x-whistle-pac"
  const PacValueHeader := "x-whistle-pac-value"
  const RealUrlHeader := "x-whistle-real-url"
  const ReqIdHeader := "x-whistle-req-id"
  const FullUrlHeader := "x-whistle-full-url"
  const SslFlagHeader := "x-whistle-https"
  const MethodHeader := "x-whistle-method"
  const NextRuleHeader := "x-whistle-next-rule"
  const HostIpHeader := "x-whistle-host-ip"
  const StatusCodeHeader := "x-whistle-status-code"
  const Localhost := "127.0.0.1"

  /**
   * A rule the rule engine matched. `matcherValue` is what the engine's getMatcherValue returns
   * for it and `port` its port, both "" when absent.
   */
  datatype MatchedRule = MatchedRule(rawPattern: string, matcher: string, matcherValue: string, port: string)

  /** The matched rules the headers describe (req.rules). */
  datatype MatchedRules = MatchedRules(host: Option<MatchedRule>, rule: Option<MatchedRule>,
                                       proxy: Option<MatchedRule>, pac: Option<MatchedRule>)

  /** The request fields the headers are built from; a string field is "" when unset. */
  datatype Request = Request(rules: MatchedRules, headers: Headers, httpMethod: string, fullUrl: string,
                             realUrl: string, reqId: string, clientIp: string, clientPort: string,
                             globalValue: string, hostIp: string)

  /** The header names the proxy's configuration chooses for the client's address and global value. */
  datatype ConfigHeads = ConfigHeads(clientIp: string, clientPort: string, globalValue: string)

  /** The header names written from fixed constants. */
  function FixedNames(): set<string> {
    {CurHostHeader, LocalHostHeader, CurRuleHeader, RuleValueHeader, CurProxyHeader, ProxyValueHeader,
     CurPacHeader, PacValueHeader, RealUrlHeader, ReqIdHeader, FullUrlHeader, SslFlagHeader,
     MethodHeader, NextRuleHeader, HostIpHeader, StatusCodeHeader, "host", "upgrade", "connection"}
  }

  /** The configured names are three distinct names, none of them a name the module writes itself. */
  predicate ConfigHeadsDistinct(heads: ConfigHeads) {
    heads.clientIp != heads.clientPort && heads.clientIp != heads.globalValue &&
    heads.clientPort != heads.globalValue &&
    heads.clientIp !in FixedNames() && heads.clientPort !in FixedNames() && heads.globalValue !in FixedNames()
  }

  /** Every header name addRuleHeaders may write. */
  function RuleHeaderNames(heads: ConfigHeads): set<string> {
    {CurHostHeader, LocalHostHeader, CurRuleHeader, RuleValueHeader, CurProxyHeader, ProxyValueHeader,
     CurPacHeader, PacValueHeader, RealUrlHeader, ReqIdHeader, FullUrlHeader, SslFlagHeader,
     heads.clientIp, heads.clientPort, heads.globalValue}
  }

  /** The raw and value strings one matched rule is described by. */
  datatype HeaderPair = HeaderPair(raw: string, value: string)

  /** The text of a rule's value: its matcher value, with ":port" when it has a port. */
  function RuleValueText(rule: MatchedRule): string {
    rule.matcherValue + (if rule.port != "" then ":" + rule.port else "")
  }

  /**
   * getHeaderValueFromRule: nothing for no rule; otherwise the raw header, which is the encoded
   * pattern and matcher joined by an encoded space, and the value header, which is the encoded
   * matcher value followed, when the rule has a port, by an encoded colon and the encoded port.
   */
  function GetHeaderValueFromRule(rule: Option<MatchedRule>): (r: Option<HeaderPair>)
    ensures r.Some? <==> rule.Some?
    ensures r.Some? ==> r.value.raw == Encode(rule.value.rawPattern) + "%20" + Encode(rule.value.matcher)
    ensures r.Some? ==> r.value.value == Encode(rule.value.matcherValue) +
                                         (if rule.value.port != [] then "%3A" + Encode(rule.value.port) else [])
    ensures r.Some? ==> (r.value.value == [] <==> rule.value.matcherValue == [] && rule.value.port == [])
  {
    if rule.None? then None
    else
      var rl := rule.value;
      EncodeAppend(rl.rawPattern + " ", rl.matcher);
      EncodeAppend(rl.rawPattern, " ");
      EncodeSpace();
      if rl.port != [] then
        EncodeAppend(rl.matcherValue, ":" + rl.port);
        EncodeAppend(":", rl.port);
        EncodeColon();
        assert rl.matcherValue + (":" + rl.port) == RuleValueText(rl);
        Some(HeaderPair(Encode(rl.rawPattern + " " + rl.matcher), Encode(RuleValueText(rl))))
      else
        assert RuleValueText(rl) == rl.matcherValue;
        assert Encode(rl.matcherValue) + [] == Encode(rl.matcherValue);
        Some(HeaderPair(Encode(rl.rawPattern + " " + rl.matcher), Encode(RuleValueText(rl))))
  }

  /** `key` has the same presence and value in both maps. */
  predicate Unchanged(before: Headers, after: Headers, key: string) {
    (key in after <==> key in before) && (key in before ==> after[key] == before[key])
  }

  /** `key` holds `value` when `cond`, and is as it was otherwise. */
  predicate SetIf(before: Headers, after: Headers, key: string, cond: bool, value: string) {
    if cond then key in after && after[key] == value else Unchanged(before, after, key)
  }

  /** One matched rule's pair of headers: the raw header whenever the rule matched, the value
      header only when its value is non-empty. */
  predicate PairWritten(before: Headers, after: Headers, pair: Option<HeaderPair>, rawName: string, valueName: string) {
    SetIf(before, after, rawName, pair.Some?, if pair.Some? then pair.value.raw else "") &&
    SetIf(before, after, valueName, pair.Some? && pair.value.value != [], if pair.Some? then pair.value.value else "")
  }

  /** The request is over TLS: its full URL starts with "https:" or "wss:". */
  predicate IsSecure(fullUrl: string) {
    StartsWith(fullUrl, "https:") || StartsWith(fullUrl, "wss:")
  }

  /** What addRuleHeaders writes, header by header. */
  predicate RuleHeadersWritten(before: Headers, after: Headers, req: Request, rules: MatchedRules, heads: ConfigHeads) {
    PairWritten(before, after, GetHeaderValueFromRule(rules.host), CurHostHeader, LocalHostHeader) &&
    PairWritten(before, after, GetHeaderValueFromRule(rules.rule), CurRuleHeader, RuleValueHeader) &&
    PairWritten(before, after, GetHeaderValueFromRule(rules.proxy), CurProxyHeader, ProxyValueHeader) &&
    PairWritten(before, after, GetHeaderValueFromRule(rules.pac), CurPacHeader, PacValueHeader) &&
    SetIf(before, after, RealUrlHeader, req.realUrl != [], Encode(req.realUrl)) &&
    SetIf(before, after, ReqIdHeader, req.reqId != [], req.reqId) &&
    SetIf(before, after, FullUrlHeader, req.fullUrl != [], Encode(req.fullUrl)) &&
    SetIf(before, after, SslFlagHeader, IsSecure(req.fullUrl), "true") &&
    SetIf(before, after, heads.clientIp, req.clientIp != [], req.clientIp) &&
    SetIf(before, after, heads.clientPort, req.clientPort != [], req.clientPort) &&
    SetIf(before, after, heads.globalValue, req.globalValue != [], Encode(req.globalValue))
  }

  /** Every header outside `names` is as it was. */
  ghost predicate Outside(before: Headers, after: Headers, names: set<string>) {
    forall k :: k !in names ==> Unchanged(before, after, k)
  }

  /** Two steps together change nothing outside the names either of them may write. */
  lemma OutsideTrans(a: Headers, b: Headers, c: Headers, s: set<string>, t: set<string>)
    requires Outside(a, b, s) && Outside(b, c, t)
    ensures Outside(a, c, s + t)
  {
    forall k | k !in s + t
      ensures Unchanged(a, c, k)
    {
      assert Unchanged(a, b, k) && Unchanged(b, c, k);
    }
  }

  /** What one step wrote survives later steps that may not write it, and is not disturbed by
      earlier steps that may not write it either. */
  lemma SetIfKept(a: Headers, b: Headers, c: Headers, d: Headers, s: set<string>, t: set<string>,
                  key: string, cond: bool, value: string)
    requires Outside(a, b, s) && key !in s
    requires SetIf(b, c, key, cond, value)
    requires Outside(c, d, t) && key !in t
    ensures SetIf(a, d, key, cond, value)
  {
    assert Unchanged(a, b, key) && Unchanged(c, d, key);
  }

  /** Writes a rule's pair into the headers. */
  method WritePair(headers: Headers, pair: Option<HeaderPair>, rawName: string, valueName: string)
    returns (out: Headers)
    requires rawName != valueName
    ensures PairWritten(headers, out, pair, rawName, valueName)
    ensures Outside(headers, out, {rawName, valueName})
  {
    out := headers;
    if pair.Some? {
      out := out[rawName := pair.value.raw];
      if pair.value.value != [] {
        out := out[valueName := pair.value.value];
      }
    }
  }

  /** Writes the request's URL and id headers, and the SSL flag for a TLS URL. */
  method WriteUrlHeaders(headers: Headers, req: Request) returns (out: Headers)
    ensures SetIf(headers, out, RealUrlHeader, req.realUrl != [], Encode(req.realUrl))
    ensures SetIf(headers, out, ReqIdHeader, req.reqId != [], req.reqId)
    ensures SetIf(headers, out, FullUrlHeader, req.fullUrl != [], Encode(req.fullUrl))
    ensures SetIf(headers, out, SslFlagHeader, IsSecure(req.fullUrl), "true")
    ensures Outside(headers, out, {RealUrlHeader, ReqIdHeader, FullUrlHeader, SslFlagHeader})
  {
    out := headers;
    if req.realUrl != [] {
      out := out[RealUrlHeader := Encode(req.realUrl)];
    }
    if req.reqId != [] {
      out := out[ReqIdHeader := req.reqId];
    }
    if req.fullUrl != [] {
      out := out[FullUrlHeader := Encode(req.fullUrl)];
      if IsSecure(req.fullUrl) {
        out := out[SslFlagHeader := "true"];
      }
    }
  }

  /** Writes the client address and global value under the configured names. */
  method WriteClientHeaders(headers: Headers, req: Request, heads: ConfigHeads) returns (out: Headers)
    requires ConfigHeadsDistinct(heads)
    ensures SetIf(headers, out, heads.clientIp, req.clientIp != [], req.clientIp)
    ensures SetIf(headers, out, heads.clientPort, req.clientPort != [], req.clientPort)
    ensures SetIf(headers, out, heads.globalValue, req.globalValue != [], Encode(req.globalValue))
    ensures Outside(headers, out, {heads.clientIp, heads.clientPort, heads.globalValue})
  {
    out := headers;
    if req.clientIp != [] {
      out := out[heads.clientIp := req.clientIp];
    }
    if req.clientPort != [] {
      out := out[heads.clientPort := req.clientPort];
    }
    if req.globalValue != [] {
      out := out[heads.globalValue := Encode(req.globalValue)];
    }
  }

  /**
   * addRuleHeaders: writes the rule headers into `headers`, or into the request's own headers when
   * none are given, and leaves every other header as it was.
   */
  method AddRuleHeaders(req: Request, rules: MatchedRules, heads: ConfigHeads, headers: Option<Headers>)
    returns (out: Headers)
    requires ConfigHeadsDistinct(heads)
    ensures var before := headers.GetOr(req.headers);
            RuleHeadersWritten(before, out, req, rules, heads) && Outside(before, out, RuleHeaderNames(heads))
  {
    var h0 := headers.GetOr(req.headers);
    var host, rule, proxy, pac := GetHeaderValueFromRule(rules.host), GetHeaderValueFromRule(rules.rule),
                                  GetHeaderValueFromRule(rules.proxy), GetHeaderValueFromRule(rules.pac);
    var h1 := WritePair(h0, host, CurHostHeader, LocalHostHeader);
    var h2 := WritePair(h1, rule, CurRuleHeader, RuleValueHeader);
    var h3 := WritePair(h2, proxy, CurProxyHeader, ProxyValueHeader);
    var h4 := WritePair(h3, pac, CurPacHeader, PacValueHeader);
    var h5 := WriteUrlHeaders(h4, req);
    out := WriteClientHeaders(h5, req, heads);
    AddRuleHeadersSuffixes(h1, h2, h3, h4, h5, out, heads);
    AddRuleHeadersPrefixes(h0, h1, h2, h3, h4);
    AddRuleHeadersFrame(h0, h1, out, heads);
    NameFacts(heads);
    OutsideRefl(h0);
    PairKept(h0, h0, h1, out, {}, After(1, heads), host, CurHostHeader, LocalHostHeader);
    PairKept(h0, h1, h2, out, Before(2), After(2, heads), rule, CurRuleHeader, RuleValueHeader);
    PairKept(h0, h2, h3, out, Before(3), After(3, heads), proxy, CurProxyHeader, ProxyValueHeader);
    PairKept(h0, h3, h4, out, Before(4), After(4, heads), pac, CurPacHeader, PacValueHeader);
    AddRuleHeadersRest(h0, h4, h5, out, req, heads);
  }

  // The names each step of addRuleHeaders may write.
  const HostNames: set<string> := {CurHostHeader, LocalHostHeader}
  const RuleNames: set<string> := {CurRuleHeader, RuleValueHeader}
  const ProxyNames: set<string> := {CurProxyHeader, ProxyValueHeader}
  const PacNames: set<string> := {CurPacHeader, PacValueHeader}
  const UrlNames: set<string> := {RealUrlHeader, ReqIdHeader, FullUrlHeader, SslFlagHeader}
  function ClientNames(heads: ConfigHeads): set<string> {
    {heads.clientIp, heads.clientPort, heads.globalValue}
  }

  /** The names the steps before step `i` (1 to 4, one per rule pair) may write. */
  function Before(i: nat): set<string> {
    if i <= 1 then {}
    else if i == 2 then HostNames
    else if i == 3 then HostNames + RuleNames
    else HostNames + RuleNames + ProxyNames
  }

  /** The names the steps after step `i` may write. */
  function After(i: nat, heads: ConfigHeads): set<string> {
    if i <= 1 then RuleNames + ProxyNames + PacNames + UrlNames + ClientNames(heads)
    else if i == 2 then ProxyNames + PacNames + UrlNames + ClientNames(heads)
    else if i == 3 then PacNames + UrlNames + ClientNames(heads)
    else UrlNames + ClientNames(heads)
  }

  lemma OutsideRefl(h: Headers)
    ensures Outside(h, h, {})
  {
  }

  /** No step writes a name another step writes. */
  lemma NameFacts(heads: ConfigHeads)
    requires ConfigHeadsDistinct(heads)
    ensures CurHostHeader !in After(1, heads) && LocalHostHeader !in After(1, heads)
    ensures CurRuleHeader !in Before(2) && RuleValueHeader !in Before(2)
    ensures CurRuleHeader !in After(2, heads) && RuleValueHeader !in After(2, heads)
    ensures CurProxyHeader !in Before(3) && ProxyValueHeader !in Before(3)
    ensures CurProxyHeader !in After(3, heads) && ProxyValueHeader !in After(3, heads)
    ensures CurPacHeader !in Before(4) && PacValueHeader !in Before(4)
    ensures CurPacHeader !in After(4, heads) && PacValueHeader !in After(4, heads)
  {
  }

  /** What the steps after each rule pair may change. */
  lemma AddRuleHeadersSuffixes(h1: Headers, h2: Headers, h3: Headers, h4: Headers, h5: Headers,
                               out: Headers, heads: ConfigHeads)
    requires Outside(h1, h2, RuleNames) && Outside(h2, h3, ProxyNames)
    requires Outside(h3, h4, PacNames) && Outside(h4, h5, UrlNames) && Outside(h5, out, ClientNames(heads))
    ensures Outside(h1, out, After(1, heads)) && Outside(h2, out, After(2, heads))
    ensures Outside(h3, out, After(3, heads)) && Outside(h4, out, After(4, heads))
  {
    OutsideTrans(h4, h5, out, UrlNames, ClientNames(heads));
    OutsideTrans(h3, h4, out, PacNames, After(4, heads));
    OutsideTrans(h2, h3, out, ProxyNames, After(3, heads));
    OutsideTrans(h1, h2, out, RuleNames, After(2, heads));
  }

  /** What the steps before each rule pair may change. */
  lemma AddRuleHeadersPrefixes(h0: Headers, h1: Headers, h2: Headers, h3: Headers, h4: Headers)
    requires Outside(h0, h1, HostNames) && Outside(h1, h2, RuleNames) && Outside(h2, h3, ProxyNames)
    requires Outside(h3, h4, PacNames)
    ensures Outside(h0, h1, Before(2)) && Outside(h0, h2, Before(3)) && Outside(h0, h3, Before(4))
    ensures Outside(h0, h4, Before(4) + PacNames)
  {
    OutsideTrans(h0, h1, h2, HostNames, RuleNames);
    OutsideTrans(h0, h2, h3, Before(3), ProxyNames);
    OutsideTrans(h0, h3, h4, Before(4), PacNames);
  }

  /** addRuleHeaders changes nothing outside the names it may write. */
  lemma AddRuleHeadersFrame(h0: Headers, h1: Headers, out: Headers, heads: ConfigHeads)
    requires Outside(h0, h1, HostNames) && Outside(h1, out, After(1, heads))
    ensures Outside(h0, out, RuleHeaderNames(heads))
  {
    OutsideTrans(h0, h1, out, HostNames, After(1, heads));
    assert HostNames + After(1, heads) == RuleHeaderNames(heads);
  }

  lemma PairKept(a: Headers, b: Headers, c: Headers, d: Headers, s: set<string>, t: set<string>,
                 pair: Option<HeaderPair>, rawName: string, valueName: string)
    requires Outside(a, b, s) && rawName !in s && valueName !in s
    requires PairWritten(b, c, pair, rawName, valueName)
    requires Outside(c, d, t) && rawName !in t && valueName !in t
    ensures PairWritten(a, d, pair, rawName, valueName)
  {
    SetIfKept(a, b, c, d, s, t, rawName, pair.Some?, if pair.Some? then pair.value.raw else "");
    SetIfKept(a, b, c, d, s, t, valueName, pair.Some? && pair.value.value != [],
              if pair.Some? then pair.value.value else "");
  }

  lemma AddRuleHeadersRest(h0: Headers, h4: Headers, h5: Headers, out: Headers, req: Request, heads: ConfigHeads)
    requires ConfigHeadsDistinct(heads)
    requires Outside(h0, h4, Before(4) + PacNames)
    requires Outside(h4, h5, UrlNames) && Outside(h5, out, ClientNames(heads))
    requires SetIf(h4, h5, RealUrlHeader, req.realUrl != [], Encode(req.realUrl))
    requires SetIf(h4, h5, ReqIdHeader, req.reqId != [], req.reqId)
    requires SetIf(h4, h5, FullUrlHeader, req.fullUrl != [], Encode(req.fullUrl))
    requires SetIf(h4, h5, SslFlagHeader, IsSecure(req.fullUrl), "true")
    requires SetIf(h5, out, heads.clientIp, req.clientIp != [], req.clientIp)
    requires SetIf(h5, out, heads.clientPort, req.clientPort != [], req.clientPort)
    requires SetIf(h5, out, heads.globalValue, req.globalValue != [], Encode(req.globalValue))
    ensures SetIf(h0, out, RealUrlHeader, req.realUrl != [], Encode(req.realUrl))
    ensures SetIf(h0, out, ReqIdHeader, req.reqId != [], req.reqId)
    ensures SetIf(h0, out, FullUrlHeader, req.fullUrl != [], Encode(req.fullUrl))
    ensures SetIf(h0, out, SslFlagHeader, IsSecure(req.fullUrl), "true")
    ensures SetIf(h0, out, heads.clientIp, req.clientIp != [], req.clientIp)
    ensures SetIf(h0, out, heads.clientPort, req.clientPort != [], req.clientPort)
    ensures SetIf(h0, out, heads.globalValue, req.globalValue != [], Encode(req.globalValue))
  {
    var front := Before(4) + PacNames;
    SetIfKept(h0, h4, h5, out, front, ClientNames(heads), RealUrlHeader, req.realUrl != [], Encode(req.realUrl));
    SetIfKept(h0, h4, h5, out, front, ClientNames(heads), ReqIdHeader, req.reqId != [], req.reqId);
    SetIfKept(h0, h4, h5, out, front, ClientNames(heads), FullUrlHeader, req.fullUrl != [], Encode(req.fullUrl));
    SetIfKept(h0, h4, h5, out, front, ClientNames(heads), SslFlagHeader, IsSecure(req.fullUrl), "true");
    OutsideTrans(h0, h4, h5, front, UrlNames);
    assert Outside(out, out, {});
    SetIfKept(h0, h5, out, out, front + UrlNames, {}, heads.clientIp, req.clientIp != [], req.clientIp);
    SetIfKept(h0, h5, out, out, front + UrlNames, {}, heads.clientPort, req.clientPort != [], req.clientPort);
    SetIfKept(h0, h5, out, out, front + UrlNames, {}, heads.globalValue, req.globalValue != [],
              Encode(req.globalValue));
  }

  /** The SSL flag is "true" exactly when the full URL is https: or wss:, unless the incoming
      headers already carried one. */
  lemma SslFlagIffSecure(before: Headers, after: Headers, req: Request, rules: MatchedRules, heads: ConfigHeads)
    requires RuleHeadersWritten(before, after, req, rules, heads)
    requires SslFlagHeader !in before
    ensures SslFlagHeader in after <==> IsSecure(req.fullUrl)
    ensures SslFlagHeader in after ==> after[SslFlagHeader] == "true"
  {
  }

  /** The upstream response a response-rules request describes. */
  datatype Upstream = Upstream(statusCode: Option<nat>, headers: Headers)

  /** The rule the engine would match next (rulesMgr.resolveRule with index 1). */
  datatype NextRule = NextRule(rawPattern: string, matcher: string)

  /** The options of the request to a plugin's rules server, before its port is chosen. */
  datatype RequestOptions = RequestOptions(protocol: string, host: string, hostname: Option<string>, headers: Headers)

  /** The number a string of decimal digits denotes. */
  function DigitsValue(s: string): nat
    requires forall i :: 0 <= i < |s| ==> '0' <= s[i] <= '9'
  {
    if s == [] then 0 else 10 * DigitsValue(s[..|s| - 1]) + (s[|s| - 1] as int - '0' as int)
  }

  /** Decimal digits of a natural number, as String(n) writes them: digits that denote n, with no
      leading zero. */
  function DecimalString(n: nat): (s: string)
    ensures s != []
    ensures forall i :: 0 <= i < |s| ==> '0' <= s[i] <= '9'
    ensures DigitsValue(s) == n
    ensures |s| > 1 ==> s[0] != '0'
  {
    if n < 10 then [(48 + n) as char]
    else
      var init := DecimalString(n / 10);
      var s := init + [(48 + n % 10) as char];
      assert s[..|s| - 1] == init;
      s
  }

  /** The status code's text: "" when the response has none. */
  function StatusText(res: Upstream): string {
    if res.statusCode.None? then "" else DecimalString(res.statusCode.value)
  }

  /** The status text is its own encoding, so the status header carries the plain digits. */
  lemma StatusTextEncoded(res: Upstream)
    ensures Encode(StatusText(res)) == StatusText(res)
  {
    EncodeUnreserved(StatusText(res));
  }

  /** The names getOptions writes itself after addRuleHeaders. */
  const OptionNames: set<string> := {MethodHeader, NextRuleHeader, "host", HostIpHeader, StatusCodeHeader}

  /** What getOptions adds on top of addRuleHeaders: the method (GET by default), the next rule's
      pattern for request rules, and for response rules the request's host, the host IP
      (127.0.0.1 by default) and the upstream status. */
  predicate OptionsHeadersWritten(before: Headers, after: Headers, req: Request, res: Option<Upstream>,
                                  ruleType: string, nextRule: Option<NextRule>) {
    var isResRules := res.Some? && ruleType == "resRules";
    SetIf(before, after, MethodHeader, true, Encode(if req.httpMethod != [] then req.httpMethod else "GET")) &&
    SetIf(before, after, NextRuleHeader, ruleType == "rules" && nextRule.Some?,
          if nextRule.Some? then Encode(nextRule.value.rawPattern + " " + nextRule.value.matcher) else "") &&
    (if isResRules then Unchanged(req.headers, after, "host") else Unchanged(before, after, "host")) &&
    SetIf(before, after, HostIpHeader, isResRules, if req.hostIp != [] then req.hostIp else Localhost) &&
    SetIf(before, after, StatusCodeHeader, isResRules, if res.Some? then StatusText(res.value) else "")
  }

  /** The writes getOptions makes after addRuleHeaders. */
  method WriteOptionHeaders(headers: Headers, req: Request, res: Option<Upstream>, ruleType: string,
                            nextRule: Option<NextRule>)
    returns (out: Headers)
    ensures OptionsHeadersWritten(headers, out, req, res, ruleType, nextRule)
    ensures Outside(headers, out, OptionNames)
  {
    var isResRules := res.Some? && ruleType == "resRules";
    out := headers[MethodHeader := Encode(if req.httpMethod != [] then req.httpMethod else "GET")];
    if ruleType == "rules" && nextRule.Some? {
      out := out[NextRuleHeader := Encode(nextRule.value.rawPattern + " " + nextRule.value.matcher)];
    }
    if isResRules {
      if "host" in req.headers {
        out := out["host" := req.headers["host"]];
      } else {
        out := out - {"host"};
      }
      out := out[HostIpHeader := if req.hostIp != [] then req.hostIp else Localhost];
      // The source encodes the status text; digits encode to themselves (StatusTextEncoded).
      out := out[StatusCodeHeader := StatusText(res.value)];
    }
  }

  /** The rule headers survive a later step that writes none of their names. */
  lemma RuleHeadersKept(a: Headers, b: Headers, c: Headers, t: set<string>, req: Request, rules: MatchedRules,
                        heads: ConfigHeads)
    requires RuleHeadersWritten(a, b, req, rules, heads)
    requires Outside(b, c, t) && t !! RuleHeaderNames(heads)
    ensures RuleHeadersWritten(a, c, req, rules, heads)
  {
    assert Outside(a, a, {});
    PairKept(a, a, b, c, {}, t, GetHeaderValueFromRule(rules.host), CurHostHeader, LocalHostHeader);
    PairKept(a, a, b, c, {}, t, GetHeaderValueFromRule(rules.rule), CurRuleHeader, RuleValueHeader);
    PairKept(a, a, b, c, {}, t, GetHeaderValueFromRule(rules.proxy), CurProxyHeader, ProxyValueHeader);
    PairKept(a, a, b, c, {}, t, GetHeaderValueFromRule(rules.pac), CurPacHeader, PacValueHeader);
    SetIfKept(a, a, b, c, {}, t, RealUrlHeader, req.realUrl != [], Encode(req.realUrl));
    SetIfKept(a, a, b, c, {}, t, ReqIdHeader, req.reqId != [], req.reqId);
    SetIfKept(a, a, b, c, {}, t, FullUrlHeader, req.fullUrl != [], Encode(req.fullUrl));
    SetIfKept(a, a, b, c, {}, t, SslFlagHeader, IsSecure(req.fullUrl), "true");
    SetIfKept(a, a, b, c, {}, t, heads.clientIp, req.clientIp != [], req.clientIp);
    SetIfKept(a, a, b, c, {}, t, heads.clientPort, req.clientPort != [], req.clientPort);
    SetIfKept(a, a, b, c, {}, t, heads.globalValue, req.globalValue != [], Encode(req.globalValue));
  }

  /** getOptions' own headers are unaffected by the rule headers written before them. */
  lemma OptionHeadersFromBase(a: Headers, b: Headers, c: Headers, s: set<string>, req: Request,
                              res: Option<Upstream>, ruleType: string, nextRule: Option<NextRule>)
    requires Outside(a, b, s) && s !! OptionNames
    requires OptionsHeadersWritten(b, c, req, res, ruleType, nextRule)
    ensures OptionsHeadersWritten(a, c, req, res, ruleType, nextRule)
  {
    assert Outside(c, c, {});
    assert Unchanged(a, b, "host");
    SetIfKept(a, b, c, c, s, {}, MethodHeader, true, Encode(if req.httpMethod != [] then req.httpMethod else "GET"));
    SetIfKept(a, b, c, c, s, {}, NextRuleHeader, ruleType == "rules" && nextRule.Some?,
              if nextRule.Some? then Encode(nextRule.value.rawPattern + " " + nextRule.value.matcher) else "");
    SetIfKept(a, b, c, c, s, {}, HostIpHeader, res.Some? && ruleType == "resRules",
              if req.hostIp != [] then req.hostIp else Localhost);
    SetIfKept(a, b, c, c, s, {}, StatusCodeHeader, res.Some? && ruleType == "resRules",
              if res.Some? then StatusText(res.value) else "");
  }

  /** The configured names are none of getOptions' own names. */
  lemma NamesDisjoint(heads: ConfigHeads)
    requires ConfigHeadsDistinct(heads)
    ensures RuleHeaderNames(heads) !! OptionNames
    ensures "upgrade" !in RuleHeaderNames(heads) + OptionNames
    ensures "connection" !in RuleHeaderNames(heads) + OptionNames
  {
  }

  /**
   * getOptions: a copy of the response's headers (for response rules) or else the request's, with
   * the hop-by-hop headers upgrade and connection removed and the rule headers, method, next rule
   * and upstream status added, addressed to 127.0.0.1 over http:. Every other header is kept.
   */
  method GetOptions(req: Request, res: Option<Upstream>, ruleType: string, heads: ConfigHeads,
                    nextRule: Option<NextRule>)
    returns (options: RequestOptions)
    requires ConfigHeadsDistinct(heads)
    ensures options.protocol == "http:" && options.host == Localhost && options.hostname.None?
    ensures "upgrade" !in options.headers && "connection" !in options.headers
    ensures var isResRules := res.Some? && ruleType == "resRules";
            var base := (if isResRules then res.value.headers else req.headers) - {"upgrade", "connection"};
            RuleHeadersWritten(base, options.headers, req, req.rules, heads) &&
            OptionsHeadersWritten(base, options.headers, req, res, ruleType, nextRule) &&
            Outside(base, options.headers, RuleHeaderNames(heads) + OptionNames)
  {
    var isResRules := res.Some? && ruleType == "resRules";
    var headers := if isResRules then res.value.headers else req.headers;
    headers := headers - {"upgrade"};
    headers := headers - {"connection"};
    ghost var base := headers;
    assert base == (if isResRules then res.value.headers else req.headers) - {"upgrade", "connection"};
    headers := AddRuleHeaders(req, req.rules, heads, Some(headers));
    ghost var withRules := headers;
    headers := WriteOptionHeaders(headers, req, res, ruleType, nextRule);
    NamesDisjoint(heads);
    RuleHeadersKept(base, withRules, headers, OptionNames, req, req.rules, heads);
    OptionHeadersFromBase(base, withRules, headers, RuleHeaderNames(heads), req, res, ruleType, nextRule);
    OutsideTrans(base, withRules, headers, RuleHeaderNames(heads), OptionNames);
    assert Unchanged(base, headers, "upgrade") && Unchanged(base, headers, "connection");
    options := RequestOptions("http:", Localhost, None, headers);
  }
}
