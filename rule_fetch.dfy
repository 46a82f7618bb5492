/**
 * requestRules and rulesToJson: one request for a plugin's rules, retried while the transport
 * fails, and the interpretation of its reply as rule text and values.
 */
module RuleFetch {
  import opened Common

  /** How many times a failed request is repeated. */
  const MaxRetries: nat := 5

  /**
   * The response headers the core reads. `etag` is "" when absent; `maxAge` is the numeric value
   * of the max-age header, None when the header is absent or not a number.
   */
  datatype Response = Response(statusCode: int, etag: string, maxAge: Option<int>)

  /** What one request attempt produced: a transport error flag, the body and the response. */
  datatype Attempt = Attempt(failed: bool, body: Option<string>, res: Option<Response>)

  /** The `err` a reply carries: none, the transport's error, or `false` for "not modified". */
  datatype ErrKind = NoError | Failed | NotModified

  /** A JSON rules document: its `rules` member when that is a string, and its `values` member. */
  datatype JsonRules = JsonRules(rules: Option<string>, values: Option<Values>)

  /** The arguments requestRules hands its callback. */
  datatype Reply = Reply(err: ErrKind, rules: Option<string>, values: Option<Values>, raw: Option<string>,
                         res: Option<Response>)

  /** The body looks like a JSON object: '{', at least one character, '}'. */
  predicate LooksLikeObject(body: string) {
    |body| >= 3 && body[0] == '{' && body[|body| - 1] == '}'
  }

  /**
   * rulesToJson: parses the body only when it looks like a JSON object. `parse` is JSON.parse,
   * None where it throws.
   */
  function RulesToJson(body: Option<string>, parse: string -> Option<JsonRules>): (r: Option<JsonRules>)
    ensures r.Some? ==> body.Some? && LooksLikeObject(body.value) && r == parse(body.value)
    ensures body.Some? && LooksLikeObject(body.value) ==> r == parse(body.value)
  {
    if body.Some? && LooksLikeObject(body.value) then parse(body.value) else None
  }

  /** `body && body.trim()`. */
  function TrimmedBody(body: Option<string>): (r: Option<string>)
    ensures r.Some? <==> body.Some?
    ensures r.Some? ==> r.value == Trim(body.value)
  {
    if body.None? then None else Some(Trim(body.value))
  }

  predicate NotModifiedResponse(res: Option<Response>) {
    res.Some? && res.value.statusCode == 304
  }

  /** The callback arguments requestRules derives from its last attempt: "not modified" exactly for
      a 304, otherwise the transport's error; the response is passed on; values come only from a
      body parsed after a successful attempt. */
  function Interpret(a: Attempt, parse: string -> Option<JsonRules>): (r: Reply)
    ensures r.res == a.res
    ensures r.err == NotModified <==> NotModifiedResponse(a.res)
    ensures r.err == Failed <==> !NotModifiedResponse(a.res) && a.failed
    ensures r.values.Some? ==> !a.failed && a.body.Some? && RulesToJson(TrimmedBody(a.body), parse).Some?
    ensures r.rules.Some? ==> !NotModifiedResponse(a.res) && a.body.Some?
  {
    if NotModifiedResponse(a.res) then Reply(NotModified, None, None, None, a.res)
    else
      var body := TrimmedBody(a.body);
      var data := if a.failed then None else RulesToJson(body, parse);
      var err := if a.failed then Failed else NoError;
      if data.Some? then Reply(err, Some(data.value.rules.GetOr("")), data.value.values, body, a.res)
      else Reply(err, body, None, body, a.res)
  }

  /** A 304 is "not modified" whatever else the attempt produced, and carries no rules. */
  lemma NotModifiedCarriesNothing(a: Attempt, parse: string -> Option<JsonRules>)
    requires NotModifiedResponse(a.res)
    ensures Interpret(a, parse).err == NotModified
    ensures Interpret(a, parse).rules.None? && Interpret(a, parse).values.None? && Interpret(a, parse).raw.None?
  {
  }

  /** Otherwise the raw text is the trimmed body, and the error is the transport's. */
  lemma RawIsTrimmedBody(a: Attempt, parse: string -> Option<JsonRules>)
    requires !NotModifiedResponse(a.res)
    ensures Interpret(a, parse).raw == TrimmedBody(a.body)
    ensures Interpret(a, parse).err == (if a.failed then Failed else NoError)
    ensures Interpret(a, parse).raw.Some? ==> Trim(Interpret(a, parse).raw.value) == Interpret(a, parse).raw.value
  {
    if a.body.Some? {
      TrimIdempotent(a.body.value);
    }
  }

  /** A body that is not a parsable JSON object is the rule text itself, trimmed, without values. */
  lemma PlainTextBody(a: Attempt, parse: string -> Option<JsonRules>)
    requires !NotModifiedResponse(a.res)
    requires a.failed || RulesToJson(TrimmedBody(a.body), parse).None?
    ensures Interpret(a, parse).rules == TrimmedBody(a.body) && Interpret(a, parse).values.None?
  {
  }

  /** A successful JSON object body gives its `rules` string ("" when that is not a string) and
      its `values`. */
  lemma JsonBody(a: Attempt, parse: string -> Option<JsonRules>, doc: JsonRules)
    requires !NotModifiedResponse(a.res) && !a.failed
    requires a.body.Some? && LooksLikeObject(Trim(a.body.value)) && parse(Trim(a.body.value)) == Some(doc)
    ensures Interpret(a, parse).err == NoError
    ensures Interpret(a, parse).rules == Some(if doc.rules.Some? then doc.rules.value else "")
    ensures Interpret(a, parse).values == doc.values
  {
  }

  /** Surrounding white space does not stop a JSON body from being recognised. */
  lemma {:induction false} PaddedJsonRecognised(body: string, pad: string)
    requires LooksLikeObject(body) && forall i :: 0 <= i < |pad| ==> IsJsSpace(pad[i])
    ensures Trim(pad + body + pad) == body
  {
    var s := pad + body + pad;
    TrimStartSkips(pad, body + pad);
    assert s == pad + (body + pad);
    TrimEndSkips(body, pad);
  }

  lemma {:induction false} TrimStartSkips(pad: string, rest: string)
    requires forall i :: 0 <= i < |pad| ==> IsJsSpace(pad[i])
    requires rest != [] && !IsJsSpace(rest[0])
    ensures TrimStart(pad + rest) == rest
  {
    if pad != [] {
      assert (pad + rest)[1..] == pad[1..] + rest;
      TrimStartSkips(pad[1..], rest);
    } else {
      assert pad + rest == rest;
    }
  }

  lemma {:induction false} TrimEndSkips(body: string, pad: string)
    requires forall i :: 0 <= i < |pad| ==> IsJsSpace(pad[i])
    requires body != [] && !IsJsSpace(body[|body| - 1])
    ensures TrimEnd(body + pad) == body
  {
    if pad != [] {
      var p := pad[..|pad| - 1];
      assert (body + pad)[..|body + pad| - 1] == body + p;
      TrimEndSkips(body, p);
    } else {
      assert body + pad == body;
    }
  }

  /** How many attempts requestRules makes when the first `i` have failed: one past the first
      that succeeds, or MaxRetries + 1 when all fail. */
  function AttemptsNeeded(attempt: nat -> Attempt, i: nat): (n: nat)
    requires i <= MaxRetries
    ensures i + 1 <= n <= MaxRetries + 1
    ensures forall j :: i <= j < n - 1 ==> attempt(j).failed
    ensures n <= MaxRetries ==> !attempt(n - 1).failed
    decreases MaxRetries - i
  {
    if i == MaxRetries || !attempt(i).failed then i + 1 else AttemptsNeeded(attempt, i + 1)
  }

  /**
   * requestRules: repeats the request while the transport fails, at most MaxRetries times, and
   * interprets the last attempt. `transport(i)` is what attempt i produces.
   */
  method RequestRules(transport: nat -> Attempt, parse: string -> Option<JsonRules>)
    returns (reply: Reply, attempts: nat)
    ensures 1 <= attempts <= MaxRetries + 1
    ensures forall i :: 0 <= i < attempts - 1 ==> transport(i).failed
    ensures attempts <= MaxRetries ==> !transport(attempts - 1).failed
    ensures reply == Interpret(transport(attempts - 1), parse)
    ensures attempts == AttemptsNeeded(transport, 0)
  {
    var retryCount: nat := 0;
    var a := transport(0);
    while a.failed && retryCount < MaxRetries
      invariant retryCount <= MaxRetries
      invariant a == transport(retryCount)
      invariant forall i :: 0 <= i < retryCount ==> transport(i).failed
      invariant AttemptsNeeded(transport, 0) == AttemptsNeeded(transport, retryCount)
      decreases MaxRetries - retryCount
    {
      retryCount := retryCount + 1;
      a := transport(retryCount);
    }
    attempts := retryCount + 1;
    reply := Interpret(a, parse);
  }

  /** The number of attempts is determined by the first success: one past it, or six when every
      attempt fails. */
  lemma AttemptsUntilSuccess(transport: nat -> Attempt, attempts: nat)
    requires 1 <= attempts <= MaxRetries + 1
    requires forall i :: 0 <= i < attempts - 1 ==> transport(i).failed
    requires attempts <= MaxRetries ==> !transport(attempts - 1).failed
    ensures forall k: nat :: k <= MaxRetries && !transport(k).failed && (forall i :: 0 <= i < k ==> transport(i).failed) ==>
              attempts == k + 1
    ensures (forall i :: 0 <= i <= MaxRetries ==> transport(i).failed) ==> attempts == MaxRetries + 1
  {
  }
}
