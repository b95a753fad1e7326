/** The provider HTTP client (internal/adapters/trustpin/client.go): one request body,
    sent up to Max+1 times, retrying only transport failures and 503 replies.
    The network is the sequence of per-attempt outcomes; sleeping between
    attempts and the HTTP timeout are not modelled. */
module TrustPinClient {
  import opened Wrappers
  import opened Domain

  datatype RetryConfig = RetryConfig(max: int, backoff: int)

  datatype Client = Client(baseUrl: string, apiKey: string, timeout: int, retry: RetryConfig)

  /** One request as put on the wire, with the headers the client sets. */
  datatype Request = Request(
    verb: string, url: string, contentType: string, apiKey: string, tenant: string, body: Json)

  /** What attempt number i produced: a transport failure, or a reply whose body is
      also given parsed as JSON (None when it is not valid JSON). */
  datatype Attempt =
    | TransportError(cause: string)
    | Reply(status: int, body: string, parsed: Option<Json>)

  /** What net/http does with the client's requests: `parse(url)` is the error url.Parse
      reports for a URL (None when it parses), which makes http.NewRequestWithContext fail
      before anything is sent; `attempt(i)` is the outcome of attempt number i. */
  datatype Network = Network(parse: string -> Option<string>, attempt: nat -> Attempt)

  /** The character encoding/json's case-insensitive member matching reduces `c` to, as far as
      a comparison with an ASCII field name goes: ASCII letters to upper case, the long s and the
      Kelvin sign to the ASCII letter of their case-fold set; any other character matches only itself. */
  function Fold(c: char): char
  {
    if 'a' <= c <= 'z' then (c as int - 32) as char
    else if c == '\U{017F}' then 'S'
    else if c == '\U{212A}' then 'K'
    else c
  }

  /** Object member `k` is stored in the field with ASCII JSON name `name`: equal up to case. */
  predicate FoldEqual(k: string, name: string)
  {
    |k| == |name| && forall i | 0 <= i < |k| :: Fold(k[i]) == Fold(name[i])
  }

  /** The string-valued members of `m` that json.Unmarshal stores in field `name`. */
  function TextMembers(m: map<string, Json>, name: string): set<string>
  {
    set k | k in m && FoldEqual(k, name) && m[k].Str?
  }

  /** The element of a singleton set. */
  function Only(s: set<string>): (x: string)
    requires |s| == 1
    ensures s == {x}
  {
    assert forall a, b | a in s && b in s :: a == b by {
      forall a, b | a in s && b in s
        ensures a == b
      {
        assert |s - {a}| == 0;
        assert b !in s - {a};
      }
    }
    var x :| x in s;
    x
  }

  /** The text json.Unmarshal leaves in string field `name`. A null member leaves the field
      alone, so only string members count; with no such member the field stays "". Several
      string members matching `name` up to case are stored in document order, the last one
      winning, which an unordered map does not record: the model then takes the exact-case
      member, or "" when there is none. */
  function FieldText(m: map<string, Json>, name: string): string
  {
    var texts := TextMembers(m, name);
    if name in texts then m[name].s
    else if |texts| == 1 then m[Only(texts)].s
    else ""
  }

  /** True when json.Unmarshal can store `v` in a Go string field. */
  predicate FitsString(v: Json)
  {
    v.Null? || v.Str?
  }

  /** json.Unmarshal of a reply into a struct whose string fields have the JSON names `names`.
      Members are matched to fields up to case, and members matching no field are ignored. */
  function DecodeInto(parsed: Option<Json>, names: seq<string>): (r: Result<map<string, string>, Failure>)
    ensures r.Ok? <==> (parsed.Some? && (parsed.value.Null? || (parsed.value.Obj? &&
              forall n, k | n in names && k in parsed.value.fields && FoldEqual(k, n) :: FitsString(parsed.value.fields[k]))))
    ensures r.Ok? ==> r.value.Keys == set n | n in names
    ensures r.Ok? && parsed.value.Obj? ==>
              forall n, k | n in names && k in parsed.value.fields && TextMembers(parsed.value.fields, n) == {k} ::
                r.value[n] == parsed.value.fields[k].s
    ensures r.Ok? && parsed.value.Obj? ==>
              forall n | n in names && TextMembers(parsed.value.fields, n) == {} :: r.value[n] == ""
    ensures r.Err? ==> r.error.Malformed?
  {
    match parsed
    case None => Err(Malformed("invalid character in input"))
    case Some(Null) => Ok(map n | n in names :: "")
    case Some(Obj(m)) =>
      if forall n, k | n in names && k in m && FoldEqual(k, n) :: FitsString(m[k]) then
        Ok(map n | n in names :: FieldText(m, n))
      else Err(Malformed("cannot unmarshal into Go struct field of type string"))
    case Some(_) => Err(Malformed("cannot unmarshal into Go value of type struct"))
  }

  /** Members are matched up to case: a number under `State` makes decoding into a struct
      with string field `state` fail, and a string under `State` fills that field. */
  lemma DecodeMatchesUpToCase()
    ensures DecodeInto(Some(Obj(map["State" := Num(5)])), ["state"]).Err?
    ensures DecodeInto(Some(Obj(map["State" := Str("PUSH_SENT")])), ["state"]) == Ok(map["state" := "PUSH_SENT"])
  {
    assert FoldEqual("State", "state");
    var m := map["State" := Str("PUSH_SENT")];
    assert TextMembers(m, "state") == {"State"};
    assert FieldText(m, "state") == "PUSH_SENT";
    assert (map n | n in ["state"] :: FieldText(m, n)) == map["state" := "PUSH_SENT"];
  }

  /** The outcome of a call: its result and how many requests it sent. */
  datatype Exchange = Exchange(result: Result<map<string, string>, Failure>, attempts: nat)

  function Retried(e: Exchange): Exchange
  {
    e.(attempts := e.attempts + 1)
  }

  /** A 2xx reply: success, decoding the body only when there is a target (`out` is non-nil). */
  function Succeeded(out: Option<seq<string>>, parsed: Option<Json>): Result<map<string, string>, Failure>
  {
    if out.None? then Ok(map[]) else DecodeInto(parsed, out.value)
  }

  function AsciiLower(s: string): string
  {
    if s == [] then [] else [if 'A' <= s[0] <= 'Z' then (s[0] as int + 32) as char else s[0]] + AsciiLower(s[1..])
  }

  /** The Op of the *url.Error http.Client.Do reports for a method: "Get" for none, else the
      method with only its first letter kept in upper case when it is ASCII ("POST" gives "Post"). */
  function ErrorOp(verb: string): string
  {
    if verb == [] then "Get"
    else if forall i | 0 <= i < |verb| :: verb[i] < '\U{0080}' then [verb[0]] + AsciiLower(verb[1..])
    else verb
  }

  /** The retry loop from attempt number `attempt` on, with retry limit `max`, for requests to
      `url` whose failed exchanges are reported with Op `op`. */
  function Run(max: int, op: string, url: string, out: Option<seq<string>>, network: Network, attempt: nat): Exchange
    decreases if attempt <= max then max - attempt + 1 else 0
  {
    if max < attempt then Exchange(Err(Plain("retry_exhausted")), 0)
    else if network.parse(url).Some? then Exchange(Err(UrlError("parse", url, network.parse(url).value)), 0)
    else match network.attempt(attempt)
      case TransportError(cause) =>
        if attempt < max then Retried(Run(max, op, url, out, network, attempt + 1))
        else Exchange(Err(UrlError(op, url, cause)), 1)
      case Reply(status, body, parsed) =>
        if 200 <= status < 300 then Exchange(Succeeded(out, parsed), 1)
        else if status == 503 && attempt < max then Retried(Run(max, op, url, out, network, attempt + 1))
        else Exchange(Err(Provider(status, body)), 1)
  }

  /** A whole call: the payload is marshalled once, before any attempt. */
  function Call(c: Client, verb: string, path: string, payload: Json, out: Option<seq<string>>, network: Network): Exchange
  {
    if !Encodable(payload) then Exchange(Err(Malformed("unsupported value")), 0)
    else Run(c.retry.max, ErrorOp(verb), c.baseUrl + path, out, network, 0)
  }

  /** The requests a call puts on the wire: the same request, once per attempt. */
  function Sent(c: Client, verb: string, path: string, tenant: string, payload: Json,
                out: Option<seq<string>>, network: Network): seq<Request>
  {
    Repeat(Request(verb, c.baseUrl + path, "application/json", c.apiKey, tenant, payload),
           Call(c, verb, path, payload, out, network).attempts)
  }

  /** Client.do. */
  method Do(c: Client, verb: string, path: string, tenant: string, payload: Json,
            out: Option<seq<string>>, network: Network)
    returns (r: Result<map<string, string>, Failure>, sent: seq<Request>)
    ensures r == Call(c, verb, path, payload, out, network).result
    ensures sent == Sent(c, verb, path, tenant, payload, out, network)
  {
    if !Encodable(payload) {
      return Err(Malformed("unsupported value")), [];
    }
    var url := c.baseUrl + path;
    var op := ErrorOp(verb);
    var req := Request(verb, url, "application/json", c.apiKey, tenant, payload);
    var max := c.retry.max;
    sent := [];
    var attempt: nat := 0;
    while attempt <= max
      invariant attempt == 0 || attempt <= max + 1
      invariant sent == Repeat(req, attempt)
      invariant Run(max, op, url, out, network, 0)
                == Exchange(Run(max, op, url, out, network, attempt).result,
                            attempt + Run(max, op, url, out, network, attempt).attempts)
      decreases max - attempt
    {
      var parseError := network.parse(url);
      if parseError.Some? {
        return Err(UrlError("parse", url, parseError.value)), sent;
      }
      sent := sent + [req];
      var outcome := network.attempt(attempt);
      if outcome.TransportError? {
        if attempt < max {
          attempt := attempt + 1;
          continue;
        }
        return Err(UrlError(op, url, outcome.cause)), sent;
      }
      if 200 <= outcome.status < 300 {
        if out.None? {
          return Ok(map[]), sent;
        }
        return DecodeInto(outcome.parsed, out.value), sent;
      }
      if outcome.status == 503 && attempt < max {
        attempt := attempt + 1;
        continue;
      }
      return Err(Provider(outcome.status, outcome.body)), sent;
    }
    return Err(Plain("retry_exhausted")), sent;
  }

  /** At most max+1 requests are sent, and none exactly when the loop never runs or the URL
      does not parse. */
  lemma {:induction false} RunAttemptsBounded(max: int, op: string, url: string, out: Option<seq<string>>,
                                              network: Network, attempt: nat)
    ensures Run(max, op, url, out, network, attempt).attempts <= (if attempt <= max then max - attempt + 1 else 0)
    ensures Run(max, op, url, out, network, attempt).attempts == 0 <==> (max < attempt || network.parse(url).Some?)
    decreases if attempt <= max then max - attempt + 1 else 0
  {
    if attempt < max {
      RunAttemptsBounded(max, op, url, out, network, attempt + 1);
    }
  }

  /** `retry_exhausted` (the only Plain error the loop yields) comes out exactly when the
      loop body never runs; every attempt ends in a URL, provider or decoding error. */
  lemma {:induction false} RunExhaustedOnlyWithoutAttempts(max: int, op: string, url: string, out: Option<seq<string>>,
                                                           network: Network, attempt: nat)
    ensures (Run(max, op, url, out, network, attempt).result.Err? && Run(max, op, url, out, network, attempt).result.error.Plain?)
            <==> max < attempt
    ensures max < attempt ==> Run(max, op, url, out, network, attempt).result == Err(Plain("retry_exhausted"))
    decreases if attempt <= max then max - attempt + 1 else 0
  {
    if attempt < max {
      RunExhaustedOnlyWithoutAttempts(max, op, url, out, network, attempt + 1);
    }
  }

  /** A call sends nothing exactly when the payload cannot be marshalled, Max is negative or
      the URL does not parse; the last case reports the parse error. */
  lemma CallSendsNothingIff(c: Client, verb: string, path: string, payload: Json, out: Option<seq<string>>, network: Network)
    ensures Call(c, verb, path, payload, out, network).attempts == 0
            <==> (!Encodable(payload) || c.retry.max < 0 || network.parse(c.baseUrl + path).Some?)
    ensures Encodable(payload) && c.retry.max < 0 ==> Call(c, verb, path, payload, out, network).result == Err(Plain("retry_exhausted"))
    ensures Encodable(payload) && 0 <= c.retry.max && network.parse(c.baseUrl + path).Some? ==>
              Call(c, verb, path, payload, out, network).result
              == Err(UrlError("parse", c.baseUrl + path, network.parse(c.baseUrl + path).value))
  {
    RunAttemptsBounded(c.retry.max, ErrorOp(verb), c.baseUrl + path, out, network, 0);
    RunExhaustedOnlyWithoutAttempts(c.retry.max, ErrorOp(verb), c.baseUrl + path, out, network, 0);
  }

  /** A provider that keeps answering 503 is asked max+1 times; the last 503 is returned. */
  lemma {:induction false} UnavailableRetriedToTheEnd(max: int, op: string, url: string, out: Option<seq<string>>,
                                                      network: Network, attempt: nat)
    requires attempt <= max
    requires forall i | attempt <= i <= max :: network.attempt(i).Reply? && network.attempt(i).status == 503
    ensures network.parse(url).None? ==>
              Run(max, op, url, out, network, attempt) == Exchange(Err(Provider(503, network.attempt(max).body)), max - attempt + 1)
    decreases max - attempt
  {
    if attempt < max {
      UnavailableRetriedToTheEnd(max, op, url, out, network, attempt + 1);
    }
  }

  /** A network that never answers is tried max+1 times; the final transport error itself
      is returned, not `retry_exhausted`. */
  lemma {:induction false} TransportRetriedToTheEnd(max: int, op: string, url: string, out: Option<seq<string>>,
                                                    network: Network, attempt: nat)
    requires attempt <= max
    requires forall i | attempt <= i <= max :: network.attempt(i).TransportError?
    ensures network.parse(url).None? ==>
              Run(max, op, url, out, network, attempt) == Exchange(Err(UrlError(op, url, network.attempt(max).cause)), max - attempt + 1)
    decreases max - attempt
  {
    if attempt < max {
      TransportRetriedToTheEnd(max, op, url, out, network, attempt + 1);
    }
  }

  /** Any other non-2xx reply ends the call on that attempt with the provider's status and body. */
  lemma NonRetryableStops(max: int, op: string, url: string, out: Option<seq<string>>, network: Network, attempt: nat)
    requires attempt <= max
    requires network.attempt(attempt).Reply? && !(200 <= network.attempt(attempt).status < 300)
    requires network.attempt(attempt).status != 503
    ensures network.parse(url).None? ==>
              Run(max, op, url, out, network, attempt)
              == Exchange(Err(Provider(network.attempt(attempt).status, network.attempt(attempt).body)), 1)
  {
  }

  /** `*trustpin.Error` always reports the same message, whatever its status and body. */
  lemma ProviderErrorMessage(status: int, body: string)
    ensures Provider(status, body).Message() == "trustpin_error"
  {
  }
}
