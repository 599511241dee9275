/**
 * The request-admission decision chain of the proxy's handler, with the
 * network and the HTTP response plumbing stripped out.
 *
 * A request is answered by the first branch that applies:
 *   OPTIONS                          -> 200, empty body, limiter untouched
 *   the client key is rate limited   -> 429
 *   `messages` is not an array       -> 400
 *   the upstream reply is not ok     -> 500 "LLM error" with its text
 *   otherwise                        -> 200 with the first choice's content
 * Every request other than OPTIONS is recorded in the limiter, whichever
 * branch answers it.
 */
module Handler {
  import opened RateLimit

  datatype Option<T> = None | Some(value: T)

  /* ---------- Data model ---------- */

  /** The parts of an incoming request that the handler looks at. */
  datatype Request = Request(
    httpMethod: string,
    forwardedFor: Option<string>,   // the `x-forwarded-for` header, if sent
    remoteAddress: Option<string>,  // the connection's remote address, if known
    messagesIsArray: bool,          // whether the body's `messages` is an array
    activity: Option<string>)       // the body's `meta.activity`, if present

  /** A message `content` as the upstream JSON may carry it. */
  datatype Content = Absent | Null | Text(s: string)

  datatype ChatMessage = ChatMessage(content: Content)

  datatype Choice = Choice(message: Option<ChatMessage>)

  /**
   * What the upstream call produced: a non-ok status with its response
   * text, or an ok status whose JSON may carry a `choices` array.
   */
  datatype UpstreamResult = NotOk(text: string) | Ok(choices: Option<seq<Choice>>)

  /** The outbound chat-completion call, when one is made. */
  datatype UpstreamCall = UpstreamCall(model: string, temperature: real)

  datatype ResponseBody =
    | NoBody
    | ErrorBody(error: string, detail: Option<string>)
    | ReplyBody(reply: string, ok: bool)

  datatype Response = Response(status: int, body: ResponseBody, call: Option<UpstreamCall>)

  const RateLimitMessage: string := "Rate limit exceeded. Περίμενε λίγο πριν ξαναστείλεις."
  const BadRequestMessage: string := "Bad request — messages array missing."
  const UpstreamErrorMessage: string := "LLM error"
  const Placeholder: string := "—"
  const DefaultModel: string := "gpt-4o-mini"
  const Temperature: real := 0.5

  /* ---------- Client key ---------- */

  /** The text before the first ',' of `s`, or all of `s` when it has none. */
  function FirstSegment(s: string): (r: string)
    ensures |r| <= |s| && r == s[..|r|]
    ensures ',' !in r
    ensures |r| < |s| ==> s[|r|] == ','
  {
    if s == [] || s[0] == ',' then ""
    else [s[0]] + FirstSegment(s[1..])
  }

  /**
   * The key the limiter counts the request under: the first entry of
   * `x-forwarded-for` when that is non-empty, else the remote address when
   * that is non-empty, else "unknown". Empty strings are falsy and fall
   * through to the next source.
   */
  function ClientKey(forwardedFor: Option<string>, remoteAddress: Option<string>): (key: string)
    ensures key != ""
    ensures || (forwardedFor.Some? && key == FirstSegment(forwardedFor.value))
            || (remoteAddress.Some? && key == remoteAddress.value)
            || key == "unknown"
  {
    var first := if forwardedFor.Some? then FirstSegment(forwardedFor.value) else "";
    if first != "" then first
    else if remoteAddress.Some? && remoteAddress.value != "" then remoteAddress.value
    else "unknown"
  }

  /* ---------- Model choice and reply extraction ---------- */

  /** The model for a `meta.activity`; every branch names the same model. */
  function SelectModel(activity: Option<string>): (model: string)
    ensures model == DefaultModel
  {
    if activity == Some("summary") then "gpt-4o-mini"
    else if activity == Some("exercise") then "gpt-4o-mini"
    else "gpt-4o-mini"
  }

  /** JavaScript truthiness of a `content` value. */
  predicate Truthy(c: Content)
  {
    c.Text? && c.s != ""
  }

  /** The content of the first choice's message, if the path to it exists. */
  function FirstContent(choices: Option<seq<Choice>>): Content
  {
    if choices.None? || |choices.value| == 0 then Absent
    else if choices.value[0].message.None? then Absent
    else choices.value[0].message.value.content
  }

  /**
   * `choices?.[0]?.message?.content || '—'`: the first choice's content
   * when it is a non-empty string, the placeholder otherwise.
   */
  function ExtractReply(choices: Option<seq<Choice>>): (reply: string)
    ensures reply != ""
    ensures reply == Placeholder || FirstContent(choices) == Text(reply)
  {
    match choices
    case None => Placeholder
    case Some(cs) =>
      if |cs| == 0 then Placeholder
      else match cs[0].message
        case None => Placeholder
        case Some(m) =>
          match m.content
          case Text(s) => if s != "" then s else Placeholder
          case _ => Placeholder
  }

  /* ---------- The decision chain ---------- */

  /**
   * The response to `req` at time `now` given the limiter's table and what
   * the upstream call would return, with the limiter's table afterwards.
   */
  function Decide(req: Request, table: Table, now: int, upstream: UpstreamResult): (r: (Response, Table))
    ensures r.0.status in {200, 400, 429, 500}
  {
    if req.httpMethod == "OPTIONS" then (Response(200, NoBody, None), table)
    else
      var key := ClientKey(req.forwardedFor, req.remoteAddress);
      var recorded := Step(table, key, now);
      if Verdict(table, key, now) then
        (Response(429, ErrorBody(RateLimitMessage, None), None), recorded)
      else if !req.messagesIsArray then
        (Response(400, ErrorBody(BadRequestMessage, None), None), recorded)
      else
        var call := Some(UpstreamCall(SelectModel(req.activity), Temperature));
        match upstream
        case NotOk(text) =>
          (Response(500, ErrorBody(UpstreamErrorMessage, Some(text)), call), recorded)
        case Ok(choices) =>
          (Response(200, ReplyBody(ExtractReply(choices), true), call), recorded)
  }

  /* ---------- Properties of the client key ---------- */

  /**
   * `FirstSegment` is the only string that is a comma-free prefix of `s`
   * ending at a comma or at the end of `s`.
   */
  lemma {:induction false} FirstSegmentUnique(s: string, r: string)
    requires |r| <= |s| && r == s[..|r|]
    requires ',' !in r
    requires |r| < |s| ==> s[|r|] == ','
    ensures r == FirstSegment(s)
  {
  }

  /**
   * A forwarded-for header that is non-empty and does not start with a
   * comma decides the key: the untrimmed text up to its first comma.
   */
  lemma ClientKeyFromForwarded(header: string, remoteAddress: Option<string>)
    requires header != "" && header[0] != ','
    ensures var key := ClientKey(Some(header), remoteAddress);
      && key == header[..|key|]
      && ',' !in key
      && (|key| == |header| || header[|key|] == ',')
  {
    assert FirstSegment(header) != "";
  }

  /**
   * Without a usable forwarded-for entry, the key is the remote address
   * when that is non-empty and "unknown" otherwise.
   */
  lemma ClientKeyFallback(forwardedFor: Option<string>, remoteAddress: Option<string>)
    requires forwardedFor.Some? ==> forwardedFor.value == "" || forwardedFor.value[0] == ','
    ensures remoteAddress.Some? && remoteAddress.value != "" ==>
      ClientKey(forwardedFor, remoteAddress) == remoteAddress.value
    ensures remoteAddress.None? || remoteAddress.value == "" ==>
      ClientKey(forwardedFor, remoteAddress) == "unknown"
  {
  }

  /**
   * The first forwarded-for entry is taken as sent: whatever it holds up to
   * the first comma, blanks on either side included, is the key.
   */
  lemma ClientKeyNotTrimmed(entry: string, rest: string, remoteAddress: Option<string>)
    requires entry != "" && ',' !in entry
    requires rest == [] || rest[0] == ','
    ensures ClientKey(Some(entry + rest), remoteAddress) == entry
  {
    assert (entry + rest)[..|entry|] == entry;
    FirstSegmentUnique(entry + rest, entry);
  }

  /** For example, `" 10.0.0.1 , 10.0.0.2"` gives the key `" 10.0.0.1 "`. */
  lemma ClientKeyBlanksKept(remoteAddress: Option<string>)
    ensures ClientKey(Some(" 10.0.0.1 , 10.0.0.2"), remoteAddress) == " 10.0.0.1 "
  {
    assert " 10.0.0.1 , 10.0.0.2" == " 10.0.0.1 " + ", 10.0.0.2";
    ClientKeyNotTrimmed(" 10.0.0.1 ", ", 10.0.0.2", remoteAddress);
  }

  /* ---------- Branch order of the decision chain ---------- */

  /** A preflight is answered 200 with no body, before any limiter update. */
  lemma OptionsShortCircuits(req: Request, table: Table, now: int, upstream: UpstreamResult)
    requires req.httpMethod == "OPTIONS"
    ensures Decide(req, table, now, upstream) == (Response(200, NoBody, None), table)
  {
  }

  /**
   * Every other request is recorded under its client key before anything
   * else is decided, whichever branch then answers it.
   */
  lemma NonOptionsRecorded(req: Request, table: Table, now: int, upstream: UpstreamResult)
    requires req.httpMethod != "OPTIONS"
    ensures var key := ClientKey(req.forwardedFor, req.remoteAddress);
      && Decide(req, table, now, upstream).1 == Step(table, key, now)
      && Lookup(Decide(req, table, now, upstream).1, key)[|Lookup(Decide(req, table, now, upstream).1, key)| - 1] == now
  {
  }

  /** A rate-limited request gets 429 whatever its body and the upstream. */
  lemma RateLimitedBeforeBody(req: Request, table: Table, now: int, upstream: UpstreamResult)
    requires req.httpMethod != "OPTIONS"
    requires Verdict(table, ClientKey(req.forwardedFor, req.remoteAddress), now)
    ensures Decide(req, table, now, upstream).0 == Response(429, ErrorBody(RateLimitMessage, None), None)
  {
  }

  /** A non-array `messages` gets 400, after the call has been recorded. */
  lemma BadBodyAfterRecording(req: Request, table: Table, now: int, upstream: UpstreamResult)
    requires req.httpMethod != "OPTIONS"
    requires !Verdict(table, ClientKey(req.forwardedFor, req.remoteAddress), now)
    requires !req.messagesIsArray
    ensures Decide(req, table, now, upstream).0 == Response(400, ErrorBody(BadRequestMessage, None), None)
    ensures Decide(req, table, now, upstream).1 == Step(table, ClientKey(req.forwardedFor, req.remoteAddress), now)
  {
  }

  /** Whether the request passes every check before the upstream call. */
  predicate Admitted(req: Request, table: Table, now: int)
  {
    && req.httpMethod != "OPTIONS"
    && !Verdict(table, ClientKey(req.forwardedFor, req.remoteAddress), now)
    && req.messagesIsArray
  }

  /**
   * Exactly the admitted requests reach the upstream, always with the same
   * model and temperature; the others do not depend on the upstream at all.
   */
  lemma UpstreamCalledIffAdmitted(req: Request, table: Table, now: int, upstream: UpstreamResult,
                                  other: UpstreamResult)
    ensures Decide(req, table, now, upstream).0.call.Some? <==> Admitted(req, table, now)
    ensures Decide(req, table, now, upstream).0.call.Some? ==>
      Decide(req, table, now, upstream).0.call.value == UpstreamCall(DefaultModel, 0.5)
    ensures !Admitted(req, table, now) ==>
      Decide(req, table, now, upstream) == Decide(req, table, now, other)
  {
  }

  /** An upstream that is not ok gives 500 "LLM error" carrying its text. */
  lemma UpstreamFailure(req: Request, table: Table, now: int, text: string)
    requires Admitted(req, table, now)
    ensures Decide(req, table, now, NotOk(text)).0.status == 500
    ensures Decide(req, table, now, NotOk(text)).0.body == ErrorBody(UpstreamErrorMessage, Some(text))
  {
  }

  /**
   * An ok upstream gives 200 with the first choice's content when that is
   * a non-empty string, and with the placeholder in every other case.
   */
  lemma UpstreamSuccess(req: Request, table: Table, now: int, choices: Option<seq<Choice>>)
    requires Admitted(req, table, now)
    ensures Decide(req, table, now, Ok(choices)).0.status == 200
    ensures Truthy(FirstContent(choices)) ==>
      Decide(req, table, now, Ok(choices)).0.body == ReplyBody(FirstContent(choices).s, true)
    ensures !Truthy(FirstContent(choices)) ==>
      Decide(req, table, now, Ok(choices)).0.body == ReplyBody(Placeholder, true)
  {
  }

  /** Each status code is produced by exactly one branch. */
  lemma StatusByBranch(req: Request, table: Table, now: int, upstream: UpstreamResult)
    ensures var key := ClientKey(req.forwardedFor, req.remoteAddress);
      var status := Decide(req, table, now, upstream).0.status;
      && (status == 429 <==> req.httpMethod != "OPTIONS" && Verdict(table, key, now))
      && (status == 400 <==> req.httpMethod != "OPTIONS" && !Verdict(table, key, now) && !req.messagesIsArray)
      && (status == 500 <==> Admitted(req, table, now) && upstream.NotOk?)
      && (status == 200 <==> req.httpMethod == "OPTIONS" || (Admitted(req, table, now) && upstream.Ok?))
  {
  }

  /* ---------- Runs of requests ---------- */

  /** One request as it reaches the handler: when, and what upstream returns. */
  datatype Arrival = Arrival(req: Request, now: int, upstream: UpstreamResult)

  /** The responses to `arrivals`, handled one after another, and the final table. */
  function Run(table: Table, arrivals: seq<Arrival>): (r: (seq<Response>, Table))
    ensures |r.0| == |arrivals|
  {
    if arrivals == [] then ([], table)
    else
      var n := |arrivals|;
      var before := Run(table, arrivals[..n - 1]);
      var a := arrivals[n - 1];
      var step := Decide(a.req, before.1, a.now, a.upstream);
      (before.0 + [step.0], step.1)
  }

  function Times(arrivals: seq<Arrival>): (times: seq<int>)
    ensures |times| == |arrivals|
  {
    seq(|arrivals|, i requires 0 <= i < |arrivals| => arrivals[i].now)
  }

  /** Whether every arrival is a non-OPTIONS request under client key `key`. */
  predicate FromClient(arrivals: seq<Arrival>, key: string)
  {
    forall i :: 0 <= i < |arrivals| ==>
      arrivals[i].req.httpMethod != "OPTIONS"
      && ClientKey(arrivals[i].req.forwardedFor, arrivals[i].req.remoteAddress) == key
  }

  /** Handling requests of one client updates the table as the limiter's replay. */
  lemma {:induction false} RunIsReplay(table: Table, arrivals: seq<Arrival>, key: string)
    requires FromClient(arrivals, key)
    ensures Run(table, arrivals).1 == Replay(table, key, Times(arrivals))
  {
    if arrivals != [] {
      var n := |arrivals|;
      var pre, a := arrivals[..n - 1], arrivals[n - 1];
      var times := Times(arrivals);
      FromClientPrefix(arrivals, key, n - 1);
      RunIsReplay(table, pre, key);
      TimesPrefix(arrivals, n - 1);
      var before := Run(table, pre).1;
      assert before == Replay(table, key, times[..n - 1]);
      assert a.req.httpMethod != "OPTIONS" && ClientKey(a.req.forwardedFor, a.req.remoteAddress) == key;
      NonOptionsRecorded(a.req, before, a.now, a.upstream);
      RunLast(table, arrivals);
      assert Run(table, arrivals).1 == Step(before, key, a.now);
      assert times[n - 1] == a.now;
      ReplayUnfold(table, key, times);
    }
  }

  /** The table after a run is the last request's update of the one before. */
  lemma RunLast(table: Table, arrivals: seq<Arrival>)
    requires arrivals != []
    ensures var a := arrivals[|arrivals| - 1];
      Run(table, arrivals).1 == Decide(a.req, Run(table, arrivals[..|arrivals| - 1]).1, a.now, a.upstream).1
  {
  }

  /** Every prefix of one client's requests is one client's requests. */
  lemma FromClientPrefix(arrivals: seq<Arrival>, key: string, k: nat)
    requires k <= |arrivals|
    requires FromClient(arrivals, key)
    ensures FromClient(arrivals[..k], key)
  {
    forall i | 0 <= i < k ensures arrivals[..k][i] == arrivals[i] { }
  }

  /** The times of a prefix are the prefix of the times. */
  lemma TimesPrefix(arrivals: seq<Arrival>, k: nat)
    requires k <= |arrivals|
    ensures Times(arrivals[..k]) == Times(arrivals)[..k]
  {
  }

  /** Earlier responses do not depend on later arrivals. */
  lemma {:induction false} RunPrefix(table: Table, arrivals: seq<Arrival>, k: nat)
    requires k <= |arrivals|
    ensures Run(table, arrivals[..k]).0 == Run(table, arrivals).0[..k]
    decreases |arrivals|
  {
    var n := |arrivals|;
    if k < n {
      assert arrivals[..n - 1][..k] == arrivals[..k];
      RunPrefix(table, arrivals[..n - 1], k);
      assert Run(table, arrivals).0[..n - 1] == Run(table, arrivals[..n - 1]).0;
    } else {
      assert arrivals[..k] == arrivals;
    }
  }

  /**
   * A burst of requests from one client inside one 10-second window is
   * answered 429 from its fourth request on, whatever the table held.
   */
  lemma BurstGets429(table: Table, arrivals: seq<Arrival>, key: string)
    requires |arrivals| >= 4
    requires FromClient(arrivals, key)
    requires Sorted(Times(arrivals))
    requires InWindow(arrivals[0].now, arrivals[|arrivals| - 1].now)
    ensures forall k :: 3 <= k < |arrivals| ==> Run(table, arrivals).0[k].status == 429
  {
    var times := Times(arrivals);
    RejectedCallsCount(table, key, times);
    forall k | 3 <= k < |arrivals| ensures Run(table, arrivals).0[k].status == 429 {
      PrefixGets429(table, arrivals, key, k);
    }
  }

  /** The response at index `k` is 429 when the limiter's verdict on it is true. */
  lemma PrefixGets429(table: Table, arrivals: seq<Arrival>, key: string, k: nat)
    requires k < |arrivals|
    requires FromClient(arrivals, key)
    requires LastVerdict(table, key, Times(arrivals)[..k + 1])
    ensures Run(table, arrivals).0[k].status == 429
  {
    var pre := arrivals[..k + 1];
    FromClientPrefix(arrivals, key, k + 1);
    TimesPrefix(arrivals, k + 1);
    LimitedArrivalGets429(table, pre, key);
    RunPrefix(table, arrivals, k + 1);
  }

  /** The last of `arrivals` gets 429 when the limiter's verdict on it is true. */
  lemma LimitedArrivalGets429(table: Table, arrivals: seq<Arrival>, key: string)
    requires arrivals != []
    requires FromClient(arrivals, key)
    requires LastVerdict(table, key, Times(arrivals))
    ensures Run(table, arrivals).0[|arrivals| - 1].status == 429
  {
    var n := |arrivals|;
    var pre, a := arrivals[..n - 1], arrivals[n - 1];
    FromClientPrefix(arrivals, key, n - 1);
    RunIsReplay(table, pre, key);
    TimesPrefix(arrivals, n - 1);
    var before := Run(table, pre).1;
    assert Verdict(before, key, a.now);
    RateLimitedBeforeBody(a.req, before, a.now, a.upstream);
  }

  /** The handler, holding the process-wide limiter it updates. */
  class Proxy {
    const limiter: RateLimiter

    constructor (limiter: RateLimiter)
      ensures this.limiter == limiter
    {
      this.limiter := limiter;
    }

    /** Answers one request; the limiter records every non-OPTIONS request. */
    method Handle(req: Request, now: int, upstream: UpstreamResult) returns (resp: Response)
      modifies limiter
      ensures (resp, limiter.recentCalls) == Decide(req, old(limiter.recentCalls), now, upstream)
    {
      if req.httpMethod == "OPTIONS" {
        return Response(200, NoBody, None);
      }
      var key := ClientKey(req.forwardedFor, req.remoteAddress);
      var limited := limiter.IsRateLimited(key, now);
      if limited {
        return Response(429, ErrorBody(RateLimitMessage, None), None);
      }
      if !req.messagesIsArray {
        return Response(400, ErrorBody(BadRequestMessage, None), None);
      }
      var model := SelectModel(req.activity);
      var call := Some(UpstreamCall(model, Temperature));
      match upstream {
        case NotOk(text) =>
          resp := Response(500, ErrorBody(UpstreamErrorMessage, Some(text)), call);
        case Ok(choices) =>
          resp := Response(200, ReplyBody(ExtractReply(choices), true), call);
      }
    }
  }
}
