/**
  The request client that every generation and chat call goes through. Each outcome of
  `fetch` is supplied to the model as data: a parsed OK body, an OK body that is not JSON,
  an HTTP error, or a network-class failure (a `TypeError`, or the `DOMException` of an
  abort, which is how the 20-second timeout surfaces).
*/
module Asi1Service {
  import opened Wrappers
  import opened Text
  import opened StoryModel

  datatype Role = User | Assistant

  /** `ASI1Message`: a chat turn as sent to the backend. */
  datatype Asi1Message = Asi1Message(role: Role, content: string)

  datatype StoryGenerationRequest = StoryGenerationRequest(
    prompt: string, genre: string, tone: string, length: StoryLength, themes: Option<seq<string>>)

  /** `StoryGenerationResponse`; `tokens` is `metadata.tokens` when present. */
  datatype StoryGenerationResponse = StoryGenerationResponse(
    story: string, title: Option<string>, tokens: Option<int>)

  /** The `error` member of a parsed error body: missing or falsy (`undefined`, `""`, `0`,
      `false`, `null`), or truthy, with the text it renders as inside a template string. */
  datatype ErrorMember = Falsy | Truthy(text: string)

  /** What the body of a non-OK response turns into: nothing, text that is not JSON, the JSON
      value `null`, or any other JSON value with its `error` member. */
  datatype ErrorBody = EmptyBody | UnparsableBody | NullBody | JsonBody(error: ErrorMember)

  datatype FetchOutcome<T> =
    | Success(body: T)
    | MalformedBody(parseError: string)
    | HttpError(status: nat, statusText: string, errorBody: ErrorBody)
    | NetworkError

  const MaxRetries: nat := 1
  const UnreachableMessage: string :=
    "Unable to reach the AI backend. Start it with \"npm run dev:backend\" (or \"npm run dev:full\") and try again."
  const UnexpectedFailureMessage: string := "Unexpected request failure"
  const NoResponseText: string := "No response received"
  const GenerateEndpoint: string := "/api/stories/generate"
  const ChatEndpoint: string := "/api/chat"

  /** The text of a truthy `error` member of the parsed error body; an empty or unparsable
      body reads as `{}`, which has none. */
  function ServerError(b: ErrorBody): Option<string> {
    match b
    case JsonBody(Truthy(e)) => Some(e)
    case _ => None
  }

  /** "API Error: <status> - <server error or statusText>". */
  function ApiErrorMessage(status: nat, statusText: string, b: ErrorBody): string {
    "API Error: " + NatToString(status) + " - " + ServerError(b).GetOr(statusText)
  }

  /** What one attempt decides when it does not retry; `None` for a network-class failure.
      Reading `error` off a `null` error body throws a `TypeError`, which counts as one. */
  function Decisive<T>(o: FetchOutcome<T>): Option<Result<T, Thrown>> {
    match o
    case Success(b) => Some(Ok(b))
    case MalformedBody(m) => Some(Err(ErrorValue(m)))
    case HttpError(s, t, b) => if b.NullBody? then None else Some(Err(ErrorValue(ApiErrorMessage(s, t, b))))
    case NetworkError => None
  }

  /** A failure the loop treats as the network's: a `TypeError` or `DOMException` from `fetch`,
      or the `TypeError` of reading `error` off a `null` error body. */
  predicate NetworkClass<T>(o: FetchOutcome<T>) {
    o.NetworkError? || (o.HttpError? && o.errorBody.NullBody?)
  }

  /** The specification of the attempt loop from attempt `k` on: the result and how many
      attempts were made in all. */
  function AttemptFrom<T>(o: seq<FetchOutcome<T>>, k: nat, maxRetries: nat): (Result<T, Thrown>, nat)
    requires k <= maxRetries < |o|
    decreases maxRetries - k
  {
    match Decisive(o[k])
    case Some(r) => (r, k + 1)
    case None =>
      if k < maxRetries then AttemptFrom(o, k + 1, maxRetries)
      else (Err(ErrorValue(UnreachableMessage)), k + 1)
  }

  /** The configured proxy URL, trimmed, with one trailing slash removed; empty when unset. */
  function BaseUrlFrom(configured: Option<string>): (r: string)
    ensures configured.None? ==> r == ""
    ensures configured.Some? ==> var t := Trim(configured.value);
      && (t != [] && t[|t| - 1] == '/' ==> t == r + "/")
      && (t == [] || t[|t| - 1] != '/' ==> r == t)
  {
    var t := if configured.Some? then Trim(configured.value) else "";
    if t == "" then "" else if t[|t| - 1] == '/' then t[..|t| - 1] else t
  }

  /** A slash after the URL makes no difference to the base URL. */
  lemma TrailingSlashIgnored(u: string)
    requires u == [] || (!IsSpace(u[0]) && !IsSpace(u[|u| - 1]))
    requires u == [] || u[|u| - 1] != '/'
    ensures BaseUrlFrom(Some(u + "/")) == BaseUrlFrom(Some(u)) == u
  {
    TrimOfTrimmed(u);
    var v := u + "/";
    assert v[|v| - 1] == '/';
    if u != [] {
      assert v[0] == u[0];
    }
    TrimOfTrimmed(v);
  }

  /** The URL `call` requests: the endpoint, after the base URL when there is one. */
  function RequestUrl(baseURL: string, endpoint: string): string {
    if baseURL != "" then baseURL + endpoint else endpoint
  }

  /** Both branches of the URL choice agree: the URL is always the base followed by the endpoint. */
  lemma RequestUrlIsConcatenation(baseURL: string, endpoint: string)
    ensures RequestUrl(baseURL, endpoint) == baseURL + endpoint
  {
    if baseURL == "" {
      assert baseURL + endpoint == endpoint;
    }
  }

  /** `sendChatMessage`: the earlier turns followed by the new user turn. */
  function ChatPayload(history: seq<Asi1Message>, userMessage: string): seq<Asi1Message> {
    history + [Asi1Message(User, userMessage)]
  }

  /** `response.content || 'No response received'`: never empty, the content whenever it has any. */
  function ReplyText(content: string): (r: string)
    ensures r != ""
    ensures content != "" ==> r == content
  {
    if content == "" then NoResponseText else content
  }

  /** A queued thunk. The requests it lists in `spawned` are queued (by later calls to
      `queueRequest`) while it is being awaited. Whether its call rejects makes no difference to
      the drain: the thunk catches that and rejects its own promise, so it never throws. */
  datatype Request = Request(id: nat, spawned: seq<Request>)

  function Size(r: Request): nat
    decreases r, 1
  {
    1 + SizeAll(r.spawned)
  }

  /** The number of requests in a queue, counting every request spawned from them. */
  function SizeAll(rs: seq<Request>): nat
    decreases rs, 0
  {
    if rs == [] then 0 else Size(rs[0]) + SizeAll(rs[1..])
  }

  lemma {:induction false} SizeAllConcat(a: seq<Request>, b: seq<Request>)
    ensures SizeAll(a + b) == SizeAll(a) + SizeAll(b)
    decreases |a|
  {
    if a == [] {
      assert a + b == b;
    } else {
      assert (a + b)[1..] == a[1..] + b;
      SizeAllConcat(a[1..], b);
    }
  }

  /** The order in which a drain runs a queue: the head first, its spawned requests joining
      the back of the queue. */
  function DrainOrder(q: seq<Request>): seq<Request>
    decreases SizeAll(q)
  {
    if q == [] then []
    else
      SizeAllConcat(q[1..], q[0].spawned);
      assert SizeAll(q) == 1 + SizeAll(q[0].spawned) + SizeAll(q[1..]);
      [q[0]] + DrainOrder(q[1..] + q[0].spawned)
  }

  /** All requests spawned by the members of a queue, in queue order. */
  function Children(q: seq<Request>): seq<Request> {
    if q == [] then [] else q[0].spawned + Children(q[1..])
  }

  // ----- the attempt loop -----

  /** Every call makes at least one and at most `maxRetries + 1` attempts. */
  lemma {:induction false} AttemptsBounded<T>(o: seq<FetchOutcome<T>>, k: nat, maxRetries: nat)
    requires k <= maxRetries < |o|
    ensures k + 1 <= AttemptFrom(o, k, maxRetries).1 <= maxRetries + 1
    decreases maxRetries - k
  {
    if Decisive(o[k]).None? && k < maxRetries {
      AttemptsBounded(o, k + 1, maxRetries);
    }
  }

  /** The first attempt that does not fail at the network level decides the call, and counts
      as the last attempt. */
  lemma {:induction false} FirstDecisiveAttemptDecides<T>(o: seq<FetchOutcome<T>>, k: nat, maxRetries: nat, j: nat)
    requires k <= j <= maxRetries < |o|
    requires forall i :: k <= i < j ==> NetworkClass(o[i])
    requires !NetworkClass(o[j])
    ensures AttemptFrom(o, k, maxRetries) == (Decisive(o[j]).value, j + 1)
    decreases j - k
  {
    if k < j {
      assert NetworkClass(o[k]);
      FirstDecisiveAttemptDecides(o, k + 1, maxRetries, j);
    }
  }

  /** When every allowed attempt fails at the network level, the call reports the backend as
      unreachable after exactly `maxRetries + 1` attempts. */
  lemma {:induction false} AllAttemptsUnreachable<T>(o: seq<FetchOutcome<T>>, k: nat, maxRetries: nat)
    requires k <= maxRetries < |o|
    requires forall i :: k <= i <= maxRetries ==> NetworkClass(o[i])
    ensures AttemptFrom(o, k, maxRetries) == (Err(ErrorValue(UnreachableMessage)), maxRetries + 1)
    decreases maxRetries - k
  {
    assert NetworkClass(o[k]);
    if k < maxRetries {
      AllAttemptsUnreachable(o, k + 1, maxRetries);
    }
  }

  /** An HTTP error response whose body is not `null` ends the call at once, with its status in
      the message. */
  lemma HttpErrorIsNotRetried<T>(o: seq<FetchOutcome<T>>)
    requires |o| > MaxRetries && o[0].HttpError? && !o[0].errorBody.NullBody?
    ensures AttemptFrom(o, 0, MaxRetries)
         == (Err(ErrorValue(ApiErrorMessage(o[0].status, o[0].statusText, o[0].errorBody))), 1)
    ensures Contains(ApiErrorMessage(o[0].status, o[0].statusText, o[0].errorBody), NatToString(o[0].status))
  {
    ApiErrorMessageCarriesStatus(o[0].status, o[0].statusText, o[0].errorBody);
  }

  /** The message of an HTTP error contains the decimal status. */
  lemma ApiErrorMessageCarriesStatus(status: nat, statusText: string, body: ErrorBody)
    ensures Contains(ApiErrorMessage(status, statusText, body), NatToString(status))
  {
    var digits := NatToString(status);
    var msg := ApiErrorMessage(status, statusText, body);
    var rest := " - " + ServerError(body).GetOr(statusText);
    assert msg == "API Error: " + digits + rest;
    assert msg[11..11 + |digits|] == digits;
    assert OccursAt(msg, digits, 11);
  }

  /** A network-class failure on the first attempt (a `null` error body among them) is retried
      once; a second one reports the backend as unreachable. */
  lemma NetworkFailureIsRetriedOnce<T>(o: seq<FetchOutcome<T>>)
    requires |o| > MaxRetries && NetworkClass(o[0])
    ensures NetworkClass(o[1]) ==> AttemptFrom(o, 0, MaxRetries) == (Err(ErrorValue(UnreachableMessage)), 2)
    ensures !NetworkClass(o[1]) ==> AttemptFrom(o, 0, MaxRetries) == (Decisive(o[1]).value, 2)
  {
    assert Decisive(o[0]).None?;
    assert AttemptFrom(o, 0, MaxRetries) == AttemptFrom(o, 1, MaxRetries);
    if NetworkClass(o[1]) {
      assert Decisive(o[1]).None?;
    } else {
      assert Decisive(o[1]).Some?;
    }
  }

  /** An empty or unparsable error body reads as `{}`, so the message ends with the status text,
      as it does when the `error` member is falsy; a truthy one is shown instead. */
  lemma EmptyErrorBodyUsesStatusText(status: nat, statusText: string, b: ErrorBody)
    requires b.EmptyBody? || b.UnparsableBody? || b == JsonBody(Falsy)
    ensures ApiErrorMessage(status, statusText, b) == "API Error: " + NatToString(status) + " - " + statusText
    ensures ApiErrorMessage(status, statusText, JsonBody(Truthy(statusText + "!"))) != ApiErrorMessage(status, statusText, b)
  {
    var m1 := ApiErrorMessage(status, statusText, b);
    var m2 := ApiErrorMessage(status, statusText, JsonBody(Truthy(statusText + "!")));
    assert |m2| == |m1| + 1;
  }

  // ----- the queue drain -----

  /** A drain runs the queue as it stands, then everything those requests spawned. */
  lemma {:induction false} DrainOrderLevels(q: seq<Request>, extra: seq<Request>)
    ensures DrainOrder(q + extra) == q + DrainOrder(extra + Children(q))
    decreases |q|
  {
    if q == [] {
      assert q + extra == extra;
      assert extra + Children(q) == extra;
    } else {
      var q0 := q[0];
      assert (q + extra)[0] == q0;
      assert (q + extra)[1..] + q0.spawned == q[1..] + (extra + q0.spawned);
      DrainOrderLevels(q[1..], extra + q0.spawned);
      assert extra + q0.spawned + Children(q[1..]) == extra + Children(q);
      assert [q0] + q[1..] == q;
    }
  }

  /** FIFO: the requests already queued run first, in queue order. */
  lemma DrainStartsWithQueue(q: seq<Request>)
    ensures q <= DrainOrder(q)
    ensures DrainOrder(q) == q + DrainOrder(Children(q))
  {
    DrainOrderLevels(q, []);
    assert q + [] == q;
    assert [] + Children(q) == Children(q);
  }

  /** Every request, queued or spawned, runs exactly once: the drain is as long as the queue's
      total size. */
  lemma {:induction false} DrainRunsEveryRequestOnce(q: seq<Request>)
    ensures |DrainOrder(q)| == SizeAll(q)
    decreases SizeAll(q)
  {
    if q != [] {
      SizeAllConcat(q[1..], q[0].spawned);
      assert SizeAll(q) == 1 + SizeAll(q[0].spawned) + SizeAll(q[1..]);
      DrainRunsEveryRequestOnce(q[1..] + q[0].spawned);
    }
  }

  class Asi1Client {
    const baseURL: string
    var requestQueue: seq<Request>
    var isProcessing: bool
    /** Every thunk that has run, in the order it ran. */
    var executed: seq<Request>

    constructor (configured: Option<string>)
      ensures baseURL == BaseUrlFrom(configured)
      ensures requestQueue == [] && !isProcessing && executed == []
    {
      baseURL := BaseUrlFrom(configured);
      requestQueue := [];
      isProcessing := false;
      executed := [];
    }

    /** `call`: up to `MaxRetries + 1` attempts; only a network-class failure before the last
        attempt is retried. `outcomes[k]` is what the k-th attempt's fetch yields. */
    method Call<T>(endpoint: string, outcomes: seq<FetchOutcome<T>>)
      returns (url: string, r: Result<T, Thrown>, attempts: nat)
      requires |outcomes| > MaxRetries
      ensures url == RequestUrl(baseURL, endpoint)
      ensures (r, attempts) == AttemptFrom(outcomes, 0, MaxRetries)
    {
      url := if baseURL != "" then baseURL + endpoint else endpoint;
      var attempt: nat := 0;
      while attempt <= MaxRetries
        invariant attempt <= MaxRetries
        invariant AttemptFrom(outcomes, attempt, MaxRetries) == AttemptFrom(outcomes, 0, MaxRetries)
        decreases MaxRetries - attempt
      {
        match outcomes[attempt] {
          case Success(body) =>
            r, attempts := Ok(body), attempt + 1;
            return;
          case MalformedBody(m) =>
            r, attempts := Err(ErrorValue(m)), attempt + 1;
            return;
          case HttpError(status, statusText, errorBody) =>
            // reading `error` off a `null` body throws a TypeError: a network-class failure
            if !errorBody.NullBody? {
              r, attempts := Err(ErrorValue(ApiErrorMessage(status, statusText, errorBody))), attempt + 1;
              return;
            }
          case NetworkError =>
        }
        var canRetry := attempt < MaxRetries;
        if canRetry {
          attempt := attempt + 1;
          continue;
        }
        r, attempts := Err(ErrorValue(UnreachableMessage)), attempt + 1;
        return;
      }
      assert false;
      r, attempts := Err(ErrorValue(UnexpectedFailureMessage)), attempt;
    }

    /** The thunk `generateStory` queues: one `call` of the generation endpoint, posting the
        request's five fields. */
    method GenerateStory(request: StoryGenerationRequest, outcomes: seq<FetchOutcome<StoryGenerationResponse>>)
      returns (url: string, sent: StoryGenerationRequest, r: Result<StoryGenerationResponse, Thrown>, attempts: nat)
      requires |outcomes| > MaxRetries
      ensures url == baseURL + GenerateEndpoint && sent == request
      ensures (r, attempts) == AttemptFrom(outcomes, 0, MaxRetries)
      ensures 1 <= attempts <= MaxRetries + 1
    {
      sent := StoryGenerationRequest(request.prompt, request.genre, request.tone, request.length, request.themes);
      url, r, attempts := Call(GenerateEndpoint, outcomes);
      RequestUrlIsConcatenation(baseURL, GenerateEndpoint);
      AttemptsBounded(outcomes, 0, MaxRetries);
    }

    /** The thunk `sendChatMessage` queues: the history and the new turn go to the chat
        endpoint; an empty reply reads as "No response received". */
    method SendChatMessage(userMessage: string, history: seq<Asi1Message>, outcomes: seq<FetchOutcome<string>>)
      returns (sent: seq<Asi1Message>, r: Result<string, Thrown>)
      requires |outcomes| > MaxRetries
      ensures sent == history + [Asi1Message(User, userMessage)]
      ensures r.Ok? <==> AttemptFrom(outcomes, 0, MaxRetries).0.Ok?
      ensures r.Ok? ==> r.value == ReplyText(AttemptFrom(outcomes, 0, MaxRetries).0.value)
      ensures r.Err? ==> r == AttemptFrom(outcomes, 0, MaxRetries).0
    {
      sent := ChatPayload(history, userMessage);
      var url, reply, attempts := Call(ChatEndpoint, outcomes);
      if reply.Ok? {
        r := Ok(ReplyText(reply.value));
      } else {
        r := reply;
      }
    }

    /** `queueRequest`: push the thunk, then start a drain (a no-op while one is running). */
    method QueueRequest(req: Request)
      modifies this
      decreases if isProcessing then 0 else 1, 2
      ensures old(isProcessing) ==> isProcessing && requestQueue == old(requestQueue) + [req] && executed == old(executed)
      ensures !old(isProcessing) ==>
        !isProcessing && requestQueue == [] && executed == old(executed) + DrainOrder(old(requestQueue) + [req])
    {
      requestQueue := requestQueue + [req];
      ProcessQueue();
    }

    /** `processQueue`: unless a drain is already running or nothing is queued, run the queued
        thunks one at a time, oldest first, until the queue is empty. */
    method ProcessQueue()
      modifies this
      decreases if isProcessing then 0 else 1, 1
      ensures old(isProcessing) ==> isProcessing && requestQueue == old(requestQueue) && executed == old(executed)
      ensures !old(isProcessing) ==>
        !isProcessing && requestQueue == [] && executed == old(executed) + DrainOrder(old(requestQueue))
    {
      if isProcessing || |requestQueue| == 0 {
        return;
      }
      isProcessing := true;
      while |requestQueue| > 0
        invariant isProcessing
        invariant executed + DrainOrder(requestQueue) == old(executed) + DrainOrder(old(requestQueue))
        decreases SizeAll(requestQueue)
      {
        var request := requestQueue[0];
        ghost var before := requestQueue;
        requestQueue := requestQueue[1..];
        // await request(): the thunk settles its own promise and never throws
        executed := executed + [request];
        ghost var ran := executed;
        // requests queued while it was awaited: each queueRequest finds a drain running
        var i := 0;
        while i < |request.spawned|
          invariant 0 <= i <= |request.spawned|
          invariant isProcessing
          invariant requestQueue == before[1..] + request.spawned[..i]
          invariant executed == ran
        {
          QueueRequest(request.spawned[i]);
          i := i + 1;
        }
        assert request.spawned[..i] == request.spawned;
        SizeAllConcat(before[1..], request.spawned);
        assert SizeAll(before) == 1 + SizeAll(request.spawned) + SizeAll(before[1..]);
      }
      isProcessing := false;
    }
  }
}
