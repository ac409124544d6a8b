/**
  The Express backend: the four `/api/stories` history handlers over a story collection, and
  the decisions of `/api/stories/generate`. The Mongo collection is a sequence of records
  held by a `StoryStore` object together with its connection flag; fresh ids, timestamps and
  the upstream completion's outcome are parameters.
*/
module BackendProxy {
  import opened Wrappers
  import opened Text
  import opened Lists

  /** The JavaScript values a request field can hold, as far as the handlers look at them. */
  datatype JsValue = Undefined | Null | Str(s: string) | Other(truthy: bool)

  /** JavaScript truthiness. */
  predicate Truthy(v: JsValue) {
    match v
    case Undefined => false
    case Null => false
    case Str(s) => s != ""
    case Other(t) => t
  }

  /** The `??` operator: the right operand only when the left one is `undefined` or `null`. */
  function Nullish(a: JsValue, b: JsValue): (r: JsValue)
    ensures !(a.Undefined? || a.Null?) ==> r == a
    ensures a.Undefined? || a.Null? ==> r == b
  {
    if a.Undefined? || a.Null? then b else a
  }

  /** The JSON body fields the history handlers read. */
  datatype Body = Body(userId: JsValue, options: JsValue, content: JsValue, snippet: JsValue)

  /** `req.body?.userId`. */
  function BodyUserId(body: Option<Body>): JsValue {
    if body.Some? then body.value.userId else Undefined
  }

  /** `req.body ?? {}`. */
  function BodyOrEmpty(body: Option<Body>): Body {
    body.GetOr(Body(Undefined, Undefined, Undefined, Undefined))
  }

  // ----- replies -----

  /** What `toStoryResponse` sends for a record: everything but the owner. */
  datatype StoryResponse = StoryResponse(id: string, createdAt: int, options: JsValue, content: string, snippet: string)

  datatype Reply =
    | ErrorReply(status: nat, error: string, details: Option<string>)
    | StoriesReply(stories: seq<StoryResponse>)
    | CreatedReply(story: StoryResponse)
    | NoContentReply
    | GeneratedReply(storyText: string, title: string)

  function Status(r: Reply): nat {
    match r
    case ErrorReply(s, _, _) => s
    case StoriesReply(_) => 200
    case CreatedReply(_) => 201
    case NoContentReply => 204
    case GeneratedReply(_, _) => 200
  }

  const NotConnectedError: string := "MongoDB is not connected"
  const UserIdRequiredError: string := "userId is required"
  const StoryFieldsRequiredError: string := "options, content, and snippet are required"
  const IdRequiredError: string := "id is required"
  const NotFoundError: string := "Story not found"
  const MissingKeyError: string := "ASI1_API_KEY not configured on backend"
  const GenerationFailedError: string := "Failed to generate story"
  const HistoryLimit: nat := 50

  function NotConnectedReply(): Reply {
    ErrorReply(503, NotConnectedError, None)
  }

  /** `requireUserId`: the query's `userId`, else the body's; trimmed; a 400 when it is not a
      string or is blank. */
  function RequireUserId(query: JsValue, body: Option<Body>): (r: Result<string, Reply>)
    ensures var raw := Nullish(query, BodyUserId(body));
      r.Ok? <==> raw.Str? && !AllSpace(raw.s)
    ensures r.Ok? ==> r.value == Trim(Nullish(query, BodyUserId(body)).s)
    ensures r.Ok? ==> r.value != "" && !IsSpace(r.value[0]) && !IsSpace(r.value[|r.value| - 1])
    ensures r.Err? ==> r.error == ErrorReply(400, UserIdRequiredError, None)
  {
    var raw := Nullish(query, BodyUserId(body));
    var userId := if raw.Str? then Trim(raw.s) else "";
    if userId == "" then Err(ErrorReply(400, UserIdRequiredError, None)) else Ok(userId)
  }

  /** A `userId` given in the query decides alone, even when it is blank and the body has one. */
  lemma QueryUserIdWins(query: JsValue, b1: Option<Body>, b2: Option<Body>)
    requires !(query.Undefined? || query.Null?)
    ensures RequireUserId(query, b1) == RequireUserId(query, b2)
  {
  }

  // ----- the collection -----

  /** A stored story document; `createdAt` is its creation time. */
  datatype StoryRecord = StoryRecord(id: string, userId: string, createdAt: int, options: JsValue, content: string, snippet: string)

  /** `toStoryResponse`. */
  function ToStoryResponse(d: StoryRecord): StoryResponse {
    StoryResponse(d.id, d.createdAt, d.options, d.content, d.snippet)
  }

  /** The response drops only the owner: two records of one user with the same response are
      the same record. */
  lemma ResponseDeterminesOwnedRecord(a: StoryRecord, b: StoryRecord)
    requires a.userId == b.userId && ToStoryResponse(a) == ToStoryResponse(b)
    ensures a == b
  {
  }

  function Responses(rs: seq<StoryRecord>): (r: seq<StoryResponse>)
    ensures |r| == |rs|
    ensures forall i :: 0 <= i < |rs| ==> r[i] == ToStoryResponse(rs[i])
  {
    if rs == [] then [] else [ToStoryResponse(rs[0])] + Responses(rs[1..])
  }

  /** `find({ userId })`: that user's records, in collection order. */
  function Owned(rs: seq<StoryRecord>, userId: string): (r: seq<StoryRecord>)
    ensures forall i :: 0 <= i < |r| ==> r[i].userId == userId
    ensures IsSubsequence(r, rs)
  {
    if rs == [] then []
    else
      var rest := Owned(rs[1..], userId);
      if rs[0].userId == userId then
        assert ([rs[0]] + rest)[1..] == rest;
        [rs[0]] + rest
      else
        SubsequenceCons(rest, rs);
        rest
  }

  /** `deleteMany({ userId })`: every other user's records, in collection order. */
  function Disowned(rs: seq<StoryRecord>, userId: string): (r: seq<StoryRecord>)
    ensures forall i :: 0 <= i < |r| ==> r[i].userId != userId
    ensures IsSubsequence(r, rs)
  {
    if rs == [] then []
    else
      var rest := Disowned(rs[1..], userId);
      if rs[0].userId != userId then
        assert ([rs[0]] + rest)[1..] == rest;
        [rs[0]] + rest
      else
        SubsequenceCons(rest, rs);
        rest
  }

  /** Clearing one user's history leaves that user nothing and every other user everything. */
  lemma {:induction false} ClearIsScopedToOwner(rs: seq<StoryRecord>, userId: string, other: string)
    ensures Owned(Disowned(rs, userId), userId) == []
    ensures other != userId ==> Owned(Disowned(rs, userId), other) == Owned(rs, other)
  {
    if rs != [] {
      ClearIsScopedToOwner(rs[1..], userId, other);
    }
  }

  /** Record `x` is kept by the filter exactly as often as it occurs, if it is the user's. */
  lemma {:induction false} OwnedCounts(rs: seq<StoryRecord>, userId: string, x: StoryRecord)
    ensures multiset(Owned(rs, userId))[x] == if x.userId == userId then multiset(rs)[x] else 0
  {
    if rs != [] {
      OwnedCounts(rs[1..], userId, x);
      assert rs == [rs[0]] + rs[1..];
      assert multiset(rs) == multiset{rs[0]} + multiset(rs[1..]);
    }
  }

  predicate NewestFirst(rs: seq<StoryRecord>) {
    forall i, j :: 0 <= i < j < |rs| ==> rs[i].createdAt >= rs[j].createdAt
  }

  /** A record no older than the head of a newest-first list can go in front of it. */
  lemma ConsNewestFirst(a: StoryRecord, rest: seq<StoryRecord>)
    requires NewestFirst(rest)
    requires rest != [] ==> a.createdAt >= rest[0].createdAt
    ensures NewestFirst([a] + rest)
  {
    var r := [a] + rest;
    forall i, j | 0 <= i < j < |r|
      ensures r[i].createdAt >= r[j].createdAt
    {
      assert r[j] == rest[j - 1];
      if i > 0 {
        assert r[i] == rest[i - 1];
      } else if j > 1 {
        assert rest[0].createdAt >= rest[j - 1].createdAt;
      }
    }
  }

  function InsertByDate(x: StoryRecord, rs: seq<StoryRecord>): (r: seq<StoryRecord>)
    requires NewestFirst(rs)
    ensures NewestFirst(r)
    ensures multiset(r) == multiset(rs) + multiset{x}
    ensures r != [] && (r[0] == x || (rs != [] && r[0] == rs[0]))
  {
    if rs == [] || x.createdAt >= rs[0].createdAt then
      ConsNewestFirst(x, rs);
      [x] + rs
    else
      assert rs == [rs[0]] + rs[1..];
      var rest := InsertByDate(x, rs[1..]);
      ConsNewestFirst(rs[0], rest);
      [rs[0]] + rest
  }

  /** `sort({ createdAt: -1 })`. */
  function SortNewestFirst(rs: seq<StoryRecord>): (r: seq<StoryRecord>)
    ensures NewestFirst(r)
    ensures multiset(r) == multiset(rs)
  {
    if rs == [] then []
    else
      assert rs == [rs[0]] + rs[1..];
      InsertByDate(rs[0], SortNewestFirst(rs[1..]))
  }

  /** What GET lists: the user's records, newest first, at most 50. */
  function Listing(rs: seq<StoryRecord>, userId: string): seq<StoryRecord> {
    var sorted := SortNewestFirst(Owned(rs, userId));
    sorted[..Min(|sorted|, HistoryLimit)]
  }

  /** The first `k` of a newest-first list are drawn from it, and nothing left out is newer
      than the last one kept. */
  lemma CutKeepsNewest(s: seq<StoryRecord>, k: nat)
    requires NewestFirst(s) && 0 < k <= |s|
    ensures multiset(s[..k]) <= multiset(s)
    ensures forall x :: x in multiset(s) - multiset(s[..k]) ==> x.createdAt <= s[k - 1].createdAt
  {
    var l, rest := s[..k], s[k..];
    assert s == l + rest;
    assert multiset(s) == multiset(l) + multiset(rest);
    assert multiset(s) - multiset(l) == multiset(rest);
    forall x: StoryRecord | x in multiset(rest)
      ensures x.createdAt <= s[k - 1].createdAt
    {
      var j :| 0 <= j < |rest| && rest[j] == x;
      assert x == s[k + j];
    }
  }

  /** A prefix of a newest-first list is newest first. */
  lemma PrefixNewestFirst(s: seq<StoryRecord>, k: nat)
    requires NewestFirst(s) && k <= |s|
    ensures NewestFirst(s[..k])
  {
    var l := s[..k];
    forall i, j | 0 <= i < j < |l|
      ensures l[i].createdAt >= l[j].createdAt
    {
      assert l[i] == s[i] && l[j] == s[j];
    }
  }

  /** Every record drawn from the user's sorted records is the user's and in the collection. */
  lemma SortedOwnedRecords(rs: seq<StoryRecord>, userId: string, k: nat)
    requires k <= |SortNewestFirst(Owned(rs, userId))|
    ensures var l := SortNewestFirst(Owned(rs, userId))[..k];
      forall i :: 0 <= i < |l| ==> l[i].userId == userId && l[i] in rs
  {
    var owned := Owned(rs, userId);
    var sorted := SortNewestFirst(owned);
    var l := sorted[..k];
    forall i | 0 <= i < |l|
      ensures l[i].userId == userId && l[i] in rs
    {
      assert l[i] == sorted[i];
      assert l[i] in multiset(sorted);
      assert l[i] in multiset(owned);
      OwnedCounts(rs, userId, l[i]);
    }
  }

  /** The first `min(|s|, 50)` of a newest-first arrangement of `owned`: as many as that, drawn
      from `owned`, all of it when it has at most 50, and nothing left out newer than the last. */
  lemma NewestCut(owned: seq<StoryRecord>, sorted: seq<StoryRecord>)
    requires NewestFirst(sorted) && multiset(sorted) == multiset(owned)
    ensures var l := sorted[..Min(|sorted|, HistoryLimit)];
      && |l| == Min(|owned|, HistoryLimit)
      && NewestFirst(l)
      && multiset(l) <= multiset(owned)
      && (|owned| <= HistoryLimit ==> multiset(l) == multiset(owned))
      && (forall x :: x in multiset(owned) - multiset(l) ==> l != [] && x.createdAt <= l[|l| - 1].createdAt)
  {
    assert |sorted| == |owned| by {
      assert |multiset(sorted)| == |multiset(owned)|;
    }
    var k := Min(|sorted|, HistoryLimit);
    var l := sorted[..k];
    PrefixNewestFirst(sorted, k);
    if k == 0 {
      assert multiset(owned) == multiset{};
    } else {
      CutKeepsNewest(sorted, k);
      assert l[|l| - 1] == sorted[k - 1];
    }
    if |owned| <= HistoryLimit {
      assert l == sorted;
    }
  }

  /** A listing holds the user's own records, newest first, each taken from the collection:
      all of them when there are at most 50, else 50 of them with no record left out newer than
      the last one listed. */
  lemma ListingShape(rs: seq<StoryRecord>, userId: string)
    ensures var l := Listing(rs, userId); var owned := Owned(rs, userId);
      && |l| == Min(|owned|, HistoryLimit)
      && NewestFirst(l)
      && (forall i :: 0 <= i < |l| ==> l[i].userId == userId && l[i] in rs)
      && multiset(l) <= multiset(owned)
      && (|owned| <= HistoryLimit ==> multiset(l) == multiset(owned))
      && (forall x :: x in multiset(owned) - multiset(l) ==> l != [] && x.createdAt <= l[|l| - 1].createdAt)
  {
    var owned := Owned(rs, userId);
    var sorted := SortNewestFirst(owned);
    NewestCut(owned, sorted);
    SortedOwnedRecords(rs, userId, Min(|sorted|, HistoryLimit));
  }

  /** `findOneAndDelete({ _id: id, userId })` looks for the first record with both. */
  function FindOwned(rs: seq<StoryRecord>, id: string, userId: string): (r: Option<nat>)
    ensures r.Some? ==> r.value < |rs| && rs[r.value].id == id && rs[r.value].userId == userId
    ensures r.Some? ==> forall i :: 0 <= i < r.value ==> !(rs[i].id == id && rs[i].userId == userId)
    ensures r.None? ==> forall i :: 0 <= i < |rs| ==> !(rs[i].id == id && rs[i].userId == userId)
  {
    if rs == [] then None
    else if rs[0].id == id && rs[0].userId == userId then Some(0)
    else
      match FindOwned(rs[1..], id, userId)
      case None => None
      case Some(k) =>
        assert forall i :: 1 <= i < k + 1 ==> rs[i] == rs[1..][i - 1];
        Some(k + 1)
  }

  predicate UniqueIds(rs: seq<StoryRecord>) {
    forall i, j :: 0 <= i < j < |rs| ==> rs[i].id != rs[j].id
  }

  /** Deleting the matching record at `k` removes that story and touches no other user's
      records; with unique ids no record with that id is left. */
  lemma {:induction false} DeleteIsScopedToOwner(rs: seq<StoryRecord>, k: nat, other: string)
    requires k < |rs| && other != rs[k].userId
    ensures Owned(rs[..k] + rs[k + 1..], other) == Owned(rs, other)
    decreases k
  {
    if k == 0 {
      assert rs[..0] + rs[1..] == rs[1..];
    } else {
      var rest := rs[1..];
      assert (rs[..k] + rs[k + 1..])[1..] == rest[..k - 1] + rest[k..];
      assert (rs[..k] + rs[k + 1..])[0] == rs[0];
      DeleteIsScopedToOwner(rest, k - 1, other);
    }
  }

  lemma DeletedIdIsGone(rs: seq<StoryRecord>, k: nat)
    requires k < |rs| && UniqueIds(rs)
    ensures forall d :: d in rs[..k] + rs[k + 1..] ==> d.id != rs[k].id
  {
    var rest := rs[..k] + rs[k + 1..];
    forall d | d in rest
      ensures d.id != rs[k].id
    {
      var i :| 0 <= i < |rest| && rest[i] == d;
      if i < k {
        assert rest[i] == rs[i];
      } else {
        assert rest[i] == rs[i + 1];
      }
    }
  }

  class StoryStore {
    var connected: bool
    var records: seq<StoryRecord>

    constructor (connected: bool, records: seq<StoryRecord>)
      ensures this.connected == connected && this.records == records
    {
      this.connected := connected;
      this.records := records;
    }

    /** GET /api/stories. */
    method ListStories(query: JsValue, body: Option<Body>) returns (reply: Reply)
      ensures !connected ==> reply == NotConnectedReply()
      ensures connected && RequireUserId(query, body).Err? ==> reply == RequireUserId(query, body).error
      ensures connected && RequireUserId(query, body).Ok? ==>
        reply == StoriesReply(Responses(Listing(records, RequireUserId(query, body).value)))
    {
      if !connected {
        return NotConnectedReply();
      }
      var userId := RequireUserId(query, body);
      if userId.Err? {
        return userId.error;
      }
      reply := StoriesReply(Responses(Listing(records, userId.value)));
    }

    /** POST /api/stories: create one record for the user from the body's fields. */
    method CreateStory(query: JsValue, body: Option<Body>, freshId: string, now: int) returns (reply: Reply)
      modifies this
      ensures connected == old(connected)
      ensures !connected ==> reply == NotConnectedReply() && records == old(records)
      ensures connected && RequireUserId(query, body).Err? ==>
        reply == RequireUserId(query, body).error && records == old(records)
      ensures var b := BodyOrEmpty(body);
        connected && RequireUserId(query, body).Ok? && !(Truthy(b.options) && b.content.Str? && b.snippet.Str?) ==>
          reply == ErrorReply(400, StoryFieldsRequiredError, None) && records == old(records)
      ensures var b := BodyOrEmpty(body);
        connected && RequireUserId(query, body).Ok? && Truthy(b.options) && b.content.Str? && b.snippet.Str? ==>
          var created := StoryRecord(freshId, RequireUserId(query, body).value, now, b.options, b.content.s, b.snippet.s);
          records == old(records) + [created] && reply == CreatedReply(ToStoryResponse(created)) && Status(reply) == 201
    {
      if !connected {
        return NotConnectedReply();
      }
      var userId := RequireUserId(query, body);
      if userId.Err? {
        return userId.error;
      }
      var b := BodyOrEmpty(body);
      if !Truthy(b.options) || !b.content.Str? || !b.snippet.Str? {
        return ErrorReply(400, StoryFieldsRequiredError, None);
      }
      var created := StoryRecord(freshId, userId.value, now, b.options, b.content.s, b.snippet.s);
      records := records + [created];
      reply := CreatedReply(ToStoryResponse(created));
    }

    /** DELETE /api/stories/:id: remove the user's record with that id. */
    method DeleteStory(query: JsValue, body: Option<Body>, id: string) returns (reply: Reply)
      modifies this
      ensures connected == old(connected)
      ensures !connected ==> reply == NotConnectedReply() && records == old(records)
      ensures connected && RequireUserId(query, body).Err? ==>
        reply == RequireUserId(query, body).error && records == old(records)
      ensures connected && RequireUserId(query, body).Ok? && id == "" ==>
        reply == ErrorReply(400, IdRequiredError, None) && records == old(records)
      ensures connected && RequireUserId(query, body).Ok? && id != "" ==>
        match FindOwned(old(records), id, RequireUserId(query, body).value)
        case None => reply == ErrorReply(404, NotFoundError, None) && records == old(records)
        case Some(k) => reply == NoContentReply && records == old(records)[..k] + old(records)[k + 1..]
    {
      if !connected {
        return NotConnectedReply();
      }
      var userId := RequireUserId(query, body);
      if userId.Err? {
        return userId.error;
      }
      if id == "" {
        return ErrorReply(400, IdRequiredError, None);
      }
      reply := DeleteOwned(id, userId.value);
    }

    /** The `findOneAndDelete` step of DELETE /api/stories/:id for a checked id and user. */
    method DeleteOwned(id: string, userId: string) returns (reply: Reply)
      modifies this
      ensures connected == old(connected)
      ensures match FindOwned(old(records), id, userId)
        case None => reply == ErrorReply(404, NotFoundError, None) && records == old(records)
        case Some(k) => reply == NoContentReply && records == old(records)[..k] + old(records)[k + 1..]
    {
      var found := FindOwned(records, id, userId);
      if found.None? {
        return ErrorReply(404, NotFoundError, None);
      }
      records := records[..found.value] + records[found.value + 1..];
      reply := NoContentReply;
    }

    /** DELETE /api/stories: remove all of the user's records; 204 even when there were none. */
    method ClearStories(query: JsValue, body: Option<Body>) returns (reply: Reply)
      modifies this
      ensures connected == old(connected)
      ensures !connected ==> reply == NotConnectedReply() && records == old(records)
      ensures connected && RequireUserId(query, body).Err? ==>
        reply == RequireUserId(query, body).error && records == old(records)
      ensures connected && RequireUserId(query, body).Ok? ==>
        reply == NoContentReply && records == Disowned(old(records), RequireUserId(query, body).value)
    {
      if !connected {
        return NotConnectedReply();
      }
      var userId := RequireUserId(query, body);
      if userId.Err? {
        return userId.error;
      }
      records := Disowned(records, userId.value);
      reply := NoContentReply;
    }
  }

  // ----- story generation -----

  /** The fields of a generation request body. */
  datatype GenerateBody = GenerateBody(prompt: string, genre: string, tone: string, length: string, themes: Option<seq<string>>)

  /** The completion request sent upstream. */
  datatype CompletionRequest = CompletionRequest(systemPrompt: string, userPrompt: string, maxTokens: nat)

  /** What the upstream completion call produced: an OK reply (with its first choice's message
      content, when it has one), an error status with its body text, or a thrown error. */
  datatype Upstream = UpstreamOk(content: Option<string>) | UpstreamFailed(status: nat, text: string) | UpstreamThrew(e: Thrown)

  /** The completion budget per requested length. */
  function MaxTokens(length: string): (n: nat)
    ensures length == "short" ==> n == 500
    ensures length == "medium" ==> n == 1500
    ensures length != "short" && length != "medium" ==> n == 3000
    ensures 500 <= n <= 3000
  {
    if length == "short" then 500 else if length == "medium" then 1500 else 3000
  }

  function SystemPrompt(b: GenerateBody): string {
    "You are a creative story writer. Generate a " + b.length + " story in " + b.genre + " genre with a "
      + b.tone + " tone."
      + (if b.themes.Some? then " Include these themes: " + Join(b.themes.value, ", ") else "")
      + " Format: Start with a compelling title on the first line, then the story."
  }

  function CompletionFor(b: GenerateBody): (r: CompletionRequest)
    ensures r.maxTokens == MaxTokens(b.length)
    ensures r.userPrompt == "Story prompt: " + b.prompt
  {
    CompletionRequest(SystemPrompt(b), "Story prompt: " + b.prompt, MaxTokens(b.length))
  }

  function DropHashes(s: string): string {
    if s != [] && s[0] == '#' then DropHashes(s[1..]) else s
  }

  /** `DropHashes` removes exactly the leading run of '#': what it keeps is the end of the
      input and does not start with '#', and everything before it is '#'. */
  lemma {:induction false} DropHashesShape(s: string)
    ensures var r := DropHashes(s);
      && |r| <= |s| && r == s[|s| - |r|..]
      && (r == [] || r[0] != '#')
      && (forall i :: 0 <= i < |s| - |r| ==> s[i] == '#')
    decreases |s|
  {
    if s != [] && s[0] == '#' {
      var r := DropHashes(s[1..]);
      DropHashesShape(s[1..]);
      SliceOfSuffix(s, 1, |s| - 1 - |r|);
      forall i | 0 < i < |s| - |r|
        ensures s[i] == '#'
      {
        assert s[i] == s[1..][i - 1];
      }
    }
  }

  /** `replace(/^#+\s*\/, '')`: a leading run of '#' and the whitespace after it removed. */
  function StripHeading(line: string): (r: string)
    ensures |r| <= |line|
    ensures line == [] || line[0] != '#' ==> r == line
    ensures line != [] && line[0] == '#' ==> |r| < |line| && (r == [] || !IsSpace(r[0]))
  {
    if line != [] && line[0] == '#' then
      var d := DropHashes(line);
      assert d == DropHashes(line[1..]);
      DropHashesShape(line[1..]);
      TrimStart(d)
    else line
  }

  /** What `StripHeading` keeps is the end of the line. */
  lemma StripHeadingIsSuffix(line: string)
    ensures StripHeading(line) == line[|line| - |StripHeading(line)|..]
  {
    if line != [] && line[0] == '#' {
      var d := DropHashes(line);
      DropHashesShape(line);
      TrimStartIsSuffix(d);
      SliceOfSuffix(line, |line| - |d|, |d| - |TrimStart(d)|);
    }
  }

  /** On a heading line exactly `^#+\s*` goes: the removed prefix is the whole leading run of
      '#' followed by whitespace only. */
  lemma StripHeadingShape(line: string)
    requires line != [] && line[0] == '#'
    ensures var r := StripHeading(line); var k := |line| - |DropHashes(line)|;
      && 1 <= k <= |line| - |r|
      && (forall i :: 0 <= i < k ==> line[i] == '#')
      && (k < |line| ==> line[k] != '#')
      && AllSpace(line[k..|line| - |r|])
  {
    assert StripHeading(line) == TrimStart(DropHashes(line));
    SpaceAfterHashes(line);
    DropHashesShape(line);
  }

  /** On a heading line at least one '#' goes, and `TrimStart` then removes only whitespace. */
  lemma SpaceAfterHashes(line: string)
    requires line != [] && line[0] == '#'
    ensures var d := DropHashes(line); var r := TrimStart(d);
      |d| < |line| && AllSpace(line[|line| - |d|..|line| - |r|])
  {
    var d := DropHashes(line);
    var r := TrimStart(d);
    assert d == DropHashes(line[1..]);
    DropHashesShape(line[1..]);
    DropHashesShape(line);
    SliceOfSuffix(line, |line| - |d|, |d| - |r|);
    assert AllSpace(d[..|d| - |r|]);
  }

  /** A run of '#' in front of text that does not start with '#' is all `DropHashes` removes. */
  lemma {:induction false} DropHashesAfterRun(h: string, x: string)
    requires forall i :: 0 <= i < |h| ==> h[i] == '#'
    requires x == [] || x[0] != '#'
    ensures DropHashes(h + x) == x
    decreases |h|
  {
    if h == [] {
      assert h + x == x;
    } else {
      assert (h + x)[0] == '#';
      assert (h + x)[1..] == h[1..] + x;
      DropHashesAfterRun(h[1..], x);
    }
  }

  /** A heading line `#…# title` gives back the title: the hashes and the whitespace after them
      go, and so does nothing else. */
  lemma HeadingStripped(h: string, w: string, t: string)
    requires h != [] && forall i :: 0 <= i < |h| ==> h[i] == '#'
    requires AllSpace(w)
    requires t == [] || !IsSpace(t[0])
    requires w == [] ==> t == [] || t[0] != '#'
    ensures StripHeading(h + w + t) == t
  {
    assert h + w + t == h + (w + t);
    assert (h + (w + t))[0] == '#';
    DropHashesAfterRun(h, w + t);
    TrimStartAfterRun(w, t);
  }

  /** A markdown heading marker in front of a title is removed. */
  lemma HeadingMarkerDropped(t: string)
    requires t != [] && t[0] != '#' && !IsSpace(t[0])
    ensures StripHeading("# " + t) == t
  {
    MarkerHashDropped(t);
    MarkerSpaceDropped(t);
  }

  lemma MarkerHashDropped(t: string)
    ensures DropHashes("# " + t) == " " + t
  {
    var h := "# " + t;
    assert h[0] == '#' && h[1..] == " " + t;
  }

  lemma MarkerSpaceDropped(t: string)
    requires t == [] || !IsSpace(t[0])
    ensures TrimStart(" " + t) == t
  {
    var rest := " " + t;
    assert IsSpace(rest[0]) && rest[1..] == t;
  }

  lemma SuffixKeepsAbsence(s: string, r: string, c: char)
    requires |r| <= |s| && r == s[|s| - |r|..] && c !in s
    ensures c !in r
  {
  }

  const UntitledTitle: string := "Untitled Story"

  lemma UntitledTitleIsOneLine()
    ensures UntitledTitle != "" && '\n' !in UntitledTitle
  {
    var t := UntitledTitle;
    forall i | 0 <= i < |t| ensures t[i] != '\n' {
      assert t[i] == ' ' || 'A' <= t[i] <= 'z';
    }
  }

  /** `lines[0]?.replace(/^#+\s*\/, '') || 'Untitled Story'`. */
  function TitleLine(line: string): (r: string)
    requires '\n' !in line
    ensures r != "" && '\n' !in r
  {
    var heading := StripHeading(line);
    StripHeadingIsSuffix(line);
    SuffixKeepsAbsence(line, heading, '\n');
    UntitledTitleIsOneLine();
    if heading == "" then UntitledTitle else heading
  }

  /** The title line and the story of a completion. */
  function ParseCompletion(content: string): (r: (string, string))
    ensures r.0 != "" && '\n' !in r.0
  {
    var lines := Split(content, '\n');
    (TitleLine(lines[0]), Trim(Join(lines[1..], "\n")))
  }

  /** The completion splits at its first line break: the title comes from the first line alone
      and the story is the rest of the text, trimmed; with no line break the story is empty. */
  lemma ParseCompletionAtFirstLine(line: string, rest: string)
    requires '\n' !in line
    ensures ParseCompletion(line + "\n" + rest) == (TitleLine(line), Trim(rest))
    ensures ParseCompletion(line) == (TitleLine(line), "")
  {
    var c := line + "\n" + rest;
    assert c == line + ("\n" + rest);
    SplitAfterPiece(line, "\n" + rest, '\n');
    assert ("\n" + rest)[1..] == rest;
    assert Split("\n" + rest, '\n') == [""] + Split(rest, '\n');
    assert line + "" == line;
    assert Split(c, '\n') == [line] + Split(rest, '\n');
    assert Split(c, '\n')[1..] == Split(rest, '\n');
    JoinSplit(rest, '\n');
    SplitAfterPiece(line, "", '\n');
    assert line + "" == line;
    assert Split(line, '\n') == [line];
  }

  /** A markdown heading title `#…# title` on the first line gives back the bare title, or
      "Untitled Story" when the heading is only the marker. */
  lemma HeadingTitleRoundTrip(h: string, w: string, t: string, s: string)
    requires h != [] && forall i :: 0 <= i < |h| ==> h[i] == '#'
    requires AllSpace(w) && '\n' !in w
    requires '\n' !in t && (t == [] || !IsSpace(t[0]))
    requires w == [] ==> t == [] || t[0] != '#'
    ensures ParseCompletion(h + w + t + "\n" + s) == (if t == [] then UntitledTitle else t, Trim(s))
  {
    var line := h + w + t;
    assert '\n' !in line by {
      forall i | 0 <= i < |line| ensures line[i] != '\n' {
        if i < |h| {
          assert line[i] == h[i];
        } else if i < |h| + |w| {
          assert line[i] == w[i - |h|];
        } else {
          assert line[i] == t[i - |h| - |w|];
        }
      }
    }
    HeadingStripped(h, w, t);
    ParseCompletionAtFirstLine(line, s);
  }

  /** A completion that puts a plain title on its first line gives back that title and the
      rest of the text, trimmed, as the story. */
  lemma ParseCompletionRoundTrip(t: string, s: string)
    requires t != [] && t[0] != '#' && '\n' !in t
    ensures ParseCompletion(t + "\n" + s) == (t, Trim(s))
  {
    ParseCompletionAtFirstLine(t, s);
  }

  /** The `/api/stories/generate` handler: the upstream call it makes, if any, and its reply. */
  datatype Generation = Generation(sent: Option<CompletionRequest>, reply: Reply)

  function Generate(apiKey: string, b: GenerateBody, upstream: Upstream): (g: Generation)
    ensures apiKey == "" <==> g.sent.None?
    ensures apiKey == "" ==> g.reply == ErrorReply(400, MissingKeyError, None)
    ensures g.sent.Some? ==> g.sent.value.maxTokens == MaxTokens(b.length)
    ensures apiKey != "" && upstream.UpstreamFailed? ==>
      Status(g.reply) == upstream.status && g.reply.ErrorReply? && g.reply.details == Some(upstream.text)
  {
    if apiKey == "" then Generation(None, ErrorReply(400, MissingKeyError, None))
    else
      var sent := Some(CompletionFor(b));
      match upstream
      case UpstreamFailed(status, text) =>
        Generation(sent, ErrorReply(status, "ASI-1 API error: " + NatToString(status), Some(text)))
      case UpstreamThrew(e) =>
        Generation(sent, ErrorReply(500, GenerationFailedError, if e.ErrorValue? then Some(e.message) else None))
      case UpstreamOk(content) =>
        var (title, story) := ParseCompletion(content.GetOr(""));
        Generation(sent, GeneratedReply(story, title))
  }

  /** An OK completion with no message content still yields a titled, empty story. */
  lemma EmptyCompletionIsUntitled(apiKey: string, b: GenerateBody)
    requires apiKey != ""
    ensures Generate(apiKey, b, UpstreamOk(None)).reply == GeneratedReply("", UntitledTitle)
  {
    assert Split("", '\n') == [""];
    assert StripHeading("") == "";
    assert Join([], "\n") == "";
  }
}
