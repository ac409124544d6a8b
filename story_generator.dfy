/**
  The `useStoryGenerator` hook: the form options, the current draft and the per-user draft
  history, kept in component state and mirrored to browser storage. The outcomes of the
  remote calls (generation, save, fetch) and the fresh ids and timestamps are parameters.
*/
module StoryGeneratorHook {
  import opened Wrappers
  import opened Text
  import opened Lists
  import opened StoryModel
  import opened StorageKeys
  import opened LocalStorage
  import opened StoryConstants
  import StoryComposer
  import opened Asi1Service

  // ----- snippets -----

  const SnippetMax: nat := 120
  const Ellipsis: string := "..."

  /** A string in the shape `replace(/\s+/g, ' ').trim()` leaves: single spaces only, and
      no whitespace at either end. */
  predicate Condensed(s: string) {
    && SingleSpaced(s)
    && (s == [] || (!IsSpace(s[0]) && !IsSpace(s[|s| - 1])))
  }

  /** The only whitespace is the plain space, never two in a row: what `Collapse` leaves. */
  predicate SingleSpaced(s: string) {
    && (forall i :: 0 <= i < |s| && IsSpace(s[i]) ==> s[i] == ' ')
    && (forall i :: 0 <= i < |s| - 1 ==> !SpacePair(s, i))
  }

  /** `trim` removes the leading whitespace, then the trailing whitespace. */
  lemma TrimUnfolds(s: string)
    ensures Trim(s) == TrimEnd(TrimStart(s))
  {
  }

  /** Trimming a single-spaced string leaves it condensed. */
  lemma TrimOfSingleSpaced(c: string)
    requires SingleSpaced(c)
    ensures Condensed(Trim(c))
  {
    TrimUnfolds(c);
    var t := TrimStart(c);
    var r := TrimEnd(t);
    SingleSpacedTrimStart(c);
    SingleSpacedTrimEnd(t);
    if r != [] {
      TrimEndIsPrefix(t);
      assert r[0] == t[0];
    }
  }

  lemma SingleSpacedTail(x: string)
    requires x != [] && SingleSpaced(x)
    ensures SingleSpaced(x[1..])
  {
    TailNoSpacePair(x);
  }

  lemma SingleSpacedInit(x: string)
    requires x != [] && SingleSpaced(x)
    ensures SingleSpaced(x[..|x| - 1])
  {
    var y := x[..|x| - 1];
    forall i | 0 <= i < |y| - 1
      ensures !SpacePair(y, i)
    {
      assert !SpacePair(x, i);
    }
  }

  lemma {:induction false} SingleSpacedTrimStart(x: string)
    requires SingleSpaced(x)
    ensures SingleSpaced(TrimStart(x))
    decreases |x|
  {
    if x != [] && IsSpace(x[0]) {
      SingleSpacedTail(x);
      SingleSpacedTrimStart(x[1..]);
    }
  }

  lemma {:induction false} SingleSpacedTrimEnd(x: string)
    requires SingleSpaced(x)
    ensures SingleSpaced(TrimEnd(x))
    decreases |x|
  {
    if x != [] && IsSpace(x[|x| - 1]) {
      SingleSpacedInit(x);
      SingleSpacedTrimEnd(x[..|x| - 1]);
    }
  }

  /** `content.replace(/\s+/g, ' ').trim()`. */
  function Condense(s: string): string {
    Trim(Collapse(s))
  }

  /** Condensing leaves single spaces only, no space at either end, and the same non-space text. */
  lemma CondenseShape(s: string)
    ensures Condensed(Condense(s))
    ensures NonSpace(Condense(s)) == NonSpace(s)
  {
    var c := Collapse(s);
    CollapseShape(s);
    CollapseKeepsText(s);
    TrimKeepsText(c);
    TrimOfSingleSpaced(c);
  }

  /** Between two stretches of text, a whitespace run of any kind and length condenses to
      exactly one space, and neither side loses or gains anything else. */
  lemma CondenseRun(a: string, w: string, b: string)
    requires a != [] && !IsSpace(a[|a| - 1])
    requires w != [] && AllSpace(w)
    requires b != [] && !IsSpace(b[0])
    ensures Condense(a + w + b) == Condense(a) + " " + Condense(b)
  {
    var x, y := Collapse(a), Collapse(b);
    CollapseShape(a);
    CollapseShape(b);
    CollapseRun(a, w, b);
    assert x != [] && !IsSpace(x[|x| - 1]);
    assert y != [] && !IsSpace(y[0]);
    assert x + " " + y == x + (" " + y);
    TrimStartConcat(x, " " + y);
    var sx := TrimStart(x);
    TrimStartIsSuffix(x);
    assert sx != [] && sx[|sx| - 1] == x[|x| - 1];
    assert sx + (" " + y) == (sx + " ") + y;
    TrimEndConcat(sx + " ", y);
    assert TrimEnd(sx) == sx;
    assert TrimStart(y) == y;
    TrimUnfolds(x + " " + y);
    TrimUnfolds(x);
    TrimUnfolds(y);
  }

  /** Cutting a condensed string after a non-space start and appending "..." keeps it condensed. */
  lemma CutIsCondensed(c: string, n: nat)
    requires Condensed(c) && 0 < n <= |c|
    ensures Condensed(c[..n] + Ellipsis)
  {
    var r := c[..n] + Ellipsis;
    assert r[0] == c[0];
    forall i | 0 <= i < |r|
      ensures i < n ==> r[i] == c[i]
      ensures i >= n ==> r[i] == '.'
    {
    }
    forall i | 0 <= i < |r| - 1
      ensures !SpacePair(r, i)
    {
      if i + 1 < n {
        assert !SpacePair(c, i);
      }
    }
  }

  /** A string already in condensed shape is left alone by collapsing. */
  lemma {:induction false} CollapseOfSingleSpaced(x: string)
    requires SingleSpaced(x)
    ensures Collapse(x) == x
  {
    if x != [] {
      var tail := x[1..];
      SingleSpacedTail(x);
      CollapseOfSingleSpaced(tail);
      if IsSpace(x[0]) {
        SpaceHeadIsLone(x);
        assert Collapse(x) == [' '] + Collapse(tail);
      } else {
        assert Collapse(x) == [x[0]] + Collapse(tail);
      }
      assert x == [x[0]] + tail;
    }
  }

  /** In a single-spaced string a leading whitespace character is a plain space with no
      whitespace after it. */
  lemma SpaceHeadIsLone(x: string)
    requires x != [] && SingleSpaced(x) && IsSpace(x[0])
    ensures x[0] == ' ' && TrimStart(x[1..]) == x[1..]
  {
    if |x| > 1 {
      assert !SpacePair(x, 0);
      assert x[1..][0] == x[1];
    }
  }

  /** Condensing is idempotent. */
  lemma CondensedIsFixed(x: string)
    requires Condensed(x)
    ensures Condense(x) == x
  {
    CollapseOfSingleSpaced(x);
    TrimOfTrimmed(x);
  }

  /** `toSnippet`: the condensed text, cut to 120 characters plus "..." when it is longer. */
  function ToSnippet(content: string): string {
    var c := Condense(content);
    if |c| > SnippetMax then c[..SnippetMax] + Ellipsis else c
  }

  /** The snippet is condensed and at most 123 long: the condensed text when that fits in 120
      characters, else its first 120 followed by "...". */
  lemma SnippetShape(content: string)
    ensures var r := ToSnippet(content);
      && |r| <= SnippetMax + |Ellipsis|
      && Condensed(r)
      && (|Condense(content)| <= SnippetMax ==> r == Condense(content))
      && (|Condense(content)| > SnippetMax ==>
            |r| == SnippetMax + |Ellipsis| && r[..SnippetMax] == Condense(content)[..SnippetMax] && r[SnippetMax..] == Ellipsis)
  {
    var c := Condense(content);
    CondenseShape(content);
    if |c| > SnippetMax {
      var r := c[..SnippetMax] + Ellipsis;
      CutIsCondensed(c, SnippetMax);
      assert r[..SnippetMax] == c[..SnippetMax];
    }
  }

  /** A snippet is its own snippet, so re-deriving the snippet of a stored snippet changes nothing. */
  lemma SnippetIsFixed(content: string)
    ensures ToSnippet(ToSnippet(content)) == ToSnippet(content)
  {
    SnippetShape(content);
    SnippetShapedIsFixed(ToSnippet(content));
  }

  /** A condensed string of at most 123 characters that ends in "..." past the 120th is its own
      snippet. */
  lemma SnippetShapedIsFixed(r: string)
    requires Condensed(r) && |r| <= SnippetMax + |Ellipsis|
    requires |r| > SnippetMax ==> r[SnippetMax..] == Ellipsis
    ensures ToSnippet(r) == r
  {
    CondensedIsFixed(r);
    if |r| > SnippetMax {
      assert r == r[..SnippetMax] + r[SnippetMax..];
    }
  }

  // ----- history list rebuilds -----

  const HistoryCap: nat := 15

  /** `history.filter((item) => item.id !== id)`. */
  function WithoutId(h: seq<StoryHistoryItem>, id: string): (r: seq<StoryHistoryItem>)
    ensures forall i :: 0 <= i < |r| ==> r[i].id != id
    ensures IsSubsequence(r, h)
  {
    if h == [] then []
    else
      var rest := WithoutId(h[1..], id);
      if h[0].id == id then
        SubsequenceCons(rest, h);
        rest
      else
        assert ([h[0]] + rest)[1..] == rest;
        [h[0]] + rest
  }

  /** The filter removes every copy of each entry with that id and keeps every copy of each
      other entry. */
  lemma {:induction false} WithoutIdCounts(h: seq<StoryHistoryItem>, id: string, x: StoryHistoryItem)
    ensures multiset(WithoutId(h, id))[x] == if x.id == id then 0 else multiset(h)[x]
  {
    if h != [] {
      WithoutIdCounts(h[1..], id, x);
      assert h == [h[0]] + h[1..];
      assert multiset(h) == multiset{h[0]} + multiset(h[1..]);
    }
  }

  /** Filtering by an id no entry carries changes nothing. */
  lemma {:induction false} WithoutAbsentId(h: seq<StoryHistoryItem>, id: string)
    requires forall i :: 0 <= i < |h| ==> h[i].id != id
    ensures WithoutId(h, id) == h
  {
    if h != [] {
      WithoutAbsentId(h[1..], id);
      assert h == [h[0]] + h[1..];
    }
  }

  /** The draft that a generation records before the backend has confirmed it. */
  function LocalItem(freshId: string, createdAt: string, o: StoryOptions, content: string): StoryHistoryItem {
    StoryHistoryItem(freshId, createdAt, o, content, ToSnippet(content))
  }

  /** The history after a generation: the local item first, capped at 15; when the backend
      saves it, the server's item first and the temporary entry dropped, capped again. */
  function Recorded(h: seq<StoryHistoryItem>, item: StoryHistoryItem, saved: Result<StoryHistoryItem, Thrown>)
    : seq<StoryHistoryItem>
  {
    var next := PrependCapped(item, h, HistoryCap);
    if saved.Ok? then PrependCapped(saved.value, WithoutId(next, item.id), HistoryCap) else next
  }

  /** After a generation the newest item is first, at most 15 are kept, and the rest is old
      history in its old order; without a successful save the tail is a prefix of the old list. */
  lemma RecordedShape(h: seq<StoryHistoryItem>, item: StoryHistoryItem, saved: Result<StoryHistoryItem, Thrown>)
    ensures var r := Recorded(h, item, saved);
      && 1 <= |r| <= HistoryCap
      && r[0] == (if saved.Ok? then saved.value else item)
      && IsSubsequence(r[1..], h)
      && (saved.Err? ==> r[1..] <= h)
  {
    var next := PrependCapped(item, h, HistoryCap);
    var r := Recorded(h, item, saved);
    if saved.Ok? {
      var kept := WithoutId(next, item.id);
      assert next == [item] + next[1..];
      assert WithoutId(next, item.id) == WithoutId(next[1..], item.id);
      PrefixIsSubsequence(r[1..], kept);
      PrefixIsSubsequence(next[1..], h);
      SubsequenceTrans(r[1..], kept, next[1..]);
      SubsequenceTrans(r[1..], next[1..], h);
    } else {
      PrefixIsSubsequence(r[1..], h);
    }
  }

  /** Once the backend confirms the save, the temporary entry is gone from the history. */
  lemma ConfirmedDropsTemporary(h: seq<StoryHistoryItem>, item: StoryHistoryItem, saved: StoryHistoryItem)
    requires saved.id != item.id
    ensures forall i :: 0 <= i < |Recorded(h, item, Ok(saved))| ==> Recorded(h, item, Ok(saved))[i].id != item.id
  {
    var kept := WithoutId(PrependCapped(item, h, HistoryCap), item.id);
    var r := Recorded(h, item, Ok(saved));
    forall i | 0 <= i < |r|
      ensures r[i].id != item.id
    {
      if i > 0 {
        assert r[i] == r[1..][i - 1];
        assert r[1..] <= kept;
        assert r[i] == kept[i - 1];
      }
    }
  }

  /** When the temporary id is fresh, a confirmed generation leaves the history exactly as if
      the server's item had been prepended in the first place. */
  lemma ConfirmedAsIfSavedFirst(h: seq<StoryHistoryItem>, item: StoryHistoryItem, saved: StoryHistoryItem)
    requires forall i :: 0 <= i < |h| ==> h[i].id != item.id
    ensures Recorded(h, item, Ok(saved)) == PrependCapped(saved, h, HistoryCap)
  {
    var next := PrependCapped(item, h, HistoryCap);
    var m := Min(|h|, HistoryCap - 1);
    assert next == [item] + h[..m];
    assert WithoutId(next, item.id) == WithoutId(h[..m], item.id);
    WithoutAbsentId(h[..m], item.id);
    assert PrependCapped(saved, h[..m], HistoryCap) == [saved] + h[..m];
    assert PrependCapped(saved, h, HistoryCap) == [saved] + h[..m];
  }

  // ----- content texts -----

  const FallbackPrefix: string := "\n\n[Fallback mode] AI backend unavailable"

  /** The note appended to an offline draft, naming the remote failure when it is an `Error`. */
  function FallbackNote(e: Thrown): string {
    match e
    case ErrorValue(m) => FallbackPrefix + ": " + m
    case NonError => FallbackPrefix + "."
  }

  /** The offline draft is kept whole at the front, the note starts with the fallback marker,
      and an `Error`'s message ends the content. */
  lemma FallbackContentShape(draft: string, e: Thrown)
    ensures var c := draft + FallbackNote(e);
      && draft <= c
      && FallbackPrefix <= FallbackNote(e)
      && (e.ErrorValue? ==> c[|c| - |e.message|..] == e.message)
  {
    var c := draft + FallbackNote(e);
    assert c[..|draft|] == draft;
    match e {
      case ErrorValue(m) =>
        var lead := draft + FallbackPrefix + ": ";
        assert c == lead + m;
        assert c[|lead|..] == m;
      case NonError =>
    }
  }

  /** The content shown when even the offline composer fails. */
  function FailureText(e: Thrown): string {
    "Error: Failed to generate story. " + MessageOr(e, "Please try again.")
  }

  /** `hasStory`: the content has a character that is not whitespace. */
  function HasStory(content: string): (r: bool)
    ensures r <==> !AllSpace(content)
  {
    |Trim(content)| > 0
  }

  /** "<n> saved draft", with an "s" unless there is exactly one. */
  function CountLabel(n: nat): string {
    NatToString(n) + " saved draft" + (if n == 1 then "" else "s")
  }

  /** The label starts with the count, which reads back as `n`, and is plural exactly when
      `n` is not one. */
  lemma CountLabelReadsBack(n: nat)
    ensures var l := CountLabel(n); var d := NatToString(n);
      && |d| <= |l| && DigitsValue(l[..|d|]) == n
      && (l[|l| - 1] == 's' <==> n != 1)
  {
    var d := NatToString(n);
    assert CountLabel(n)[..|d|] == d;
    NatToStringRoundTrip(n);
  }

  /** The ASI-1 request `onGenerate` builds from the form. */
  function GenerationRequest(o: StoryOptions): (r: StoryGenerationRequest)
    ensures r.prompt == o.premise && r.genre == o.genre && r.tone == o.tone && r.length == o.length
    ensures r.themes.Some? <==> o.includeTwist
    ensures r.themes.Some? ==> r.themes.value == ["plot twist"]
  {
    StoryGenerationRequest(o.premise, o.genre, o.tone, o.length, if o.includeTwist then Some(["plot twist"]) else None)
  }

  /** A second write under a key replaces the first. */
  lemma OverwriteKey(m: map<string, Stored>, k: string, a: Stored, b: Stored)
    ensures m[k := a][k := b] == m[k := b]
  {
  }

  class StoryGenerator {
    const userId: string
    const historyKey: string
    const storage: Storage
    var options: StoryOptions
    var content: string
    var isGenerating: bool
    var history: seq<StoryHistoryItem>

    /** The hook's first render: default options, no draft, the stored history. */
    constructor (userId: string, storage: Storage)
      ensures this.userId == userId && this.storage == storage
      ensures historyKey == StoryHistoryKeyForUser(userId)
      ensures options == DefaultStoryOptions && content == "" && !isGenerating
      ensures history == LoadDrafts(storage.items, historyKey)
    {
      this.userId := userId;
      this.storage := storage;
      historyKey := StoryHistoryKeyForUser(userId);
      options := DefaultStoryOptions;
      content := "";
      isGenerating := false;
      history := LoadDrafts(storage.items, StoryHistoryKeyForUser(userId));
    }

    /** The mount effect: reset to the stored history, then install the backend's list and
        store it, or keep the stored list when the fetch fails. */
    method SyncFromBackend(fetched: Result<seq<StoryHistoryItem>, Thrown>)
      modifies this, storage
      ensures options == DefaultStoryOptions && content == "" && isGenerating == old(isGenerating)
      ensures fetched.Ok? ==> history == fetched.value && storage.items == old(storage.items)[historyKey := Drafts(fetched.value)]
      ensures fetched.Err? ==> history == LoadDrafts(old(storage.items), historyKey) && storage.items == old(storage.items)
    {
      var localHistory := LoadDrafts(storage.items, historyKey);
      history := localHistory;
      content := "";
      options := DefaultStoryOptions;
      match fetched
      case Ok(remoteHistory) =>
        history := remoteHistory;
        storage.items := storage.items[historyKey := Drafts(remoteHistory)];
      case Err(_) =>
        history := localHistory;
    }

    /** `setHistory(h)` followed by `saveToStorage(historyKey, h)`. */
    method SetHistory(h: seq<StoryHistoryItem>)
      modifies this, storage
      ensures history == h && storage.items == old(storage.items)[historyKey := Drafts(h)]
      ensures options == old(options) && content == old(content) && isGenerating == old(isGenerating)
    {
      history := h;
      storage.items := storage.items[historyKey := Drafts(h)];
    }

    /** Show a new draft, record its local item, then reconcile with the backend's save. */
    method RecordDraft(item: StoryHistoryItem, saved: Result<StoryHistoryItem, Thrown>)
      modifies this, storage
      ensures content == item.content
      ensures history == Recorded(old(history), item, saved)
      ensures storage.items == old(storage.items)[historyKey := Drafts(history)]
      ensures options == old(options) && isGenerating == old(isGenerating)
    {
      ghost var items0 := storage.items;
      content := item.content;
      var nextHistory := PrependCapped(item, history, HistoryCap);
      SetHistory(nextHistory);
      if saved.Ok? {
        var syncedHistory := PrependCapped(saved.value, WithoutId(nextHistory, item.id), HistoryCap);
        SetHistory(syncedHistory);
        OverwriteKey(items0, historyKey, Drafts(nextHistory), Drafts(syncedHistory));
        assert storage.items == items0[historyKey := Drafts(history)];
      }
    }

    /** `onGenerate`: the remote draft, else the offline draft with a fallback note, else an
        error text that leaves the history alone; `isGenerating` always ends false. */
    method OnGenerate(remote: Result<StoryGenerationResponse, Thrown>, fallbackFailure: Option<Thrown>,
                      saved: Result<StoryHistoryItem, Thrown>, freshId: string, createdAt: string)
      returns (request: StoryGenerationRequest)
      modifies this, storage
      ensures request == GenerationRequest(options)
      ensures options == old(options) && !isGenerating
      ensures remote.Ok? ==>
        && content == remote.value.story
        && history == Recorded(old(history), LocalItem(freshId, createdAt, options, content), saved)
        && storage.items == old(storage.items)[historyKey := Drafts(history)]
      ensures remote.Err? && fallbackFailure.None? ==>
        && content == StoryComposer.ComposeStory(options) + FallbackNote(remote.error)
        && history == Recorded(old(history), LocalItem(freshId, createdAt, options, content), saved)
        && storage.items == old(storage.items)[historyKey := Drafts(history)]
      ensures remote.Err? && fallbackFailure.Some? ==>
        content == FailureText(fallbackFailure.value) && history == old(history) && storage.items == old(storage.items)
    {
      isGenerating := true;
      request := GenerationRequest(options);
      if remote.Ok? {
        RecordDraft(LocalItem(freshId, createdAt, options, remote.value.story), saved);
      } else {
        RecoverOffline(remote.error, fallbackFailure, saved, freshId, createdAt);
      }
      isGenerating := false;
    }

    /** The `catch` of `onGenerate`: the offline draft with a note on the remote error, or,
        when the offline generator throws too, an error text that leaves the history alone. */
    method RecoverOffline(error: Thrown, fallbackFailure: Option<Thrown>,
                          saved: Result<StoryHistoryItem, Thrown>, freshId: string, createdAt: string)
      modifies this, storage
      ensures options == old(options) && isGenerating == old(isGenerating)
      ensures fallbackFailure.None? ==>
        && content == StoryComposer.ComposeStory(options) + FallbackNote(error)
        && history == Recorded(old(history), LocalItem(freshId, createdAt, options, content), saved)
        && storage.items == old(storage.items)[historyKey := Drafts(history)]
      ensures fallbackFailure.Some? ==>
        content == FailureText(fallbackFailure.value) && history == old(history) && storage.items == old(storage.items)
    {
      match fallbackFailure {
        case None =>
          var fallbackStory := StoryComposer.GenerateStory(options);
          RecordDraft(LocalItem(freshId, createdAt, options, fallbackStory + FallbackNote(error)), saved);
        case Some(fallbackError) =>
          content := FailureText(fallbackError);
      }
    }

    /** `onLoadHistory`: show a saved draft with the options that produced it. */
    method OnLoadHistory(item: StoryHistoryItem)
      modifies this
      ensures options == item.options && content == item.content
      ensures history == old(history) && isGenerating == old(isGenerating)
    {
      options := item.options;
      content := item.content;
    }

    /** `onClearHistory`: an empty history, locally and in storage. */
    method OnClearHistory()
      modifies this, storage
      ensures history == [] && storage.items == old(storage.items)[historyKey := Drafts([])]
      ensures options == old(options) && content == old(content) && isGenerating == old(isGenerating)
    {
      history := [];
      storage.items := storage.items[historyKey := Drafts([])];
    }

    /** `onDeleteHistoryItem`: drop every entry with that id, keep the others in order, and
        store the same list. */
    method OnDeleteHistoryItem(id: string)
      modifies this, storage
      ensures history == WithoutId(old(history), id)
      ensures storage.items == old(storage.items)[historyKey := Drafts(history)]
      ensures options == old(options) && content == old(content) && isGenerating == old(isGenerating)
    {
      var nextHistory := WithoutId(history, id);
      history := nextHistory;
      storage.items := storage.items[historyKey := Drafts(nextHistory)];
    }

    /** `historyCountLabel`. */
    function HistoryCountLabel(): (l: string)
      reads this
    {
      CountLabel(|history|)
    }
  }
}
