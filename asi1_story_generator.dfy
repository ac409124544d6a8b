/**
  The `useASI1StoryGenerator` hook: the generated story, its title, the busy flag, the last
  error and the token estimate, plus `saveToHistory`, which prepends an entry to the user's
  history array in browser storage. The service's answer, the entry id and the clock are
  parameters.
*/
module Asi1StoryGeneratorHook {
  import opened Wrappers
  import opened Lists
  import opened StoryModel
  import opened StorageKeys
  import opened LocalStorage
  import opened Asi1Service

  const EntryCap: nat := 50
  const PromptTitleLength: nat := 50
  const UntitledStory: string := "Untitled Story"
  const GenerationFailedText: string := "Failed to generate story"
  const EntrySource: string := "asi-1"

  /** `a || b` for an optional string: the value unless it is missing or empty. */
  function OrElse(a: Option<string>, b: string): (r: string)
    ensures a.Some? && a.value != "" ==> r == a.value
    ensures a.None? || a.value == "" ==> r == b
  {
    if a.Some? && a.value != "" then a.value else b
  }

  /** The key `saveToHistory` writes, spelled out in the hook itself. */
  function EntryHistoryKey(userId: string): string {
    "storywriterbot.history.v1." + userId
  }

  /** It is the same key the draft history of `useStoryGenerator` lives under. */
  lemma EntryKeyIsDraftKey(userId: string)
    ensures EntryHistoryKey(userId) == StoryHistoryKeyForUser(userId)
  {
    assert StoryHistoryPrefix + "." == "storywriterbot.history.v1.";
  }

  /** The history entry for a generated story. */
  function NewEntry(request: StoryGenerationRequest, response: StoryGenerationResponse, id: string, generatedAt: string)
    : (e: GeneratedEntry)
    ensures e.title == OrElse(response.title, request.prompt[..Min(|request.prompt|, PromptTitleLength)])
    ensures e.story == response.story && e.prompt == request.prompt
    ensures e.themes == request.themes.GetOr([]) && e.tokenCost == response.tokens.GetOr(0)
    ensures e.source == EntrySource
  {
    GeneratedEntry(
      id,
      OrElse(response.title, request.prompt[..Min(|request.prompt|, PromptTitleLength)]),
      response.story,
      request.prompt,
      request.genre,
      request.tone,
      request.themes.GetOr([]),
      generatedAt,
      EntrySource,
      response.tokens.GetOr(0))
  }

  /** An entry's title is never longer than the prompt's first 50 characters unless the
      response named the story. */
  lemma EntryTitleBound(request: StoryGenerationRequest, response: StoryGenerationResponse, id: string, at: string)
    requires response.title.None? || response.title.value == ""
    ensures |NewEntry(request, response, id, at).title| <= PromptTitleLength
    ensures NewEntry(request, response, id, at).title <= request.prompt
  {
  }

  /** The history array after a save: the new entry first, then the old array, 50 at most. */
  lemma SavedHistoryShape(entry: HistoryValue, existing: seq<HistoryValue>)
    ensures var r := PrependCapped(entry, existing, EntryCap);
      && |r| == Min(|existing| + 1, EntryCap) && r[0] == entry && r[1..] <= existing
      && (|existing| < EntryCap ==> r == [entry] + existing)
  {
    var r := PrependCapped(entry, existing, EntryCap);
    if |existing| < EntryCap {
      assert r == [entry] + existing;
    }
  }

  /** The storage `saveToHistory` leaves: the array under the history key (`[]` when there is
      none) with the entry prepended and 50 kept; a stored value that is not an array makes
      the spread throw, and the error is swallowed with nothing written. */
  function SavedItems(items: map<string, Stored>, userId: string, entry: HistoryValue): (r: map<string, Stored>)
    ensures var key := EntryHistoryKey(userId);
      && (key !in items ==> r == items[key := History([entry])])
      && (key in items && items[key].History? ==>
            r == items[key := History(PrependCapped(entry, items[key].values, EntryCap))])
      && (key in items && !items[key].History? ==> r == items)
  {
    var key := EntryHistoryKey(userId);
    if key !in items then items[key := History(PrependCapped(entry, [], EntryCap))]
    else if items[key].History? then items[key := History(PrependCapped(entry, items[key].values, EntryCap))]
    else items
  }

  /** Saving an entry over a user's drafts keeps the drafts after it, so the one array then
      mixes both shapes and is no longer a list of drafts. */
  lemma EntrySavedOverDrafts(items: map<string, Stored>, userId: string, ds: seq<StoryHistoryItem>, e: GeneratedEntry)
    ensures var key := StoryHistoryKeyForUser(userId);
      var r := SavedItems(items[key := Drafts(ds)], userId, EntryValue(e));
      && key in r && r[key].History?
      && |r[key].values| >= 1 && r[key].values[0] == EntryValue(e)
      && r[key].values[1..] <= Drafts(ds).values
      && !AllDrafts(r[key].values)
  {
    EntryKeyIsDraftKey(userId);
  }

  /** `saveToHistory`. */
  method SaveToHistory(storage: Storage, userId: string, request: StoryGenerationRequest,
                       response: StoryGenerationResponse, id: string, generatedAt: string)
    modifies storage
    ensures storage.items == SavedItems(old(storage.items), userId, EntryValue(NewEntry(request, response, id, generatedAt)))
  {
    var historyKey := EntryHistoryKey(userId);
    var existingHistory: seq<HistoryValue>;
    if historyKey !in storage.items {
      existingHistory := [];
    } else {
      match storage.items[historyKey] {
        case History(values) =>
          existingHistory := values;
        case _ =>
          return;
      }
    }
    var newEntry := EntryValue(NewEntry(request, response, id, generatedAt));
    var updatedHistory := PrependCapped(newEntry, existingHistory, EntryCap);
    storage.items := storage.items[historyKey := History(updatedHistory)];
  }

  class Asi1StoryGenerator {
    const userId: string
    const storage: Storage
    var story: string
    var title: string
    var isGenerating: bool
    var error: string
    var estimatedTokens: int

    constructor (userId: string, storage: Storage)
      ensures this.userId == userId && this.storage == storage
      ensures story == "" && title == "" && !isGenerating && error == "" && estimatedTokens == 0
    {
      this.userId := userId;
      this.storage := storage;
      story := "";
      title := "";
      isGenerating := false;
      error := "";
      estimatedTokens := 0;
    }

    /** `generateStory`: reset the story, title and error, then show the response and save it,
        or show the error; the token estimate is only replaced on success. */
    method GenerateStory(request: StoryGenerationRequest, outcome: Result<StoryGenerationResponse, Thrown>,
                         entryId: string, generatedAt: string)
      modifies this, storage
      ensures !isGenerating
      ensures outcome.Ok? ==>
        && story == outcome.value.story && title == OrElse(outcome.value.title, UntitledStory)
        && estimatedTokens == outcome.value.tokens.GetOr(0) && error == ""
        && storage.items == SavedItems(old(storage.items), userId, EntryValue(NewEntry(request, outcome.value, entryId, generatedAt)))
      ensures outcome.Err? ==>
        && story == "" && title == "" && estimatedTokens == old(estimatedTokens)
        && error == MessageOr(outcome.error, GenerationFailedText) && storage.items == old(storage.items)
    {
      isGenerating := true;
      error := "";
      story := "";
      title := "";
      match outcome {
        case Ok(response) =>
          story := response.story;
          title := OrElse(response.title, UntitledStory);
          estimatedTokens := response.tokens.GetOr(0);
          assert this as object != storage as object;
          SaveToHistory(storage, userId, request, response, entryId, generatedAt);
        case Err(e) =>
          error := MessageOr(e, GenerationFailedText);
      }
      isGenerating := false;
    }
  }
}
