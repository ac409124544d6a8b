/**
  Browser storage as a map from key to the JSON value last saved under it. The history key of
  a user holds one JSON array that two writers share: drafts of the story form and entries of
  the ASI-1 hook. `loadFromStorage` (its module, src/shared/lib/storage.ts, is not part of
  this model) is taken to return the stored value when it has the expected shape and the
  fallback otherwise.
*/
module LocalStorage {
  import opened Wrappers
  import opened StoryModel
  import opened AuthModel

  /** One element of a history array, in the shape of the writer that put it there. */
  datatype HistoryValue = DraftValue(draft: StoryHistoryItem) | EntryValue(entry: GeneratedEntry)

  /** The JSON values the application keeps. */
  datatype Stored =
    | History(values: seq<HistoryValue>)
    | Users(users: seq<AuthUser>)
    | SessionSlot(session: Option<AuthSession>)

  class Storage {
    var items: map<string, Stored>

    constructor (initial: map<string, Stored>)
      ensures items == initial
    {
      items := initial;
    }
  }

  /** A list of drafts as saved by `saveToStorage`. */
  function Drafts(ds: seq<StoryHistoryItem>): (v: Stored)
    ensures v.History? && |v.values| == |ds|
    ensures forall i :: 0 <= i < |ds| ==> v.values[i] == DraftValue(ds[i])
  {
    History(seq(|ds|, i requires 0 <= i < |ds| => DraftValue(ds[i])))
  }

  predicate AllDrafts(vs: seq<HistoryValue>) {
    forall i :: 0 <= i < |vs| ==> vs[i].DraftValue?
  }

  /** The drafts stored under `key`, or `[]` when there is no draft list there. */
  function LoadDrafts(items: map<string, Stored>, key: string): seq<StoryHistoryItem> {
    if key in items && items[key].History? && AllDrafts(items[key].values) then
      var vs := items[key].values;
      seq(|vs|, i requires 0 <= i < |vs| && AllDrafts(vs) => vs[i].draft)
    else []
  }

  /** Drafts read back as they were saved. */
  lemma DraftsRoundTrip(items: map<string, Stored>, key: string, ds: seq<StoryHistoryItem>)
    ensures LoadDrafts(items[key := Drafts(ds)], key) == ds
  {
  }

  function LoadUsers(items: map<string, Stored>, key: string): seq<AuthUser>
  {
    if key in items && items[key].Users? then items[key].users else []
  }

  function LoadSession(items: map<string, Stored>, key: string): Option<AuthSession>
  {
    if key in items && items[key].SessionSlot? then items[key].session else None
  }
}
