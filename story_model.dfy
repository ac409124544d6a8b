/** The story records of the story-generator feature. */
module StoryModel {

  /** The three values of `StoryOptions['length']`. */
  datatype StoryLength = Short | Medium | Long

  /** The string the client sends for a length ('short', 'medium', 'long'). */
  function LengthName(l: StoryLength): string {
    match l
    case Short => "short"
    case Medium => "medium"
    case Long => "long"
  }

  /** What the story form collects for one generation. */
  datatype StoryOptions = StoryOptions(
    title: string,
    premise: string,
    genre: string,
    tone: string,
    audience: string,
    length: StoryLength,
    pointOfView: string,
    includeTwist: bool,
    includeDialogue: bool)

  /** One saved draft of the local history (and of the backend's `toStoryResponse`). */
  datatype StoryHistoryItem = StoryHistoryItem(
    id: string,
    createdAt: string,
    options: StoryOptions,
    content: string,
    snippet: string)

  /** The differently shaped entry that the ASI-1 hook writes under the same history key. */
  datatype GeneratedEntry = GeneratedEntry(
    id: string,
    title: string,
    story: string,
    prompt: string,
    genre: string,
    tone: string,
    themes: seq<string>,
    generatedAt: string,
    source: string,
    tokenCost: int)
}
