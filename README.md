# StoryWriterBot, modelled in Dafny

StoryWriterBot is a small web application for writing short stories. A form collects story
options (title, premise, genre, tone, audience, length, point of view, twist and dialogue
flags). An LLM ("ASI-1") reached through an Express proxy writes the story; when the backend
cannot be reached, an offline template composer writes it instead. Every draft goes to a
per-user history, which lives in browser storage and in a Mongo collection behind the proxy.
A local credential registry handles signup and login, and a chat panel lets the user talk
about the current story.

This project models the decision logic of that core and proves what it promises:

- `StoryComposer` is the offline composer. It holds the paragraph table, the additive
  character-code hash that picks a conflict, and the seven template paragraphs.
- `StoryGeneratorHook.StoryGenerator` models the `useStoryGenerator` hook as a class. It
  holds the options, the content, the busy flag and the draft history, and mirrors the
  history into storage on every change. The outcomes of the remote generate, save and fetch
  calls are parameters.
- `Asi1Service.Asi1Client` models the request client: the bounded retry loop of `call` and
  the first-in-first-out drain of `processQueue`. Each attempt's fetch outcome is supplied
  as data.
- `BackendProxy` covers the proxy. `StoryStore` holds the four `/api/stories` handlers over
  an in-memory collection with a `connected` flag. `Generate` is the `/api/stories/generate`
  decision logic, with its `max_tokens` table and the title/story split.
- `AuthService` and `AuthSessionHook` model the credential registry in storage and the
  session state machine.
- `ChatInterface.ChatPanel` models the chat message list: the greeting, the send guard, the
  append and the roll-back on failure.
- `Asi1StoryGeneratorHook` models the secondary history writer, with its cap of 50 and its
  title and token defaults.
- `StorageKeys` and `StoryConstants` hold the key and option tables.
- `Text`, `Lists`, `Wrappers`, `StoryModel`, `AuthModel` and `LocalStorage` are shared
  helpers and record shapes. Browser storage is a `map` from key to the JSON value last
  saved there.

JavaScript values that can be "an `Error` or anything else" are `Thrown`. They are
`ErrorValue(message)` or `NonError`, and `MessageOr` gives the source's
`error instanceof Error ? error.message : fallback`.

## Model

| member | source | states |
|---|---|---|
| StoryComposer.PickByHash | src/features/story-generator/services/storyComposer.ts:16-19 | the pick is the entry at the sum of char codes modulo the list length, is a member of the list, and exists iff the list is non-empty |
| StoryComposer.Conflict | src/features/story-generator/services/storyComposer.ts:9-14 | the conflict picked for any options is one of the four conflict seeds |
| StoryComposer.CharCodeSumConcat | src/features/story-generator/services/storyComposer.ts:17 | the hash of a concatenation is the sum of the hashes |
| StoryComposer.ParagraphLayout | src/features/story-generator/services/storyComposer.ts:39-41 | each of the first 3, 5 or 7 paragraphs sits in the draft after the earlier ones and a blank line after each; a blank line follows every kept paragraph but the last, and the draft ends with the last kept one |
| StoryComposer.LongerDraftExtendsShorter | src/features/story-generator/services/storyComposer.ts:41 | the short draft is a prefix of the medium one, and the medium draft is a prefix of the long one |
| StoryComposer.JoinStartsWithFirst | src/features/story-generator/services/storyComposer.ts:41 | a join of at least one paragraph starts with the first paragraph |
| StoryComposer.JoinPrefixGrows | src/features/story-generator/services/storyComposer.ts:41 | joining a longer prefix of the paragraphs extends the join of a shorter prefix |
| StoryComposer.JoinContainsPart | src/features/story-generator/services/storyComposer.ts:41 | every joined paragraph occurs in the joined text |
| StoryComposer.JoinLayout | src/features/story-generator/services/storyComposer.ts:41 | in a join, the i-th part starts after the earlier parts and a separator after each, a separator follows every part but the last, and the join ends with the last part |
| StoryComposer.OpeningShape | src/features/story-generator/services/storyComposer.ts:26 | the opening starts with the title and contains the premise and the chosen conflict |
| StoryComposer.DraftStartsWithOpening | src/features/story-generator/services/storyComposer.ts:26-41 | every draft starts with the opening and the title, and contains the premise and the conflict |
| StoryComposer.ThirdParagraph | src/features/story-generator/services/storyComposer.ts:30-32 | the third paragraph is the dialogue line iff dialogue is on, else the silence line, and every length keeps it |
| StoryComposer.TwistParagraph | src/features/story-generator/services/storyComposer.ts:34-36 | the fifth paragraph is the twist line iff the twist is on, and it is kept iff the length is not short |
| StoryComposer.ShortIgnoresTwist | src/features/story-generator/services/storyComposer.ts:34-41 | for a short story the twist flag does not change the draft |
| StoryComposer.ConflictDependsOnSeedFields | src/features/story-generator/services/storyComposer.ts:23-24 | options that agree on title, premise, genre and tone get the same conflict and the same opening |
| StoryComposer.ConflictIgnoresFieldOrder | src/features/story-generator/services/storyComposer.ts:17-23 | swapping title and premise keeps the conflict: the hash does not depend on character order |
| StoryComposer.GenerateStory | src/features/story-generator/services/storyComposer.ts:44-47 | the offline generator yields exactly the composed story for its options |
| StoryConstants.LengthOptionValues | src/features/story-generator/model/constants.ts:25-29 | the length options are short, medium and long, in that order |
| StoryConstants.DefaultsAreOffered | src/features/story-generator/model/constants.ts:31-39 | the default genre, tone, audience, point of view and length are members of their option lists |
| StoryConstants.DefaultFlags | src/features/story-generator/model/constants.ts:38-41 | the default length is medium, and both twist and dialogue are on |
| StoryConstants.LabelMatchesParagraphCount | src/features/story-generator/model/constants.ts:26-28 | each length label carries the paragraph count the composer uses for that length |
| StoryConstants.CaptionTexts | src/features/story-generator/model/constants.ts:26-28 | the count captions for short, medium and long read "(~3 paragraphs)", "(~5 paragraphs)" and "(~7 paragraphs)" |
| StoryConstants.OptionListsHaveNoDuplicates | src/features/story-generator/model/constants.ts:3-29 | no option list repeats an entry |
| StorageKeys.StoryHistoryKeyForUser | src/shared/constants/storageKeys.ts:7-9 | the key is the history prefix, a dot, then the user id |
| StorageKeys.HistoryKeyInjective | src/shared/constants/storageKeys.ts:7-9 | distinct user ids give distinct history keys |
| StorageKeys.FixedKeysDistinct | src/shared/constants/storageKeys.ts:1-5 | the three stored keys are pairwise distinct |
| StorageKeys.HistoryKeyIsNotAuthKey | src/shared/constants/storageKeys.ts:3-9 | no user's history key is the session key or the users key |
| StoryGeneratorHook.TrimOfSingleSpaced | src/features/story-generator/hooks/useStoryGenerator.ts:16 | trimming a single-spaced string leaves it condensed |
| StoryGeneratorHook.CondenseShape | src/features/story-generator/hooks/useStoryGenerator.ts:16 | the collapse-then-trim result has single spaces only, no space at either end, and the same non-space text as the input (where the spaces go is `CondenseRun`) |
| StoryGeneratorHook.CutIsCondensed | src/features/story-generator/hooks/useStoryGenerator.ts:17 | cutting a condensed string and appending "..." keeps it condensed |
| StoryGeneratorHook.CollapseOfSingleSpaced | src/features/story-generator/hooks/useStoryGenerator.ts:16 | collapsing whitespace runs does not change a single-spaced string |
| StoryGeneratorHook.CondensedIsFixed | src/features/story-generator/hooks/useStoryGenerator.ts:16 | condensing a condensed string changes nothing |
| StoryGeneratorHook.CondenseRun | src/features/story-generator/hooks/useStoryGenerator.ts:16 | between two non-space pieces, any whitespace run becomes exactly one space, and each piece is condensed on its own |
| StoryGeneratorHook.SnippetShape | src/features/story-generator/hooks/useStoryGenerator.ts:15-18 | the snippet is condensed and at most 123 long; it is the condensed text when that has at most 120 characters, else its first 120 followed by "..." |
| StoryGeneratorHook.SnippetIsFixed | src/features/story-generator/hooks/useStoryGenerator.ts:15-18 | the snippet of a snippet is the same snippet |
| StoryGeneratorHook.WithoutId | src/features/story-generator/hooks/useStoryGenerator.ts:163 | no kept entry has the id, and the kept entries are a subsequence of the list in its order |
| StoryGeneratorHook.WithoutIdCounts | src/features/story-generator/hooks/useStoryGenerator.ts:163 | every entry without the id keeps its multiplicity, and every entry with the id is dropped |
| StoryGeneratorHook.WithoutAbsentId | src/features/story-generator/hooks/useStoryGenerator.ts:98 | filtering out an id no entry has leaves the list unchanged |
| StoryGeneratorHook.RecordedShape | src/features/story-generator/hooks/useStoryGenerator.ts:87-100 | after a generation the history has 1 to 15 entries; the newest (server or local) item is first; the rest is old history in order; without a save it is a prefix of the old history |
| StoryGeneratorHook.ConfirmedDropsTemporary | src/features/story-generator/hooks/useStoryGenerator.ts:98 | once the backend confirms the save under a new id, the temporary entry is gone |
| StoryGeneratorHook.ConfirmedAsIfSavedFirst | src/features/story-generator/hooks/useStoryGenerator.ts:87-98 | with a fresh temporary id, the confirmed history equals prepending the server's item to the old history, capped at 15 |
| StoryGeneratorHook.FallbackContentShape | src/features/story-generator/hooks/useStoryGenerator.ts:108-112 | for any offline draft, the fallback content keeps it whole at the front, then the "[Fallback mode]" note, ending with the error's message |
| StoryGeneratorHook.HasStory | src/features/story-generator/hooks/useStoryGenerator.ts:56 | there is a story iff the content is not all whitespace |
| StoryGeneratorHook.CountLabelReadsBack | src/features/story-generator/hooks/useStoryGenerator.ts:58 | the label starts with a numeral reading back as the count, and ends in "s" iff the count is not one |
| StoryGeneratorHook.GenerationRequest | src/features/story-generator/hooks/useStoryGenerator.ts:64-72 | the request carries premise, genre, tone and length; themes are present iff the twist is on, and are then `["plot twist"]` |
| StoryGeneratorHook.StoryGenerator.constructor | src/features/story-generator/hooks/useStoryGenerator.ts:21-27 | default options, empty content, not generating, and the history loaded from the user's key |
| StoryGeneratorHook.StoryGenerator.SyncFromBackend | src/features/story-generator/hooks/useStoryGenerator.ts:29-54 | content and options are reset; a fetched list replaces the history and is stored; a failed fetch keeps the locally stored list and writes nothing |
| StoryGeneratorHook.StoryGenerator.SetHistory | src/features/story-generator/hooks/useStoryGenerator.ts:88-89 | the history becomes the list and storage holds it under the user's key; options, content and the busy flag are unchanged |
| StoryGeneratorHook.StoryGenerator.RecordDraft | src/features/story-generator/hooks/useStoryGenerator.ts:77-103 | content becomes the local item's draft; the history becomes the recorded list, that item first and reconciled with the saved item when the save succeeds; storage holds that same list |
| StoryGeneratorHook.StoryGenerator.OnGenerate | src/features/story-generator/hooks/useStoryGenerator.ts:60-147 | remote draft, else offline draft plus fallback note, each recorded in history and storage; when the fallback fails too, the error text with history and storage unchanged; not generating afterwards |
| StoryGeneratorHook.StoryGenerator.RecoverOffline | src/features/story-generator/hooks/useStoryGenerator.ts:104-143 | the offline draft plus the fallback note is shown and recorded like a remote draft; when the offline generator fails, the error text is shown and history and storage are unchanged |
| StoryGeneratorHook.StoryGenerator.OnLoadHistory | src/features/story-generator/hooks/useStoryGenerator.ts:149-152 | options and content come from the item; the history is unchanged |
| StoryGeneratorHook.StoryGenerator.OnClearHistory | src/features/story-generator/hooks/useStoryGenerator.ts:154-160 | the history is empty, and storage holds an empty list under the user's key |
| StoryGeneratorHook.StoryGenerator.OnDeleteHistoryItem | src/features/story-generator/hooks/useStoryGenerator.ts:162-169 | the history drops exactly the entries with that id, and storage receives the same list |
| Asi1Service.BaseUrlFrom | src/shared/services/asi1Service.ts:41-43 | no configured URL gives the empty base; otherwise the base is the trimmed URL, less its last character exactly when that character is a slash |
| Asi1Service.TrailingSlashIgnored | src/shared/services/asi1Service.ts:43 | a URL and the same URL followed by a slash give the same base, the URL itself |
| Asi1Service.RequestUrlIsConcatenation | src/shared/services/asi1Service.ts:99 | the requested URL is always the base followed by the endpoint |
| Asi1Service.ReplyText | src/shared/services/asi1Service.ts:206 | the reply is never empty and is the content whenever the content is non-empty |
| Asi1Service.SizeAllConcat | src/shared/services/asi1Service.ts:74-87 | the count of requests, spawned ones included, is additive over queue concatenation |
| Asi1Service.AttemptsBounded | src/shared/services/asi1Service.ts:102 | from attempt k on, the loop makes between k+1 and maxRetries+1 attempts in all |
| Asi1Service.FirstDecisiveAttemptDecides | src/shared/services/asi1Service.ts:118-147 | after network failures only, the first attempt that does not fail on the network decides the result |
| Asi1Service.AllAttemptsUnreachable | src/shared/services/asi1Service.ts:131-145 | when every attempt fails on the network, the result is the "Unable to reach the AI backend" error after the last attempt |
| Asi1Service.HttpErrorIsNotRetried | src/shared/services/asi1Service.ts:118-132 | an HTTP error on the first attempt whose body is not the JSON `null` is the result after one attempt, and its message carries the status |
| Asi1Service.ApiErrorMessageCarriesStatus | src/shared/services/asi1Service.ts:122-124 | the message of an HTTP error contains the decimal status |
| Asi1Service.NetworkFailureIsRetriedOnce | src/shared/services/asi1Service.ts:118-145 | a network-class failure on the first attempt (a fetch `TypeError` or `DOMException`, or an HTTP error whose body is `null`) causes exactly one more attempt, which decides the result |
| Asi1Service.EmptyErrorBodyUsesStatusText | src/shared/services/asi1Service.ts:121-123 | an empty or unparsable body, or a falsy `error` member, makes the message "API Error: <status> - <statusText>", and a truthy member would change it |
| Asi1Service.DrainOrderLevels | src/shared/services/asi1Service.ts:74-87 | draining a queue runs the queue first and then what it spawned; draining is first-in-first-out |
| Asi1Service.DrainStartsWithQueue | src/shared/services/asi1Service.ts:74-87 | a drain runs the queued requests first, in queue order |
| Asi1Service.DrainRunsEveryRequestOnce | src/shared/services/asi1Service.ts:55-87 | a drain runs as many thunks as were queued or spawned, none skipped, none repeated |
| Asi1Service.Asi1Client.constructor | src/shared/services/asi1Service.ts:35-46 | the base URL comes from the configured proxy URL; the queue is empty and no drain is running |
| Asi1Service.Asi1Client.Call | src/shared/services/asi1Service.ts:94-154 | the URL is the base plus the endpoint, and the result and attempt count are those of the attempt specification |
| Asi1Service.Asi1Client.GenerateStory | src/shared/services/asi1Service.ts:159-182 | the request is posted to the base URL followed by "/api/stories/generate", and the result follows the attempt specification after one or two attempts |
| Asi1Service.Asi1Client.SendChatMessage | src/shared/services/asi1Service.ts:187-210 | the history is sent with the user turn appended; success gives the reply text, otherwise the call's error |
| Asi1Service.Asi1Client.QueueRequest | src/shared/services/asi1Service.ts:51-65 | during a drain the request is only appended; otherwise the queue drains with the request last |
| Asi1Service.Asi1Client.ProcessQueue | src/shared/services/asi1Service.ts:70-89 | no-op while a drain runs; otherwise every queued and spawned thunk runs in drain order, the queue ends empty and the flag is cleared |
| BackendProxy.Nullish | backend/asi1-proxy.js:75 | `a ?? b` is `a` unless `a` is undefined or null |
| BackendProxy.RequireUserId | backend/asi1-proxy.js:74-84 | accepted iff the query id (or else the body id) is a string that is not blank; the id is then the trimmed value, otherwise the reply is 400 "userId is required" |
| BackendProxy.QueryUserIdWins | backend/asi1-proxy.js:75 | when the query has a user id the body is not consulted |
| BackendProxy.ResponseDeterminesOwnedRecord | backend/asi1-proxy.js:86-94 | within one user, the response shape loses nothing of a record |
| BackendProxy.Responses | backend/asi1-proxy.js:119 | the listing maps each record to its response |
| BackendProxy.Owned | backend/asi1-proxy.js:114 | only that user's records, in collection order |
| BackendProxy.Disowned | backend/asi1-proxy.js:200 | only other users' records, in collection order |
| BackendProxy.ClearIsScopedToOwner | backend/asi1-proxy.js:200 | after a clear the user owns nothing, and every other user's records are unchanged |
| BackendProxy.OwnedCounts | backend/asi1-proxy.js:114 | the user's records keep their multiplicity in the filtered list, other records are absent |
| BackendProxy.InsertByDate | backend/asi1-proxy.js:115 | insertion into a newest-first list keeps it newest-first and adds exactly the record |
| BackendProxy.SortNewestFirst | backend/asi1-proxy.js:115 | the result is newest-first and a permutation of the input |
| BackendProxy.ListingShape | backend/asi1-proxy.js:114-117 | the user's own records, newest first, each from the collection, as many as the smaller of 50 and what the user owns; all of them when there are at most 50, otherwise none left out is newer than the last one listed |
| BackendProxy.FindOwned | backend/asi1-proxy.js:176 | the index of the first record matching both id and user, or none when no record matches |
| BackendProxy.DeleteIsScopedToOwner | backend/asi1-proxy.js:176 | deleting one user's record leaves every other user's records unchanged |
| BackendProxy.DeletedIdIsGone | backend/asi1-proxy.js:176 | with distinct ids, the deleted id is gone from the collection |
| BackendProxy.StoryStore.constructor | backend/asi1-proxy.js:60-72 | the store starts with the given connection state and records |
| BackendProxy.StoryStore.ListStories | backend/asi1-proxy.js:105-127 | 503 when disconnected, then the 400 of the id check, else the user's listing in response shape |
| BackendProxy.StoryStore.CreateStory | backend/asi1-proxy.js:129-160 | 503, then 400 for the id, then 400 unless options are truthy and content and snippet are strings; else one record is appended and 201 returns it |
| BackendProxy.StoryStore.DeleteStory | backend/asi1-proxy.js:162-189 | 503, 400 for the user id, 400 for an empty id; 404 with nothing removed when the user has no such record; else 204 with exactly the first match removed |
| BackendProxy.StoryStore.DeleteOwned | backend/asi1-proxy.js:176-181 | 404 with nothing removed when the user has no record with that id; otherwise 204 with exactly the first such record removed |
| BackendProxy.StoryStore.ClearStories | backend/asi1-proxy.js:191-209 | 503, 400 for the id, else 204 with all and only that user's records removed |
| BackendProxy.MaxTokens | backend/asi1-proxy.js:243 | 500 for short, 1500 for medium, 3000 for any other length |
| BackendProxy.CompletionFor | backend/asi1-proxy.js:230-245 | the completion budget follows the length and the user prompt is "Story prompt: " and the prompt |
| BackendProxy.DropHashesShape | backend/asi1-proxy.js:260 | removes exactly the leading run of '#': the rest is the end of the input, does not start with '#', and everything before it is '#' |
| BackendProxy.StripHeading | backend/asi1-proxy.js:260 | a line not starting with '#' is unchanged; a heading line loses at least one character and does not start with whitespace afterwards |
| BackendProxy.StripHeadingIsSuffix | backend/asi1-proxy.js:260 | what is kept is the end of the line |
| BackendProxy.StripHeadingShape | backend/asi1-proxy.js:260 | on a heading line, what is removed is the whole leading run of '#' followed by whitespace only |
| BackendProxy.HeadingStripped | backend/asi1-proxy.js:260 | hashes, then whitespace, then text not starting with whitespace (nor with '#' when no whitespace came between) strips to that text |
| BackendProxy.HeadingMarkerDropped | backend/asi1-proxy.js:260 | a "# " heading gives back its text |
| BackendProxy.TitleLine | backend/asi1-proxy.js:260 | the title of a line is never empty and is a single line |
| BackendProxy.ParseCompletionAtFirstLine | backend/asi1-proxy.js:258-261 | the completion splits at its first line break: the title comes from the first line alone, the story is the rest trimmed, and empty when there is no line break |
| BackendProxy.HeadingTitleRoundTrip | backend/asi1-proxy.js:258-261 | a markdown heading `#…# title` on the first line gives back the bare title, or "Untitled Story" when the heading has no text, and the rest trimmed as the story |
| BackendProxy.ParseCompletionRoundTrip | backend/asi1-proxy.js:258-261 | a plain first-line title followed by a body parses back to that title and the trimmed body |
| BackendProxy.Generate | backend/asi1-proxy.js:212-280 | no key: 400 and no upstream call; otherwise the call carries the length's budget, and an upstream error status is passed through with its body as details |
| BackendProxy.EmptyCompletionIsUntitled | backend/asi1-proxy.js:258-261 | an OK reply without content gives an empty story titled "Untitled Story" |
| AuthService.NormalizeEmail | src/features/auth/services/authService.ts:5-7 | the normal form has no whitespace at either end and no capital letter, and is empty iff the address is blank |
| AuthService.ToLowerIdempotent | src/features/auth/services/authService.ts:6 | lower-casing twice is lower-casing once |
| AuthService.NormalizeEmailIdempotent | src/features/auth/services/authService.ts:5-7 | a normalised address is its own normal form |
| AuthService.ValidatePassword | src/features/auth/services/authService.ts:26-30 | the length error is raised iff the password has fewer than 6 characters |
| AuthService.FindByEmail | src/features/auth/services/authService.ts:44 | none iff no user has the address; otherwise a registered user with that address |
| AuthService.FindByEmailIsFirst | src/features/auth/services/authService.ts:44 | when several users share the address, the lookup returns the earliest of them |
| AuthService.NewUser | src/features/auth/services/authService.ts:49-55 | the new user's address is in normal form, and name and password have no whitespace at either end |
| AuthService.SignupError | src/features/auth/services/authService.ts:33-47 | the required-fields error comes first, then the length error, then the duplicate error; signup is accepted iff all checks pass |
| AuthService.PrependFreshEmail | src/features/auth/services/authService.ts:57 | prepending a user with a new address keeps addresses distinct |
| AuthService.SignupKeepsEmailsUnique | src/features/auth/services/authService.ts:43-57 | a successful signup keeps the registry's addresses distinct and stores a normalised address |
| AuthService.LoginResult | src/features/auth/services/authService.ts:63-83 | the fields error, then unknown address, then wrong password; success returns a registered user with that normalised address and password |
| AuthService.LoginAfterSignup | src/features/auth/services/authService.ts:32-83 | logging in with the credentials just signed up with returns the new user |
| AuthService.LoginIgnoresEmailForm | src/features/auth/services/authService.ts:64 | login gives the same answer for an address and its normal form |
| AuthService.SignupWithCredentials | src/features/auth/services/authService.ts:32-61 | a refused signup throws its error and writes nothing; an accepted one stores the new user before the old list and returns its session |
| AuthService.LoginWithCredentials | src/features/auth/services/authService.ts:63-83 | the login error, or the matching user's session; the registry is only read |
| AuthSessionHook.AuthSessionState.constructor | src/features/auth/hooks/useAuthSession.ts:7-12 | the stored session (or none), not busy, no error |
| AuthSessionHook.AuthSessionState.Login | src/features/auth/hooks/useAuthSession.ts:14-28 | true iff login succeeds, and then the session is installed and stored; otherwise the session and storage are kept and the error is recorded; not busy afterwards |
| AuthSessionHook.AuthSessionState.Signup | src/features/auth/hooks/useAuthSession.ts:30-44 | true iff signup is accepted, and then the user and the session are stored and the session installed; otherwise nothing is written and the error is recorded; not busy afterwards |
| AuthSessionHook.AuthSessionState.Logout | src/features/auth/hooks/useAuthSession.ts:46-49 | no session, none stored, and not authenticated |
| ChatInterface.Excerpt | src/features/story-generator/components/ChatInterface.tsx:40 | the first 200 characters of the story, or all of it when shorter |
| ChatInterface.GreetingQuotesStory | src/features/story-generator/components/ChatInterface.tsx:40 | the greeting quotes the excerpt right after its lead-in, and contains the whole story when it has at most 200 characters |
| ChatInterface.Conversation | src/features/story-generator/components/ChatInterface.tsx:64-67 | each message is reduced to its role and content, in order |
| ChatInterface.ConversationConcat | src/features/story-generator/components/ChatInterface.tsx:64-67 | the reduction distributes over concatenation |
| ChatInterface.ServiceSeesPanel | src/features/story-generator/components/ChatInterface.tsx:59-72 | the service sends exactly the panel's list with the new user turn added |
| ChatInterface.ChatPanel.constructor | src/features/story-generator/components/ChatInterface.tsx:23-26 | no messages, no input, not loading, no error |
| ChatInterface.ChatPanel.InitGreeting | src/features/story-generator/components/ChatInterface.tsx:35-45 | the greeting is the only message iff the panel is open, empty and has story content; otherwise nothing changes |
| ChatInterface.ChatPanel.HandleSendMessage | src/features/story-generator/components/ChatInterface.tsx:47-91 | whitespace input or a pending send changes nothing; otherwise the earlier list and the raw input are sent, input is cleared, and the list grows by the user turn and the reply or is restored with the error set |
| Asi1StoryGeneratorHook.OrElse | src/features/story-generator/hooks/useASI1StoryGenerator.ts:91 | the value unless it is missing or empty, else the fallback |
| Asi1StoryGeneratorHook.EntryKeyIsDraftKey | src/features/story-generator/hooks/useASI1StoryGenerator.ts:84 | the key the hook writes is the key the draft history is read from |
| Asi1StoryGeneratorHook.NewEntry | src/features/story-generator/hooks/useASI1StoryGenerator.ts:89-100 | title is the response title or the prompt's first 50 characters; themes default to none, token cost to 0; source "asi-1" |
| Asi1StoryGeneratorHook.EntryTitleBound | src/features/story-generator/hooks/useASI1StoryGenerator.ts:91 | without a response title, the title is a prefix of the prompt of at most 50 characters |
| Asi1StoryGeneratorHook.SavedHistoryShape | src/features/story-generator/hooks/useASI1StoryGenerator.ts:102 | the entry is first, at most 50 are kept, and the rest is a prefix of the old array |
| Asi1StoryGeneratorHook.SavedItems | src/features/story-generator/hooks/useASI1StoryGenerator.ts:83-107 | a missing array starts as the entry alone; an array gets the entry prepended, capped to 50; any other stored value is left as it was |
| Asi1StoryGeneratorHook.EntrySavedOverDrafts | src/features/story-generator/hooks/useASI1StoryGenerator.ts:84-102 | saved over a user's drafts, the entry comes first and the drafts follow, so the array is no longer a list of drafts |
| Asi1StoryGeneratorHook.SaveToHistory | src/features/story-generator/hooks/useASI1StoryGenerator.ts:78-107 | storage becomes the saved items for the new entry |
| Asi1StoryGeneratorHook.Asi1StoryGenerator.constructor | src/features/story-generator/hooks/useASI1StoryGenerator.ts:24-28 | empty story, title and error, not generating, zero tokens |
| Asi1StoryGeneratorHook.Asi1StoryGenerator.GenerateStory | src/features/story-generator/hooks/useASI1StoryGenerator.ts:30-63 | on success the story, the title (or "Untitled Story") and the tokens (or 0) are set and the entry is saved; on failure the error is set, the story and title stay reset, tokens and storage are unchanged; not generating afterwards |
| Text.Trim | src/features/auth/services/authService.ts:33-35 | the trimmed string has no whitespace at either end, is no longer than the input, and is empty iff the input is all whitespace |
| Text.TrimIsInner | src/features/auth/services/authService.ts:33-35 | the trimmed string is one contiguous stretch of the input, with only whitespace before and after it |
| Text.TrimKeepsText | src/features/auth/services/authService.ts:33-35 | trimming removes only whitespace |
| Text.TrimOfTrimmed | src/features/auth/services/authService.ts:6 | trimming a string without whitespace at its ends changes nothing |
| Text.ToLower | src/features/auth/services/authService.ts:6 | lower-casing maps each character and leaves no capital letter |
| Text.CollapseShape | src/features/story-generator/hooks/useStoryGenerator.ts:16 | the result's only whitespace is single spaces, never two in a row; it is empty iff the input is, and its ends are whitespace iff the input's are |
| Text.CollapseKeepsText | src/features/story-generator/hooks/useStoryGenerator.ts:16 | collapsing removes only whitespace |
| Text.CollapseConcat | src/features/story-generator/hooks/useStoryGenerator.ts:16 | collapsing distributes over a cut just after a non-space character |
| Text.CollapseRun | src/features/story-generator/hooks/useStoryGenerator.ts:16 | a whitespace run between a non-space character and a non-space character becomes exactly one space |
| Text.CollapseWithoutSpace | src/features/story-generator/hooks/useStoryGenerator.ts:16 | text without whitespace is unchanged by collapsing |
| Text.Split | backend/asi1-proxy.js:259 | at least one piece, no piece contains the separator, and one piece iff the separator does not occur |
| Text.JoinSplit | backend/asi1-proxy.js:259-261 | rejoining the pieces with the separator gives back the text |
| Text.SplitJoin | backend/asi1-proxy.js:259-261 | splitting pieces joined by a separator they lack gives back the pieces |
| Text.NatToStringRoundTrip | src/shared/services/asi1Service.ts:123 | a status numeral reads back as the status |
| Text.NatToStringInjective | src/shared/services/asi1Service.ts:123 | distinct statuses have distinct numerals |
| Lists.PrependCapped | src/features/story-generator/hooks/useStoryGenerator.ts:87 | `[item, ...list].slice(0, cap)`: the item first, the rest a prefix of the list, length the smaller of the cap and the list length plus one |

## Left out

- Rendering, routing and styling are not modelled. Neither are the form, preview and history
  components, nor the login, signup and logout pages.
- The `loadFromStorage`/`saveToStorage` module (src/shared/lib/storage.ts) is not part of
  this model. Loading is taken to return the stored value when it has the expected shape and
  the fallback otherwise; JSON encoding and storage exceptions are left out.
- The thin fetch wrappers (storyHistoryApi.ts, storyApi.ts, storyGateway.ts) enter only as
  outcome parameters of the history methods. Their own conversions are not modelled: a 404
  delete counted as success, a non-array list read as `[]`.
- The `useStoryGenerator` hook calls `asi1Service.generateStory` and `saveStoryHistoryItem`,
  and the model replaces both with result parameters. The hook is therefore not linked to
  `Asi1Client` in the model.
- The fire-and-forget backend calls of `onClearHistory` and `onDeleteHistoryItem` are not
  modelled. They change no local state.
- The offline composer can fail only through a parameter, since `composeStory` itself never
  throws.
- Timers, `AbortController`, the 1-second rate delay and the 500 ms retry pause are left out.
  A timeout is a network-class fetch outcome.
- Asynchronous interleaving is left out, and so are the effect-cancellation flag and the
  intermediate `isGenerating`/`isAuthenticating`/`isLoading` true states. Each modelled
  method runs to completion.
- A queued thunk is abstracted to the requests queued while it is awaited (`spawned`). The
  rate-limit delay and the settling of the caller's promise are not modelled.
- Fresh ids (`crypto.randomUUID`, `Date.now().toString()`) and timestamps are parameters.
- `\s`, `trim` and `toLowerCase` are ASCII-only: space, tab, newline, carriage return,
  vertical tab and form feed count as whitespace. Unicode whitespace and case mapping are
  left out, and so are the surrogate-pair effects of `Array.from`/`charCodeAt` in the hash.
- AuthService.ValidatePassword: lengths count Unicode scalar values, where JavaScript's
  `length` counts UTF-16 code units, so a password with characters outside the Basic
  Multilingual Plane is measured shorter than the source measures it ("😀😀😀" is 3 here, 6 there).
- StoryGeneratorHook.SnippetShape: the 120-character cut counts Unicode scalar values, not
  UTF-16 code units, and so never splits a surrogate pair as `slice` can.
- ChatInterface.Excerpt: the 200-character cut counts Unicode scalar values, not UTF-16 code
  units.
- Asi1StoryGeneratorHook.NewEntry: the 50-character title cut counts Unicode scalar values,
  not UTF-16 code units.
- Asi1Service.ServerError: a truthy `error` member of any JSON type is given by the text it
  renders as in a template string; that rendering (`String(value)`) is not modelled.
- BackendProxy.Generate: `metadata.tokens` (`content.length / 4`) is a float, and it is not
  modelled. The temperature is not modelled either.
- BackendProxy.Generate: for a thrown upstream value that is not an `Error`, the 500 reply's
  `details` (`String(error)`) is left out.
- The 500 catch paths of the four `/api/stories` handlers are not modelled. A database
  failure cannot occur in the in-memory collection.
- Mongoose behaviour is not modelled: the `trim` and `required` schema options, the cast
  error for a malformed `_id`, and the generated ids and `createdAt` (given as parameters).
  The Mongo sort is modelled as a stable newest-first insertion sort.
- The `/api/chat` backend endpoint, `/health`, the Mongo connection and server startup are
  left out. Only the client side of the chat call is modelled.
- Asi1StoryGeneratorHook.Asi1StoryGenerator.GenerateStory: `metadata.tokens` is taken as an
  integer or absent; a non-numeric value is not modelled.
- The timestamps of chat messages are naturals passed in, and a message id is the decimal
  numeral of its timestamp.
- The composer's dawn paragraph carries the mis-encoded dash characters that storyComposer.ts has
  on line 37. They are copied as the three characters found there.

## Notes on the design as written

- The history cap of 15 applies only on the generation path. A successful fetch on mount
  installs whatever the backend returns, which can be up to 50 entries
  (`StoryGenerator.SyncFromBackend`).
- The conflict hash is an additive sum of character codes, so it ignores character order.
  `StoryComposer.ConflictIgnoresFieldOrder` shows that swapping title and premise keeps the
  conflict.
- The ASI-1 hook writes its entries to the same storage key the draft history uses, and that
  history holds drafts of another shape. `Asi1StoryGeneratorHook.EntrySavedOverDrafts` shows
  that after such a save the array is no longer a list of drafts. Under the shape check that
  loading is taken to make (see "## Left out"), `LocalStorage.LoadDrafts` then reads the
  fallback; storage.ts is not part of this model.
