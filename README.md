# Learnverse Telegram bot — a Dafny model of its core

The Learnverse bot lets students browse a catalogue of study material. The
catalogue has four levels: branch, academic year, syllabus pattern and subject.
Every screen is a message with an inline keyboard. Every button carries a short
`callback_data` token, and that token alone says which screen comes next, so the
bot keeps no session. In group chats the bot also listens to plain text. A
language model classifies the text, and when it looks like a request for study
material the bot invites the sender to the private chat. Per-user and per-chat
limiters bound the classifier calls and the replies. A configuration service
with feature flags decides which of these features are on.

This project models that core in Dafny and proves properties of the model:

- `Tokens` (tokens.dfy): the token formats, and the first-match regular
  expressions such as `/year_([^_]+)/` that decode them. The decoders are
  modelled with JavaScript's leftmost, greedy semantics. The lemmas state when
  a token decodes back to its ids, and where decoding goes wrong.
- `Catalog` (catalog.dfy): a catalogue fetch can end four ways: unreachable,
  `success: false`, no `data`, or the data.
- `Materials` (materials.dfy): the materials message of a subject. It is built
  line by line, like the source's `+=` loops, and proved equal to a
  specification function. Lemmas about that function cover the sort order of
  the units, the order of the sections and the "no materials" line.
- `FileSearch` (file_search.dfy): the `/search` command and the five catalogue
  screens, as functions from the callback data and the catalogue to the effects
  the handler performs: answers, fetches, replies and edits with their keyboards.
- `Router` (router.dfy): the `bot.action` prefix dispatch, and the two back
  handlers. A back handler looks up the missing parent id, overwrites
  `ctx.callbackQuery.data` with a forward token and runs the forward handler
  again. This is modelled as a class whose `data` field the handlers reassign.
- `RateLimit` (ratelimit.dfy): the registry of per-user and per-chat limiters.
  It is a class with two maps that are filled lazily. Each new key arms a
  10-minute deletion timer, modelled as an explicit list of pending timers and a
  clock. The class also holds the admission checks and the execute wrappers,
  which map errors.
- `TextMessage` (text_message.dfy): the decision ladder of `handleTextMessage`.
  It is modelled as a specification function `Handle` and as a method over the
  registry and a recorded conversation, proved equal to `Handle`.
- `Config` (config.dfy): the configuration merged over its defaults, and the
  300-second cache, as a class with an explicit `now`.
- `Gemini` (gemini.dfy): trimming, fence stripping and the normalisation of
  the classifier's answer.
- `BotHelpers`, `AuthMiddleware`, `MessageLogger` (bot_helpers.dfy,
  auth_middleware.dfy, message_logger.dfy): the middleware gates, the user
  get-or-create, and the private-chat audit log with its wrapped `reply` and
  `editMessageText`.
- `Js` (js.dfy): the JavaScript semantics the modules share: truthiness, `||`,
  `startsWith`, `includes`, `replace` of the first occurrence, and outcomes
  that return or throw.

What the catalogue API, the configuration API, the language model, the
platform and the database answer are parameters of the model. So are the
current time, the limiter counts and the admission decisions of the limiter
library.

## Model

| member | source | states |
|---|---|---|
| Tokens.Run | src/handlers/file-search-handlers.js:142-146 | the greedy `[^_]+` group: the longest `_`-free prefix, stopping exactly at a `_` or the end |
| Tokens.FirstMatch | src/handlers/file-search-handlers.js:142-146 | the leftmost position at which the pattern can match; no earlier position matches |
| Tokens.Capture | src/handlers/file-search-handlers.js:142-146 | `s.match(/p([^_]+)/)?.[1]` succeeds iff some position matches; a capture is non-empty and has no `_` |
| Tokens.RunStopsAtDelimiter | src/handlers/file-search-handlers.js:142-146 | an `_`-free id followed by `_` or the end is captured whole |
| Tokens.CaptureAt | src/handlers/file-search-handlers.js:142-146 | the first matching position decides the capture |
| Tokens.LeadingIdDecodes | src/handlers/file-search-handlers.js:142-143 | the id right after the leading prefix decodes to itself |
| Tokens.NoEarlyMatch | src/handlers/file-search-handlers.js:144-146 | the second pattern cannot match before the separator when the first id does not end in the second prefix's head |
| Tokens.PairRoundTrip | src/handlers/file-search-handlers.js:142-146 | a two-id token decodes to both of its ids under the side conditions |
| Tokens.YearTokenRoundTrip | src/handlers/file-search-handlers.js:142-146 | `year_{Y}_branch_{B}` decodes to (Y, B) when both are non-empty and `_`-free and Y does not end in `branch` (also line 104) |
| Tokens.SylTokenRoundTrip | src/handlers/file-search-handlers.js:238-242 | `syl_{S}_y_{Y}` decodes to (S, Y) when S does not end in `y` (also line 196) |
| Tokens.SubTokenRoundTrip | src/handlers/file-search-handlers.js:396-400 | `sub_{U}_s_{S}` decodes to (U, S) when U does not end in `s` (also line 301) |
| Tokens.SuffixCollision | src/handlers/file-search-handlers.js:144-146 | the suffix condition is needed: a first id ending in the second prefix's head makes the second capture that head |
| Tokens.NoMatchInsideFirstId | src/handlers/file-search-handlers.js:144-146 | the second pattern has no match inside the first id |
| Tokens.YearIdEndingInBranchMisdecodes | src/handlers/file-search-handlers.js:144-146 | a year id ending in `branch` decodes to the branch id `branch` (also line 104) |
| Tokens.ObjectIdSideConditions | src/handlers/file-search-handlers.js:104 | a 24-character hex ObjectId meets every side condition of the round trips (also lines 196, 301) |
| Tokens.TokensFit | src/handlers/file-search-handlers.js:191-196 | with ObjectIds the tokens are 31, 61, 55, 55, 34, 33 and 16 bytes long, all within the 64-byte limit (also lines 104, 301) |
| Tokens.ObjectIdTokensRoundTrip | src/handlers/file-search-handlers.js:142-146 | with ObjectIds every two-id token decodes to both of its ids (also line 104) |
| Tokens.StripPrefixRoundTrip | src/handlers/file-search-handlers.js:68 | `data.replace("branch_", "")` recovers any branch id |
| Materials.InsertHead | src/handlers/file-search-handlers.js:440-442 | after an insertion the first unit is the inserted one or the old first one |
| Materials.InsertPermutation | src/handlers/file-search-handlers.js:440-442 | an insertion adds exactly the inserted unit: the result is a permutation |
| Materials.InsertSorted | src/handlers/file-search-handlers.js:440-442 | inserting into a list sorted by unit number keeps it sorted |
| Materials.SortByUnitNumber | src/handlers/file-search-handlers.js:440-442 | the sorted units are in ascending unit-number order and are a permutation of the original units |
| Materials.InsertKeepsEqualNumbers | src/handlers/file-search-handlers.js:440-442 | insertion keeps the relative order of units with equal numbers |
| Materials.SortIsStable | src/handlers/file-search-handlers.js:440-442 | the sort is stable: units with equal numbers keep their original order |
| Materials.AppendFileLinks | src/handlers/file-search-handlers.js:447-450 | the loop appends exactly one link line per file, in order |
| Materials.AppendFileSection | src/handlers/file-search-handlers.js:458-502 | a file section appears iff its list is non-empty, and sets `hasContent` exactly then |
| Materials.AppendUnit | src/handlers/file-search-handlers.js:444-451 | a unit with files shows its heading and its links; a unit without files adds nothing |
| Materials.AppendNotesSection | src/handlers/file-search-handlers.js:436-455 | the notes section lists the units of a sorted copy, skipping units without files |
| Materials.AppendFileSections | src/handlers/file-search-handlers.js:458-502 | the four file sections are appended in the order InSem, EndSem, Decodes, Books, and `hasContent` tells whether any is non-empty |
| Materials.BuildMaterialsMessage | src/handlers/file-search-handlers.js:428-506 | the step-by-step builder produces exactly the specified materials message |
| Materials.HeadingsAppend | src/handlers/file-search-handlers.js:428-506 | the section headings and unit numbers of a concatenation are those of its parts |
| Materials.FileLinksShowNoStructure | src/handlers/file-search-handlers.js:447-450 | link lines hold no heading, no unit and no "no materials" line |
| Materials.UnitsLinesShowUnits | src/handlers/file-search-handlers.js:444-452 | the unit lines show exactly the numbers of the units with files |
| Materials.NumbersWithFilesBounded | src/handlers/file-search-handlers.js:444-446 | skipping units keeps every shown number within the original bound |
| Materials.NumbersWithFilesSorted | src/handlers/file-search-handlers.js:440-446 | the shown unit numbers of a sorted list are ascending |
| Materials.PlainLines | src/handlers/file-search-handlers.js:428-430 | lines that are neither headings nor unit headings contribute no structure |
| Materials.FileSectionShows | src/handlers/file-search-handlers.js:458-502 | a file section contributes its heading iff it has files, and no unit numbers |
| Materials.NotesSectionShows | src/handlers/file-search-handlers.js:436-455 | the notes section contributes the Notes heading iff there are units, then the ascending numbers of the units with files |
| Materials.FileSectionsShow | src/handlers/file-search-handlers.js:458-502 | the four file sections show exactly the headings of the non-empty lists, in order |
| Materials.MaterialsMessageParts | src/handlers/file-search-handlers.js:428-506 | the message is header, notes, file sections and the optional "no materials" line |
| Materials.MaterialsHeadingsInOrder | src/handlers/file-search-handlers.js:436-502 | the sections appear in the order Notes, InSem, EndSem, Decodes, Books, each iff it has content |
| Materials.MaterialsUnitsAscending | src/handlers/file-search-handlers.js:440-455 | the units shown are the units with files, by ascending unit number |
| Materials.MaterialsMessage | src/handlers/file-search-handlers.js:504-506 | the "No materials" line appears iff the units and all four file lists are empty |
| FileSearch.BranchListOutcome | src/handlers/file-search-handlers.js:23-42 | a failure reply or an empty-list reply, both without a keyboard, or one row per branch in catalogue order opening that branch |
| FileSearch.SearchCommand | src/handlers/file-search-handlers.js:14-62 | `/search` fetches the branch list and always replies with a new message |
| FileSearch.BackToBranchesScreen | src/handlers/file-search-handlers.js:341-387 | `back_to_branches` answers, fetches the branch list, and edits the message iff the list is non-empty |
| FileSearch.BranchOutcome | src/handlers/file-search-handlers.js:76-113 | failure and not-found replies; no years gives a plain warning; otherwise one row per year plus one trailing Back row to the branch list |
| FileSearch.BranchSelection | src/handlers/file-search-handlers.js:67-133 | the callback is answered before the one fetch; the screen shown is the outcome of the branch fetched, which for data starting with `branch_` is the rest of the data |
| FileSearch.YearOutcome | src/handlers/file-search-handlers.js:159-207 | failure and not-found replies; no syllabuses gives a plain warning; otherwise one row per pattern plus a Back row to the decoded branch, or to the branch list |
| FileSearch.YearScreen | src/handlers/file-search-handlers.js:138-228 | without a decodable year id it only answers "Invalid data" and fetches nothing; it fetches exactly when the year id decodes |
| FileSearch.YearSelection | src/handlers/file-search-handlers.js:138-228 | answered first; a fetch happens iff `year_` decodes, and then it is of the decoded year, whose outcome is shown with the Back row built from the decoded branch |
| FileSearch.SyllabusOutcome | src/handlers/file-search-handlers.js:256-312 | failure and not-found replies; no subjects gives an edited screen with exactly one Back button; otherwise one row per subject plus a Back row |
| FileSearch.SyllabusScreen | src/handlers/file-search-handlers.js:233-336 | without a decodable syllabus id it only answers "Invalid data" and fetches nothing; it fetches exactly when the syllabus id decodes |
| FileSearch.FileDetails | src/handlers/file-search-handlers.js:233-336 | answered first; a fetch happens iff `syl_` decodes, and then it is of the decoded syllabus, whose outcome is shown with the Back row built from the decoded year |
| FileSearch.MaterialsKeyboard | src/handlers/file-search-handlers.js:509-524 | always exactly two rows: Back to Subjects (to the decoded syllabus, or the branch list) and Start Over |
| FileSearch.SubjectOutcome | src/handlers/file-search-handlers.js:414-524 | failure and not-found replies, or the materials message with the two-row keyboard |
| FileSearch.SubjectScreen | src/handlers/file-search-handlers.js:391-541 | without a decodable subject id it only answers "Invalid data" and fetches nothing; it fetches exactly when the subject id decodes |
| FileSearch.SubjectDetails | src/handlers/file-search-handlers.js:391-541 | answered first; a fetch happens iff `sub_` decodes, and then it is of the decoded subject, whose materials are shown with the Back button built from the decoded syllabus |
| FileSearch.BranchButtonOpensBranch | src/handlers/file-search-handlers.js:37-42 | the i-th branch button opens the i-th branch (also lines 67-68) |
| FileSearch.YearButtonOpensYear | src/handlers/file-search-handlers.js:142-146 | a year button opens that year, and that year's Back button shows the same branch's screen again (also lines 101-106, 202-207) |
| FileSearch.PatternButtonOpensSyllabus | src/handlers/file-search-handlers.js:238-242 | a pattern button opens that syllabus, and its Back button carries the year (also lines 192-199, 307-312) |
| FileSearch.SubjectButtonOpensSubject | src/handlers/file-search-handlers.js:396-400 | a subject button opens that subject's materials screen, with the syllabus decoded for its Back button (also lines 297-304) |
| Router.Dispatch | src/services/telegraf.js:39-92 | the route chosen matches the data, and no route is chosen only when none matches |
| Router.Distinguish | src/services/telegraf.js:39-64 | any two different triggers differ at some position within both |
| Router.TriggersExclusive | src/services/telegraf.js:39-92 | no callback data matches two routes |
| Router.DispatchIsTheOnlyMatch | src/services/telegraf.js:39-92 | the dispatched route is exactly the route whose trigger matches, so registration order never matters |
| Router.TokensReachTheirHandlers | src/services/telegraf.js:39-92 | every token the screens build reaches its own handler; `back_year_…` does not match `^year_` |
| Router.BackSyl | src/services/telegraf.js:67-89 | an exception only answers "An error occurred"; a missing year apologises and points to /search; otherwise it runs the syllabus screen on `syl_{S}_y_{Y}` |
| Router.BackYear | src/services/telegraf.js:92-115 | the same for `back_year_`: apology, error answer, or the year screen on `year_{Y}_branch_{B}` |
| Router.RouteEffects | src/services/telegraf.js:39-115 | every registered action answers the callback query, on every path including the back handlers' failures |
| Router.Handled | src/services/telegraf.js:39-115 | data no action matches has no effect at all; any routed data is answered |
| Router.DataAfter | src/services/telegraf.js:77-80 | only a back handler whose lookup found the parent rewrites the data, and the new data is taken by the forward action (`syl_` after `back_syl_`, `year_` after `back_year_`); an exception leaves it unchanged (also lines 102-105) |
| Router.CallbackContext.constructor | src/services/telegraf.js:39-64 | a context carries the callback data and has no effects yet |
| Router.FileDetailsHandler | src/services/telegraf.js:50-54 | reads the data from the context and leaves it unchanged |
| Router.YearSelectionHandler | src/services/telegraf.js:44-48 | reads the data from the context and leaves it unchanged |
| Router.BackSylHandler | src/services/telegraf.js:67-89 | overwrites the data with `syl_{S}_y_{Y}` exactly when the year was found, then re-runs the forward handler |
| Router.BackYearHandler | src/services/telegraf.js:92-115 | overwrites the data with `year_{Y}_branch_{B}` exactly when the branch was found, then re-runs the forward handler |
| Router.HandleCallback | src/services/telegraf.js:39-115 | the imperative dispatch performs the specified effects and leaves the specified data |
| Router.BackSylTokenRunsBackSyl | src/services/telegraf.js:67-80 | a `back_syl_{S}` token runs the back handler on S and rewrites the data to the forward token |
| Router.BackYearTokenRunsBackYear | src/services/telegraf.js:92-106 | a `back_year_{Y}` token runs the back handler on Y and rewrites the data to the forward token |
| Router.BackToSubjectsReturns | src/services/telegraf.js:67-80 | when the syllabus lookup carries a year id, Back to Subjects fetches the syllabus and shows its subjects again with that year decoded, and the data becomes `syl_{S}_y_{Y}` |
| Router.BackSylRoutes | src/services/telegraf.js:67 | `back_syl_` tokens are dispatched to the back-syllabus route |
| Router.BackYearRoutes | src/services/telegraf.js:92 | `back_year_` tokens are dispatched to the back-year route |
| Router.BackToPatternsReturns | src/services/telegraf.js:92-106 | when the year lookup carries a branch id, Back to Patterns fetches the year and shows its patterns again with that branch decoded, and the data becomes `year_{Y}_branch_{B}` |
| Router.FailedBackNavigationStops | src/services/telegraf.js:81-88 | a missing parent only apologises and no forward handler runs; an exception only answers "An error occurred" (also lines 107-114) |
| RateLimit.Limiter.constructor | src/services/rate-limit-service.js:44-52 | a new limiter has its policy and nothing executing or queued (also lines 70-78) |
| RateLimit.MapScheduleError | src/services/rate-limit-service.js:137-145 | success is kept as is; a failure stays a failure; a rejection mentioning "rate limit" becomes `RATE_LIMITED`, any other passes unchanged, and no failure that comes out mentions "rate limit", so mapping twice is mapping once (also lines 199-207) |
| RateLimit.DueCount | src/services/rate-limit-service.js:82-85 | the timers due at `now` form a prefix of the pending timers (also lines 56-59) |
| RateLimit.Registry.constructor | src/services/rate-limit-service.js:9-37 | both maps empty, no timers, and the two global limiters with their policies |
| RateLimit.Registry.GetUserLimiter | src/services/rate-limit-service.js:44-63 | a known key returns the same limiter and changes nothing; a new key adds exactly that key with the 5/60 s, 1, 2000 ms policy and arms one timer 10 minutes ahead |
| RateLimit.Registry.GetChatLimiter | src/services/rate-limit-service.js:70-89 | the same for chats with the 15/60 s, 3, 1000 ms policy |
| RateLimit.Registry.CanMakeAiQuery | src/services/rate-limit-service.js:95-120 | true when disabled or when counting fails, otherwise false iff EXECUTING ≥ 1 or QUEUED > 0; when enabled a known user changes nothing, and a new user gets a fresh idle limiter with the user policy and one eviction timer 10 minutes ahead, all other limiters unchanged (also lines 44-63) |
| RateLimit.Registry.CanRespondInChat | src/services/rate-limit-service.js:153-182 | the same for chats, with EXECUTING ≥ 3 or QUEUED > 2, the chat policy and a chat eviction timer (also lines 70-89) |
| RateLimit.Registry.ExecuteAiQuery | src/services/rate-limit-service.js:128-146 | disabled runs the query function directly; enabled schedules it and maps a rate-limit error to `RATE_LIMITED`, rethrowing the rest; registers the user as `getUserLimiter` does, arming its eviction timer only for a new user |
| RateLimit.Registry.ExecuteResponse | src/services/rate-limit-service.js:190-208 | the same for chat responses and the chat limiters |
| RateLimit.Registry.GetStats | src/services/rate-limit-service.js:214-227 | the two map sizes and the counts of the two global limiters |
| RateLimit.Registry.ClearAll | src/services/rate-limit-service.js:232-236 | both maps emptied; armed timers stay pending |
| RateLimit.Registry.EvictUser | src/services/rate-limit-service.js:56-59 | the timer callback deletes exactly that user key |
| RateLimit.Registry.EvictChat | src/services/rate-limit-service.js:82-85 | the timer callback deletes exactly that chat key |
| RateLimit.Registry.Fire | src/services/rate-limit-service.js:56-59 | a timer's callback deletes exactly its own key from its own map (also lines 82-85) |
| RateLimit.Registry.FireDue | src/services/rate-limit-service.js:82-85 | the due timers' keys are deleted, in order, and nothing else changes (also lines 56-59) |
| RateLimit.Registry.AdvanceClock | src/services/rate-limit-service.js:82-85 | time passes; every timer due by then fires, in order, whether or not its limiter was used; advancing 10 minutes or more empties both maps (also lines 56-59) |
| RateLimit.RateLimitedNotRemapped | src/services/rate-limit-service.js:137-145 | `RATE_LIMITED` does not contain the lower-case "rate limit", so an already mapped error is not taken for a limiter's rejection again |
| RateLimit.ClearedAfterUse | src/services/rate-limit-service.js:232-236 | after one use of user 42 and a clear both maps are empty while the timer armed by that use is still pending (also lines 44-63) |
| RateLimit.ClearedKeyEvictedEarly | src/services/rate-limit-service.js:232-236 | after `clearAllLimiters`, a user key created again is deleted by the old timer less than 10 minutes after its creation (also lines 56-59) |
| RateLimit.ArmKeepsOrdered | src/services/rate-limit-service.js:56-59 | a timer armed one eviction delay from now keeps the pending timers in firing order (also lines 82-85) |
| RateLimit.DropFiredKeepsOrdered | src/services/rate-limit-service.js:82-85 | once the due timers have fired the rest are still ordered, and after a whole eviction delay none is left (also lines 56-59) |
| RateLimit.KeysSplit | src/services/rate-limit-service.js:82-85 | the keys the timers delete split over any prefix (also lines 56-59) |
| RateLimit.UserKeysAppend | src/services/rate-limit-service.js:80-85 | arming one more timer adds exactly its key (also lines 54-59) |
| Config.Merge | src/services/config-service.js:43-51 | every response field overrides its default and the other defaults stay; the flags are merged key by key, so an omitted default flag keeps its value |
| Config.Accepted | src/services/config-service.js:43 | only an answered request with a truthy `success` and a `data` object is used; a failed request never is |
| Config.Resolve | src/services/config-service.js:43-68 | whatever the response, the result has a version and every default flag; a response that is not accepted gives the defaults; an accepted one adds its own flags to the default ones |
| Config.FlagValue | src/services/config-service.js:76-79 | the flag's value, or false when it is absent or null |
| Config.Version | src/services/config-service.js:117-120 | `config.version` when truthy, "1.0.0" otherwise; never falsy |
| Config.Live | src/services/config-service.js:29-33 | an entry is served only while at most 300 seconds old, and never after (also line 7) |
| Config.Served | src/services/config-service.js:26-69 | within 300 seconds of storing, the cached configuration is served whatever the API would answer; later, or with nothing cached, the response decides; what is served keeps the version and the default flags |
| Config.ConfigService.constructor | src/services/config-service.js:7 | the cache starts empty |
| Config.ConfigService.FetchTelegramConfig | src/services/config-service.js:26-69 | a hit returns the cached config without a request; a miss makes one request and caches only an accepted merge |
| Config.ConfigService.GetFeatureFlag | src/services/config-service.js:76-79 | the flag of the served configuration, or false; the cache and the request count change as one fetch changes them, so a read within the TTL makes no request |
| Config.ConfigService.IsAiQueryDetectionEnabled | src/services/config-service.js:85-87 | the `aiQueryDetection` flag of the served configuration, with the cache effect of one fetch |
| Config.ConfigService.IsGroupChatRepliesEnabled | src/services/config-service.js:93-95 | the `groupChatReplies` flag of the served configuration, with the cache effect of one fetch |
| Config.ConfigService.IsRateLimitingEnabled | src/services/config-service.js:101-103 | the `rateLimiting` flag of the served configuration, with the cache effect of one fetch |
| Config.ConfigService.ClearConfigCache | src/services/config-service.js:108-111 | after clearing, the next fetch resolves a fresh response whatever the time |
| Config.ConfigService.GetBotVersion | src/services/config-service.js:117-120 | the version of the served configuration, or "1.0.0", with the cache effect of one fetch |
| Config.FailureEnablesEverything | src/services/config-service.js:58-68 | when the API cannot be used, all three flags read true (also lines 13-20) |
| Config.MergedFlag | src/services/config-service.js:47-50 | an omitted flag keeps its default true; a null flag reads false; any other value reads as itself (also lines 76-79) |
| Config.MergedVersion | src/services/config-service.js:43-51 | the reported version is the response's when truthy, otherwise "1.0.0" (also lines 117-120) |
| Gemini.TrimStart | src/services/gemini-service.js:75 | drops exactly the leading JavaScript white space |
| Gemini.TrimEnd | src/services/gemini-service.js:75 | drops exactly the trailing JavaScript white space |
| Gemini.Trim | src/services/gemini-service.js:75 | `text.trim()` is a slice of the text with no white space at either end |
| Gemini.StripAll | src/services/gemini-service.js:77-79 | the global replace never lengthens the text |
| Gemini.LeadingTicks | src/services/gemini-service.js:76-79 | counts the backticks the text starts with |
| Gemini.StripKeepsShortLead | src/services/gemini-service.js:77-79 | a leading run of fewer than three backticks survives the removal unchanged |
| Gemini.ConsFence | src/services/gemini-service.js:77-79 | prefixing one character creates a fence only on a run of two backticks |
| Gemini.StripAllRemovesFences | src/services/gemini-service.js:77-79 | after the global removal of "```\n?" no three backticks remain |
| Gemini.IncludesFence | src/services/gemini-service.js:76-79 | `includes("```")` holds exactly where three backticks occur |
| Gemini.CleanFences | src/services/gemini-service.js:75-80 | a text whose trimmed form starts with a fence keeps no "```" at all; any other text is only trimmed |
| Gemini.StripAllKeepsPlainPrefix | src/services/gemini-service.js:77-79 | text in which the pattern cannot begin passes through the global replace untouched, in front of whatever follows |
| Gemini.StripAllKeepsPlain | src/services/gemini-service.js:77-79 | a text in which the pattern cannot begin anywhere is kept as it is |
| Gemini.StripAllKeepsShort | src/services/gemini-service.js:77-79 | a text shorter than the pattern is kept as it is |
| Gemini.ClosingFence | src/services/gemini-service.js:77-79 | after the body, the `json` pattern leaves a closing fence alone and the plain pattern removes it, keeping the newline before it |
| Gemini.OpeningFence | src/services/gemini-service.js:77-79 | the opening fence is removed together with the newline after it |
| Gemini.JsonFencedRoundTrip | src/services/gemini-service.js:74-80 | the JSON the classifier wraps in a ```json fence is recovered whole, followed by one newline, whenever it holds no backtick |
| Gemini.PlainFencedRoundTrip | src/services/gemini-service.js:74-80 | the same for a plain ``` fence, whatever the wrapped text starts with (`json` included) |
| Gemini.Normalize | src/services/gemini-service.js:84-88 | `isQuery || false`, `confidence || 0`, `reasoning || "No reasoning provided"`: truthiness kept, reasoning always truthy |
| Gemini.NormalizeIdempotent | src/services/gemini-service.js:84-88 | normalising a normalised answer changes nothing |
| Gemini.Detect | src/services/gemini-service.js:26-100 | not configured, API error and parse error give their fixed answers; otherwise the normalised parse of the cleaned text |
| Gemini.FailuresAreNotQueries | src/services/gemini-service.js:89-99 | every failure answers isQuery false and confidence 0, with a truthy reasoning (also lines 28-35) |
| Gemini.IsQueryDetectionEnabled | src/services/gemini-service.js:106-108 | true iff an API key is set and initialisation did not throw; when false every detection is "Gemini not configured" (also lines 9-19) |
| TextMessage.MeetsThreshold | src/handlers/text-message-handler.js:82 | a confidence that meets 60 is truthy; `null`, `false` and `true` never meet it |
| TextMessage.Caught | src/handlers/text-message-handler.js:177-191 | at most one error is logged per update; `RATE_LIMITED` never is, and every other error is |
| TextMessage.Respond | src/handlers/text-message-handler.js:100-170 | at most one reply; the lunch-time reply is sent only in a private chat |
| TextMessage.ChatStage | src/handlers/text-message-handler.js:90-176 | a refused chat admission sends nothing; a non-query sends nothing and raises the `detection` ReferenceError; at most one reply |
| TextMessage.Classification | src/handlers/text-message-handler.js:76-78 | the classifier's answer, or the user limiter's error mapped to `RATE_LIMITED` when it mentions "rate limit" |
| TextMessage.Screening | src/handlers/text-message-handler.js:19-88 | the gates before the chat check: a private message goes on and is answered without classification; in a group only an admitted user with both flags on is classified; going on means no error so far; a group answer needs a query detection; at most one logged error, never `RATE_LIMITED` |
| TextMessage.Handle | src/handlers/text-message-handler.js:19-192 | the ladder: skipped text does nothing; checks and classification only in groups with both flags on; a reply needs chat admission; at most one reply; the group invitation needs a query detection; lunch time only in private chats |
| TextMessage.Conversation.constructor | src/handlers/text-message-handler.js:19 | no classifier call, reply or logged error yet |
| TextMessage.RespondInChat | src/handlers/text-message-handler.js:90-176 | the imperative chat stage performs the replies and errors of `ChatStage`; when enabled the chat is registered, and a new chat gets exactly one eviction timer 10 minutes ahead while a known one leaves the chats and timers as they were; users untouched |
| TextMessage.HandleTextMessage | src/handlers/text-message-handler.js:19-192 | the imperative handler makes the classifier calls, replies and logged errors that `Handle` specifies against the admission state before the call, and registers exactly the user and chat keys that were checked, arming one eviction timer per new key, user first |
| TextMessage.ClassifyInGroup | src/handlers/text-message-handler.js:63-83 | the classifier runs only when the user is admitted; a refused or rejected user stops the handler; a query answer is exactly a truthy `isQuery` with confidence ≥ 60; a new user gets one eviction timer, a known one leaves users and timers unchanged |
| TextMessage.Deliver | src/handlers/text-message-handler.js:100-170 | once the chat is admitted the response performs the replies and errors of `Respond` and leaves the registry unchanged |
| TextMessage.ScreenMessage | src/handlers/text-message-handler.js:19-88 | the imperative gates follow `Screening`: classifier calls, errors, whether to go on and whether to answer; no reply yet; a checked new user is registered with one eviction timer; the chat admission is not disturbed |
| TextMessage.ScreenThenRespond | src/handlers/text-message-handler.js:19-176 | the gates followed, when they go on, by the chat stage; the registry gains exactly the checked keys with their eviction timers |
| TextMessage.PrivateAlwaysAnswered | src/handlers/text-message-handler.js:100-151 | a private chat never consults the classifier and, when admitted and delivered, gets exactly the welcome reply (also lines 84-88) |
| TextMessage.GroupFlagsOff | src/handlers/text-message-handler.js:48-59 | in a group with either flag off nothing at all happens |
| TextMessage.GroupNonQueryOnlyLogged | src/handlers/text-message-handler.js:171-191 | a group non-query sends nothing and only the ReferenceError is logged (also lines 82-83) |
| TextMessage.RateLimitedResponse | src/handlers/text-message-handler.js:152-170 | a rate-limited response gives one lunch-time reply in a private chat and nothing in a group |
| TextMessage.RejectedClassification | src/handlers/text-message-handler.js:177-191 | a classification rejected by the user limiter sends nothing; it is logged unless it was a rate-limit rejection (also lines 76-78) |
| BotHelpers.IsBot | src/helpers/bot-helpers.js:1-3 | truthy exactly when the update has a sender whose `is_bot` is truthy; an update without a sender is never taken for a bot's |
| BotHelpers.IsPrivateChat | src/helpers/bot-helpers.js:5-7 | a private chat is a known chat whose type is neither `group` nor `supergroup` |
| BotHelpers.CheckIfNewUser | src/helpers/bot-helpers.js:9-11 | truthy exactly when the update has a message whose `new_chat_participant` is truthy; a callback query never counts as a join |
| BotHelpers.CheckGroupChat | src/helpers/bot-helpers.js:13-15 | a group is a known chat whose type is not `private` |
| BotHelpers.ChatKindsExclusive | src/helpers/bot-helpers.js:5-15 | a chat is never both private and a group; a channel or a missing chat is neither |
| AuthMiddleware.GetOrCreate | src/helpers/user-helper.js:6-28 | chat id 0 gives nothing; a known chat gives its stored user unless the lookup rejects; a new chat gives a user record holding exactly the database's new id, that chat id and the sender's first name, last name and username, with no language code (user-helper.js:22 writes the key `language_code`, which user-model.js:8 does not declare as `languageCode`, so strict mode drops it), or a rejection when the lookup or the creation rejects or there is no message or sender |
| AuthMiddleware.GetOrCreateKeepsUsers | src/helpers/user-helper.js:12-25 | no stored user is altered or dropped; at most the update's own chat is added, and the record returned is the one then stored under that chat |
| AuthMiddleware.GetOrCreateTwice | src/helpers/user-helper.js:12-15 | once a user exists, the next update of that chat finds the same record and creates none |
| AuthMiddleware.UpdateState.constructor | src/middlewares/userAuthAndSetupMiddleware.js:11 | no user, no reply, `next` not called yet |
| AuthMiddleware.UserStore.constructor | src/helpers/user-helper.js:12 | the collection holds the given users |
| AuthMiddleware.UserAuthAndSetupMiddleware | src/middlewares/userAuthAndSetupMiddleware.js:11-30 | a bot never reaches `next`; a non-private chat reaches it without a lookup; a private chat sets `ctx.state.user` and calls `next` once |
| AuthMiddleware.GroupGatePasses | src/middlewares/userAuthAndSetupMiddleware.js:32-54 | a group update announcing a participant is dropped; in a group only non-empty non-command text passes; outside groups everything passes |
| AuthMiddleware.CheckGroupChatMiddleware | src/middlewares/userAuthAndSetupMiddleware.js:32-54 | `next` is called exactly when the gate passes, and nothing else changes |
| AuthMiddleware.CallbacksOnlyOutsideGroups | src/middlewares/userAuthAndSetupMiddleware.js:42-53 | an update without a message passes iff it is not from a group |
| MessageLogger.IncomingContent | src/middlewares/messageLoggerMiddleware.js:15-16 | never empty; the text when it is non-empty, otherwise the non-empty caption or the placeholder |
| MessageLogger.IncomingType | src/middlewares/messageLoggerMiddleware.js:15-21 | a record is typed `command` or `text` iff the message has text, and then its content is that text; `command` iff that content starts with `/`; an untyped record with a caption stores the caption |
| MessageLogger.MongoUserId | src/middlewares/messageLoggerMiddleware.js:7 | the user id is known iff the user was set up |
| MessageLogger.IncomingEntry | src/middlewares/messageLoggerMiddleware.js:6-31 | a record exists iff the chat is private, the user and a non-zero chat id are present and there is a message |
| MessageLogger.FindRecord | src/middlewares/messageLoggerMiddleware.js:81-82 | the first record with the given message id and chat id, or none |
| MessageLogger.Upsert | src/middlewares/messageLoggerMiddleware.js:81-95 | a key already stored keeps the collection's length; a new key appends exactly one record with the new content, flagged as the bot's and typed `text` by the schema default |
| MessageLogger.UpsertProperties | src/middlewares/messageLoggerMiddleware.js:79-95 | after an upsert the key holds exactly one record, with the new content, keys stay unique and every other record is untouched |
| MessageLogger.FindFirst | src/middlewares/messageLoggerMiddleware.js:81-82 | the lookup answers the first position holding the key |
| MessageLogger.MessageStore.constructor | src/middlewares/messageLoggerMiddleware.js:23-31 | the collection holds the given records |
| MessageLogger.LoggedContext.constructor | src/middlewares/messageLoggerMiddleware.js:41-44 | the wrapped context remembers the chat kind, the user id and the store |
| MessageLogger.LoggedContext.Reply | src/middlewares/messageLoggerMiddleware.js:44-72 | returns the platform's result unchanged; logs the outgoing message only in private chats with a user, and a logging failure changes nothing |
| MessageLogger.LoggedContext.EditMessageText | src/middlewares/messageLoggerMiddleware.js:74-111 | a private edit upserts the record by (message id, chat id); "message is not modified" is swallowed and every other error rethrown |
| MessageLogger.MessageLoggerMiddleware | src/middlewares/messageLoggerMiddleware.js:4-114 | stores the incoming entry when there is one and storing succeeds, wraps the two methods, and calls `next` exactly once |

## Left out

- The limiter library's internals: reservoir refill, queueing, minimum spacing and concurrency slots. A limiter's counts are fields that the model never changes. Whether a scheduled task runs or is rejected is a parameter (`Admission`).
- Real timers and the clock. Each eviction timer is an explicit pending record, fired by `AdvanceClock` and `FireDue`. The cache TTL is checked against an explicit `now`.
- HTTP requests to the catalogue and configuration APIs. Their results are inputs (`Catalog`, `Config.Response`). The catalogue helper's `[]` or `null` on error is the `Unreachable` case.
- The language model call, the prompt text and `JSON.parse`. `parse` is a function parameter. A parse that throws, or yields `null` (reading `isQuery` of `null` throws), is `None`. A parse that yields any other non-object (a number, a string, a boolean, an array) is `Parsed(Null, Null, Null)`, which normalises to false, 0 and the default reasoning.
- The MongoDB collections. They are modelled as a map (users) and a sequence (messages). For the message log a database error is the boolean `storeFails`. For the users it is `StoreFault`, which names the call that rejects, `findOne` or `create`; either makes the user middleware reject before `next`. Record ids are the parameter `newId`.
- Upsert: a record first inserted by `findOneAndUpdate` is typed `text` because Mongoose applies the schema default on upsert inserts (`setDefaultsOnInsert`, on by default since Mongoose 6). Under an older Mongoose such a record would be stored without a type.
- Markdown, emoji and message wording. Messages and button texts are opaque constants that carry the catalogue values they interpolate.
- Interleaving of concurrent updates on the shared limiter maps and the cache. The model is sequential.
- The bot bootstrap, the environment, the logger, self-ping and the static command texts. Logging is modelled only as a recorded error or a counter.
- The wiring of the middlewares and of the text handler. In this snapshot telegraf.js registers only the user middleware. The other middlewares and `handleTextMessage` are modelled standalone.
- TextMessage.Handle: it reads each feature flag once per update. The source fetches the configuration again for each flag call, which can differ only when the cache expires in the middle of an update.
- TextMessage.MeetsThreshold: a confidence that JavaScript would coerce from a string or an array is treated as below 60. Normalisation only ever passes through what the classifier sent.
- Gemini.StripAll: its own contract only bounds the length. What survives the global replace is stated for text in which the pattern cannot begin (`StripAllKeepsPlain`) and for a fenced answer whose body holds no backtick (`JsonFencedRoundTrip`, `PlainFencedRoundTrip`); a body that itself holds backticks is not covered.
- Config.Merge: a truthy `data` value that is not an object (spread as its own keys) is taken as an absent one.
- Router.BackSyl: `lookupThrows` stands for any exception raised during the back lookup.
- FileSearch.SearchCommand, FileSearch.BranchSelection, FileSearch.YearSelection, FileSearch.FileDetails, FileSearch.SubjectDetails, FileSearch.BackToBranchesScreen: the `catch` blocks of these handlers (src/handlers/file-search-handlers.js:55-61, 125-132, 220-227, 328-335, 380-386, 533-540) are not modelled. They log the error and answer with "❌ An error occurred": the search command only replies, the back-to-branches handler only answers the callback, and the others do both. They run only when a Telegram call inside the handler throws, such as a failed `editMessageText`, and platform failures are not part of this model. A failed catalogue fetch is modelled: src/helpers/data-helper.js catches it and returns the empty list or `null` that the handlers test.
- MessageLogger.LoggedContext.EditMessageText: an edit of an inline message, for which the platform returns `true` instead of a message, is not modelled.
- Code and comments disagree in three places, and the model follows the code:
  - eviction timers are armed once at creation and never reset on use;
  - `clearAllLimiters` does not cancel armed timers (see `ClearedKeyEvictedEarly`);
  - the not-a-query branch of the text handler reads `detection` outside its block, and the resulting ReferenceError is caught and logged.
