# CIA operations game: a verified model of its core

The game is a text adventure played against a language model. The player is a CIA operative.
This project models the deterministic logic around the model's replies, in Dafny, and proves what that logic promises:

- **Briefing redactor** (`Briefing`). The mission-generation route turns the full mission document into the briefing the player sees.
  - A line with a hide marker (outcomes, complexity, round plans) is dropped and starts a hidden section.
  - A keep-marker line or the briefing banner ends the section.
  - The acceptance prompt is appended.
- **Game screen** (`ResponseFormat`, `Game`).
  - Replies are laid out for display by `formatClassifiedResponse`.
  - The screen's state has these parts: round, history, operational status, activity, and the mission description.
  - Player input is routed: the ACCEPT and REGENERATE commands, or a move sent to the server.
  - A reply has effects. A sound decision advances the round and extends the history. A CONDITION phrase sets the status. An end phrase ends the mission.
  - Each step adds lines to the transcript.
- **Mission records and rules** (`MissionRecords`, `MissionSkills`, `MissionAnalytics`), from the database layer:
  - the initial values of new sessions and of the backend-only metadata, and the lookup of the current phase;
  - the keyword rules that pick a mission's skill category and the skill a decision trains;
  - the successful/failed split of outcomes A–D;
  - the preferred risk level and the most common failure rounds of the analytics;
  - the progression advice.
- **Character cache** (`CharacterCacheModel`). A singleton holds one user's stats and skills for five minutes.
  - The record is tagged with a 32-bit rolling hash in base 36, and the tag is re-checked on load.
  - The record is mirrored to local storage.
  - The cache decides when the data should be refreshed.

`Text` holds the string operations the source relies on: `includes`, `startsWith`, `split`/`join` on newlines, `trim` with JavaScript's whitespace set, and ASCII case mapping. `Wrappers` holds `Option`.

Modelling choices:

- React's functional updaters `setGameState(prev => ...)` are pure functions on a `GameState` value, applied one after the other.
- The component is a class whose methods change `messages`, `currentInput`, `isLoading` and `gameState`.
- Each `async` handler is split at its `await` into the part before the request and the part that handles the reply. The reply is a parameter.
- The clock, `JSON.stringify` and the browser's local storage are parameters of the cache.

## Model

| member | source | states |
|---|---|---|
| Briefing.ExtractPlayerBriefing | src/app/api/chat/route.ts:128-167 | The loop over the lines, with its `inHiddenSection` flag, returns exactly `Redact`: the visible lines, an empty line and the acceptance prompt, joined by newlines |
| Briefing.VisibleIsSubsequence | src/app/api/chat/route.ts:129-159 | The emitted lines are input lines, verbatim and in their original order |
| Briefing.VisibleHasNoHideLine | src/app/api/chat/route.ts:135-144 | No emitted line contains a hide marker, even one that also holds a keep marker |
| Briefing.VisibleConcat | src/app/api/chat/route.ts:133-160 | Filtering a concatenation is filtering the first part, then the second from the flag the first left behind |
| Briefing.PrefixBeforeHideKept | src/app/api/chat/route.ts:131-159 | Every line before the first hide-marker line is kept, because the flag starts off |
| Briefing.NoHideLineKeepsAll | src/app/api/chat/route.ts:133-160 | Without hide-marker lines the filter returns its input unchanged |
| Briefing.KeepLineReenables | src/app/api/chat/route.ts:147-159 | A keep-marker or banner line without a hide marker is emitted whatever the flag, and the lines after it are read with output on |
| Briefing.HiddenWithoutKeepDropsAll | src/app/api/chat/route.ts:133-160 | Once hidden, every line is dropped until a keep line arrives |
| Briefing.TailAfterHideDropped | src/app/api/chat/route.ts:133-160 | If no keep line follows a hide line, the output is what precedes that hide line |
| Briefing.RedactLines | src/app/api/chat/route.ts:162-166 | The briefing's last two lines are always "" and the acceptance prompt |
| Briefing.PromptCharacters | src/app/api/chat/route.ts:164 | The acceptance prompt is one line without a colon or a hyphen |
| Briefing.PromptHasNoHideMarker | src/app/api/chat/route.ts:135-141 | Neither the prompt nor the empty line holds a hide marker |
| Briefing.RedactHidesMarkers | src/app/api/chat/route.ts:133-166 | No hide marker occurs anywhere in the player briefing, not even across line breaks, whatever the full document holds |
| Briefing.NoHideMarkerRoundTrip | src/app/api/chat/route.ts:129-166 | A document without hide markers comes back whole, followed by "\n\n" and the prompt (split and join round-trip) |
| ResponseFormat.FirstIndexFromIsFirst | src/app/components/GameInterface.tsx:28 | The header match `[CLASSIFIED[^\]]*\]` ends at the first `]` after the tag |
| ResponseFormat.DigitRunIsDigits | src/app/components/GameInterface.tsx:35 | The greedy `\d+` of a numbered item covers digits only |
| ResponseFormat.RewriteKeepsText | src/app/components/GameInterface.tsx:28-37 | Each global replacement only inserts newlines: the non-whitespace characters are unchanged |
| ResponseFormat.CollapseKeepsText | src/app/components/GameInterface.tsx:39 | Collapsing newline runs only removes newlines |
| ResponseFormat.CollapseShape | src/app/components/GameInterface.tsx:39 | After the collapse no three newlines are adjacent; a leading run is cut to two |
| ResponseFormat.FormatKeepsText | src/app/components/GameInterface.tsx:25-41 | Formatting changes whitespace only: the visible characters of a reply are kept, in order |
| ResponseFormat.FormatShape | src/app/components/GameInterface.tsx:38-40 | The formatted text has no leading or trailing whitespace and never three newlines in a row |
| Game.AcceptedState | src/app/components/GameInterface.tsx:142-151 | Accepting opens round 1, active, status GREEN, with the briefing as the only history entry; the mission fields are kept and the state is well formed |
| Game.RouteCases | src/app/components/GameInterface.tsx:162-179 | Blank input or input while loading is ignored; while inactive only ACCEPT/REGENERATE (any case) act and other input is discarded; while active the trimmed input is sent |
| Game.FirstConditionIsLeftmost | src/app/components/GameInterface.tsx:222 | The status found is that of the leftmost match of `CONDITION\s+(colour)` ignoring case, and there is one exactly when the pattern matches somewhere |
| Game.ApplyResponseRound | src/app/components/GameInterface.tsx:207-219 | The round advances by one and the history gains the decision and the reply exactly when the reply contains `[OPERATIONALLY SOUND]` |
| Game.ApplyResponseStatus | src/app/components/GameInterface.tsx:221-228 | The status becomes the colour of the first CONDITION phrase and stays put without one |
| Game.ApplyResponseActive | src/app/components/GameInterface.tsx:230-239 | A reply ends the mission exactly when it holds one of the six end phrases, and never reopens one |
| Game.ApplyResponseKeepsMission | src/app/components/GameInterface.tsx:206-239 | A reply leaves the briefing, details, category, context and threat untouched |
| Game.ApplyResponseWellFormed | src/app/components/GameInterface.tsx:209-218 | After acceptance, the history stays the briefing plus round-1 user/assistant pairs whose replies were sound |
| Game.ErrorReplyKeepsState | src/app/components/GameInterface.tsx:197-253 | A failed request or an error body changes no field of the game state and adds exactly one error line |
| Game.AfterMissionKeepsSession | src/app/components/GameInterface.tsx:100-125 | Receiving a mission never touches the round, the history or whether a mission is active |
| Game.GameInterface.constructor | src/app/components/GameInterface.tsx:44-58 | The component starts with no messages, empty input, not loading, round 0, inactive, status GREEN |
| Game.GameInterface.SetInput | src/app/components/GameInterface.tsx:365 | Typing sets the input and nothing else |
| Game.GameInterface.AddMessage | src/app/components/GameInterface.tsx:69-75 | One message is appended; nothing else changes |
| Game.GameInterface.AcceptMission | src/app/components/GameInterface.tsx:142-160 | The state becomes `Accepted(old)` and the seven acceptance lines are appended |
| Game.GameInterface.GenerateMission | src/app/components/GameInterface.tsx:77-83 | Generation is flagged and the five progress lines are appended |
| Game.GameInterface.ReceiveMission | src/app/components/GameInterface.tsx:96-125 | The mission fields are stored (details default to ""), or an error line is added, and generation ends |
| Game.GameInterface.StartGame | src/app/components/GameInterface.tsx:128-139 | The transcript restarts with the eight banner lines, then generation starts |
| Game.GameInterface.SendMessage | src/app/components/GameInterface.tsx:162-182 | The command is `Route(...)`; each command has its effect: the input is cleared unless ignored, acceptance, regeneration, or loading plus the echoed `> message` |
| Game.GameInterface.ApplyUpdaters | src/app/components/GameInterface.tsx:206-239 | The three updaters applied one after the other give `ApplyResponse(old)` |
| Game.GameInterface.HandleResponse | src/app/components/GameInterface.tsx:205-247 | The state becomes `ApplyResponse(old)`, stays well formed, and the formatted reply (plus a breach warning when compromised and not sound) is appended |
| Game.GameInterface.ShowResponse | src/app/components/GameInterface.tsx:241-247 | The formatted text, then the breach warning when the reply is compromised and not sound |
| Game.GameInterface.ReceiveReply | src/app/components/GameInterface.tsx:201-253 | The state becomes `AfterReply(old)`, the reply's lines are appended, loading ends, and the component invariant holds again |
| MissionRecords.OutcomePartition | src/app/lib/database.ts:361 | Every outcome letter is exactly one of successful (A, B) and failed (C, D); no outcome is neither |
| MissionRecords.NewSessionStarts | src/app/lib/database.ts:219-231 | A new session is at round 0, GREEN, active, not completed, without steps or outcome, and keeps the request's fields |
| MissionRecords.NewMetadataStarts | src/app/lib/database.ts:837-847 | New metadata is at phase index 0 with no completed objectives, so its current phase is the first one; missing notes become "" |
| MissionRecords.CurrentPhase | src/app/lib/database.ts:906 | A phase is returned exactly when the index is inside the phase list, and it is one of the phases |
| MissionSkills.FirstHit | src/app/lib/database.ts:680-740 | The index found is the first keyword group with a keyword in the text: it hits and no earlier group does |
| MissionSkills.FirstHitResult | src/app/lib/database.ts:680-740 | With distinct results, rule k's result is returned exactly when rule k decides |
| MissionSkills.CategoryResultsDistinct | src/app/lib/database.ts:680-742 | The nine groups return nine different categories, none of them "general" |
| MissionSkills.SkillCategoryRule | src/app/lib/database.ts:676-742 | The category is that of the first group found in the lower-cased text, and "general" exactly when no keyword occurs |
| MissionSkills.SkillCategoryIgnoresCase | src/app/lib/database.ts:677 | The category does not depend on the letter case of the mission fields |
| MissionSkills.SkillResultsDistinct | src/app/lib/database.ts:752-786 | The nine groups return nine different skills, none of them Risk Taker |
| MissionSkills.SkillForMissionRule | src/app/lib/database.ts:745-797 | The first group found decides the skill; without any keyword, exactly "HIGH" earns Risk Taker and anything else earns nothing |
| MissionSkills.DecisionKeywordBeatsRisk | src/app/lib/database.ts:752-791 | A keyword in the decision context alone earns a keyword skill, whatever the risk level |
| MissionAnalytics.MissionsPartition | src/app/lib/database.ts:384 | Each completed mission is counted exactly once: successful, failed, or without outcome |
| MissionAnalytics.CountRisk | src/app/lib/database.ts:367-371 | A risk level is counted at most once per decision |
| MissionAnalytics.CountRiskAll | src/app/lib/database.ts:430 | The count equals the number of decisions exactly when every decision has that level |
| MissionAnalytics.PreferredRiskCases | src/app/lib/database.ts:373 | The preferred level has the largest count; LOW only when it beats both, MEDIUM when it ties or beats LOW and beats HIGH, HIGH whenever it ties or beats both |
| MissionAnalytics.RiskPreference | src/app/lib/database.ts:366-373 | The counting loop plus `reduce` gives `PreferredRisk` of the three counts |
| MissionAnalytics.FailureRounds | src/app/lib/database.ts:384-385 | One label per failed mission, in mission order: the i-th label is `Round <n>` for the round the i-th failed mission ended in |
| MissionAnalytics.FirstOccurrences | src/app/lib/database.ts:386-389 | The keys of the counting object are the labels, each once |
| MissionAnalytics.CountFailurePoints | src/app/lib/database.ts:386-389 | The counting loop yields keys in first-occurrence order and each key's number of occurrences |
| MissionAnalytics.FailureEntries | src/app/lib/database.ts:391 | The entries are exactly one per label: every label has an entry with its number of occurrences, every entry is such a label, and no key appears twice |
| MissionAnalytics.SortByCount | src/app/lib/database.ts:392 | The sort keeps every entry (same multiset) |
| MissionAnalytics.SortByCountDistinct | src/app/lib/database.ts:392 | Sorting entries with distinct keys keeps the keys distinct |
| MissionAnalytics.SortByCountSorted | src/app/lib/database.ts:392 | The sort orders entries by descending count |
| MissionAnalytics.TopKeysOfSorted | src/app/lib/database.ts:393-394 | The kept keys are the first three, distinct when the entries' keys are; an entry left out counts no more than any kept one |
| MissionAnalytics.MostCommonFailurePoints | src/app/lib/database.ts:384-394 | The loop and the sort/slice/map give `CommonFailurePoints` of the failure labels |
| MissionAnalytics.FailurePointsRanked | src/app/lib/database.ts:384-394 | At most three points, each a round where a mission failed and none reported twice, in non-increasing failure order; a left-out round failed no more often than every reported one |
| MissionAnalytics.RecentDecisions | src/app/lib/database.ts:428 | The last min(3, n) decisions |
| MissionAnalytics.RepeatedLowRiskMeans | src/app/lib/database.ts:428-430 | Repeated low risk means at least three decisions, the last three all LOW |
| MissionAnalytics.ProgressionSuggestions | src/app/lib/database.ts:419-446 | No session or no decisions gives no advice. Otherwise each piece of advice appears exactly when its condition holds, once, in source order. Caution: two HIGH among the last three and threat not RED. Decisiveness: repeated LOW and past 70 %. Resolution: past 80 % and not completed |
| MissionAnalytics.NewSessionSuggestions | src/app/lib/database.ts:419-446 | For a session just created, at round 0, the advice is exactly `[caution]` when two of the last three decisions were HIGH risk and the threat is not RED, and empty otherwise |
| CharacterCacheModel.Wrap32 | src/app/lib/characterCache.ts:25 | The result is a signed 32-bit integer congruent to the input modulo 2^32 |
| CharacterCacheModel.ShiftSubtractStep | src/app/lib/characterCache.ts:24-25 | `((h << 5) - h) + c` then `h & h` equals `31h + c` wrapped to 32 bits |
| CharacterCacheModel.RollingHash | src/app/lib/characterCache.ts:21-26 | The fold stays a signed 32-bit integer |
| CharacterCacheModel.ToBase36 | src/app/lib/characterCache.ts:27 | The tag is a non-empty string of lower-case base-36 digits |
| CharacterCacheModel.Base36RoundTrip | src/app/lib/characterCache.ts:27 | Reading the base-36 digits back gives the number |
| CharacterCacheModel.DataHashDecodes | src/app/lib/characterCache.ts:19-28 | The tag decodes to the magnitude of the 32-bit hash, at most 2^31 |
| CharacterCacheModel.GenerateDataHash | src/app/lib/characterCache.ts:19-28 | The loop computes `DataHash` of the JSON text: base 36 of the absolute value of the left fold |
| CharacterCacheModel.VerifyDataIntegrity | src/app/lib/characterCache.ts:31-36 | True exactly when the record's version is the hash of its user, stats, skills and timestamp |
| CharacterCacheModel.TamperDetected | src/app/lib/characterCache.ts:31-36 | Changing hashed fields under an old tag is caught whenever the hash magnitudes differ |
| CharacterCacheModel.ExpiryBoundary | src/app/lib/characterCache.ts:85-89 | A record exactly 300000 ms old is valid; one 300001 ms old is not |
| CharacterCacheModel.LookupServesOwner | src/app/lib/characterCache.ts:91-107 | Data is returned exactly for the cached user while the record is valid |
| CharacterCacheModel.NoRefreshMeansHit | src/app/lib/characterCache.ts:148-161 | When no refresh is needed, reading the cache at the same time returns the stored stats and skills |
| CharacterCacheModel.UpdateThenLookup | src/app/lib/characterCache.ts:109-128 | An updated record is intact and is served to its user, and to nobody else, until it expires |
| CharacterCacheModel.ClearedServesNobody | src/app/lib/characterCache.ts:130-138 | A cleared cache returns nothing and asks for a refresh, for every user |
| CharacterCacheModel.CharacterCache.constructor | src/app/lib/characterCache.ts:42-44 | A new instance loads from storage: a valid, intact stored record is adopted, anything else is cleared |
| CharacterCacheModel.CharacterCache.LoadFromStorage | src/app/lib/characterCache.ts:53-72 | Nothing stored: no change. Unparsable, expired or tampered: cache and storage cleared. Otherwise the record is adopted. Every held record stays intact |
| CharacterCacheModel.CharacterCache.SaveToStorage | src/app/lib/characterCache.ts:74-83 | The held record, if any, is written to storage |
| CharacterCacheModel.CharacterCache.GetCachedData | src/app/lib/characterCache.ts:91-107 | Returns `Lookup` of the old cache. No cache or another user: nothing changes. Expired: cache and storage cleared. A hit changes nothing |
| CharacterCacheModel.CharacterCache.UpdateCache | src/app/lib/characterCache.ts:109-128 | The cache holds the new record tagged with the hash of its fields, and storage holds the same record |
| CharacterCacheModel.CharacterCache.ClearCache | src/app/lib/characterCache.ts:130-138 | Cache and stored entry are gone |
| CharacterCacheModel.CharacterCache.InvalidateCache | src/app/lib/characterCache.ts:140-145 | Clears only when the cached record belongs to the given user; otherwise nothing changes |
| CharacterCacheModel.CacheRegistry.GetInstance | src/app/lib/characterCache.ts:46-51 | The first call creates the instance and loads it from storage: an absent or unparsable entry leaves it empty and clears storage, a stored record is adopted when valid and intact and cleared otherwise; later calls return that same instance and change nothing |
| CharacterCacheModel.GetInstanceTwice | src/app/lib/characterCache.ts:46-51 | Two calls return the same object |

## Left out

- The OpenAI calls, the prompt texts, the random choice of category, context and agency, and the HTTP plumbing of the chat route. Replies and generated missions are parameters.
- The only route logic modelled is the briefing redactor. The route also returns the full mission document alongside the redacted briefing (src/app/api/chat/route.ts:214), so the hiding proved here concerns `missionBriefing` only.
- The redaction markers are matched case-sensitively, as the route's `includes`/`startsWith` do, not case-insensitively.
- `toUpperCase`/`toLowerCase` are modelled on ASCII letters only. Non-ASCII letters are left unchanged, so an input whose full Unicode case mapping produces ASCII keywords is not covered. The Kelvin sign is an example: it lower-cases to `k`.
- Game.Route: the `/i` status pattern and the command words are ASCII, so ASCII case folding is exact for them.
- React rendering, scrolling, timestamps of messages, and the disabling of the input while a request runs. The interleaving of concurrent `async` handlers is also left out: each handler is split at its `await`, and the two halves are applied in sequence.
- An `error` field in a reply counts only when it is a non-empty string (a falsy empty string is no error). Other non-string error values are not modelled.
- All database I/O (inserts, selects, updates, RPC calls for experience and skills, the table definitions) and the `!supabase` early returns. Records are given as values.
- Ids and timestamps the database fills in. The floating-point `success_rate` of a user skill and the fields the character view adds are not part of the records.
- The floating-point analytics: success rate, average rounds, custom-input and soundness percentages, and `phaseProgress`.
- MissionAnalytics.ProgressionSuggestions: `current_round > max_rounds * 0.7` and `current_round / max_rounds > 0.8` are stated as `10 * current > 7 * max` and `10 * current > 8 * max`. These differ from the floating-point tests at exact boundaries where the product is not representable. For example, with 90 rounds the float `90 * 0.7` is just below 63. A zero `max_rounds` behaves as in the source: any positive round divides to Infinity.
- Rounds and counters are natural numbers. A risk assessment is LOW, MEDIUM, HIGH or absent; other stored strings are not modelled.
- MissionAnalytics.SortByCount: the comparator sort is modelled as a stable insertion sort. Stability is not stated as a property; only order and permutation are proved.
- The failure-point labels use the decimal form of the round number, as a template literal prints a non-negative integer.
- `JSON.stringify` is a parameter of the cache, and `JSON.parse` is assumed to give back the record that was stored. A stored entry is absent, unparsable, or a parsed record. An object that parses but lacks fields is not modelled.
- `Date.now` is the parameter `now`. `console` logging and the errors a storage call may throw are left out; a throw while loading is modelled as an unparsable entry.
- The static `instance` field is held by a `CacheRegistry` object, and local storage by a `LocalStorage` object shared by the registry and the cache.
- CharacterCacheModel.CharacterCache.ShouldRefresh: a one-line reading of `NeedsRefresh` on the current cache without a contract of its own; what it promises is stated by `NoRefreshMeansHit` and `ClearedServesNobody`.
- The text a stored record serialises to is a sequence of UTF-16 code units; how `JSON.stringify` escapes characters is part of the given serialiser.
