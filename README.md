# Annual review story kit: report generation, redaction and the server stores

This project models the server core of the annual review story kit in Dafny. The kit
collects a developer's GitHub contributions and turns them into an annual review report.
The model covers five parts:

- **Redaction** (`Redact`, redact.dfy). Repository names are replaced by
  "internal repo" in every string of a JSON value. The repository names are extracted
  from the collected evidence. Excluded repositories and contribution ids are filtered
  out.
- **Report generation** (`Report`, `Appendix`, `Markdown`). `generateMarkdown` turns
  themes, impact bullets, STAR stories and self-evaluation sections into Markdown lines
  joined with newlines. The sections come in a fixed order, each under its own guard.
  An Evidence Appendix closes the report. It groups evidence references by theme, keeps
  only the first occurrence of each key `url || id`, and escapes titles in the table
  cells. `Markdown.GenerateMarkdown` pushes lines the way the generator does. It is
  proved to produce `Markdown.Markdown`, and the properties are proved about that
  function. The appendix fold is a method, `Appendix.CollectEvidence`, proved equal to
  a fold `Appendix.Run` over the visits in traversal order.
- **Job store** (`Jobs`, class `JobStore`). A map from job id to job record, with these
  operations:
  - create;
  - look up;
  - merge-update with `Object.assign` semantics;
  - get the latest job of one session, ordered by `created_at`, then by id;
  - run in the background: running, then progress reports, then done or failed, or
    still running when the work never reaches the store's completion handlers.
- **Session store** (`Sessions`, class `SessionStore`). Sessions and single-use OAuth
  states, each kept in its own map.
- **Cookies** (`Cookies`, class `Response`). Session ids are signed with an HMAC and
  verified again. Session and state cookies are read from a request's `Cookie` header,
  and `Set-Cookie` headers are written.

JavaScript's truthiness, template interpolation (an absent value renders as
"undefined"), `join`, a global replace of a literal string, `lastIndexOf`, `trim` and
number-to-string conversion are defined once, in `JsText` (js_text.dfy). JSON values are
in `JsonValue` (json.dfy).

Clocks, random numbers, the HMAC, and `encodeURIComponent`/`decodeURIComponent` are
parameters of the operations that use them. Lemmas about them state what they need:
- the digest contains no '.' (`DotFree`);
- the encoder maps a non-empty input to a non-empty output without ';' or white space
  (`CookieSafe`);
- decoding inverts encoding (`Decodes`).

## Model

| member | source | states |
|---|---|---|
| Redact.EscapeRegexIsLiteral | lib/redact.ts:7-9 | Escaping gives a pattern in which every metacharacter is backslash-quoted. The pattern matches exactly the original string. |
| Redact.RedactRepoNames | lib/redact.ts:15-35 | The recursive redaction: an empty name list returns the value unchanged. Null, booleans and numbers are returned unchanged. The result has the shape of the input: same kinds, same array lengths, same object keys in the same order (an own `__proto__` key excepted, see below). |
| Redact.RedactedKeepsShape | lib/redact.ts:24-33 | Redaction rewrites only strings. Arrays keep their length and objects keep their keys, an own `__proto__` key excepted. |
| Redact.SameShapeReflexive | lib/redact.ts:24-33 | The shape relation holds between a value and itself, so the shape lemma is not vacuous. |
| Redact.RedactedAppend | lib/redact.ts:19-21 | Redacting with names `a + b` is redacting with `a`, then with `b`. The names are applied one after another. |
| Redact.RedactStringAppend | lib/redact.ts:19-21 | The string case of the sequential replacement. |
| Redact.RedactStringAbsent | lib/redact.ts:17-23 | A string that mentions none of the names is left unchanged. |
| Redact.RedactedAbsent | lib/redact.ts:15-35 | A value none of whose strings mentions a name is returned unchanged. |
| Redact.PlaceholderCanMentionName | lib/redact.ts:20 | With the name "repo", the redacted string "internal repo" still contains the name. Redaction does not guarantee that no name remains. |
| Redact.RepoListMembers | lib/redact.ts:44-46 | A string is collected exactly when some contribution has it as its non-empty repo. |
| Redact.FirstOccurrences | lib/redact.ts:43-47 | The `Set` insertion order holds no duplicates and has the same members as its input. |
| Redact.FirstIndex | lib/redact.ts:47 | The first position of an element: no earlier element equals it. |
| Redact.FirstOccurrencesInOrder | lib/redact.ts:47 | Distinct names come out in the order of their first occurrence. |
| Redact.ExtractRepoNames | lib/redact.ts:40-48 | The loop returns the distinct non-empty repos in first-occurrence order. |
| Redact.ExtractedRepoNames | lib/redact.ts:40-48 | The extracted names are duplicate-free. They are exactly the non-empty repos of the contributions. Missing contributions give none. |
| Redact.KeptContributions | lib/redact.ts:63-67 | The filtered list is a subsequence of the input. It holds exactly the contributions that are kept, each with its multiplicity. Every contribution in it has neither an excluded repo nor an excluded id. |
| Redact.FilterExcludedContributions | lib/redact.ts:55-69 | With both exclusion lists empty, the evidence is returned as is. Otherwise every other field is kept, and the contributions become the kept list. A missing list counts as empty. |
| Report.RefLabel | lib/generate-markdown.ts:89 | The link label is `id`, else `title`, else "ref", by truthiness. It is never empty. |
| Report.EvidenceLinks | lib/generate-markdown.ts:87-90 | The links string is empty exactly when there is no evidence. |
| Report.OneEvidenceLink | lib/generate-markdown.ts:89 | One reference renders as `[label](url)`, with an absent url as "undefined". |
| Report.TitleLabel | lib/generate-markdown.ts:124 | Theme and story links are labelled `title`, else `id`; "undefined" when neither is set. |
| Report.JoinStartsWithFirst | lib/generate-markdown.ts:89 | A joined list starts with its first element. |
| Markdown.TimeframeLine | lib/generate-markdown.ts:101 | The timeframe line is an emphasised line starting with '*'. |
| Markdown.ReportStartsWithTitle | lib/generate-markdown.ts:99-103 | Every report's first line is `# Annual Review Report`, followed by a newline. |
| Markdown.TimeframeLineIff | lib/generate-markdown.ts:100-102 | The second line is the timeframe line exactly when both dates are truthy. Otherwise it is the blank line. |
| Markdown.EmptyInputRendersHeader | lib/generate-markdown.ts:99-103 | An empty input renders only the header, with no section rule. The text is the title and a newline, plus the timeframe line and a newline when both dates are truthy. |
| Markdown.SummaryGuard | lib/generate-markdown.ts:106-111 | The Summary section appears exactly when there is a summary with truthy text. It opens with a rule and its heading, then the text. |
| Markdown.ThemesGuard | lib/generate-markdown.ts:114-116 | The Themes section appears exactly when there is a theme, under its heading. |
| Markdown.BulletsGuard | lib/generate-markdown.ts:131-134 | Impact Bullets appear exactly when there are top-ten or by-theme bullets. |
| Markdown.StoriesGuard | lib/generate-markdown.ts:158-160 | STAR Stories appear exactly when there is a story. |
| Markdown.SelfEvalGuard | lib/generate-markdown.ts:182-187 | Self-Evaluation appears exactly when some section is present. A present but empty section object also counts. |
| Markdown.SummaryOnlySelfEvaluation | lib/generate-markdown.ts:183-222 | A self-evaluation holding only a summary renders its heading and no subsection. |
| Markdown.SectionsFollowGuards | lib/generate-markdown.ts:105-283 | For one input, each of the six sections is non-empty exactly when its guard holds, the appendix included. |
| Markdown.ThemeHeadingsDistinct | lib/generate-markdown.ts:117-118 | Themes at different positions get different headings, whatever their names. |
| Markdown.ThemeHeadingsShown | lib/generate-markdown.ts:117-118 | Every theme's numbered heading is among the theme lines. |
| Markdown.NameMapKeys | lib/generate-markdown.ts:144 | The theme-name map has a key for each theme's `${theme_id}` and no other keys. |
| Markdown.NameMapLastWins | lib/generate-markdown.ts:144 | For a repeated id, the map holds the name of the last theme with that id. |
| Markdown.GroupHeadingOf | lib/generate-markdown.ts:146-147 | A by-theme heading shows the name of the last theme whose key is `theme_id ?? ""`, if that name is truthy. Otherwise it shows the raw `theme_id`. |
| Markdown.PushBullets | lib/generate-markdown.ts:137-140 | The loop appends one bullet line per bullet. |
| Markdown.PushThemeBlocks | lib/generate-markdown.ts:117-127 | The loop appends each theme's block in order. |
| Markdown.PushGroupedBullets | lib/generate-markdown.ts:145-153 | The loop appends each by-theme group's block in order. |
| Markdown.PushStoryBlocks | lib/generate-markdown.ts:161-178 | The loop appends each story's block in order. |
| Markdown.PushSummary | lib/generate-markdown.ts:106-111 | Appends the Summary lines. |
| Markdown.PushThemes | lib/generate-markdown.ts:114-128 | Appends the Themes section. |
| Markdown.PushSubList | lib/generate-markdown.ts:135-142 | Appends a headed bullet list, or nothing when the list is empty. |
| Markdown.PushByThemeBlock | lib/generate-markdown.ts:146-152 | Appends one by-theme group's heading and bullets. |
| Markdown.PushImpactBullets | lib/generate-markdown.ts:131-155 | Appends the Impact Bullets section. |
| Markdown.PushStory | lib/generate-markdown.ts:162-177 | Appends one story: heading, situation, task, actions, results, evidence, confidence. |
| Markdown.PushList | lib/generate-markdown.ts:165-172 | Appends a labelled list of actions or results, or nothing when the list is empty. |
| Markdown.PushStories | lib/generate-markdown.ts:158-179 | Appends the STAR Stories section. |
| Markdown.PushFreeSection | lib/generate-markdown.ts:198-212 | Appends a free-text subsection with its sources, when its text is truthy. |
| Markdown.PushItems | lib/generate-markdown.ts:167 | The loop appends a `- ` item per action or result. |
| Markdown.PushSelfEvaluation | lib/generate-markdown.ts:186-222 | Appends the Self-Evaluation lines, subsections in their fixed order. |
| Markdown.BuildNameMap | lib/generate-markdown.ts:144 | The loop builds the theme-name map. |
| Markdown.GenerateMarkdown | lib/generate-markdown.ts:92-286 | The generator's result is exactly the specified report text. |
| Appendix.GroupFor | lib/generate-markdown.ts:231-232 | A theme with an id gets an empty group with that id. Its name is `theme_name || theme_id`. |
| Appendix.ThemeGroupsFollowThemes | lib/generate-markdown.ts:230-236 | There is one group per theme with a truthy id, in theme order, and every such theme has one. |
| Appendix.InitialGroups | lib/generate-markdown.ts:238-241 | The General group comes last. |
| Appendix.InitialGroupsEmpty | lib/generate-markdown.ts:232-239 | Every group starts with no references. |
| Appendix.GroupIndex | lib/generate-markdown.ts:233-241 | The id-to-group map holds every id's group. For a repeated id it holds the last group with that id. |
| Appendix.InitialIndexOk | lib/generate-markdown.ts:240-241 | The map is within range, and "__general__" addresses the General group. It displaces a theme with that id. |
| Appendix.TargetOfThemeId | lib/generate-markdown.ts:246-247 | A known truthy theme id addresses the last group with that id. An absent or unknown id addresses General. |
| Appendix.Step | lib/generate-markdown.ts:249-253 | One visit keeps the groups' ids, names and order. |
| Appendix.Run | lib/generate-markdown.ts:248-254 | The fold keeps the groups' ids, names and order. |
| Appendix.Visits | lib/generate-markdown.ts:246-248 | One `addToGroup` call visits its references in order, all toward the same target. |
| Appendix.AllVisits | lib/generate-markdown.ts:257-265 | Every visit of the traversal targets an existing group. |
| Appendix.RunAppend | lib/generate-markdown.ts:257-265 | Folding over two visit lists in turn is folding over their concatenation. |
| Appendix.RunIsFirstVisits | lib/generate-markdown.ts:248-254 | After the fold, the seen set is exactly the set of non-empty keys. Each group has gained exactly the references of the first visit of each key that targets it. |
| Appendix.KeySetMembers | lib/generate-markdown.ts:249-251 | A key is seen exactly when some visit carries it as a non-empty `url || id`. |
| Appendix.FirstVisitIncluded | lib/generate-markdown.ts:250-252 | A keyed visit whose key no earlier visit had is kept. |
| Appendix.FirstVisitsAreVisits | lib/generate-markdown.ts:248-254 | Only visits are kept. |
| Appendix.RefsForMembers | lib/generate-markdown.ts:252 | A group's references are exactly its visits' references. |
| Appendix.RunKeepsRowsKeyed | lib/generate-markdown.ts:250-252 | The fold preserves the invariant that its rows carry distinct non-empty keys, all recorded as seen. |
| Appendix.AppendixRowsUnique | lib/generate-markdown.ts:243-265 | In the final groups, no key appears twice across the whole appendix, and every row has a key. |
| Appendix.FinalGroupsFrame | lib/generate-markdown.ts:230-265 | Collection keeps the groups' ids, names and order, as one group per theme id followed by General. |
| Appendix.FirstVisitPlaced | lib/generate-markdown.ts:245-265 | The first reference with a given key lands in the group its call targets. |
| Appendix.RowsComeFromVisits | lib/generate-markdown.ts:257-265 | Every row comes from a visit of the traversal in that same group. |
| Appendix.AddToGroup | lib/generate-markdown.ts:245-255 | The loop of `addToGroup` computes the fold over its visits. |
| Appendix.AddCalls | lib/generate-markdown.ts:257-265 | The loop over a list of calls computes the fold over their visits. |
| Appendix.AddGroupedBullets | lib/generate-markdown.ts:258 | The nested loop over by-theme bullets computes the fold over their visits. |
| Appendix.CollectEvidence | lib/generate-markdown.ts:243-265 | The imperative collection equals the specified final state. |
| Appendix.BuildGroups | lib/generate-markdown.ts:230-241 | The loop builds the initial groups. |
| Appendix.BuildIndex | lib/generate-markdown.ts:233-241 | The loop builds the id-to-group map. |
| Appendix.EscapeTitleByChars | lib/generate-markdown.ts:277 | Replacing every backslash and then every pipe equals escaping one character at a time. |
| Appendix.EscapedTitleIsSafe | lib/generate-markdown.ts:277 | An escaped title has no unescaped pipe to break the table row. Unescaping gives the title back. |
| Appendix.RowLinesAt | lib/generate-markdown.ts:275-280 | There is one table row per reference, in order. |
| Appendix.EmptyGroupsRenderNothing | lib/generate-markdown.ts:267-283 | There is no appendix exactly when every group is empty, and otherwise it opens with its heading. |
| Appendix.GroupBlock | lib/generate-markdown.ts:272-281 | A filled group renders its heading, the table header and rule, one row per reference and a blank line. |
| Appendix.KeyedEvidenceFillsAGroup | lib/generate-markdown.ts:245-267 | If any evidence on the traversal has a key, some group is filled. |
| Appendix.FilledGroupHasKeyedEvidence | lib/generate-markdown.ts:245-267 | A filled group implies that some traversed evidence has a key. |
| Appendix.AppendixPresentIff | lib/generate-markdown.ts:267-269 | The appendix appears exactly when some traversed reference has a non-empty `url || id`. |
| Appendix.PushRows | lib/generate-markdown.ts:275-280 | The loop appends one row per reference. |
| Appendix.PushGroups | lib/generate-markdown.ts:270-282 | The loop appends each filled group's block and skips the empty ones. |
| Appendix.PushAppendix | lib/generate-markdown.ts:267-283 | Appends the appendix lines. |
| Jobs.MergeFields | lib/job-store.js:57-60 | `Object.assign` takes each supplied field and keeps each omitted one. An empty update changes nothing, and the same update applied twice is applied once. |
| Jobs.JobId | lib/job-store.js:16 | A job id starts with `job_`. |
| Jobs.NewJob | lib/job-store.js:17-25 | A new job is pending, with no progress, result or error. `created_by` is present exactly when a session id was given. |
| Jobs.NewerTransitive | lib/job-store.js:49-52 | The latest-job order, by `created_at` and then by id, is transitive. |
| Jobs.NewerTotal | lib/job-store.js:49-52 | The order relates any two entries with distinct ids. |
| Jobs.NewerAsymmetric | lib/job-store.js:49-52 | No two entries are each newer than the other. |
| Jobs.NewerIrreflexive | lib/job-store.js:49-52 | No entry is newer than itself. |
| Jobs.FailureMessage | lib/job-store.js:75 | The stored error is the rejection's message when truthy, else "Job failed". It is never empty. |
| Jobs.ProgressReportsChangeOnlyProgress | lib/job-store.js:69 | Progress reports change nothing in a job but its progress. |
| Jobs.ResolvedRun | lib/job-store.js:68-71 | Completed work leaves the job done, with its result and progress cleared. |
| Jobs.RejectedRun | lib/job-store.js:68-78 | Work rejected with a value other than null or undefined leaves the job failed, with the error message and progress cleared. |
| Jobs.StalledRun | lib/job-store.js:67-79 | Work that rejects with null or undefined, throws synchronously or returns no promise leaves the job as the start and the reports made it: running, unless a report set another status, with its last progress. |
| Jobs.FreshJobLifecycle | lib/job-store.js:15-79 | A new job stays running through all its progress reports. It ends done with the result, or failed with the message and a null result. A stalled run stays running, with the last reported progress and no result or error. Its type, creation time and owner are kept. |
| Jobs.JobStore.CreateJob | lib/job-store.js:15-28 | Stores the new record under the time-and-random id, and changes no other entry. |
| Jobs.JobStore.GetJob | lib/job-store.js:34-36 | Finds a job exactly when its id is stored, and returns that record. |
| Jobs.JobStore.GetLatestJob | lib/job-store.js:42-54 | Returns null exactly when the session owns no job. Otherwise it returns a job of that session, with its id, newer than every other job of the session. |
| Jobs.JobStore.UpdateJob | lib/job-store.js:57-60 | Merges the update into a known job. An unknown id changes nothing. |
| Jobs.JobStore.constructor | lib/job-store.js:6 | The store starts empty. |
| Jobs.JobStore.Start | lib/job-store.js:68 | Marks a known job running, keeping its other fields. An unknown id changes nothing. |
| Jobs.JobStore.Report | lib/job-store.js:69 | Merges a reported update into a known job. |
| Jobs.JobStore.Succeed | lib/job-store.js:71 | Marks a known job done, storing the result and clearing progress. |
| Jobs.JobStore.Fail | lib/job-store.js:72-78 | Marks a known job failed, storing the failure message and clearing progress. |
| Jobs.JobStore.RunInBackground | lib/job-store.js:67-79 | Applies the whole lifecycle to a known job: start, reports, then the terminal update of a resolved or rejected run and none of a stalled one. It leaves an unknown id alone. |
| Jobs.LatestOfTwoJobs | lib/job-store.js:42-54 | Of two jobs of one session, the later-created one is the latest. |
| Jobs.NoLatestJobForOtherOwner | lib/job-store.js:44-48 | Another session's jobs are never returned. |
| Sessions.SessionId | lib/session-store.js:12 | A session id starts with `sess_`. |
| Sessions.SessionIdsOfDistinctTimesDiffer | lib/session-store.js:12 | Ids made at different clock readings differ, whatever the random suffixes. |
| Sessions.SessionStore.CreateSession | lib/session-store.js:11-18 | Stores the session data with its creation time under the new id, and touches nothing else. |
| Sessions.SessionStore.GetSession | lib/session-store.js:24-26 | Finds exactly the stored sessions. |
| Sessions.SessionStore.DestroySession | lib/session-store.js:31-33 | Removes only that session. |
| Sessions.SessionStore.constructor | lib/session-store.js:5-35 | Both maps start empty. |
| Sessions.SessionStore.SetOAuthState | lib/session-store.js:38-40 | Stores the state under its id, overwriting an earlier one, and leaves sessions alone. |
| Sessions.SessionStore.GetAndRemoveOAuthState | lib/session-store.js:43-47 | Returns the stored state, or null. It removes the state only when the state is truthy. |
| Sessions.CreatedSessionIsFound | lib/session-store.js:11-26 | A created session is found under its id. |
| Sessions.UnknownSessionIsNotFound | lib/session-store.js:24-26 | An id that was never created finds nothing. |
| Sessions.DestroyRemovesOnlyThatSession | lib/session-store.js:31-33 | Destroying one session keeps another. |
| Sessions.OAuthStateIsSingleUse | lib/session-store.js:38-47 | A non-empty state is returned once; the next retrieval gets null. |
| Sessions.EmptyOAuthStateIsNotConsumed | lib/session-store.js:45-46 | An empty state is never consumed. |
| Sessions.UnknownOAuthStateIsNull | lib/session-store.js:44-46 | An unknown OAuth-state id yields null. |
| Sessions.SessionsDoNotTouchOAuthStates | lib/session-store.js:31-47 | Session operations leave OAuth states in place. |
| Cookies.HexDigestIsDotFree | lib/cookies.js:11 | A hex digest contains no '.', so the separator of a signed id is the last '.'. |
| Cookies.Verify | lib/cookies.js:20-28 | Every accepted value is the signature of the non-empty id it returns. |
| Cookies.SignThenVerify | lib/cookies.js:10-28 | Verifying a signed id returns the id, also when the id contains '.'. |
| Cookies.VerifyAcceptsExactlySigned | lib/cookies.js:20-28 | A value verifies to an id exactly when it is that non-empty id's signature. |
| Cookies.VerifyRejectsMalformed | lib/cookies.js:21-23 | A missing or empty value, a value without '.', and one whose only '.' is first are rejected. |
| Cookies.VerifyRejectsForgedSignature | lib/cookies.js:24-27 | A suffix other than the digest of the prefix is rejected. |
| Cookies.FirstMatch | lib/cookies.js:38 | A captured cookie value is non-empty and contains no ';'. |
| Cookies.FirstMatchAbsent | lib/cookies.js:38-39 | A header without the name does not match. |
| Cookies.FirstMatchOfLeadingCookie | lib/cookies.js:38 | A header starting with `name=value` captures `value`. |
| Cookies.LongerNameAlsoMatches | lib/cookies.js:38 | The expression is unanchored: a cookie whose name ends in `ar_session` also matches. |
| Cookies.SessionIdFromRequest | lib/cookies.js:35-42 | A session id read from a request is never empty. |
| Cookies.RequestWithoutSessionCookie | lib/cookies.js:36-39 | With no header, an empty header, or no `ar_session=` in the header, there is no session id. |
| Cookies.RequestWithoutStateCookie | lib/cookies.js:93-96 | With no header, an empty header, or no `ar_oauth_state=` in the header, there is no state. |
| Cookies.SessionCookieRoundTrip | lib/cookies.js:35-63 | The value written by `setSessionCookie`, sent back as the leading cookie, is read as the same session id. |
| Cookies.StateCookieRoundTrip | lib/cookies.js:81-97 | The value written by `setStateCookie`, sent back, is read as the same state. |
| Cookies.EmptyStateCookieIsNotRead | lib/cookies.js:95-96 | An empty state cookie reads as null. |
| Cookies.DefaultMaxAgeText | lib/cookies.js:53 | The default max-age renders as `604800`, seven days in seconds. |
| Cookies.SessionCookieHeaderText | lib/cookies.js:50-63 | As text, the session header is the signed, encoded value followed by the fixed attributes, the max-age and `; Secure` when asked for. |
| Cookies.SessionCookieAttributes | lib/cookies.js:50-63 | Read back attribute by attribute, the header holds the signed value, `Path=/`, `HttpOnly`, `SameSite=Lax` and the max-age. The max-age is seven days by default. `Secure` is present exactly when `secure` is true. |
| Cookies.SecureAttribute | lib/cookies.js:52-61 | `Secure` is among the parts exactly when the option is true. |
| Cookies.ClearSessionCookieAttributes | lib/cookies.js:68-73 | The clearing header holds an empty `ar_session` value and `Max-Age=0`, with the same path and flags. |
| Cookies.StateCookieAttributes | lib/cookies.js:81-86 | The state header holds the encoded state, the path and flags, and `Max-Age=600`, and never `Secure`. |
| Cookies.Response.constructor | lib/cookies.js:45 | A response starts with no headers. |
| Cookies.Response.SetHeader | lib/cookies.js:45 | Sets one header and keeps the others. |
| Cookies.Response.SetSessionCookie | lib/cookies.js:50-63 | Sets `Set-Cookie` to the session header and changes no other header. |
| Cookies.Response.ClearSessionCookie | lib/cookies.js:68-73 | Sets `Set-Cookie` to the clearing header. |
| Cookies.Response.SetStateCookie | lib/cookies.js:81-86 | Sets `Set-Cookie` to the state header. |
| JsText.LastIndexOf | lib/cookies.js:22 | Gives the position of the last occurrence, or -1 exactly when the character is absent. |
| JsText.TrimOfTrimmed | lib/cookies.js:40 | `trim` leaves a trimmed string unchanged. |
| JsText.ReplaceAllAbsent | lib/redact.ts:20 | A global replace of an absent literal changes nothing. |
| JsText.NatToStringInjective | lib/generate-markdown.ts:118 | Distinct numbers render as distinct decimal strings. |
| JsText.StrLessTransitive | lib/job-store.js:50-51 | The code-point order used for `localeCompare` is transitive. |
| JsText.StrLessTotal | lib/job-store.js:50-51 | The code-point order relates any two distinct strings. |
| JsText.StrLessIrreflexive | lib/job-store.js:50-51 | No string precedes itself. |

## Left out

- `decodeURIComponent` throws on a malformed escape. Decoding is a total function parameter here, so this error path is not modelled.
- `encodeURIComponent` and `decodeURIComponent` are parameters. The round trips assume that decoding inverts encoding and that encoded text is cookie-safe.
- HMAC-SHA256 is an uninterpreted function parameter. Only the fact that a hex digest contains no '.' is used.
- Cookies.Verify: the `typeof value !== "string"` check is not modelled, because the value is always a string or absent here.
- Cookies.FirstMatch: the regular expression is modelled only for a literal name followed by `([^;]+)`. It is the leftmost match, and no general regular-expression engine is modelled.
- Redact.RedactString: `new RegExp(escapeRegex(name), "g")` is modelled as a global replacement of the literal name, without a regular-expression engine. `Redact.EscapeRegexIsLiteral` proves that the escaped pattern denotes exactly that literal. An empty name matches at every position. Positions here are characters, while JavaScript's regular expression without the `u` flag works on UTF-16 code units. So an empty name also puts the placeholder between the two halves of a surrogate pair in JavaScript, and not in the model.
- Jobs.JobStore.GetLatestJob: `localeCompare` is approximated by code-point order (`StrLess`), which is not locale-aware. The sort followed by `[0]` is modelled as picking the maximum, which is unique because ids are distinct map keys.
- Jobs.JobStore.RunInBackground: the Promise scheduling is not modelled. Interleaving with other store operations while the work runs is not modelled either. The work is its outcome: the progress reports it makes, then a value, a rejection message, or a stall. A rejection with a non-null value that has no `message` (a string or a number, say) is a missing message and gives "Job failed". A rejection with null or undefined, a synchronous throw and a result without `.then` are stalls that leave the job running. A truthy `message` that is not a string is not modelled.
- Jobs.JobStore.Report: a report may carry any partial update, like the source's `report`. The lifecycle lemmas assume progress-only reports.
- `Date.now()`, `new Date().toISOString()` and `Math.random().toString(36)` become parameters of `CreateJob` and `CreateSession`.
- JSON numbers are integers (`JNumber(int)`), because the redaction code never inspects them. Floating point is left out.
- Redact.RedactRepoNames: an object is rebuilt by `result[key] = …` on a plain `{}`. For an own key `__proto__` that assignment goes through the `Object.prototype.__proto__` setter. A primitive value is dropped, and an object value replaces the result's prototype, so the output lacks that key. The model keeps `__proto__` as an ordinary field, and `Redact.RedactedKeepsShape` holds only for objects without that key.
- Cookies.CookieOptions: `maxAge` is an integer, so `Max-Age` is always printed as an integer. A JavaScript number such as 1.5, which `Max-Age=${maxAge}` would print as "1.5", and `NaN` or `Infinity` are not modelled.
- Jobs.Merge: a field supplied with the value `undefined` is not distinguished from a missing one, so `{ created_by: undefined }` keeps the owner here while `Object.assign` clears it. Likewise a work that resolves with `undefined` stores `result: undefined`, which `Json` cannot hold.
- Sessions.SessionStore.SetOAuthState: the state is a string. A non-string truthy state (the map is untyped) is not modelled.
- Sessions.SessionStore.CreateSession: the session data is an opaque value, so the spread `...data` is not expanded field by field.
- Cookies.Response: `res.setHeader` is a `headers` map. A second `Set-Cookie` replaces the first, as with Node's `setHeader`.
- Markdown.NameMap: `Object.fromEntries` is a map from strings. Keys inherited from `Object.prototype` (such as `constructor`) are not modelled. A `theme_id` like that would find an inherited value in JavaScript.
- Redact.FilterExcludedContributions: the fast path returns the same object. Object identity is modelled as value equality.
- Appendix: groups are shared objects in the source, reachable both from the group list and from the id map. They are modelled as positions in the group list, with the map holding positions.
- Appendix.RowLine: ids and urls are written into the table cells unescaped, as in the source. Only the title is escaped.
- Markdown: the optional arrays the generator reads with `?? []` or `?.length` are sequences, with an absent array as empty. An array-valued field that is present but not an array is outside the model.

## Behaviour worth knowing

None of these is a bug in the code. The model follows the code in each case, and the lemmas named show the behaviour:

- The repository describes redaction as leaving no occurrence of an excluded name. The code does not guarantee this. The placeholder "internal repo" can itself contain a name, and a later name can be produced by an earlier replacement (`Redact.PlaceholderCanMentionName`).
- A by-theme bullet group without a `theme_id` looks up the key "". A theme without an id is stored under the key "undefined" (`Markdown.GroupHeadingOf`, `Markdown.NameMapKeys`).
- Two themes with the same id both get a group in the appendix. The id map addresses only the last one, so the earlier group stays empty and is never rendered (`Appendix.GroupIndex`, `Appendix.TargetOfThemeId`).
- A theme whose id is `__general__` is displaced by the General group in the id map (`Appendix.InitialIndexOk`).
- An empty OAuth state is never consumed, because only a truthy state is deleted (`Sessions.EmptyOAuthStateIsNotConsumed`).
- The session cookie expression is unanchored, so a cookie named, for example, `xar_session` also matches (`Cookies.LongerNameAlsoMatches`).
