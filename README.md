# MailInsight email triage — a Dafny model

MailInsight ingests emails, asks a language-model classifier for a risk
assessment, stores one `email_scans` row per assessment, and shows the rows
in an inbox and a detail page with a chat assistant. This project models the
logic underneath: the `analyze-email` edge function (request schema, gate
order, prompt truncation, reply sanitizer, stored row), the inbox filter and
statistics, and the detail page's risk presentation and chat transcript.

Remote services are outcomes supplied to the model rather than code in it.
These include the profile lookup, the OpenAI completion, the insert, the
assistant call, `JSON.parse`, and the validation library's `email()` and
`datetime()` formats. In `AnalyzeEmail.Services` and `EmailSchema.Formats`
they are function-typed fields. The chat panel receives the assistant as a
function argument.

Modules, one per file:

- `Wrappers` (wrappers.dfy): `Option`, `Result`.
- `Json` (json.dfy): JSON values.
- `Text` (text.dfy): `substring(0, n)`, `toLowerCase`, `includes` and `trim`.
- `Sequences` (sequences.dfy): `Array.prototype.filter` with its order, membership and counting lemmas.
- `EmailSchema` (email_schema.dfy): the request schema as data and the validator.
- `Classifier` (classifier.dfy): the prompt, the `{…}` span search and the sanitizer.
- `AnalyzeEmail` (analyze_email.dfy): the stored row, the handler and its gate lemmas.
- `Dashboard` (dashboard.dfy): `filteredEmails`, `stats` and `getRiskBadge`.
- `EmailDetail` (email_detail.dfy): level and score mappings, link safety, breakdown, actions, and the `ChatPanel` class.

Notes on the code as written:

- `analyze-email` has no bearer-token check and no 401. The only identity gate is that a profile exists for the body's `userId`.
- `userId` has no upper length bound.
- A body that is not JSON ends in 500, not 400, because the parse error is caught by the outer `try`.
- `createClient` throws when the service URL or key is missing. That is modelled as `clientConfigured` and ends in 500 before the profile lookup.

## Model

| member | source | states |
|---|---|---|
| Text.Take | supabase/functions/analyze-email/index.ts:100 | `substring(0, n)` is the prefix of length min(n, \|s\|) |
| Text.LowerChar | src/pages/Dashboard.tsx:182-183 | only A–Z change, each to its lower-case letter; no upper-case ASCII letter remains |
| Text.Lower | src/pages/Dashboard.tsx:182-183 | `toLowerCase` keeps the length and lower-cases character by character |
| Text.Contains | src/pages/Dashboard.tsx:182-183 | `includes`: the needle starts at some position; its meaning is stated by `Text.ContainsIff` |
| Text.Trim | src/pages/EmailDetail.tsx:92-94 | `trim()`: leading then trailing whitespace dropped; its meaning is stated by `Text.TrimShape` and `Text.TrimEmptyIff` |
| Text.TakeOfTake | supabase/functions/analyze-email/index.ts:138-144 | cutting to n then to m ≤ n is cutting to m |
| Text.LowerIdempotent | src/pages/Dashboard.tsx:182-183 | lower-casing twice equals lower-casing once |
| Text.OccurrenceContained | src/pages/Dashboard.tsx:182-183 | every occurrence of the needle is found by `includes` |
| Text.ContainedOccurs | src/pages/Dashboard.tsx:182-183 | what `includes` finds is a real occurrence |
| Text.ContainsIff | src/pages/Dashboard.tsx:182-183 | `includes` holds iff the needle occurs at some position |
| Text.TrimStartShape | src/pages/EmailDetail.tsx:94 | trimming the start drops exactly a leading whitespace run |
| Text.TrimEndShape | src/pages/EmailDetail.tsx:94 | trimming the end drops exactly a trailing whitespace run |
| Text.TrimShape | src/pages/EmailDetail.tsx:94 | `trim()` is an infix of the input; what it drops is whitespace; the result neither starts nor ends with whitespace |
| Text.TrimEmptyIff | src/pages/EmailDetail.tsx:92 | `trim()` is empty iff the input is all whitespace |
| Sequences.Filter | src/pages/Dashboard.tsx:178-185 | every kept element is in the input and satisfies the predicate, and every such input element is kept |
| Sequences.FilterIsSubsequence | src/pages/Dashboard.tsx:178-185 | filtering keeps the original order |
| Sequences.FilterAppend | src/pages/Dashboard.tsx:178-185 | filtering distributes over concatenation |
| Sequences.FilterKeepsAll | src/pages/Dashboard.tsx:179-181 | a predicate true of every element keeps the whole sequence |
| Sequences.FilterCongruent | src/pages/Dashboard.tsx:182-183 | predicates that agree on the elements filter alike |
| Sequences.DisjointFiltersBound | src/pages/Dashboard.tsx:187-192 | three mutually exclusive filters select at most \|s\| elements together |
| EmailSchema.CheckIssues | supabase/functions/analyze-email/index.ts:13-19 | a string field has no issues iff every check passes, at most one issue per check, each naming the field |
| EmailSchema.EveryFailingCheckReported | supabase/functions/analyze-email/index.ts:13-19 | all checks run: every failing check yields its own issue of the matching kind, even after an earlier check failed |
| EmailSchema.IssueFromFailingCheck | supabase/functions/analyze-email/index.ts:13-19 | every issue of a string field is the issue of one of its failing checks |
| EmailSchema.FieldIssues | supabase/functions/analyze-email/index.ts:12-21 | a field has no issues iff it is present, of the right type and passes its checks |
| EmailSchema.SchemaIssues | supabase/functions/analyze-email/index.ts:12-21 | no issues iff every rule of the schema holds |
| EmailSchema.IssuesNameFailingRules | supabase/functions/analyze-email/index.ts:40-46 | every reported issue names a rule that fails |
| EmailSchema.FailingRulesReported | supabase/functions/analyze-email/index.ts:40-46 | every failing rule is named by some issue |
| EmailSchema.Validate | supabase/functions/analyze-email/index.ts:40-52 | a rejection always lists at least one issue |
| EmailSchema.SchemaMeansAccepted | supabase/functions/analyze-email/index.ts:12-21 | the eight rules together are exactly the field bounds |
| EmailSchema.ValidateIffAccepted | supabase/functions/analyze-email/index.ts:12-21 | a body is accepted iff userId non-empty, emailId 1–255, subject 1–500, sender 1–255, senderEmail an email of ≤ 255, content 1–50000, receivedDate a datetime, hasAttachments a boolean; accepted values are copied unchanged |
| EmailSchema.AcceptedRequestBounds | supabase/functions/analyze-email/index.ts:12-21 | every validated request meets those bounds |
| EmailSchema.SchemaNamesDistinct | supabase/functions/analyze-email/index.ts:12-21 | the schema names each field once |
| EmailSchema.IssuesNameExactlyFailingFields | supabase/functions/analyze-email/index.ts:40-46 | for an object body, a field is named by some issue iff it violates its rule, and every issue names a schema field |
| EmailSchema.OnlyFailingRule | supabase/functions/analyze-email/index.ts:40-46 | when only one rule fails, the issues are that rule's alone |
| EmailSchema.MissingFieldReportedAlone | supabase/functions/analyze-email/index.ts:40-52 | a body that is valid except for one missing field gets exactly one issue, `Required` for that field |
| Classifier.UserHeader | supabase/functions/analyze-email/index.ts:95-100 | the user message up to the content: subject, sender, sender address, attachment flag |
| Classifier.BuildPrompt | supabase/functions/analyze-email/index.ts:82-103 | model "gpt-4o-mini", the fixed system message, and a user message that starts with the header and ends with exactly the first min(\|content\|, 2000) characters of the content |
| Classifier.PromptIgnoresContentTail | supabase/functions/analyze-email/index.ts:100 | content past 2000 characters never changes the prompt |
| Classifier.FirstIndexOf | supabase/functions/analyze-email/index.ts:109 | the result is the first occurrence, or None when the character is absent |
| Classifier.LastIndexOf | supabase/functions/analyze-email/index.ts:109 | the result is the last occurrence, or None when the character is absent |
| Classifier.BraceSpan | supabase/functions/analyze-email/index.ts:109 | a match starts with `{`, ends with `}` and is no longer than the reply |
| Classifier.BraceSpanSpec | supabase/functions/analyze-email/index.ts:109 | a span exists iff some `{` precedes some `}`; it runs from the first `{` to the last `}` inclusive |
| Classifier.Fallback | supabase/functions/analyze-email/index.ts:113-126 | a fallback has exactly the four analysis keys |
| Classifier.ReplyText | supabase/functions/analyze-email/index.ts:106 | the first choice's content, or the empty text when it is missing |
| Classifier.Sanitize | supabase/functions/analyze-email/index.ts:106-127 | never fails: the result is the object parsed from the reply's span, or a fallback with the four keys, score 15, level "safe" and the first 500 reply characters as summary |
| Classifier.SanitizeCases | supabase/functions/analyze-email/index.ts:106-127 | no span gives the fallback with no indicators; an unparsable span gives it with the one diagnostic indicator; a parsed object is used as is |
| Classifier.FallbackWellFormed | supabase/functions/analyze-email/index.ts:113-126 | a fallback has score 15, level "safe", and a summary of the first min(\|reply\|, 500) reply characters |
| Classifier.MissingReplyFallsBack | supabase/functions/analyze-email/index.ts:106 | a missing or empty reply gives the fallback of the empty text |
| Classifier.ProseReplySummarisedWhole | supabase/functions/analyze-email/index.ts:112-118 | a reply of at most 500 characters with no `{` is stored whole as the summary, at score 15 and level "safe" |
| AnalyzeEmail.ToStringExamples | supabase/functions/analyze-email/index.ts:140 | `toString()` throws on null, on an object with its own `toString` key and on an array holding one at any depth; not on an array of null and strings, nor on an object with only `valueOf` |
| AnalyzeEmail.BuildRow | supabase/functions/analyze-email/index.ts:130-146 | building the row fails, as `toString()` throws, iff the analysis has no score or the score's `toString()` throws |
| AnalyzeEmail.Handle | supabase/functions/analyze-email/index.ts:25-170 | every response carries the CORS headers; the status is one of 200, 400, 404, 405, 500; a 200 is the empty preflight answer or a stored scan; at most three remote effects |
| AnalyzeEmail.Process | supabase/functions/analyze-email/index.ts:54-158 | after validation: JSON and CORS headers, status 200, 404 or 500, a 200 exactly when a scan was stored, at most three remote effects; the late 500 paths are pinned down by `LateFailuresAreServerErrors` |
| AnalyzeEmail.MethodGate | supabase/functions/analyze-email/index.ts:26-35 | OPTIONS gets an empty 200, any other non-POST a 405, both with no effect |
| AnalyzeEmail.UnreadableBodyIsServerError | supabase/functions/analyze-email/index.ts:37-39 | a body that is not JSON ends in 500 with no effect |
| AnalyzeEmail.SchemaGate | supabase/functions/analyze-email/index.ts:40-52 | a schema failure gives a 400 listing every issue; no lookup, classifier call or insert happens |
| AnalyzeEmail.ProfileGate | supabase/functions/analyze-email/index.ts:63-75 | a missing profile gives a 404 after the lookup alone; no classifier call or insert happens |
| AnalyzeEmail.LateFailuresAreServerErrors | supabase/functions/analyze-email/index.ts:58-168 | a missing client ends in 500 with no effect, a missing key in 500 after the lookup, a failed classifier call in 500 after the call, and a failed insert in 500 after the insert; none of the first three inserts anything |
| AnalyzeEmail.ProcessFollowsPipeline | supabase/functions/analyze-email/index.ts:63-151 | after validation, the effects are a prefix of the lookup for the request's user, the call with its prompt, and an insert |
| AnalyzeEmail.EffectsFollowPipeline | supabase/functions/analyze-email/index.ts:63-151 | the effects are always a prefix of lookup, classify, insert, and happen only for a valid POST |
| AnalyzeEmail.SuccessIff | supabase/functions/analyze-email/index.ts:25-158 | a 200 with a row happens iff every gate passes, the classifier answers, the analysis has a score whose `toString()` does not throw, and the insert succeeds |
| AnalyzeEmail.StoredScanPath | supabase/functions/analyze-email/index.ts:37-158 | a stored scan comes only from a valid POST whose classifier answered and whose analysis built a row; the trace is lookup, call, insert of that row |
| AnalyzeEmail.StoredRowFaithful | supabase/functions/analyze-email/index.ts:130-146 | the stored row copies the identity fields; preview and content_preview are the first 200 and 500 characters; preview ≤ content_preview ≤ content as prefixes; the effects were lookup, call and the insert of that row |
| AnalyzeEmail.ParsedAnalysisUnchecked | supabase/functions/analyze-email/index.ts:109-111 | a parsed score whose `toString()` does not throw, and the parsed level, reach the row unchanged, without range or enum checks |
| AnalyzeEmail.UnprintableScoreIsServerError | supabase/functions/analyze-email/index.ts:140 | a parsed object without a score, or with one whose `toString()` throws, ends in 500 right after the classifier call: the trace is the lookup and the call, and nothing is inserted |
| AnalyzeEmail.FallbackNeverLosesScore | supabase/functions/analyze-email/index.ts:112-126 | a fallback analysis always yields a row with score 15 and level "safe" |
| Dashboard.FilteredEmails | src/pages/Dashboard.tsx:178-185 | `filteredEmails`: the inbox filtered by level and search; its meaning is stated by `Dashboard.FilteredMembership` |
| Dashboard.LevelCount | src/pages/Dashboard.tsx:189-191 | the number of emails at one level, at most the inbox length |
| Dashboard.FilteredMembership | src/pages/Dashboard.tsx:178-185 | an email is listed iff its level passes the filter and the lower-cased query occurs in the lower-cased subject or sender; the list keeps inbox order |
| Dashboard.UnfilteredIsInbox | src/pages/Dashboard.tsx:179-181 | the "all" filter with an empty query lists the whole inbox |
| Dashboard.SearchIgnoresCase | src/pages/Dashboard.tsx:182-183 | lower-casing the query leaves the list unchanged |
| Dashboard.ComputeStats | src/pages/Dashboard.tsx:187-192 | total is the inbox length and safe + suspicious + dangerous ≤ total; the inputs are only the inbox, never the filter or query |
| Dashboard.FilteredCountMatchesStats | src/pages/Dashboard.tsx:178-192 | with an empty query, the filtered list is as long as the level's count, or the total under "all" |
| Dashboard.RiskBadge | src/pages/Dashboard.tsx:160-176 | safe, suspicious and dangerous get the green, yellow and red variants; an unknown level gets the safe colour and icon; the check icon appears iff the level is neither suspicious nor dangerous |
| EmailDetail.RiskColor | src/pages/EmailDetail.tsx:77-84 | any level outside suspicious and dangerous gets the safe style |
| EmailDetail.RiskIcon | src/pages/EmailDetail.tsx:86-89 | CheckCircle iff the level is exactly "safe" |
| EmailDetail.UnknownLevelMixesSafeAndWarning | src/pages/EmailDetail.tsx:77-89 | an unknown level gets the safe colour with the warning icon; only "safe" gets both safe style and check icon |
| EmailDetail.ProgressColor | src/pages/EmailDetail.tsx:292-296 | red iff score > 70; yellow iff 30 < score ≤ 70; green iff score ≤ 30 |
| EmailDetail.SenderTrust | src/pages/EmailDetail.tsx:308 | High below 30, Medium from 30 to below 70, Low from 70 |
| EmailDetail.ContentRisk | src/pages/EmailDetail.tsx:328 | Low below 30, Medium from 30 to below 70, High from 70 |
| EmailDetail.TrustMirrorsContentRisk | src/pages/EmailDetail.tsx:308-328 | Sender Trust High iff Content Risk Low, Low iff High, Medium iff Medium |
| EmailDetail.BarAndContentRiskDisagreeAtCuts | src/pages/EmailDetail.tsx:293-328 | the bar colour and Content Risk disagree exactly at scores 30 and 70 |
| EmailDetail.SomeMentionsLink | src/pages/EmailDetail.tsx:318 | true iff some indicator, lower-cased, contains "link" |
| EmailDetail.LinkSafetyOf | src/pages/EmailDetail.tsx:318 | "Suspicious" iff some indicator, lower-cased, contains "link" |
| EmailDetail.Breakdown | src/pages/EmailDetail.tsx:333-347 | the "Detected Threats" rows; their shape is stated by `EmailDetail.BreakdownShape` |
| EmailDetail.BreakdownShape | src/pages/EmailDetail.tsx:333-347 | the first min(5, n) indicators in order, at (i+1)·20 percent: strictly increasing, within 1..100 |
| EmailDetail.RecommendedActions | src/pages/EmailDetail.tsx:435-472 | the "Recommended Actions" card; its size and tones are stated by `EmailDetail.ActionCounts` |
| EmailDetail.ActionCounts | src/pages/EmailDetail.tsx:435-472 | 3 actions for dangerous and suspicious, 1 for safe, none otherwise, each in the level's tone |
| EmailDetail.ChatPanel.constructor | src/pages/EmailDetail.tsx:48-50 | an empty transcript, an empty box, not loading |
| EmailDetail.ChatPanel.ChangeInput | src/pages/EmailDetail.tsx:404-415 | typing replaces the box text and leaves the transcript alone |
| EmailDetail.ChatPanel.Begin | src/pages/EmailDetail.tsx:92-97 | a blank input or no email changes nothing; otherwise the box is cleared, the trimmed question is appended, and loading is set |
| EmailDetail.ChatPanel.Complete | src/pages/EmailDetail.tsx:99-129 | exactly one assistant message is appended: the reply, or the apology on error; then loading ends |
| EmailDetail.ChatPanel.Submit | src/pages/EmailDetail.tsx:91-130 | the transcript grows by exactly the trimmed question and one reply, or not at all; earlier messages are unchanged; the question/reply alternation invariant holds |

## Left out

- The Supabase client, its queries, auth and function invocation, and the OpenAI client are not code in this model. Each is an outcome supplied as a parameter.
- `JSON.parse` is a partial function supplied as a parameter. The model assumes that a text starting with `{` parses only to an object.
- The validation library's `email()` and `datetime()` formats are uninterpreted predicates.
- The validation library's message wording is not modelled. Issues carry a kind.
- The text of 500 error messages is not modelled. A 500 carries its cause. Whether a store error is an `Error` instance, which decides between its message and "Unknown error", is not modelled either.
- supabase/functions/ai-chat-assistant/index.ts is not part of this model. The assistant is modelled only as an outcome: a response text or an error. As written, that function never answers the page. Its schema is `partial()` and strips the unknown keys `message` and `emailContext` the page sends, so the parsed data is empty. Then `threatIndicators.join(", ")` (ai-chat-assistant/index.ts:78) throws on `undefined` before the model is called, and the call ends in 500. So every submission ends in the apology. The page's read of `data.response`, where the function would return `explanation`, is therefore never reached.
- src/pages/Authcallback.tsx is not part of this model. It is the OAuth code exchange and navigation.
- `scanDemoEmails` and `syncGmail` are not modelled. They use the clock for demo ids, run concurrent fan-out, and call remote services.
- `fetchEmailScans` and `fetchEmailDetail` are not modelled. They are remote reads, and the store orders the list.
- Rendering is not modelled: JSX, toasts, navigation, console logging and date formatting.
- Object lookups in the level tables skip the JavaScript prototype chain. A level such as "constructor" would find an inherited property instead of falling back; the model treats every unknown level as missing.
- `toLowerCase` is modelled on ASCII letters only.
- String lengths count Unicode scalar values, not the UTF-16 code units JavaScript counts. Lengths differ for characters outside the Basic Multilingual Plane.
- Scores are real numbers. NaN and floating-point rounding are not modelled.
- AnalyzeEmail.BuildRow: keeps `risk_score` and `threat_indicators` as the JSON values whose string forms (`toString`, `JSON.stringify`) are sent, rather than those strings.
- AnalyzeEmail.SuccessIff: the 200 body is the row the handler sent plus the id the store assigned. Column defaults and conversions the store applies to the row it returns are not modelled.
- EmailDetail.ChatPanel.Submit: the asynchronous call is one atomic step between `Begin` and `Complete`. No other event can occur in between. The page itself disables the input while loading.
