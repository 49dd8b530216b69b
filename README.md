# Connections: a verified model of the app's logic

Connections is a small single-page React app for tracking job applications (student
view) and professional contacts (professional view), with an AI voice assistant that
turns a spoken sentence into a record. This project models the logic under the UI in
Dafny and proves what it guarantees:

- **CSV export** (`CsvExport`): the header comes from the first object's keys and each
  row is read through those keys. Every field is quoted with embedded quotes doubled, as
  in items 6–7 of section 2 of RFC 4180, but the header is unquoted and lines end in LF.
  A reader for that text is the partner definition. When the list is non-empty, the
  first object has keys and no key contains a comma or a line feed, the round trip
  recovers those keys and every object's values under them (values may hold any
  character); a key that only later objects have is never exported. When no key or value contains a line feed, the text has one line
  per object plus the header; a value with a line feed (a multi-line note) spans lines.
- **AI reply post-processing** (`GeminiService`): the fallback texts of
  `generateLinkedInPost`, and the tail of `parseVoiceCommand`. That tail trims the
  reply, strips a Markdown fenced code block (optionally tagged `json`, any letter case)
  and hands the rest to `JSON.parse`. Every failure becomes a fixed `unknown` result.
  A fenced body and the bare body reach the parser as the same string.
- **The two record stores** (`StudentView`, `ProfessionalView`, sharing `RecordStore`):
  - classes holding the record list and the edit slot;
  - adding with the `||` defaults;
  - deleting and replacing by id, stated for every record with that id, since ids are
    not unique;
  - edit and cancel;
  - the voice cross-mapping that turns a contact into a job lead and a job into a
    "Hiring Team" contact;
  - the status badge classifier and the student export.
- **The voice assistant** (`VoiceAssistant`): a class for the state machine over
  recording, processing, transcript and feedback. Its handlers are the mic button, the
  speech engine's result, error and end events, and the completion of a parse request.
  It includes white-space-run normalisation of the transcript.
- **The team dialog's add form** (`TeamModal`): a member is added only with a name and
  a role, and a successful add resets the draft and closes the form.
- **Whole interactions** (`Scenarios`): from the mic button to both record lists.

JavaScript semantics the logic relies on are in `Js` and `JsString`:
- `||` on missing, `null` and empty strings;
- template interpolation of `undefined` and `null`;
- the ECMA-262 white-space set used by `trim` and `\s`;
- `includes`, `toLowerCase`, and `replace(/\s+/g, ' ')`.

The clock (`Date.now()`, `new Date()`) is a parameter of every adding method. The hosted
model call is a `Reply` parameter (it threw, or it answered with optional text).
`JSON.parse` is a parameter `parse: string -> Option<VoiceResult>`, which gives `None`
where it would throw.

## Model

| member | source | states |
|---|---|---|
| JsString.Trim | services/geminiService.ts:108 | the trimmed text neither starts nor ends with white space |
| JsString.TrimStart | services/geminiService.ts:111 | the result is a suffix of the input, everything removed is white space, and the result does not start with white space |
| JsString.TrimEnd | services/geminiService.ts:113 | the result is a prefix of the input, everything removed is white space, and the result does not end with white space |
| JsString.TrimEmptyIffAllSpace | components/VoiceAssistant.tsx:64 | `trim()` leaves the empty string exactly when the text is all white space |
| JsString.TrimPadding | services/geminiService.ts:108 | trimming white-space padding around a trimmed text gives that text back |
| JsString.TrimStartPadding | services/geminiService.ts:111 | `trimStart` removes exactly an all-space prefix in front of a non-space character |
| JsString.TrimEndPadding | services/geminiService.ts:113 | `trimEnd` removes exactly an all-space suffix after a non-space character |
| JsString.IncludesExtended | components/StudentView.tsx:51-54 | a text that includes a keyword still does after text is added on either side |
| JsString.ToLower | components/StudentView.tsx:50 | lower-casing keeps the length and maps each character on its own |
| JsString.ToLowerIdempotent | components/StudentView.tsx:50 | lower-casing twice is lower-casing once |
| JsString.ToLowerAppend | components/StudentView.tsx:50 | lower-casing distributes over concatenation |
| JsString.CollapseSpaces | components/VoiceAssistant.tsx:35 | every white-space character left is a plain space followed by a non-space character or the end, the result is no longer than the input, and it starts with the input's first character, or a space when that is white space |
| JsString.CollapseRun | components/VoiceAssistant.tsx:35 | a white-space run of any length and kind in front of text that does not start with white space becomes exactly one plain space |
| JsString.CollapseAppend | components/VoiceAssistant.tsx:35 | text ending in a non-space character is normalised independently of what follows, so each run is replaced in its own place and no word break is lost |
| JsString.CollapseKeepsText | components/VoiceAssistant.tsx:35 | collapsing keeps every non-space character, in order |
| JsString.CollapseNoRuns | components/VoiceAssistant.tsx:35 | a text without white-space runs is left unchanged |
| JsString.CollapseIdempotent | components/VoiceAssistant.tsx:35 | normalising twice is normalising once |
| JsString.CollapseAllSpace | components/VoiceAssistant.tsx:35 | the result is all white space exactly when the input is |
| CsvExport.Keys | services/csvExport.ts:11 | the header keys are the first object's keys, in key order |
| CsvExport.Cells | services/csvExport.ts:16-17 | one cell per header key, in header order, each the object's value under that key |
| CsvExport.ExportToCsv | services/csvExport.ts:4-21 | no text exactly when there are no objects |
| CsvExport.Table | services/csvExport.ts:16-20 | one row of values per object, in list order |
| CsvExport.LookupValue | services/csvExport.ts:17 | a cell is empty or one of the object's own values |
| CsvExport.LookupAt | services/csvExport.ts:17 | a key is read from its first occurrence in the object |
| CsvExport.Escape | services/csvExport.ts:19 | never shorter than the value, and a value without a double quote is left as it is |
| CsvExport.Quote | services/csvExport.ts:19 | the field starts and ends with a double quote around at least the value's length |
| CsvExport.DataLines | services/csvExport.ts:16-20 | one data line per object |
| CsvExport.ReadQuotedEscape | services/csvExport.ts:19 | after the opening quote, reading up to the closing quote and un-doubling embedded quotes gives back the value, whatever follows that does not start with a quote |
| CsvExport.ReadFieldQuote | services/csvExport.ts:19 | a quoted field reads back as its value |
| CsvExport.ReadCellsFormatRow | services/csvExport.ts:16-20 | a data line reads back as its list of values |
| CsvExport.ReadRecordsLines | services/csvExport.ts:14-21 | the data lines joined by LF read back as the table |
| CsvExport.DataLinesAreFormattedTable | services/csvExport.ts:16-20 | the data lines are exactly the formatted rows of the table |
| CsvExport.SplitJoin | services/csvExport.ts:15 | splitting the comma-joined header on commas gives back the keys when no key contains a comma |
| CsvExport.JoinAvoids | services/csvExport.ts:15 | joining adds no character other than the separator |
| CsvExport.FormatRowAvoids | services/csvExport.ts:19-20 | a data line contains no character that is absent from its values, other than quote and comma |
| CsvExport.ExportRoundTrip | services/csvExport.ts:4-21 | when the first object has keys and none contains a comma or line feed, reading the exported text back gives those keys as header and every object's values under them; values may hold any character |
| CsvExport.ExportLines | services/csvExport.ts:14-21 | with no line feed in keys or values the text is exactly the header line plus one line per object (`data.length + 1` lines) |
| GeminiService.GenerateLinkedInPost | services/geminiService.ts:37-40 | the model's text when non-empty, "Failed to generate post." when empty or missing, the API-key message when the call threw; never empty |
| GeminiService.ParseVoiceCommand | services/geminiService.ts:104-121 | a failed call gives the processing error, an empty or missing text gives "Could not parse response.", otherwise the parser's result on the cleaned text or the processing error when it throws |
| GeminiService.ParseFailuresAreUnknown | services/geminiService.ts:104-121 | every result is either a fixed `unknown` result with a non-empty message or exactly what the parser made of the cleaned text; the function never fails |
| GeminiService.EmptyReplySkipsParser | services/geminiService.ts:104-105 | an empty or missing text gives "Could not parse response." whatever the parser does |
| GeminiService.StripOpeningFence | services/geminiService.ts:111 | what is left is a suffix of the text after the fence and, when the next four characters spell `json` in any case, after that tag too; everything skipped between them is white space, and the result does not start with white space |
| GeminiService.StripClosingFence | services/geminiService.ts:113 | a text not ending in a fence is unchanged; otherwise the result is a prefix of the text before the final fence, everything dropped in between is white space, and the result does not end with white space |
| GeminiService.Clean | services/geminiService.ts:107-114 | the text handed to the parser never starts or ends with white space, and a fenced text loses at least its opening fence |
| GeminiService.OpeningFenceKeepsTrimmed | services/geminiService.ts:111 | stripping the opening fence of a trimmed text leaves it trimmed |
| GeminiService.ClosingFenceKeepsTrimmed | services/geminiService.ts:113 | stripping the closing fence of a trimmed text leaves it trimmed |
| GeminiService.CleanUnfenced | services/geminiService.ts:108-109 | a text that does not start with a fence reaches the parser only trimmed; a trailing fence is kept |
| GeminiService.CleanBare | services/geminiService.ts:108-114 | a trimmed body padded with white space cleans to the body |
| GeminiService.CleanFenced | services/geminiService.ts:109-113 | a trimmed body inside a fenced block, untagged or tagged `json` in any letter case, cleans to the body |
| GeminiService.CleanOpened | services/geminiService.ts:109-111 | a fence and tag followed by a line break are stripped with the white space after them |
| GeminiService.OpeningFenceTag | services/geminiService.ts:111 | the optional `json` tag goes with the opening fence |
| GeminiService.OpeningLineBreak | services/geminiService.ts:111 | the line break after the opening fence goes with the white space |
| GeminiService.ClosingFenceAfter | services/geminiService.ts:113 | the closing fence goes with the line break before it |
| GeminiService.FencedTextIsTrimmed | services/geminiService.ts:108 | a text opening and closing with a fence is unchanged by `trim` |
| GeminiService.CleanFencedText | services/geminiService.ts:108-114 | a trimmed text that starts with a fence has both fences stripped |
| GeminiService.FencedAndBareParseAlike | services/geminiService.ts:107-116 | a fenced reply and its bare body give the same parse result |
| RecordStore.RemoveId | components/StudentView.tsx:27 | the remaining records are exactly the records with another id, and the list shrinks by the number of records with that id |
| RecordStore.RemoveIdAppend | components/StudentView.tsx:27 | deletion works piece by piece, so the remaining records keep their order |
| RecordStore.RemoveAbsentId | components/ProfessionalView.tsx:28 | deleting an id no record carries changes nothing |
| RecordStore.RemoveIdIdempotent | components/ProfessionalView.tsx:28 | deleting the same id twice is deleting it once |
| RecordStore.ReplaceId | components/StudentView.tsx:31 | same length; each record with the edited record's id is replaced by it, every other record stays |
| RecordStore.ReplaceKeepsIds | components/ProfessionalView.tsx:32 | saving an edit never changes which id is at which position |
| RecordStore.ReplacePresent | components/StudentView.tsx:31 | the edited record is in the list afterwards exactly when some record had its id |
| RecordStore.ReplaceIdempotent | components/ProfessionalView.tsx:32 | saving the same edit twice is saving it once |
| RecordStore.ReplaceAbsentId | components/StudentView.tsx:31 | saving an edit whose id no record carries changes nothing |
| RecordStore.RemoveAfterReplace | components/StudentView.tsx:27-31 | deleting after an edit is the same as deleting without it |
| StudentView.NewJob | components/StudentView.tsx:15-22 | the given id and date; company, role, status and notes are the given value when non-empty, else "Unknown Company", "Unknown Role", "Applied" and ""; company, role and status are never empty |
| StudentView.ConnectionAsJob | components/StudentView.tsx:40-45 | the lead always has company, role and status, and notes starting "New Contact: " |
| StudentView.VoiceJob | components/StudentView.tsx:35-47 | a job result is added as it is, a contact result as exactly `ConnectionAsJob` of the contact, nothing for any other kind or when the payload is missing |
| StudentView.VoiceContactBecomesLead | components/StudentView.tsx:40-45 | a contact recorded by voice becomes a job with company, role and status defaulting to "Networking", "Contact", "Networking", and notes `New Contact: <name> (<email or No email>). <notes>` with a missing name shown as "undefined" |
| StudentView.BadgeOf | components/StudentView.tsx:51-55 | blue exactly when "applied" or "sent" occurs; yellow exactly when not blue and "interview" or "call" occurs; green exactly when neither of those and "offer" or "accepted" occurs, so an offer outranks a rejection; red exactly when none of those and "reject" or "deny" occurs; the neutral badge exactly when none of the eight keywords occurs |
| StudentView.StatusColor | components/StudentView.tsx:49-55 | on the lower-cased status, the first matching group in order: blue exactly when it contains "applied" or "sent"; yellow exactly when not blue and it contains "interview" or "call"; green exactly when neither and it contains "offer" or "accepted"; red exactly when none of those and it contains "reject" or "deny"; the neutral badge exactly when it contains no keyword |
| StudentView.StatusColorIgnoresCase | components/StudentView.tsx:49-50 | the badge ignores letter case |
| StudentView.StatusColorExtended | components/StudentView.tsx:49-55 | adding text around a status can only move its badge earlier in the priority order applied/sent, interview/call, offer/accepted, reject/deny, neutral |
| StudentView.DefaultStatusIsBlue | components/StudentView.tsx:19 | the default status "Applied" gets the blue badge |
| StudentView.JobRow | components/StudentView.tsx:10 | a job's keys are `id, company, role, status, dateApplied, notes`, in that order |
| StudentView.JobRows | components/StudentView.tsx:75 | one exported object per job, in list order |
| StudentView.JobTable | components/StudentView.tsx:75 | one row of values per job, in list order |
| StudentView.JobCellsUnderHeaders | components/StudentView.tsx:15-22 | read under the job headers, a job gives its six values in order |
| StudentView.TableOfJobs | components/StudentView.tsx:75 | the exported table is every job's values in list order |
| StudentView.StudentExport | components/StudentView.tsx:75 | exporting gives no text for an empty list, otherwise text that reads back as header `id,company,role,status,dateApplied,notes` and every job's values in list order |
| StudentView.StudentExportLines | components/StudentView.tsx:75 | with no line feed in any field, the export has one line per job plus the header |
| StudentView.StudentView.constructor | components/StudentView.tsx:9-12 | the list starts with the seed application and the edit slot is empty |
| StudentView.StudentView.AddJob | components/StudentView.tsx:14-24 | the new record is first, followed by the unchanged previous list |
| StudentView.StudentView.DeleteJob | components/StudentView.tsx:26-28 | the list becomes the records whose id differs, in order |
| StudentView.StudentView.UpdateJob | components/StudentView.tsx:30-33 | every record with the edited id is replaced and the edit slot is emptied |
| StudentView.StudentView.EditJob | components/StudentView.tsx:118 | the slot holds the record and the list is unchanged |
| StudentView.StudentView.CancelEdit | components/StudentView.tsx:160 | the slot is emptied and the list is unchanged, so repeating it is harmless |
| StudentView.StudentView.AddManualEntry | components/StudentView.tsx:140 | a "New Company" / "Role" / "Prospecting" record with empty notes is prepended |
| StudentView.StudentView.HandleVoiceData | components/StudentView.tsx:35-47 | the list gains exactly the record the voice event asks for, in front, or is unchanged |
| ProfessionalView.NewConnection | components/ProfessionalView.tsx:14-23 | the given id and date; name, role, company, email, status and notes are the given value when non-empty, else "New Contact", "Professional", "Freelance", "", "Connected" and ""; the status is always set |
| ProfessionalView.JobAsConnection | components/ProfessionalView.tsx:41-47 | the contact is named "Hiring Team", has no email, and its notes start with `Job Interest: <its status>. ` |
| ProfessionalView.VoiceConnection | components/ProfessionalView.tsx:36-49 | a contact result is added as it is, a job result as exactly `JobAsConnection` of the job, nothing for any other kind or when the payload is missing |
| ProfessionalView.VoiceJobBecomesHiringTeam | components/ProfessionalView.tsx:41-47 | a job recorded by voice becomes "Hiring Team" with role, company and status defaulting to "Recruiter", "Unknown Company", "Applied", and notes `Job Interest: <status or Applied>. <notes>` |
| ProfessionalView.ProfessionalView.constructor | components/ProfessionalView.tsx:8-11 | the list starts with the seed contact and the edit slot is empty |
| ProfessionalView.ProfessionalView.AddConnection | components/ProfessionalView.tsx:13-25 | the new record is first, followed by the unchanged previous list |
| ProfessionalView.BlankContact | components/ProfessionalView.tsx:68 | the record "Add New" creates is exactly what adding an empty object gives |
| ProfessionalView.ProfessionalView.AddNew | components/ProfessionalView.tsx:68 | a record made only of defaults is prepended |
| ProfessionalView.ProfessionalView.DeleteConnection | components/ProfessionalView.tsx:27-29 | the list becomes the records whose id differs, in order |
| ProfessionalView.ProfessionalView.UpdateConnection | components/ProfessionalView.tsx:31-34 | every record with the edited id is replaced and the edit slot is emptied |
| ProfessionalView.ProfessionalView.EditConnection | components/ProfessionalView.tsx:97 | the slot holds the contact and the list is unchanged |
| ProfessionalView.ProfessionalView.CancelEdit | components/ProfessionalView.tsx:154 | the slot is emptied and the list is unchanged |
| ProfessionalView.ProfessionalView.HandleVoiceData | components/ProfessionalView.tsx:36-49 | the list gains exactly the record the voice event asks for, in front, or is unchanged |
| VoiceAssistant.TranscriptAppend | components/VoiceAssistant.tsx:29-33 | the joined text of a longer result list extends that of a shorter one, so each event replaces the transcript with everything heard so far |
| VoiceAssistant.CollapseKeepsBlankness | components/VoiceAssistant.tsx:35 | normalising never changes whether the trimmed transcript is empty |
| VoiceAssistant.Outcome | components/VoiceAssistant.tsx:87-90 | error feedback exactly for an `unknown` result; the message, or "Could not understand context." / "Processed successfully!" when it is empty; never empty |
| VoiceAssistant.Dispatch | components/VoiceAssistant.tsx:87-93 | no callback exactly for an `unknown` result; `jobData` for a job and `connectionData` for every other kind |
| VoiceAssistant.FailedRequestsReachNoView | components/VoiceAssistant.tsx:84-93 | a failed or empty AI reply makes no callback and shows the service's fixed error message |
| VoiceAssistant.UnreadableRepliesReachNoView | components/VoiceAssistant.tsx:84-93 | a reply the parser cannot read makes no callback and shows "Error processing AI request." |
| VoiceAssistant.Assistant.constructor | components/VoiceAssistant.tsx:10-17 | not recording, not processing, empty transcript, no feedback |
| VoiceAssistant.Assistant.OnResult | components/VoiceAssistant.tsx:29-38 | the transcript and its ref become the first alternatives of all results, joined and normalised |
| VoiceAssistant.Assistant.OnError | components/VoiceAssistant.tsx:40-47 | only "not-allowed" and "service-not-allowed" stop recording and show "Microphone access denied."; other errors change nothing |
| VoiceAssistant.Assistant.OnEnd | components/VoiceAssistant.tsx:49-52 | recording is off |
| VoiceAssistant.Assistant.Toggle | components/VoiceAssistant.tsx:56-80 | feedback cleared first; stopping always ends recording and requests a parse of the transcript unless it is blank ("No speech detected."); starting clears the transcript and records, or without an engine shows the not-supported error |
| VoiceAssistant.Assistant.ParseCompleted | components/VoiceAssistant.tsx:82-95 | processing ends, the feedback is the outcome and the callback is the dispatch of the result |
| TeamModal.MemberOf | components/TeamModal.tsx:18-23 | the member carries the given id and exactly the draft's name, role and bio |
| TeamModal.Modal.constructor | components/TeamModal.tsx:13-14 | form closed, empty draft |
| TeamModal.Modal.AddEnabled | components/TeamModal.tsx:132 | the Add button is enabled exactly when name and role are non-empty |
| TeamModal.Modal.OpenForm | components/TeamModal.tsx:82 | the form opens and the draft is kept |
| TeamModal.Modal.SetName | components/TeamModal.tsx:105 | only the draft's name changes |
| TeamModal.Modal.SetRole | components/TeamModal.tsx:113 | only the draft's role changes |
| TeamModal.Modal.SetBio | components/TeamModal.tsx:120 | only the draft's bio changes |
| TeamModal.Modal.HandleAdd | components/TeamModal.tsx:16-27 | a member is handed over exactly when name and role are non-empty; then the draft resets and the form closes, otherwise nothing changes |
| TeamModal.Modal.Cancel | components/TeamModal.tsx:125 | the form closes and the draft is kept |
| TeamModal.Modal.Remove | components/TeamModal.tsx:70 | the removal request carries exactly that member's id |
| Scenarios.StubParse | services/geminiService.ts:104-116 | with a parser that reads every reply as the Google job, any non-empty reply gives that result |
| Scenarios.OneResult | components/VoiceAssistant.tsx:29-35 | one result with one utterance gives that utterance as transcript, blank after normalising exactly when it is all white space |
| Scenarios.SpeakAndStop | components/VoiceAssistant.tsx:56-80 | mic on, an utterance, mic off: a blank utterance shows "No speech detected." and requests nothing; any other is requested for parsing, normalised, with processing on |
| Scenarios.AskAssistant | components/VoiceAssistant.tsx:56-95 | starting, hearing a non-blank utterance, stopping and completing the parse confirms with the result's message and passes the job data on |
| Scenarios.VoiceJobScenario | components/ProfessionalView.tsx:36-49 | the same spoken job lands first in the student list as "Google" / "Software Engineer" / "Applied", and first in the professional list as the contact "Hiring Team" at Google with notes "Job Interest: Applied. ", both in front of the seed records |
| Scenarios.HiringTeamNotes | components/ProfessionalView.tsx:41-47 | the Google job becomes the contact "Hiring Team", Software Engineer at Google, status "Applied", notes "Job Interest: Applied. " |
| Scenarios.SilentScenario | components/VoiceAssistant.tsx:58-68 | stopping after hearing only white space requests no parse and shows "No speech detected." |
| Scenarios.BlankStudentAdd | components/StudentView.tsx:14-24 | adding a job with no input gives "Unknown Company", "Unknown Role", "Applied", today's date and empty notes |

## Left out

- The hosted model call, its prompts, schema and model name (services/geminiService.ts:4-102): a foreign network service, modelled as the `Reply` parameter.
- `JSON.parse` (services/geminiService.ts:116): modelled as an uninterpreted partial function. That it always rejects the empty string, and that its result may be something other than an object with string fields, are not modelled. A result's fields are strings, `null` or missing.
- The `Blob`/anchor download and the `alert` of `exportToCSV` (services/csvExport.ts:6, 23-32): browser I/O. An empty list gives no text.
- CsvExport.Cells: values are strings, so `toString()` of other value types is not modelled. Only an object's own properties are read. In the source, a header key that names an inherited `Object.prototype` member (`constructor`, `toString`, `valueOf`, `hasOwnProperty`, `__proto__`, ...) reads that inherited member on an object that lacks the key, and writes its string form (for example `function Object() { [native code] }` or `[object Object]`); the model writes the empty string.
- `Date.now()` ids and `new Date()` dates: nondeterministic, so they are method parameters, and ids are not assumed unique.
- Speech engine setup and calls (components/VoiceAssistant.tsx:19-27, 60, 77): engine events are handler methods. `start()`/`stop()` are returned as an `EngineCommand`. Interim and final results are not told apart, as the source does not tell them apart either. `console.error` is left out, here and in the catch blocks of `generateLinkedInPost` and `parseVoiceCommand` (services/geminiService.ts:39, 119).
- VoiceAssistant.Assistant.ParseCompleted: the `await` of `handleProcessAI` is split into the request returned by `Toggle` and this completion step. Engine events may arrive in between. Overlapping requests are excluded by requiring that no parse request is in flight, as the disabled button does (components/VoiceAssistant.tsx:112).
- StudentView.StudentView.HandleVoiceData: a job or contact result without its payload makes the source throw a `TypeError` out of the handler before the list is set. It is modelled as leaving the list unchanged; the exception itself is not modelled. ProfessionalView.ProfessionalView.HandleVoiceData treats it the same way.
- JsString.ToLower: only ASCII letters are lower-cased. Two non-ASCII characters lower-case to ASCII letters. The Kelvin sign becomes `k`, which no badge keyword contains. The dotted capital I (U+0130) becomes `i` followed by the combining dot U+0307. That `i` can never complete a keyword match: no keyword ends in `i` or has U+0307 after an `i`. So the badge is the same as with full Unicode lower-casing. The `/(json)?/i` tag match is ASCII-only in JavaScript as well.
- The cross-mapping company "Networking" and role "Contact" of the student view are defaults, as in the code (components/StudentView.tsx:41-42), not fixed values. The model follows the code.
- The edit dialogs' per-field form state (components/StudentView.tsx:167-255, and the professional one): `UpdateJob` and `UpdateConnection` take the edited record as it is saved.
- JSX rendering and CSS class strings: the badge colour is a five-value `Badge`.
- `VoiceParseResult` in types.ts:37-41 is not the shape the code uses. The model uses the `{type, jobData?, connectionData?, message}` shape the service and the assistant use.
- components/LiveBackground.tsx, components/PostCreator.tsx and App.tsx are not part of this model: they are rendering, a timer, floating point and a view switch.
