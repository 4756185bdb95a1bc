# Fiona school chatbot: session and tool logic in Dafny

Fiona is a Streamlit chatbot for the students of a school. A student chats in Bengali or
English. A LangGraph agent answers with an OpenAI model and calls tools that reach the
school's web API: login, term results, class tests, homework, syllabus, worksheets and the
calendar. A FAISS vector store answers questions about uploaded documents.

This project models the deterministic layer around the model, the network and the libraries,
and proves what that layer promises.

- `Wrappers.dfy`: `Option` and `Result`.
- `PyText.dfy`: the Python string operations the code relies on.
  - `str.strip` with Python's whitespace set.
  - ASCII `lower`.
  - Substring tests, `endswith` and `join`.
  - Decimal rendering and parsing of numbers.
- `JsonValue.dfy`: parsed JSON with Python semantics.
  - Truthiness and `dict.get`.
  - `GetAttr`: the definition of `.get` on a parsed value. It raises AttributeError on a non-dict. The behaviour it feeds is stated by `Tools.ClassifyLogin`, `Tools.ClassifyFetch` and `Session.FoldCrashes`.
  - `len()`, with the TypeError it raises on a value that has no length.
  - `==`, under which `True == 1`.
  - `str()`.
- `Dates.dfy`: proleptic Gregorian dates from year 1 to 9999.
  - Next and previous day, with the out-of-range error at both ends.
  - `YYYY-MM-DD` formatting, with a proved round trip.
- `Tools.dfy`: the tools of `streamlit_backend.py`.
  - The login gates, which are checked before any request is sent.
  - Relative-date resolution.
  - The classification of each HTTP reply into a success, error or no-data envelope.
  - The calendar's `file_url` loop.
- `DocumentStore.dfy`: the module-global vector store as a class.
  - It starts absent and is created on the first successful ingest.
  - After that it is only ever appended to.
  - `ask_document` searches it.
- `ChatNode.dfy`: the system prompt `chat_node` assembles.
  - The logged-in or not-logged-in block.
  - The numbered list of saved students.
- `Messages.dfy`: the history windows of `streamlit_app.py`.
  - The redundant-reply filter.
  - The messages forwarded to the model.
  - One display pass.
- `Session.dfy`: `st.session_state` as a class.
  - The chat-input handler, with its loop over the messages the graph returned.
  - Remembering logins.
  - The history cut.
  - The upload handler with its name check.

Foreign calls come in as function parameters:

| Call | Modelled as |
|---|---|
| HTTP | a function from `Request` to `HttpOutcome` |
| `json.loads` | a partial parser |
| the graph | an `invoke` function |
| text extraction, the splitter, embedding, FAISS search | one parameter each |
| `datetime.now()` | a `today` date |
| `repr` of a list or dict inside an f-string | a parameter |

Each tool returns its result envelope together with the request it sent, if any. "No request
before the gate passes" is therefore the statement `sent == None`.

## Model

| member | source | states |
|---|---|---|
| `PyText.TrimStart` | streamlit_backend.py:55 | the result is a suffix of the input; everything removed is whitespace; the result does not start with whitespace |
| `PyText.TrimEnd` | streamlit_backend.py:55 | the result is a prefix of the input; everything removed is whitespace; the result does not end with whitespace |
| `PyText.StripEmptyIffBlank` | streamlit_backend.py:312 | `s.strip()` is empty exactly when every character of `s` is whitespace |
| `PyText.StripsToEmpty` | streamlit_app.py:642 | the `not s.strip()` test holds exactly for blank strings |
| `PyText.StripIdempotent` | streamlit_backend.py:55 | stripping twice equals stripping once |
| `PyText.Lower` | streamlit_app.py:471 | same length; no ASCII capital is left; each capital becomes its small letter (32 code points on); every other character is kept |
| `PyText.LowerIdempotent` | streamlit_app.py:483 | lower-casing an already lower-cased string changes nothing |
| `PyText.JoinStartsWithFirst` | streamlit_backend.py:273 | `sep.join(parts)` starts with the first part |
| `PyText.JoinFromFront` | streamlit_backend.py:273 | `sep.join(parts)` is the first part, a separator, then the join of the rest: the parts appear once each, in rank order |
| `PyText.JoinLength` | streamlit_backend.py:273 | the joined length is the total length of the parts plus one separator between each pair |
| `PyText.NatToString` | streamlit_backend.py:329 | `str(n)` is all digits with no leading zero |
| `PyText.ParseNatToString` | streamlit_backend.py:329 | reading `str(n)` back gives `n` |
| `PyText.PadNat` | streamlit_backend.py:142 | a zero-padded number is all digits and at least as wide as asked |
| `PyText.ParsePadNat` | streamlit_backend.py:142 | reading a zero-padded number back gives the number |
| `PyText.NatToStringShort` | streamlit_backend.py:142 | a number below `10^w` has at most `w` digits |
| `Dates.NextDay` | streamlit_backend.py:144 | the next day is a valid date; there is none exactly after 9999-12-31 |
| `Dates.PrevDay` | streamlit_backend.py:146 | the previous day is a valid date; there is none exactly before 0001-01-01 |
| `Dates.DaysBeforeMonthDecember` | streamlit_backend.py:144 | the months before December plus 31 days make the whole year |
| `Dates.NextDayIsOneLater` | streamlit_backend.py:144 | `now + timedelta(days=1)` is one day later in day count |
| `Dates.PrevDayIsOneEarlier` | streamlit_backend.py:146 | `now - timedelta(days=1)` is one day earlier in day count |
| `Dates.PrevOfNext` | streamlit_backend.py:143-146 | the day before the next day is the same day |
| `Dates.NextOfPrev` | streamlit_backend.py:143-146 | the day after the previous day is the same day |
| `Dates.PadNatExact` | streamlit_backend.py:142 | a zero-padded field has exactly its width when the number fits |
| `Dates.IsoRoundTrip` | streamlit_backend.py:142 | `strftime("%Y-%m-%d")` of a date is 10 characters long and parses back to the same date |
| `Tools.ClassifyLogin` | streamlit_backend.py:58-79 | login_success exactly when the reply is 200 with `code == 1` and usable `data`; it then carries data's sid, name and temp; a non-200 status gives "Login failed"; a wrong code gives the server message or "Invalid credentials" |
| `Tools.StudentLogin` | streamlit_backend.py:51-79 | one POST to the login endpoint with id and password stripped; success exactly when the server accepts |
| `Tools.ClassifyFetch` | streamlit_backend.py:95-105 | success exactly when the rule's conditions hold, with the body as `data`; a non-200 status gives the "Unable to fetch" error; an empty body, or a term-result object whose `result` is missing or empty, gives the "No … found" error; failures are never login errors |
| `Tools.GetTermResult` | streamlit_backend.py:83-105 | no request exactly when sid or temp is empty or "None", and then the requires_login envelope; otherwise the POST with sid, temp and term; success exactly when the body is non-empty with a non-empty `result` |
| `Tools.GetUnitTestResult` | streamlit_backend.py:109-131 | same gate on sid and temp; success exactly when the 200 body is non-empty |
| `Tools.ResolveEntryDate` | streamlit_backend.py:141-146 | other words pass unchanged; today, tomorrow and yesterday (any case) become the ISO date 0, +1 or −1 days from today; the out-of-range error happens exactly at the calendar ends |
| `Tools.GetHomework` | streamlit_backend.py:135-160 | gate on temp alone; a request only with a resolved date, carrying that date; a relative date past the calendar ends gives the out-of-range error envelope; any parsed 200 reply is success |
| `Tools.GetSyllabus` | streamlit_backend.py:164-186 | gate on temp alone; success exactly when the 200 body is non-empty and has a length (a string, list or object); a non-empty body without one fails with the `len()` TypeError text |
| `Tools.GetWorksheet` | streamlit_backend.py:190-219 | gate on temp alone; the resolved date is sent, and a relative date past the calendar ends gives the out-of-range error envelope; success exactly when the 200 body is non-empty and has a length; a non-empty body without one fails with the `len()` TypeError text |
| `Tools.GatesPrecedeRequests` | streamlit_backend.py:86-87 | with a missing temp, every gated tool returns requires_login without sending anything |
| `Tools.CountedToolsNeedLength` | streamlit_backend.py:180-185 | a truthy 200 body without a length (a non-zero number or `true`) makes the syllabus and worksheet log line raise, and the tool returns "object of type '<type>' has no len()" instead of success (also lines 213-218) |
| `Tools.FirstNonObject` | streamlit_backend.py:238-239 | the index of the first calendar item that is not an object, with all items before it objects |
| `Tools.GetCalendar` | streamlit_backend.py:223-245 | one ungated GET; the result is always tagged `"type": "calendar"`; success exactly when the body is a non-empty list of objects; each item then gains `file_url` = API base + "/uploads/calender/" + its file_location (or ""), with count, order and other fields unchanged; a raised request gives its exception text, a non-200 status "Unable to fetch calendar", a malformed body its parse error, an empty body "No calendar available", a non-list body the iteration error, a non-object item the AttributeError text |
| `DocumentStore.DocxRejectedAsWritten` | streamlit_backend.py:303 | as written, a path ending in ".docx" is "Unsupported file type" |
| `DocumentStore.UploadExtensionsRecognised` | streamlit_backend.py:297-308 | under the corrected reader choice `Kind`, ".pdf", ".docx" and ".txt" each select their reader |
| `DocumentStore.VectorStore.constructor` | streamlit_backend.py:43 | the store starts absent |
| `DocumentStore.VectorStore.AddDocument` | streamlit_backend.py:290-332 | success exactly when the path is supported by the corrected reader choice `Kind` (as written, every ".docx" path is unsupported; see Findings), reading works, the text is not blank and embedding works; then the store is created or appended with the chunks and the count is their number; on failure the store is unchanged; an existing store is never reset |
| `DocumentStore.VectorStore.Ask` | streamlit_backend.py:249-284 | an absent store gives the no-documents error with no search; otherwise one search with k = 4; success exactly on a non-empty hit list, with the hits joined by a blank line in rank order; zero hits give the no-relevant-information error |
| `ChatNode.LoggedInExactly` | streamlit_backend.py:368-378 | the logged-in block is chosen exactly when sid and temp are both non-empty; the name is not consulted |
| `ChatNode.NumberedLinesSplit` | streamlit_backend.py:403-404 | numbering continues across any split of the student list |
| `ChatNode.Listing` | streamlit_backend.py:401-404 | the saved-students section is empty exactly when the list is |
| `ChatNode.NumberedLineAt` | streamlit_backend.py:403-404 | item `i` is on the line numbered `first + i`, between the lines before and after it |
| `ChatNode.ListedInOrderFromOne` | streamlit_backend.py:403-404 | the student at position `i` is listed as number `i + 1`, in list order |
| `ChatNode.AppendLines` | streamlit_backend.py:403-404 | the `+=` loop appends exactly the numbered lines |
| `ChatNode.AppendStatus` | streamlit_backend.py:378-399 | appends the logged-in block when sid and temp are set, otherwise the not-logged-in block |
| `ChatNode.ChatNodeInput` | streamlit_backend.py:363-407 | the prompt is the template filled with each field or "(Not logged in)", then the status block, then the listing; the model gets it as a system message before the conversation |
| `Messages.PySliceFrom` | streamlit_app.py:183 | a Python slice `s[start:]` is a suffix of `s` |
| `Messages.RecentMessagesWindow` | streamlit_app.py:180-183 | for a positive limit, the window is the last `min(limit, n)` messages in order |
| `Messages.RecentMessagesZeroLimit` | streamlit_app.py:183 | with limit 0, `messages[-0:]` is the whole list |
| `Messages.CleanWindowFacts` | streamlit_app.py:185-189 | unchanged up to 30 messages, otherwise the last 15; always a suffix of at most 30; cleaning twice is cleaning once |
| `Messages.ShouldSkipMessage` | streamlit_app.py:466-486 | skip exactly when the content is empty or some pattern, lower-cased, occurs in the lower-cased content; the previous tool type plays no part |
| `Messages.ShouldSkipIgnoresCase` | streamlit_app.py:471-484 | lower-casing the reply first does not change the verdict |
| `Messages.ShortRepliesKept` | streamlit_app.py:474-484 | no pattern is shorter than four characters, so a non-empty reply of one to three characters is never skipped |
| `Messages.SubstringMatchIsBroad` | streamlit_app.py:482-484 | matching is by substring: "Determine" contains "term" and is skipped |
| `Messages.BackendMessages` | streamlit_app.py:658-665 | the forwarded list is the spec function over the window |
| `Messages.ForwardSpecAppend` | streamlit_app.py:659-665 | forwarding a history in two stretches gives the two results in order |
| `Messages.ForwardSingle` | streamlit_app.py:661-665 | one entry is forwarded as Human or AI exactly when it is a non-empty user or assistant message; tool results never are |
| `Messages.ForwardedShape` | streamlit_app.py:659-665 | everything forwarded is a non-empty human or AI message; nothing is added |
| `Messages.DisplayPass` | streamlit_app.py:606-646 | renders the recent 15-message window following the display state machine |
| `Messages.DisplayOne` | streamlit_app.py:613-646 | one loop iteration is one step of the display state machine; the `continue` branches change nothing |
| `Messages.DisplayRenderedOrdered` | streamlit_app.py:612-646 | rendered indices are increasing and inside the window |
| `Messages.DisplayRenderedStable` | streamlit_app.py:612-646 | whether a message is rendered is settled when the loop reaches it |
| `Messages.DisplayShownLogin` | streamlit_app.py:624-628 | the shown-login flag holds exactly when a login result has occurred in the window |
| `Messages.DisplayRendered` | streamlit_app.py:616-646 | every user message is rendered; a tool result exactly when it is not a repeated login; an assistant reply exactly when it is not blank and is not skipped as redundant after a tool result |
| `Messages.PrevWasToolStep` | streamlit_app.py:618-646 | the flag is set by a rendered tool result, cleared by a user message or a kept reply, and left alone by a skipped reply or a repeated login |
| `Messages.DisplayPrevWasTool` | streamlit_app.py:632-646 | "previous was tool" holds exactly when a rendered tool result has been followed only by skipped replies or repeated logins, so a hidden reply does not reset it |
| `Messages.AtMostOneLoginShown` | streamlit_app.py:624-628 | of two login results in a window, the later is never rendered |
| `Session.RememberStudentFacts` | streamlit_app.py:700-705 | saved students stay unique by sid, only grow, contain the new sid, and the first entry for a sid wins |
| `Session.HasStudent` | streamlit_app.py:700 | the `any(...)` test holds exactly when some saved sid equals the new one under Python `==` |
| `Session.FoldGrows` | streamlit_app.py:678-711 | the loop only appends to the history and the saved list, and keeps the saved list unique |
| `Session.FoldCrashes` | streamlit_app.py:688-694 | the loop raises exactly when some tool message parses to a non-object |
| `Session.FoldAddedTool` | streamlit_app.py:676-711 | without a raise, `added_tool_result` ends true exactly when a tool message came in the turn |
| `Session.KeptReply` | streamlit_app.py:679-686 | an AI reply is appended exactly when it is not blank and either no tool message came earlier in the turn or it matches no skip pattern |
| `Session.FoldStepPayloads` | streamlit_app.py:688-711 | one step appends the parsed object of a tool message, and no other tool result |
| `Session.FoldAppendsToolResults` | streamlit_app.py:688-711 | if the loop does not raise, each tool message's parsed object is appended once and in order, with the parse-failure object for invalid JSON |
| `Session.FoldRemembersLogins` | streamlit_app.py:694-705 | every login result the loop reaches leaves its sid among the saved students |
| `Session.FoldKeepsSession` | streamlit_app.py:694-699 | with no login result reached, user_session is unchanged |
| `Session.FoldSessionIsLastLogin` | streamlit_app.py:694-699 | user_session ends as the identity of the last login result reached |
| `Session.FoldStaysCrashed` | streamlit_app.py:713-717 | once the loop has raised, the remaining messages change nothing |
| `Session.TakeTurnFacts` | streamlit_app.py:653-717 | a turn keeps saved students unique; the old history, then the prompt, stay at the front; saved only grows; a raising graph appends exactly the apology |
| `Session.ExtensionOfSuffix` | streamlit_app.py:528 | `splitext` of a plain stem plus a dotted suffix gives that suffix |
| `Session.DocxUpload` | streamlit_app.py:528 | a Word upload's temporary path ends in ".docx": rejected by the reader choice as written, read as Word by the intended one |
| `Session.HasDocument` | streamlit_app.py:527 | the name test holds exactly when an uploaded document has that name |
| `Session.ChatSession.constructor` | streamlit_app.py:156-166 | empty history, `{}` session, no saved students, no documents; the invariants hold |
| `Session.ChatSession.CleanMessages` | streamlit_app.py:185-189 | the history becomes its cleaned window |
| `Session.ChatSession.SubmitPrompt` | streamlit_app.py:653-717 | an empty prompt changes nothing; otherwise history, session and saved students become those of the turn; the invariants are kept |
| `Session.ChatSession.FoldReplies` | streamlit_app.py:674-717 | the loop's state is the fold's, plus the apology if the loop raised |
| `Session.ChatSession.FoldOne` | streamlit_app.py:678-711 | one loop iteration is one fold step |
| `Session.ChatSession.AddToolResult` | streamlit_app.py:694-711 | a login result replaces the session and is remembered unless its sid is saved; the result is appended |
| `Session.ChatSession.Upload` | streamlit_app.py:526-543 | a known name is not processed and changes nothing; otherwise the document is recorded, with its chunk count, exactly when the store ingests it under the corrected reader choice (as written, a Word upload is never recorded; see Findings) |

## Left out

- Streamlit rendering, CSS, the sidebar buttons and the quick-action prompts. These are UI. The logout button and "new chat" reset state from the UI and are not modelled.
- `safe_float` and the term and class-test statistics. They are floating point.
- `shown_login_success`. It is initialised but never read by the logic modelled here.
- The network, the OpenAI model, embeddings, FAISS and the text splitter. They are foreign code and come in as parameters. No property is claimed about ranking or chunk coverage.
- PDF, DOCX and text extraction, and the temporary-file write. These are file I/O: a `read` parameter and a `tmpStem` name.
- The LangGraph loop between `chat_node` and the tool node. It is library code with no round cap in the source. `chat_node`'s call to the model is a parameter too, so `ChatNodeInput` stops at the messages it sends.
- `json.dumps`. Envelopes are kept as maps, so dict key order is not modelled.
- `str()` of a list or dict inside an f-string. It is a `repr` parameter; scalars are rendered exactly.
- JSON floats. They are not representable in `JsonValue.Json`.
- `system_prompt.py`. It is a constant template and is passed in as `template`.
- `print` logging and the SSL-warning setup. The two log arguments that can raise are modelled: `student_data.get(...)` in `student_login`, and `len(data)` in `get_syllabus` and `get_worksheet`.
- `PyText.Lower`: ASCII case folding only. Python also folds non-ASCII letters. The skip patterns hold no cased non-ASCII letters, but a reply's non-ASCII capitals are not folded.
- `Dates.Iso`: pads the year to four digits. glibc's `%Y` does not pad years below 1000.
- `DocumentStore.VectorStore.AddDocument`: if `add_texts` raises, the store is assumed unchanged. FAISS's partial-add behaviour is not visible.
- `Tools.GetCalendar`: when a non-object appears partway through the list, the items before it have already gained `file_url`. The model returns only the error envelope, which is all the caller sees.
- `Session.ChatSession.SubmitPrompt`: a message content that is not a string (LangChain also allows lists) is not modelled. The `.strip()` failure it would cause is not modelled either.

## Findings

| source | as written | input that shows it | evidently intended | confidence | as-written member | corrected member |
|---|---|---|---|---|---|---|
| streamlit_backend.py:303 | the Word branch tests `file_path.endswith(". docx")`, with a space | uploading `report.docx`: the temporary file is `…/tmpXXXX.docx` (suffix from `os.path.splitext`, streamlit_app.py:528), and the result is "Unsupported file type" | `endswith(".docx")`, as the upload widget offers DOCX | high as the text reads, from reading the code; not executed. The text also shows spaces after dots elsewhere (`response. status_code`, `docx. Document` at streamlit_backend.py:304), so the space may be a transcription artifact rather than in the deployed code | `DocumentStore.DocxRejectedAsWritten` (with `Session.DocxUpload`) | `DocumentStore.UploadExtensionsRecognised` (about `Kind`, the reader choice `AddDocument` uses) |
