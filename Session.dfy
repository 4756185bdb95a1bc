/** The per-conversation state of streamlit_app.py: the chat history, the logged-in student, the
    students logged in before and the uploaded documents, with the chat-input handler that forwards
    a prompt to the graph and folds the returned messages back in, the history cut, and the upload
    handler. The graph itself and the JSON parser are parameters. */
module Session {
  import opened Wrappers
  import opened PyText
  import opened JsonValue
  import opened ChatNode
  import opened Messages
  import opened DocumentStore

  /** The assistant message appended when handling a prompt raises. */
  const Apology := "দুঃখিত, সমস্যা হয়েছে। আবার চেষ্টা করুন।"

  /** What a tool message that is not valid JSON is recorded as. */
  const ParseFailure: Dict := map["error" := JStr("Failed to parse response")]

  /** An entry of `uploaded_docs`. */
  datatype UploadedDoc = UploadedDoc(name: string, path: string, chunks: Json)

  // ---------------------------------------------------------------------------------------------
  // Saved students
  // ---------------------------------------------------------------------------------------------

  /** No two saved students have sids that compare equal in Python. */
  predicate UniqueBySid(saved: seq<Identity>) {
    forall i, j :: 0 <= i < j < |saved| ==> !PyEq(saved[i].sid, saved[j].sid)
  }

  /** `any(s.get('sid') == sid for s in saved_students)`. */
  predicate KnownSid(saved: seq<Identity>, sid: Json) {
    exists k :: 0 <= k < |saved| && PyEq(saved[k].sid, sid)
  }

  /** The identity a login_success result carries. */
  function LoginIdentity(d: Dict): Identity {
    Identity(GetOrNull(d, "sid"), GetOrNull(d, "name"), GetOrNull(d, "temp"))
  }

  /** saved_students after a login: extended by the new identity unless its sid is already there. */
  function RememberStudent(saved: seq<Identity>, id: Identity): seq<Identity> {
    if KnownSid(saved, id.sid) then saved else saved + [id]
  }

  /** Remembering a login keeps the list unique by sid, only ever appends, and afterwards the sid is
      known; an entry already there is kept as it was (the first login of a sid wins). */
  lemma RememberStudentFacts(saved: seq<Identity>, id: Identity)
    requires UniqueBySid(saved)
    ensures var r := RememberStudent(saved, id);
            && UniqueBySid(r)
            && saved <= r
            && |r| <= |saved| + 1
            && KnownSid(r, id.sid)
            && (KnownSid(saved, id.sid) ==> r == saved)
  {
    var r := RememberStudent(saved, id);
    if !KnownSid(saved, id.sid) {
      assert PyEq(r[|saved|].sid, id.sid);
      forall i, j | 0 <= i < j < |r|
        ensures !PyEq(r[i].sid, r[j].sid)
      {
        if j == |saved| {
          assert !PyEq(saved[i].sid, id.sid);
        }
      }
    }
  }

  /** The loop form of `any(...)` over saved_students. */
  method HasStudent(saved: seq<Identity>, sid: Json) returns (found: bool)
    ensures found == KnownSid(saved, sid)
  {
    for k := 0 to |saved|
      invariant forall j :: 0 <= j < k ==> !PyEq(saved[j].sid, sid)
    {
      if PyEq(saved[k].sid, sid) {
        return true;
      }
    }
    return false;
  }

  // ---------------------------------------------------------------------------------------------
  // Folding the graph's reply into the session
  // ---------------------------------------------------------------------------------------------

  /** The state the post-invoke loop works on: the history, `user_session` (None for `{}`),
      `saved_students`, `added_tool_result`, and whether an exception has escaped the loop. */
  datatype Turn = Turn(messages: seq<ChatMessage>, session: Option<Identity>, saved: seq<Identity>,
                       addedTool: bool, crashed: bool)

  /** What `json.loads` made of a tool message, or the parse-failure object. */
  function ToolData(content: string, parse: string -> Option<Json>): Json {
    match parse(content)
    case Some(j) => j
    case None => JObj(ParseFailure)
  }

  /** A tool message whose parsed value is a login_success object. */
  predicate LoginReply(m: LcMessage, parse: string -> Option<Json>) {
    m.ToolReply? && ToolData(m.content, parse).JObj? && IsLoginResult(ToolData(m.content, parse).fields)
  }

  /** A tool message whose parsed value is not an object: `.get` on it raises AttributeError. */
  predicate BadReply(m: LcMessage, parse: string -> Option<Json>) {
    m.ToolReply? && !ToolData(m.content, parse).JObj?
  }

  /** One iteration of the post-invoke loop. AI replies that are not blank are appended unless a tool
      result came earlier in this turn and the reply is redundant. A tool message is parsed; a login
      result updates the session and the saved students; the result object is appended. Other
      message kinds are ignored. Nothing happens once the loop has raised. */
  function FoldStep(t: Turn, m: LcMessage, parse: string -> Option<Json>): Turn {
    if t.crashed then t
    else match m
      case AI(c) =>
        if !StripsToEmpty(c) && (!t.addedTool || !ShouldSkip(c)) then t.(messages := t.messages + [Assistant(c)]) else t
      case ToolReply(c) =>
        var data := ToolData(c, parse);
        if !data.JObj? then t.(crashed := true)
        else
          var d := data.fields;
          var t1 := if IsLoginResult(d) then t.(session := Some(LoginIdentity(d)), saved := RememberStudent(t.saved, LoginIdentity(d)))
                    else t;
          t1.(messages := t1.messages + [Tool(d)], addedTool := true)
      case _ => t
  }

  /** The loop over the new messages, in order. */
  function FoldNew(t: Turn, news: seq<LcMessage>, parse: string -> Option<Json>): Turn
    decreases |news|
  {
    if news == [] then t else FoldStep(FoldNew(t, news[..|news| - 1], parse), news[|news| - 1], parse)
  }

  /** `new_messages[k:]`. */
  function Drop<T>(s: seq<T>, k: nat): seq<T> {
    if k >= |s| then [] else s[k..]
  }

  /** What `chatbot.invoke` did: raised, or returned the final message list. */
  datatype InvokeOutcome = InvokeRaised | Returned(messages: seq<LcMessage>)

  /** The chat-input handler for a non-empty prompt: the prompt is appended, the last eight history
      entries are forwarded, and the messages the graph added are folded in. An exception, from the
      graph or from the loop, appends the apology; what the loop appended before it stays. */
  function TakeTurn(messages: seq<ChatMessage>, session: Option<Identity>, saved: seq<Identity>, prompt: string,
                    invoke: (seq<LcMessage>, Option<Identity>, seq<Identity>) -> InvokeOutcome,
                    parse: string -> Option<Json>): Turn
  {
    var history := messages + [User(prompt)];
    var backend := ForwardSpec(RecentMessages(history, MaxMessagesToLlm));
    match invoke(backend, session, saved)
    case InvokeRaised => Turn(history + [Assistant(Apology)], session, saved, false, true)
    case Returned(out) =>
      var t := FoldNew(Turn(history, session, saved, false, false), Drop(out, |backend|), parse);
      if t.crashed then t.(messages := t.messages + [Assistant(Apology)]) else t
  }

  /** The tool results in a history, in order, as JSON objects. */
  function ToolPayloads(ms: seq<ChatMessage>): seq<Json>
    decreases |ms|
  {
    if ms == [] then []
    else ToolPayloads(ms[..|ms| - 1]) + (if ms[|ms| - 1].Tool? then [JObj(ms[|ms| - 1].data)] else [])
  }

  /** The parsed objects of the tool messages among `news`, in order. */
  function ReplyData(news: seq<LcMessage>, parse: string -> Option<Json>): seq<Json>
    decreases |news|
  {
    if news == [] then []
    else
      var last := news[|news| - 1];
      ReplyData(news[..|news| - 1], parse) + (if last.ToolReply? then [ToolData(last.content, parse)] else [])
  }

  lemma {:induction false} ToolPayloadsAppend(ms: seq<ChatMessage>, m: ChatMessage)
    ensures ToolPayloads(ms + [m]) == ToolPayloads(ms) + (if m.Tool? then [JObj(m.data)] else [])
  {
    assert (ms + [m])[..|ms|] == ms;
  }

  /** The loop never removes or rewrites anything: the history and the saved students only grow,
      and the saved students stay unique by sid. */
  lemma {:induction false} FoldGrows(t: Turn, news: seq<LcMessage>, parse: string -> Option<Json>)
    requires UniqueBySid(t.saved)
    ensures var r := FoldNew(t, news, parse);
            t.messages <= r.messages && t.saved <= r.saved && UniqueBySid(r.saved)
    decreases |news|
  {
    if news != [] {
      FoldGrows(t, news[..|news| - 1], parse);
      var prev := FoldNew(t, news[..|news| - 1], parse);
      var m := news[|news| - 1];
      if !prev.crashed && m.ToolReply? && ToolData(m.content, parse).JObj? {
        RememberStudentFacts(prev.saved, LoginIdentity(ToolData(m.content, parse).fields));
      }
    }
  }

  /** The loop raises exactly when one of the messages is a tool message that parses to something
      other than an object. */
  lemma {:induction false} FoldCrashes(t: Turn, news: seq<LcMessage>, parse: string -> Option<Json>)
    requires !t.crashed
    ensures FoldNew(t, news, parse).crashed <==> exists k :: 0 <= k < |news| && BadReply(news[k], parse)
    decreases |news|
  {
    if news != [] {
      var init := news[..|news| - 1];
      FoldCrashes(t, init, parse);
      assert forall k :: 0 <= k < |init| ==> init[k] == news[k];
      if BadReply(news[|news| - 1], parse) {
        assert FoldNew(t, news, parse).crashed;
      }
    }
  }

  /** One step that does not raise appends the parsed object of a tool message and no other tool
      result. */
  lemma FoldStepPayloads(t: Turn, m: LcMessage, parse: string -> Option<Json>)
    requires !FoldStep(t, m, parse).crashed
    ensures ToolPayloads(FoldStep(t, m, parse).messages)
            == ToolPayloads(t.messages) + (if m.ToolReply? then [ToolData(m.content, parse)] else [])
  {
    var r := FoldStep(t, m, parse);
    if m.AI? && r.messages != t.messages {
      ToolPayloadsAppend(t.messages, Assistant(m.content));
    } else if m.ToolReply? {
      ToolPayloadsAppend(t.messages, Tool(ToolData(m.content, parse).fields));
    }
  }

  /** Until the loop raises, every tool message is appended once, in order, as its parsed object
      (the parse-failure object for invalid JSON), and no other tool result is appended. */
  lemma {:induction false} FoldAppendsToolResults(t: Turn, news: seq<LcMessage>, parse: string -> Option<Json>)
    requires !FoldNew(t, news, parse).crashed
    ensures ToolPayloads(FoldNew(t, news, parse).messages) == ToolPayloads(t.messages) + ReplyData(news, parse)
    decreases |news|
  {
    if news != [] {
      var init := news[..|news| - 1];
      var prev := FoldNew(t, init, parse);
      assert !prev.crashed;
      FoldAppendsToolResults(t, init, parse);
      FoldStepPayloads(prev, news[|news| - 1], parse);
    }
  }

  /** A tool message comes before index `k` of the new messages. */
  predicate ToolBefore(news: seq<LcMessage>, k: int) {
    exists h :: 0 <= h < k && h < |news| && news[h].ToolReply?
  }

  /** `added_tool_result` is set exactly when a tool message came earlier in the turn. */
  lemma {:induction false} FoldAddedTool(t: Turn, news: seq<LcMessage>, parse: string -> Option<Json>)
    requires !t.addedTool && !FoldNew(t, news, parse).crashed
    ensures FoldNew(t, news, parse).addedTool <==> ToolBefore(news, |news|)
    decreases |news|
  {
    if news != [] {
      var n := |news|;
      var init := news[..n - 1];
      assert !FoldNew(t, init, parse).crashed;
      FoldAddedTool(t, init, parse);
      if news[n - 1].ToolReply? {
        assert ToolBefore(news, n);
      } else {
        if ToolBefore(news, n) {
          var h :| 0 <= h < n && news[h].ToolReply?;
          assert init[h].ToolReply?;
        }
        if ToolBefore(init, n - 1) {
          var h :| 0 <= h < n - 1 && init[h].ToolReply?;
          assert news[h].ToolReply?;
        }
      }
    }
  }

  /** A tool message before `k` among the first `k` messages is one before `k` in the whole list. */
  lemma ToolBeforePrefix(news: seq<LcMessage>, k: nat)
    requires k <= |news|
    ensures ToolBefore(news[..k], k) <==> ToolBefore(news, k)
  {
    if ToolBefore(news, k) {
      var h :| 0 <= h < k && news[h].ToolReply?;
      assert news[..k][h].ToolReply?;
    }
  }

  /** Which AI replies a turn keeps: one that is not blank is appended unless a tool message came
      earlier in the turn and the reply matches a skip pattern. */
  lemma KeptReply(t: Turn, news: seq<LcMessage>, k: nat, parse: string -> Option<Json>)
    requires !t.addedTool && k < |news| && news[k].AI? && !FoldNew(t, news[..k], parse).crashed
    ensures var c := news[k].content;
      FoldNew(t, news[..k + 1], parse).messages
      == FoldNew(t, news[..k], parse).messages
         + (if !StripsToEmpty(c) && (!ToolBefore(news, k) || !ShouldSkip(c)) then [Assistant(c)] else [])
  {
    assert news[..k + 1][..k] == news[..k];
    FoldAddedTool(t, news[..k], parse);
    ToolBeforePrefix(news, k);
  }

  /** The loop reaches the message at `k`: no tool message before it parsed to a non-object. */
  predicate Reached(news: seq<LcMessage>, k: int, parse: string -> Option<Json>) {
    forall h :: 0 <= h < k && h < |news| ==> !BadReply(news[h], parse)
  }

  /** The identity a login_success tool message carries. */
  function ReplyIdentity(m: LcMessage, parse: string -> Option<Json>): Identity
    requires LoginReply(m, parse)
  {
    LoginIdentity(ToolData(m.content, parse).fields)
  }

  /** A login result the loop reaches. */
  predicate ReachedLogin(news: seq<LcMessage>, k: int, parse: string -> Option<Json>) {
    0 <= k < |news| && Reached(news, k, parse) && LoginReply(news[k], parse)
  }

  /** The loop has not raised before it reaches a message. */
  lemma NotCrashedBefore(t: Turn, news: seq<LcMessage>, k: nat, parse: string -> Option<Json>)
    requires !t.crashed && k <= |news| && Reached(news, k, parse)
    ensures !FoldNew(t, news[..k], parse).crashed
  {
    FoldCrashes(t, news[..k], parse);
  }

  /** Every login result the loop reaches leaves its sid among the saved students. */
  lemma {:induction false} FoldRemembersLogins(t: Turn, news: seq<LcMessage>, parse: string -> Option<Json>)
    requires UniqueBySid(t.saved) && !t.crashed
    ensures forall k :: ReachedLogin(news, k, parse) ==>
              KnownSid(FoldNew(t, news, parse).saved, ReplyIdentity(news[k], parse).sid)
    decreases |news|
  {
    if news != [] {
      var n := |news| - 1;
      var init := news[..n];
      FoldRemembersLogins(t, init, parse);
      FoldGrows(t, init, parse);
      var prev := FoldNew(t, init, parse);
      var r := FoldNew(t, news, parse);
      assert prev.saved <= r.saved by {
        if !prev.crashed && news[n].ToolReply? && ToolData(news[n].content, parse).JObj? {
          RememberStudentFacts(prev.saved, LoginIdentity(ToolData(news[n].content, parse).fields));
        }
      }
      forall k | ReachedLogin(news, k, parse)
        ensures KnownSid(r.saved, ReplyIdentity(news[k], parse).sid)
      {
        var sid := ReplyIdentity(news[k], parse).sid;
        if k < n {
          assert init[k] == news[k];
          assert ReachedLogin(init, k, parse);
          var w :| 0 <= w < |prev.saved| && PyEq(prev.saved[w].sid, sid);
          assert r.saved[w] == prev.saved[w];
        } else {
          NotCrashedBefore(t, news, n, parse);
          RememberStudentFacts(prev.saved, ReplyIdentity(news[k], parse));
        }
      }
    }
  }

  /** When the loop reaches no login result, the session is left as it was. */
  lemma {:induction false} FoldKeepsSession(t: Turn, news: seq<LcMessage>, parse: string -> Option<Json>)
    requires !t.crashed
    requires forall k :: 0 <= k < |news| ==> !ReachedLogin(news, k, parse)
    ensures FoldNew(t, news, parse).session == t.session
    decreases |news|
  {
    if news != [] {
      var n := |news| - 1;
      var init := news[..n];
      forall k | 0 <= k < n
        ensures !ReachedLogin(init, k, parse)
      {
        assert init[k] == news[k];
        assert !ReachedLogin(news, k, parse);
      }
      FoldKeepsSession(t, init, parse);
      FoldCrashes(t, init, parse);
      assert forall h :: 0 <= h < n ==> init[h] == news[h];
      assert !ReachedLogin(news, n, parse);
    }
  }

  /** After the loop, the session is the identity of the last login result it reached. */
  lemma {:induction false} FoldSessionIsLastLogin(t: Turn, news: seq<LcMessage>, k: nat, parse: string -> Option<Json>)
    requires !t.crashed
    requires ReachedLogin(news, k, parse)
    requires forall k2 :: k < k2 < |news| ==> !ReachedLogin(news, k2, parse)
    ensures FoldNew(t, news, parse).session == Some(ReplyIdentity(news[k], parse))
    decreases |news|
  {
    var n := |news| - 1;
    var init := news[..n];
    var prev := FoldNew(t, init, parse);
    if k == n {
      NotCrashedBefore(t, news, n, parse);
      assert news[..n] == init;
    } else {
      assert init[k] == news[k];
      assert ReachedLogin(init, k, parse);
      forall k2 | k < k2 < |init|
        ensures !ReachedLogin(init, k2, parse)
      {
        assert init[k2] == news[k2];
        assert !ReachedLogin(news, k2, parse);
      }
      FoldSessionIsLastLogin(t, init, k, parse);
      FoldCrashes(t, init, parse);
      assert forall h :: 0 <= h < n ==> init[h] == news[h];
      assert !ReachedLogin(news, n, parse);
    }
  }

  /** A turn keeps the saved students unique, keeps everything already in the history and the saved
      list, records the prompt right after the old history, and, when the graph raises, appends exactly
      the apology after the prompt and changes nothing else. */
  lemma TakeTurnFacts(messages: seq<ChatMessage>, session: Option<Identity>, saved: seq<Identity>, prompt: string,
                      invoke: (seq<LcMessage>, Option<Identity>, seq<Identity>) -> InvokeOutcome,
                      parse: string -> Option<Json>)
    requires UniqueBySid(saved)
    ensures var r := TakeTurn(messages, session, saved, prompt, invoke, parse);
            && UniqueBySid(r.saved)
            && messages + [User(prompt)] <= r.messages
            && saved <= r.saved
    ensures var backend := ForwardSpec(RecentMessages(messages + [User(prompt)], MaxMessagesToLlm));
            invoke(backend, session, saved).InvokeRaised? ==>
              TakeTurn(messages, session, saved, prompt, invoke, parse)
                == Turn(messages + [User(prompt), Assistant(Apology)], session, saved, false, true)
  {
    var history := messages + [User(prompt)];
    var backend := ForwardSpec(RecentMessages(history, MaxMessagesToLlm));
    assert history + [Assistant(Apology)] == messages + [User(prompt), Assistant(Apology)];
    match invoke(backend, session, saved)
    case InvokeRaised =>
    case Returned(out) =>
      FoldGrows(Turn(history, session, saved, false, false), Drop(out, |backend|), parse);
  }

  // ---------------------------------------------------------------------------------------------
  // Uploads
  // ---------------------------------------------------------------------------------------------

  /** The index of the last occurrence of `c` in `s`, or -1 (`str.rfind`). */
  function RFind(s: string, c: char): (r: int)
    ensures -1 <= r < |s|
    ensures r >= 0 ==> s[r] == c && forall k :: r < k < |s| ==> s[k] != c
    ensures r == -1 ==> forall k :: 0 <= k < |s| ==> s[k] != c
    decreases |s|
  {
    if s == [] then -1 else if s[|s| - 1] == c then |s| - 1 else RFind(s[..|s| - 1], c)
  }

  /** `os.path.splitext(name)[1]` on POSIX: from the last dot of the last path component, unless that
      component is only dots before it (a leading dot does not start an extension). */
  function Extension(name: string): string {
    var sep := RFind(name, '/');
    var dot := RFind(name, '.');
    if dot > sep && exists k :: sep + 1 <= k < dot && name[k] != '.' then name[dot..] else ""
  }

  /** A file name made of a plain stem and a dotted suffix has that suffix as its extension. */
  lemma ExtensionOfSuffix(stem: string, ext: string)
    requires '/' !in stem && '/' !in ext
    requires exists k :: 0 <= k < |stem| && stem[k] != '.'
    requires |ext| >= 1 && ext[0] == '.' && '.' !in ext[1..]
    ensures Extension(stem + ext) == ext
  {
    var name := stem + ext;
    var dot := RFind(name, '.');
    assert name[|stem|] == '.';
    forall k | |stem| < k < |name|
      ensures name[k] != '.'
    {
      assert name[k] == ext[1..][k - |stem| - 1];
    }
    assert dot == |stem|;
    assert forall k :: 0 <= k < |name| ==> name[k] != '/' by {
      forall k | 0 <= k < |name|
        ensures name[k] != '/'
      {
        if k < |stem| { assert name[k] == stem[k]; } else { assert name[k] == ext[k - |stem|]; }
      }
    }
    var k :| 0 <= k < |stem| && stem[k] != '.';
    assert name[k] == stem[k];
    assert name[dot..] == ext;
  }

  /** The upload of a Word document: its temporary file keeps the ".docx" suffix, which the reader
      selection as written does not recognise and the intended one does. */
  lemma DocxUpload(stem: string, tmpStem: string)
    requires '/' !in stem
    requires exists k :: 0 <= k < |stem| && stem[k] != '.'
    ensures Extension(stem + ".docx") == ".docx"
    ensures KindAsWritten(tmpStem + Extension(stem + ".docx")) == Unsupported
    ensures Kind(tmpStem + Extension(stem + ".docx")) == Docx
  {
    assert ".docx"[1..] == "docx";
    ExtensionOfSuffix(stem, ".docx");
    DocxRejectedAsWritten(tmpStem);
    UploadExtensionsRecognised(tmpStem);
  }

  /** No two uploaded documents have the same name. */
  predicate UniqueByName(docs: seq<UploadedDoc>) {
    forall i, j :: 0 <= i < j < |docs| ==> docs[i].name != docs[j].name
  }

  predicate KnownName(docs: seq<UploadedDoc>, name: string) {
    exists k :: 0 <= k < |docs| && docs[k].name == name
  }

  /** The loop form of `any(d['name'] == name for d in uploaded_docs)`. */
  method HasDocument(docs: seq<UploadedDoc>, name: string) returns (found: bool)
    ensures found == KnownName(docs, name)
  {
    for k := 0 to |docs|
      invariant forall j :: 0 <= j < k ==> docs[j].name != name
    {
      if docs[k].name == name {
        return true;
      }
    }
    return false;
  }

  /** `st.session_state`, for one browser session. */
  class ChatSession {
    var messages: seq<ChatMessage>
    var userSession: Option<Identity>
    var savedStudents: seq<Identity>
    var uploadedDocs: seq<UploadedDoc>

    /** Saved students are unique by sid, uploaded documents by name. */
    predicate Valid()
      reads this
    {
      UniqueBySid(savedStudents) && UniqueByName(uploadedDocs)
    }

    /** The initial session state: empty history, `user_session = {}`, no saved students, no documents. */
    constructor ()
      ensures Valid()
      ensures messages == [] && userSession == None && savedStudents == [] && uploadedDocs == []
    {
      messages := [];
      userSession := None;
      savedStudents := [];
      uploadedDocs := [];
    }

    /** clean_messages. */
    method CleanMessages()
      modifies this`messages
      ensures messages == CleanWindow(old(messages))
    {
      if |messages| > MaxMessagesToDisplay * 2 {
        messages := PySliceFrom(messages, -MaxMessagesToDisplay);
      }
    }

    /** The chat-input handler. An empty prompt changes nothing; otherwise the history, the session
        and the saved students become those of TakeTurn. `invoke` is the compiled graph and `parse`
        is `json.loads`. */
    method SubmitPrompt(prompt: string, invoke: (seq<LcMessage>, Option<Identity>, seq<Identity>) -> InvokeOutcome,
                        parse: string -> Option<Json>)
      requires Valid()
      modifies this`messages, this`userSession, this`savedStudents
      ensures Valid()
      ensures prompt == "" ==> messages == old(messages) && userSession == old(userSession) && savedStudents == old(savedStudents)
      ensures prompt != "" ==>
        var t := TakeTurn(old(messages), old(userSession), old(savedStudents), prompt, invoke, parse);
        messages == t.messages && userSession == t.session && savedStudents == t.saved
    {
      if prompt == "" {
        return;
      }
      messages := messages + [User(prompt)];
      var window := RecentMessages(messages, MaxMessagesToLlm);
      var backend := BackendMessages(window);
      var outcome := invoke(backend, userSession, savedStudents);
      if outcome.InvokeRaised? {
        messages := messages + [Assistant(Apology)];
        return;
      }
      var news := Drop(outcome.messages, |backend|);
      FoldReplies(news, parse);
    }

    /** The loop over the messages the graph added, with the handler's `except` around it: the
        state becomes that of FoldNew, and the apology is appended if the loop raises. */
    method FoldReplies(news: seq<LcMessage>, parse: string -> Option<Json>)
      requires UniqueBySid(savedStudents)
      modifies this`messages, this`userSession, this`savedStudents
      ensures UniqueBySid(savedStudents)
      ensures var t := FoldNew(Turn(old(messages), old(userSession), old(savedStudents), false, false), news, parse);
              && messages == (if t.crashed then t.messages + [Assistant(Apology)] else t.messages)
              && userSession == t.session && savedStudents == t.saved
    {
      ghost var start := Turn(messages, userSession, savedStudents, false, false);
      var added := false;
      var i := 0;
      while i < |news|
        invariant 0 <= i <= |news|
        invariant Turn(messages, userSession, savedStudents, added, false) == FoldNew(start, news[..i], parse)
        invariant UniqueBySid(savedStudents)
      {
        assert news[..i + 1][..i] == news[..i];
        var raised;
        raised, added := FoldOne(news[i], added, parse);
        if raised {
          FoldStaysCrashed(start, news, i + 1, parse);
          messages := messages + [Assistant(Apology)];
          return;
        }
        i := i + 1;
      }
      assert news[..|news|] == news;
    }

    /** One iteration of the loop; `raised` says that `.get` raised on the parsed tool message. */
    method FoldOne(m: LcMessage, added: bool, parse: string -> Option<Json>) returns (raised: bool, addedAfter: bool)
      requires UniqueBySid(savedStudents)
      modifies this`messages, this`userSession, this`savedStudents
      ensures UniqueBySid(savedStudents)
      ensures Turn(messages, userSession, savedStudents, addedAfter, raised)
              == FoldStep(Turn(old(messages), old(userSession), old(savedStudents), added, false), m, parse)
    {
      raised, addedAfter := false, added;
      match m {
      case AI(c) =>
        if !StripsToEmpty(c) {
          if !added {
            messages := messages + [Assistant(c)];
          } else {
            var skip := ShouldSkipMessage(c, JNull);
            if !skip {
              messages := messages + [Assistant(c)];
            }
          }
        }
      case ToolReply(c) =>
        var data := match parse(c) case Some(j) => j case None => JObj(ParseFailure);
        if !data.JObj? {
          return true, added;
        }
        AddToolResult(data.fields);
        addedAfter := true;
      case Human(_) =>
      case SystemMsg(_) =>
      }
    }

    /** A tool result that parsed to an object: a login result replaces the session and is
        remembered unless its sid is saved already; the result is appended to the history. */
    method AddToolResult(d: Dict)
      requires UniqueBySid(savedStudents)
      modifies this`messages, this`userSession, this`savedStudents
      ensures UniqueBySid(savedStudents)
      ensures messages == old(messages) + [Tool(d)]
      ensures IsLoginResult(d) ==> userSession == Some(LoginIdentity(d)) && savedStudents == RememberStudent(old(savedStudents), LoginIdentity(d))
      ensures !IsLoginResult(d) ==> userSession == old(userSession) && savedStudents == old(savedStudents)
    {
      if IsLoginResult(d) {
        userSession := Some(LoginIdentity(d));
        var known := HasStudent(savedStudents, GetOrNull(d, "sid"));
        RememberStudentFacts(savedStudents, LoginIdentity(d));
        if !known {
          savedStudents := savedStudents + [LoginIdentity(d)];
        }
      }
      messages := messages + [Tool(d)];
    }

    /** The upload handler, for a file named `name` whose temporary copy is `tmpStem` followed by the
        name's extension. A name already uploaded is not processed again; otherwise the document is
        recorded exactly when the store ingests it. */
    method Upload(store: VectorStore, name: string, tmpStem: string, read: (string, FileKind) -> Extracted,
                  split: string -> seq<string>, embedError: seq<string> -> Option<string>)
      requires Valid()
      modifies this`uploadedDocs, store
      ensures Valid()
      ensures KnownName(old(uploadedDocs), name) ==> uploadedDocs == old(uploadedDocs) && store.index == old(store.index)
      ensures !KnownName(old(uploadedDocs), name) ==>
        var path := tmpStem + Extension(name);
        && (Ingests(path, read, split, embedError) ==>
              uploadedDocs == old(uploadedDocs) + [UploadedDoc(name, path, JInt(|split(read(path, Kind(path)).text)|))]
              && store.index == Some(old(store.index).GetOr([]) + split(read(path, Kind(path)).text)))
        && (!Ingests(path, read, split, embedError) ==> uploadedDocs == old(uploadedDocs) && store.index == old(store.index))
    {
      var known := HasDocument(uploadedDocs, name);
      if known {
        return;
      }
      var path := tmpStem + Extension(name);
      var result := store.AddDocument(path, read, split, embedError);
      if Get(result, "status") == Some(JStr("success")) {
        var chunks := if "chunks" in result then result["chunks"] else JInt(0);
        uploadedDocs := uploadedDocs + [UploadedDoc(name, path, chunks)];
      }
    }
  }

  /** Once the loop has raised, the remaining messages change nothing. */
  lemma {:induction false} FoldStaysCrashed(t: Turn, news: seq<LcMessage>, i: nat, parse: string -> Option<Json>)
    requires i <= |news|
    requires FoldNew(t, news[..i], parse).crashed
    ensures FoldNew(t, news, parse) == FoldNew(t, news[..i], parse)
    decreases |news| - i
  {
    if i < |news| {
      assert news[..i + 1][..i] == news[..i];
      assert FoldNew(t, news[..i + 1], parse) == FoldStep(FoldNew(t, news[..i], parse), news[i], parse);
      FoldStaysCrashed(t, news, i + 1, parse);
    } else {
      assert news[..i] == news;
    }
  }
}
