/** The chat history of streamlit_app.py and the decisions made over it: the recent-message windows,
    the filter for assistant replies that only repeat a tool result, the messages forwarded to the
    model, and which messages one display pass renders. */
module Messages {
  import opened Wrappers
  import opened PyText
  import opened JsonValue
  import opened ChatNode

  /** MAX_MESSAGES_TO_DISPLAY: the display window, and half the history length that triggers a cut. */
  const MaxMessagesToDisplay := 15

  /** MAX_MESSAGES_TO_LLM: how many recent history entries the model gets to see. */
  const MaxMessagesToLlm := 8

  /** An entry of `st.session_state.messages`: a user prompt, an assistant reply, or a tool result
      (the parsed JSON object the tool returned). */
  datatype ChatMessage = User(content: string) | Assistant(content: string) | Tool(data: Dict)

  // ---------------------------------------------------------------------------------------------
  // Windows
  // ---------------------------------------------------------------------------------------------

  /** Python's `s[start:]` for any integer `start`: a negative start counts from the end, and a start
      outside the list is clamped to it. */
  function PySliceFrom<T>(s: seq<T>, start: int): (r: seq<T>)
    ensures |r| <= |s| && r == s[|s| - |r|..]
  {
    var from := if start < 0 then (if start + |s| < 0 then 0 else start + |s|) else (if start > |s| then |s| else start);
    s[from..]
  }

  /** get_recent_messages: the list itself when it is short enough, `messages[-limit:]` otherwise. */
  function RecentMessages<T>(messages: seq<T>, limit: int): seq<T> {
    if |messages| <= limit then messages else PySliceFrom(messages, -limit)
  }

  /** For a positive limit, the window is exactly the last `limit` messages (all of them when there are
      fewer), in their original order. */
  lemma RecentMessagesWindow<T>(messages: seq<T>, limit: int)
    requires limit > 0
    ensures var r := RecentMessages(messages, limit);
            && |r| == (if |messages| <= limit then |messages| else limit)
            && r == messages[|messages| - |r|..]
  {
    if |messages| > limit {
      assert PySliceFrom(messages, -limit) == messages[|messages| - limit..];
    }
  }

  /** With a zero limit, `messages[-0:]` is `messages[0:]`: the whole list, not an empty one. */
  lemma RecentMessagesZeroLimit<T>(messages: seq<T>)
    ensures RecentMessages(messages, 0) == messages
  {
    assert PySliceFrom(messages, -0) == messages[0..];
  }

  /** The history that clean_messages keeps: the last 15 entries once there are more than 30. */
  function CleanWindow<T>(messages: seq<T>): seq<T> {
    if |messages| > MaxMessagesToDisplay * 2 then PySliceFrom(messages, -MaxMessagesToDisplay) else messages
  }

  /** The cleaned history is a suffix of the original, no longer than 30 entries, the original itself
      when that had at most 30, and cleaning again changes nothing. */
  lemma CleanWindowFacts<T>(messages: seq<T>)
    ensures var r := CleanWindow(messages);
            && |r| <= MaxMessagesToDisplay * 2
            && r == messages[|messages| - |r|..]
            && (|messages| <= MaxMessagesToDisplay * 2 ==> r == messages)
            && (|messages| > MaxMessagesToDisplay * 2 ==> |r| == MaxMessagesToDisplay)
            && CleanWindow(r) == r
  {
    if |messages| > MaxMessagesToDisplay * 2 {
      assert PySliceFrom(messages, -MaxMessagesToDisplay) == messages[|messages| - MaxMessagesToDisplay..];
    }
  }

  // ---------------------------------------------------------------------------------------------
  // Redundant replies
  // ---------------------------------------------------------------------------------------------

  /** The phrases that mark an assistant reply as a description of a tool result just shown. */
  const SkipPatterns: seq<string> := [
    "আপনার সিলেবাস", "সিলেবাস ডকুমেন্টস", "উপরে দেখুন",
    "ওয়ার্কশিট", "worksheet", "এখানে আপনার",
    "ফলাফল", "result", "ডাউনলোড", "download",
    "হোমওয়ার্ক", "homework", "calendar", "ক্যালেন্ডার",
    "grade 1 syllabus", "class test", "term"
  ]

  /** A reply is redundant when it is empty, or when some pattern occurs in it, case-insensitively. */
  predicate ShouldSkip(content: string) {
    content == "" || exists k :: 0 <= k < |SkipPatterns| && Contains(Lower(content), Lower(SkipPatterns[k]))
  }

  /** should_skip_message. `prevToolType` is accepted but never consulted. */
  method ShouldSkipMessage(content: string, prevToolType: Json) returns (skip: bool)
    ensures skip == ShouldSkip(content)
  {
    if content == "" {
      return true;
    }
    var lowered := Lower(content);
    for k := 0 to |SkipPatterns|
      invariant forall j :: 0 <= j < k ==> !Contains(lowered, Lower(SkipPatterns[j]))
    {
      if Contains(lowered, Lower(SkipPatterns[k])) {
        return true;
      }
    }
    return false;
  }

  /** Matching ignores ASCII case: lower-casing the reply first changes nothing. */
  lemma ShouldSkipIgnoresCase(content: string)
    ensures ShouldSkip(Lower(content)) == ShouldSkip(content)
  {
    LowerIdempotent(content);
  }

  /** Every pattern is at least four characters long, so a non-empty reply of up to three characters
      is never skipped. */
  lemma {:induction false} ShortRepliesKept(content: string)
    requires 0 < |content| < 4
    ensures !ShouldSkip(content)
  {
    forall k | 0 <= k < |SkipPatterns|
      ensures !Contains(Lower(content), Lower(SkipPatterns[k]))
    {
      assert |Lower(SkipPatterns[k])| >= 4;
    }
  }

  /** The patterns are plain substrings: "term" inside "Determine" already marks a reply as redundant. */
  lemma SubstringMatchIsBroad()
    ensures ShouldSkip("Determine")
  {
    var lowered := Lower("Determine");
    assert lowered[2..6] == "term";
    assert SkipPatterns[16] == "term" && Lower("term") == "term";
    assert OccursAt(lowered, Lower(SkipPatterns[16]), 2);
  }

  // ---------------------------------------------------------------------------------------------
  // What the model sees
  // ---------------------------------------------------------------------------------------------

  /** Only user and assistant entries with non-empty content are passed on; tool results never are. */
  predicate Forwarded(m: ChatMessage) {
    (m.User? || m.Assistant?) && m.content != ""
  }

  function ToLc(m: ChatMessage): LcMessage
    requires m.User? || m.Assistant?
  {
    if m.User? then Human(m.content) else AI(m.content)
  }

  /** The LangChain messages built from a window of the history, in order. */
  function ForwardSpec(window: seq<ChatMessage>): seq<LcMessage>
    decreases |window|
  {
    if window == [] then []
    else
      var last := window[|window| - 1];
      ForwardSpec(window[..|window| - 1]) + (if Forwarded(last) then [ToLc(last)] else [])
  }

  /** The backend_messages loop of the chat input handler. */
  method BackendMessages(window: seq<ChatMessage>) returns (out: seq<LcMessage>)
    ensures out == ForwardSpec(window)
  {
    out := [];
    for i := 0 to |window|
      invariant out == ForwardSpec(window[..i])
    {
      assert window[..i + 1][..i] == window[..i];
      var m := window[i];
      if m.User? && m.content != "" {
        out := out + [Human(m.content)];
      } else if m.Assistant? && m.content != "" {
        out := out + [AI(m.content)];
      }
    }
    assert window[..|window|] == window;
  }

  /** Forwarding works entry by entry: the messages for two consecutive stretches of history are the
      messages for the first followed by those for the second. */
  lemma {:induction false} ForwardSpecAppend(xs: seq<ChatMessage>, ys: seq<ChatMessage>)
    ensures ForwardSpec(xs + ys) == ForwardSpec(xs) + ForwardSpec(ys)
    decreases |ys|
  {
    if ys == [] {
      assert xs + ys == xs;
    } else {
      var init := ys[..|ys| - 1];
      assert (xs + ys)[..|xs + ys| - 1] == xs + init;
      ForwardSpecAppend(xs, init);
    }
  }

  /** A single entry is forwarded as its LangChain counterpart exactly when it is a non-empty user or
      assistant message; tool results are dropped. */
  lemma ForwardSingle(m: ChatMessage)
    ensures ForwardSpec([m]) == (if Forwarded(m) then [ToLc(m)] else [])
    ensures m.Tool? ==> ForwardSpec([m]) == []
  {
    assert [m][..0] == [];
  }

  /** Everything forwarded is a non-empty human or AI message, and there is one per forwarded entry. */
  lemma {:induction false} ForwardedShape(window: seq<ChatMessage>)
    ensures forall k :: 0 <= k < |ForwardSpec(window)| ==>
              (ForwardSpec(window)[k].Human? || ForwardSpec(window)[k].AI?) && ForwardSpec(window)[k].content != ""
    ensures |ForwardSpec(window)| <= |window|
    decreases |window|
  {
    if window != [] {
      ForwardedShape(window[..|window| - 1]);
    }
  }

  // ---------------------------------------------------------------------------------------------
  // One display pass
  // ---------------------------------------------------------------------------------------------

  /** The variables the display loop threads from one message to the next, and the window indices it
      has rendered so far. */
  datatype DisplayState = DisplayState(prevWasTool: bool, prevToolType: Json, shownLogin: bool, rendered: seq<nat>)

  const DisplayStart := DisplayState(false, JNull, false, [])

  /** `tool_data.get('type') or tool_data.get('exam_type')`. */
  function ToolType(d: Dict): Json {
    if Truthy(GetOrNull(d, "type")) then GetOrNull(d, "type") else GetOrNull(d, "exam_type")
  }

  /** One iteration of the display loop for the message at window index `i`. */
  function DisplayStep(st: DisplayState, i: nat, m: ChatMessage): DisplayState {
    match m
    case User(_) => st.(prevWasTool := false, prevToolType := JNull, rendered := st.rendered + [i])
    case Tool(d) =>
      if IsLoginResult(d) && st.shownLogin then st
      else st.(shownLogin := st.shownLogin || IsLoginResult(d), prevToolType := ToolType(d), prevWasTool := true,
               rendered := st.rendered + [i])
    case Assistant(c) =>
      if st.prevWasTool && ShouldSkip(c) then st
      else st.(prevWasTool := false, rendered := if StripsToEmpty(c) then st.rendered else st.rendered + [i])
  }

  /** The state after the first `n` messages of the window. */
  function DisplayRun(window: seq<ChatMessage>, n: nat): DisplayState
    requires n <= |window|
  {
    if n == 0 then DisplayStart else DisplayStep(DisplayRun(window, n - 1), n - 1, window[n - 1])
  }

  /** One pass of the loop body for the message at window index `i`: the `continue` branches leave
      the state as it was. */
  method DisplayOne(prevWasTool: bool, prevToolType: Json, shownLogin: bool, rendered: seq<nat>, i: nat, m: ChatMessage)
    returns (prevWasTool': bool, prevToolType': Json, shownLogin': bool, rendered': seq<nat>)
    ensures DisplayState(prevWasTool', prevToolType', shownLogin', rendered')
            == DisplayStep(DisplayState(prevWasTool, prevToolType, shownLogin, rendered), i, m)
  {
    prevWasTool', prevToolType', shownLogin', rendered' := prevWasTool, prevToolType, shownLogin, rendered;
    match m
    case User(_) =>
      rendered' := rendered + [i];
      prevWasTool' := false;
      prevToolType' := JNull;
    case Tool(d) =>
      if IsLoginResult(d) {
        if shownLogin {
          return;
        }
        shownLogin' := true;
      }
      rendered' := rendered + [i];
      prevToolType' := ToolType(d);
      prevWasTool' := true;
    case Assistant(c) =>
      if prevWasTool {
        var skip := ShouldSkipMessage(c, prevToolType);
        if skip {
          return;
        }
      }
      if !StripsToEmpty(c) {
        rendered' := rendered + [i];
      }
      prevWasTool' := false;
  }

  /** The display loop over the recent window; returns the window indices it renders. */
  method DisplayPass(messages: seq<ChatMessage>) returns (window: seq<ChatMessage>, rendered: seq<nat>)
    ensures window == RecentMessages(messages, MaxMessagesToDisplay)
    ensures rendered == DisplayRun(window, |window|).rendered
  {
    window := RecentMessages(messages, MaxMessagesToDisplay);
    var prevWasTool := false;
    var prevToolType := JNull;
    var shownLogin := false;
    rendered := [];
    for i := 0 to |window|
      invariant DisplayState(prevWasTool, prevToolType, shownLogin, rendered) == DisplayRun(window, i)
    {
      prevWasTool, prevToolType, shownLogin, rendered := DisplayOne(prevWasTool, prevToolType, shownLogin, rendered, i, window[i]);
    }
  }

  predicate IsLoginAt(window: seq<ChatMessage>, i: int) {
    0 <= i < |window| && window[i].Tool? && IsLoginResult(window[i].data)
  }

  /** No login result comes before index `i`. */
  predicate FirstLogin(window: seq<ChatMessage>, i: int) {
    forall h :: 0 <= h < i ==> !IsLoginAt(window, h)
  }

  /** A tool result the pass renders: any result but a login, or the first login of the window. */
  predicate ShownTool(window: seq<ChatMessage>, j: int) {
    0 <= j < |window| && window[j].Tool? && (!IsLoginResult(window[j].data) || FirstLogin(window, j))
  }

  /** A message the pass passes over without touching its state, once it follows a rendered tool
      result: a redundant assistant reply, or a repeated login result. */
  predicate Transparent(window: seq<ChatMessage>, h: int) {
    0 <= h < |window| &&
    ((window[h].Assistant? && ShouldSkip(window[h].content)) || (IsLoginAt(window, h) && !FirstLogin(window, h)))
  }

  /** Indices in increasing order, all below `n`. */
  predicate IncreasingBelow(r: seq<nat>, n: nat) {
    && (forall j :: 0 <= j < |r| ==> r[j] < n)
    && (forall j, k :: 0 <= j < k < |r| ==> r[j] < r[k])
  }

  /** The rendered indices are increasing and inside the part of the window seen so far. */
  lemma {:induction false} DisplayRenderedOrdered(window: seq<ChatMessage>, n: nat)
    requires n <= |window|
    ensures IncreasingBelow(DisplayRun(window, n).rendered, n)
  {
    if n > 0 {
      DisplayRenderedOrdered(window, n - 1);
      var prev := DisplayRun(window, n - 1).rendered;
      var r := DisplayRun(window, n).rendered;
      assert r == prev || r == prev + [n - 1];
    }
  }

  /** Whether message `i` is rendered is decided when the pass reaches it. */
  lemma {:induction false} DisplayRenderedStable(window: seq<ChatMessage>, i: nat, n: nat)
    requires i < n <= |window|
    ensures i in DisplayRun(window, n).rendered <==> i in DisplayRun(window, i + 1).rendered
    decreases n
  {
    if n > i + 1 {
      DisplayRenderedStable(window, i, n - 1);
      var prev := DisplayRun(window, n - 1).rendered;
      assert DisplayRun(window, n).rendered == prev || DisplayRun(window, n).rendered == prev + [n - 1];
    }
  }

  /** The pass has rendered a login result exactly when the window had one so far. */
  lemma {:induction false} DisplayShownLogin(window: seq<ChatMessage>, n: nat)
    requires n <= |window|
    ensures DisplayRun(window, n).shownLogin <==> !FirstLogin(window, n)
  {
    if n > 0 {
      DisplayShownLogin(window, n - 1);
      assert FirstLogin(window, n) <==> FirstLogin(window, n - 1) && !IsLoginAt(window, n - 1);
    }
  }

  /** What one display pass renders, message by message: every user message; a tool result unless
      it is a login result after an earlier one; an assistant reply when it is not blank and not
      skipped as redundant right after a tool result. */
  lemma DisplayRendered(window: seq<ChatMessage>, i: nat)
    requires i < |window|
    ensures var r := DisplayRun(window, |window|).rendered;
      && (window[i].User? ==> i in r)
      && (window[i].Tool? ==> (i in r <==> ShownTool(window, i)))
      && (window[i].Assistant? ==>
            (i in r <==>
               !StripsToEmpty(window[i].content) && !(DisplayRun(window, i).prevWasTool && ShouldSkip(window[i].content))))
  {
    DisplayRenderedStable(window, i, |window|);
    DisplayRenderedOrdered(window, i);
    DisplayShownLogin(window, i);
    assert i !in DisplayRun(window, i).rendered;
  }

  /** Every message strictly between `j` and `n` is passed over. */
  predicate TransparentBetween(window: seq<ChatMessage>, j: int, n: int) {
    forall h :: j < h < n ==> Transparent(window, h)
  }

  /** Some rendered tool result before `n` has been followed only by messages passed over. */
  predicate ToolStillLast(window: seq<ChatMessage>, n: int) {
    exists j :: 0 <= j < n && ShownTool(window, j) && TransparentBetween(window, j, n)
  }

  /** One step of the flag: it is set by a rendered tool result and survives exactly the messages
      the pass passes over. */
  lemma PrevWasToolStep(window: seq<ChatMessage>, n: nat)
    requires 0 < n <= |window|
    ensures DisplayRun(window, n).prevWasTool
            <==> ShownTool(window, n - 1) || (DisplayRun(window, n - 1).prevWasTool && Transparent(window, n - 1))
  {
    DisplayShownLogin(window, n - 1);
  }

  /** "The previous message was a tool result" holds exactly when a rendered tool result has been
      followed only by messages the pass passed over; a hidden reply does not reset it. */
  lemma {:induction false} DisplayPrevWasTool(window: seq<ChatMessage>, n: nat)
    requires n <= |window|
    ensures DisplayRun(window, n).prevWasTool <==> ToolStillLast(window, n)
  {
    if n > 0 {
      DisplayPrevWasTool(window, n - 1);
      PrevWasToolStep(window, n);
      if ShownTool(window, n - 1) {
        assert TransparentBetween(window, n - 1, n);
      } else {
        forall j | 0 <= j < n && ShownTool(window, j) && TransparentBetween(window, j, n)
          ensures ToolStillLast(window, n - 1) && Transparent(window, n - 1)
        {
          assert TransparentBetween(window, j, n - 1);
        }
        if ToolStillLast(window, n - 1) && Transparent(window, n - 1) {
          var j :| 0 <= j < n - 1 && ShownTool(window, j) && TransparentBetween(window, j, n - 1);
          assert TransparentBetween(window, j, n);
        }
      }
    }
  }

  /** One display pass renders at most one login result: the first in the window, if any. */
  lemma AtMostOneLoginShown(window: seq<ChatMessage>, j: nat, k: nat)
    requires j < k < |window|
    requires IsLoginAt(window, j) && IsLoginAt(window, k)
    ensures k !in DisplayRun(window, |window|).rendered
  {
    DisplayRendered(window, k);
    assert !FirstLogin(window, k);
  }
}
