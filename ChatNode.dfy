/** The graph state of streamlit_backend.py and what chat_node builds from it before calling the
    model: the system prompt with the login status and the numbered list of saved students. The
    SYSTEM_PROMPT template and the model itself are parameters. */
module ChatNode {
  import opened Wrappers
  import opened PyText
  import opened JsonValue

  /** A LangChain message: what the app sends to the graph and what the graph returns. */
  datatype LcMessage = Human(content: string) | AI(content: string) | ToolReply(content: string) | SystemMsg(content: string)

  /** One login as the app stores it, in `user_session` and in `saved_students`: the `sid`, `name`
      and `temp` of a login_success result, null where the result had none. */
  datatype Identity = Identity(sid: Json, name: Json, temp: Json)

  const NotLoggedInMark := "(Not logged in)"

  const Rule := "===================================================="

  /** `user_session.get(key) or ""`, for a session that is `{}` (None) or a stored identity. */
  function SessionValue(session: Option<Identity>, key: string): Json
    requires key in {"sid", "name", "temp"}
  {
    if session.None? then JStr("")
    else
      var v := if key == "sid" then session.value.sid else if key == "name" then session.value.name else session.value.temp;
      if Truthy(v) then v else JStr("")
  }

  /** What the template receives for a field: the value, or "(Not logged in)" when it is empty. */
  function Placeholder(v: Json, repr: Json -> string): string {
    if Truthy(v) then Str(v, repr) else NotLoggedInMark
  }

  /** The logged-in block is chosen when sid and temp are both non-empty; the name is not consulted. */
  predicate LoggedIn(session: Option<Identity>) {
    Truthy(SessionValue(session, "sid")) && Truthy(SessionValue(session, "temp"))
  }

  /** The blank lines and the rule that open either status block. */
  const StatusOpening := "\n\n" + Rule + "\n"

  function LoggedInBlock(name: string, sid: string, temp: string): string {
    StatusOpening + "✅ USER IS LOGGED IN\n" + Rule + "\nName: " + name + "\nSID: " + sid + "\nTEMP: " + temp
    + "\n\nUse these for tool calls.  DO NOT ask for login again!\n" + Rule + "\n"
  }

  const NotLoggedInBlock := StatusOpening + "❌ USER IS NOT LOGGED IN\n" + Rule
    + "\nFor results/homework/syllabus → Ask for Student ID and Password first!\n" + Rule + "\n"

  function StatusBlock(session: Option<Identity>, repr: Json -> string): string {
    if LoggedIn(session) then
      LoggedInBlock(Str(SessionValue(session, "name"), repr), Str(SessionValue(session, "sid"), repr),
                    Str(SessionValue(session, "temp"), repr))
    else NotLoggedInBlock
  }

  /** The logged-in block is chosen exactly when there is a session whose sid and temp are both
      non-empty; a missing or empty name does not matter. */
  lemma LoggedInExactly(session: Option<Identity>)
    ensures LoggedIn(session) <==> session.Some? && Truthy(session.value.sid) && Truthy(session.value.temp)
  {
  }

  /** The line listing a saved student under number `idx`. */
  function StudentLine(idx: nat, s: Identity, repr: Json -> string): string {
    NatToString(idx) + ". " + Str(s.name, repr) + " (SID: " + Str(s.sid, repr) + ")\n"
  }

  /** `line` applied to each item with consecutive numbers from `first`, concatenated in order. */
  function NumberedLines<T>(items: seq<T>, first: nat, line: (nat, T) -> string): string
    decreases |items|
  {
    if items == [] then ""
    else NumberedLines(items[..|items| - 1], first, line) + line(first + |items| - 1, items[|items| - 1])
  }

  /** Numbering is consecutive across any split of the list. */
  lemma {:induction false} NumberedLinesSplit<T>(xs: seq<T>, ys: seq<T>, first: nat, line: (nat, T) -> string)
    ensures NumberedLines(xs + ys, first, line) == NumberedLines(xs, first, line) + NumberedLines(ys, first + |xs|, line)
    decreases |ys|
  {
    if ys == [] {
      assert xs + ys == xs;
    } else {
      var init := ys[..|ys| - 1];
      assert (xs + ys)[..|xs + ys| - 1] == xs + init;
      NumberedLinesSplit(xs, init, first, line);
    }
  }

  function StudentLines(repr: Json -> string): (nat, Identity) -> string {
    (idx: nat, s: Identity) => StudentLine(idx, s, repr)
  }

  /** The lines for `students`, numbered consecutively from `first`. */
  function Lines(students: seq<Identity>, first: nat, repr: Json -> string): string {
    NumberedLines(students, first, StudentLines(repr))
  }

  const ListingHeader := "\n\n**Previously logged in:**\n"

  /** The saved-students section: absent exactly when there are no saved students. */
  function Listing(students: seq<Identity>, repr: Json -> string): (r: string)
    ensures r == "" <==> students == []
  {
    if students == [] then "" else ListingHeader + Lines(students, 1, repr)
  }

  /** Item `i` sits on the line numbered `first + i`, between the lines of the items before and after it. */
  lemma NumberedLineAt<T>(items: seq<T>, i: nat, first: nat, line: (nat, T) -> string)
    requires i < |items|
    ensures NumberedLines(items, first, line)
            == NumberedLines(items[..i], first, line) + line(first + i, items[i]) + NumberedLines(items[i + 1..], first + i + 1, line)
  {
    var single: seq<T> := [items[i]];
    assert items == items[..i] + (single + items[i + 1..]);
    NumberedLinesSplit(items[..i], single + items[i + 1..], first, line);
    NumberedLinesSplit(single, items[i + 1..], first + i, line);
    assert single[..0] == [];
  }

  /** The student at position `i` of the list is listed on the line numbered `i + 1`, after the
      lines of the students before it and before the lines of those after it. */
  lemma ListedInOrderFromOne(students: seq<Identity>, i: nat, repr: Json -> string)
    requires i < |students|
    ensures Lines(students, 1, repr)
            == Lines(students[..i], 1, repr) + StudentLine(i + 1, students[i], repr) + Lines(students[i + 1..], i + 2, repr)
  {
    NumberedLineAt(students, i, 1, StudentLines(repr));
  }

  /** Numbering one more item adds exactly its line, after the lines of the items before it. */
  lemma NumberedLinesSnoc<T>(items: seq<T>, i: nat, first: nat, line: (nat, T) -> string)
    requires i < |items|
    ensures NumberedLines(items[..i + 1], first, line) == NumberedLines(items[..i], first, line) + line(first + i, items[i])
  {
    assert items[..i + 1][..i] == items[..i];
  }

  /** Appends the lines of `items`, numbered from 1, to `prefix`, one item at a time. */
  method AppendLines<T>(prefix: string, items: seq<T>, line: (nat, T) -> string) returns (out: string)
    ensures out == prefix + NumberedLines(items, 1, line)
  {
    out := prefix;
    var i := 0;
    while i < |items|
      invariant 0 <= i <= |items|
      invariant out == prefix + NumberedLines(items[..i], 1, line)
    {
      NumberedLinesSnoc(items, i, 1, line);
      out := out + line(i + 1, items[i]);
      i := i + 1;
    }
    assert items[..|items|] == items;
  }

  /** Appends the logged-in block when the session has both a sid and a temp, the not-logged-in
      block otherwise. */
  method AppendStatus(prefix: string, session: Option<Identity>, repr: Json -> string) returns (out: string)
    ensures out == prefix + StatusBlock(session, repr)
  {
    var name := SessionValue(session, "name");
    var sid := SessionValue(session, "sid");
    var temp := SessionValue(session, "temp");
    if Truthy(sid) && Truthy(temp) {
      out := prefix + LoggedInBlock(Str(name, repr), Str(sid, repr), Str(temp, repr));
    } else {
      out := prefix + NotLoggedInBlock;
    }
  }

  /** The part of chat_node that prepares the model call: the formatted system prompt, extended with
      the login status and the numbered saved students, followed by the conversation messages.
      `template` is SYSTEM_PROMPT.format(name=..., sid=..., temp=...). */
  method ChatNodeInput(messages: seq<LcMessage>, session: Option<Identity>, saved: seq<Identity>,
                       template: (string, string, string) -> string, repr: Json -> string)
    returns (prompt: string, toModel: seq<LcMessage>)
    ensures prompt == template(Placeholder(SessionValue(session, "name"), repr), Placeholder(SessionValue(session, "sid"), repr),
                               Placeholder(SessionValue(session, "temp"), repr))
                      + StatusBlock(session, repr) + Listing(saved, repr)
    ensures toModel == [SystemMsg(prompt)] + messages
  {
    var head := template(Placeholder(SessionValue(session, "name"), repr), Placeholder(SessionValue(session, "sid"), repr),
                         Placeholder(SessionValue(session, "temp"), repr));
    prompt := AppendStatus(head, session, repr);
    var listing := "";
    if saved != [] {
      listing := AppendLines(ListingHeader, saved, StudentLines(repr));
    }
    prompt := prompt + listing;
    toModel := [SystemMsg(prompt)] + messages;
  }
}
