/** The tools the language model can call (streamlit_backend.py): the login gate, relative-date
    resolution and the mapping of an HTTP reply to a JSON result envelope. The HTTP session is a
    parameter `http` that maps a request to what came back; each tool reports the request it sent,
    so "no network call" is `sent == None`. */
module Tools {
  import opened Wrappers
  import opened PyText
  import opened JsonValue
  import opened Dates

  const ApiBase := "https://ezedu.kcisbd.com"

  function Endpoint(name: string): string {
    ApiBase + "/index.php/Api/" + name
  }

  /** An outbound request: a form-encoded POST or a plain GET. */
  datatype Request = Post(url: string, form: map<string, string>) | GetUrl(url: string)

  /** The body of a reply: `response.json()` either parses or raises with a message. */
  datatype Body = Parsed(json: Json) | Malformed(reason: string)

  /** The session either raised (timeout, connection error) or a reply with a status arrived. */
  datatype HttpOutcome = Raised(reason: string) | Reply(status: int, body: Body)

  /** The envelope a tool returns (before `json.dumps`) and the request it sent, if any. */
  datatype ToolCall = ToolCall(result: Dict, sent: Option<Request>)

  /** The key naming the kind of a result and its value, such as `"exam_type": "term"`. */
  datatype Tag = Tag(key: string, value: string)

  const TermTag := Tag("exam_type", "term")
  const UnitTag := Tag("exam_type", "unit")
  const HomeworkTag := Tag("exam_type", "homework")
  const SyllabusTag := Tag("type", "syllabus")
  const WorksheetTag := Tag("type", "worksheet")
  const CalendarTag := Tag("type", "calendar")

  function LoginRequired(tag: Tag): Dict {
    map["error" := JStr("Please login first"), tag.key := JStr(tag.value), "requires_login" := JBool(true)]
  }

  function Failure(tag: Tag, message: Json): Dict {
    map["error" := message, tag.key := JStr(tag.value)]
  }

  function Success(tag: Tag, data: Json): Dict {
    map["status" := JStr("success"), tag.key := JStr(tag.value), "data" := data]
  }

  predicate NeedsLogin(d: Dict) {
    Get(d, "requires_login") == Some(JBool(true))
  }

  /** `not x or x == "None"`: a credential the model did not really supply. */
  predicate Missing(x: string) {
    x == "" || x == "None"
  }

  // ---------------------------------------------------------------------------------------------
  // student_login

  function LoginFailed(error: Json): Dict {
    map["error" := error, "action" := JStr("login_failed")]
  }

  /** The server accepted the credentials: a 200 reply whose JSON object has `code == 1` and whose
      `data` member, if present, is an object. */
  predicate LoginAccepted(o: HttpOutcome) {
    && o.Reply? && o.status == 200 && o.body.Parsed? && o.body.json.JObj?
    && var m := o.body.json.fields;
    && "code" in m && PyEq(m["code"], JInt(1))
    && Get(m, "data").GetOr(JObj(map[])).JObj?
  }

  function ClassifyLogin(o: HttpOutcome): (r: Dict)
    ensures IsLoginResult(r) <==> LoginAccepted(o)
    ensures !IsLoginResult(r) ==> Get(r, "action") == Some(JStr("login_failed")) && "error" in r
    ensures LoginAccepted(o) ==>
      var student := Get(o.body.json.fields, "data").GetOr(JObj(map[])).fields;
      && Get(r, "sid") == Some(GetOrNull(student, "sid"))
      && Get(r, "name") == Some(GetOrNull(student, "name"))
      && Get(r, "temp") == Some(GetOrNull(student, "temp"))
    ensures o.Reply? && o.status != 200 ==> r == LoginFailed(JStr("Login failed"))
    ensures o.Reply? && o.status == 200 && o.body.Parsed? && o.body.json.JObj?
            && !("code" in o.body.json.fields && PyEq(o.body.json.fields["code"], JInt(1)))
            ==> r == LoginFailed(Get(o.body.json.fields, "message").GetOr(JStr("Invalid credentials")))
  {
    match o
    case Raised(reason) => LoginFailed(JStr(reason))
    case Reply(status, body) =>
      if status != 200 then LoginFailed(JStr("Login failed"))
      else match body
        case Malformed(reason) => LoginFailed(JStr(reason))
        case Parsed(data) =>
          match GetAttr(data, "code")
          case Err(e) => LoginFailed(JStr(e))
          case Ok(code) =>
            if !(code.Some? && PyEq(code.value, JInt(1))) then
              LoginFailed(Get(data.fields, "message").GetOr(JStr("Invalid credentials")))
            else
              var student := Get(data.fields, "data").GetOr(JObj(map[]));
              match student
              case JObj(m) =>
                map["status" := JStr("success"), "action" := JStr("login_success"),
                    "sid" := GetOrNull(m, "sid"), "name" := GetOrNull(m, "name"),
                    "temp" := GetOrNull(m, "temp")]
              case _ => LoginFailed(JStr(NoGetMessage(student)))
  }

  /** student_login: always sends one POST, with id and password stripped of surrounding whitespace. */
  function StudentLogin(studentId: string, password: string, http: Request -> HttpOutcome): (r: ToolCall)
    ensures r.sent.Some? && r.sent.value.Post? && r.sent.value.url == Endpoint("studentLogin")
    ensures r.sent.value.form == map["id" := Strip(studentId), "pass" := Strip(password)]
    ensures IsLoginResult(r.result) <==> LoginAccepted(http(r.sent.value))
  {
    var request := Post(Endpoint("studentLogin"), map["id" := Strip(studentId), "pass" := Strip(password)]);
    ToolCall(ClassifyLogin(http(request)), Some(request))
  }

  // ---------------------------------------------------------------------------------------------
  // The fetch tools

  /** What a tool demands of a 200 reply's JSON before calling it a success. */
  datatype EmptyRule =
    | AcceptAny          // get_homework: any parsed body
    | RejectEmptyBody    // `if not data`
    | RejectEmptyResult  // `if not data or not data.get("result")`
    | RejectEmptyCounted // `if not data`, then `len(data)` in the success log line, inside the `try`

  /** The success condition of a fetch, stated on the reply alone. */
  predicate FetchSucceeds(rule: EmptyRule, o: HttpOutcome) {
    && o.Reply? && o.status == 200 && o.body.Parsed?
    && match rule
       case AcceptAny => true
       case RejectEmptyBody => Truthy(o.body.json)
       case RejectEmptyResult =>
         Truthy(o.body.json) && o.body.json.JObj? && Truthy(GetOrNull(o.body.json.fields, "result"))
       case RejectEmptyCounted => Truthy(o.body.json) && HasLen(o.body.json)
  }

  /** The shared shape of every fetch tool after its request was sent. */
  function ClassifyFetch(tag: Tag, unable: string, noData: string, rule: EmptyRule, o: HttpOutcome): (r: Dict)
    requires tag.key !in {"error", "status", "data", "requires_login"}
    ensures IsSuccess(r) <==> FetchSucceeds(rule, o)
    ensures IsSuccess(r) ==> r == Success(tag, o.body.json)
    ensures !IsSuccess(r) ==> "error" in r && Get(r, tag.key) == Some(JStr(tag.value)) && !NeedsLogin(r)
    ensures o.Reply? && o.status != 200 ==> r == Failure(tag, JStr(unable))
    ensures o.Reply? && o.status == 200 && o.body.Parsed? && rule != AcceptAny && !Truthy(o.body.json)
            ==> r == Failure(tag, JStr(noData))
    ensures rule == RejectEmptyResult && o.Reply? && o.status == 200 && o.body.Parsed? && o.body.json.JObj?
            && Truthy(o.body.json) && !Truthy(GetOrNull(o.body.json.fields, "result"))
            ==> r == Failure(tag, JStr(noData))
    ensures rule == RejectEmptyCounted && o.Reply? && o.status == 200 && o.body.Parsed? && Truthy(o.body.json)
            && !HasLen(o.body.json)
            ==> r == Failure(tag, JStr(NoLenMessage(o.body.json)))
  {
    match o
    case Raised(reason) => Failure(tag, JStr(reason))
    case Reply(status, body) =>
      if status != 200 then Failure(tag, JStr(unable))
      else match body
        case Malformed(reason) => Failure(tag, JStr(reason))
        case Parsed(data) =>
          match rule
          case AcceptAny => Success(tag, data)
          case RejectEmptyBody => if !Truthy(data) then Failure(tag, JStr(noData)) else Success(tag, data)
          case RejectEmptyCounted =>
            if !Truthy(data) then Failure(tag, JStr(noData))
            else if !HasLen(data) then Failure(tag, JStr(NoLenMessage(data)))
            else Success(tag, data)
          case RejectEmptyResult =>
            if !Truthy(data) then Failure(tag, JStr(noData))
            else match GetAttr(data, "result")
              case Err(e) => Failure(tag, JStr(e))
              case Ok(result) =>
                if !Truthy(result.GetOr(JNull)) then Failure(tag, JStr(noData)) else Success(tag, data)
  }

  /** get_term_result: gated on sid and temp; success needs a non-empty `result`. */
  function GetTermResult(sid: string, temp: string, term: string, http: Request -> HttpOutcome): (r: ToolCall)
    ensures r.sent.None? <==> Missing(sid) || Missing(temp)
    ensures r.sent.None? ==> r.result == LoginRequired(TermTag)
    ensures r.sent.Some? ==> r.sent.value == Post(Endpoint("getTermResult"), map["sid" := sid, "temp" := temp, "term" := term])
    ensures IsSuccess(r.result) <==> r.sent.Some? && FetchSucceeds(RejectEmptyResult, http(r.sent.value))
  {
    if Missing(sid) || Missing(temp) then ToolCall(LoginRequired(TermTag), None)
    else
      var request := Post(Endpoint("getTermResult"), map["sid" := sid, "temp" := temp, "term" := term]);
      ToolCall(ClassifyFetch(TermTag, "Unable to fetch results", "No results found", RejectEmptyResult, http(request)), Some(request))
  }

  /** get_unit_test_result: gated on sid and temp; success needs a non-empty body. */
  function GetUnitTestResult(sid: string, temp: string, term: string, http: Request -> HttpOutcome): (r: ToolCall)
    ensures r.sent.None? <==> Missing(sid) || Missing(temp)
    ensures r.sent.None? ==> r.result == LoginRequired(UnitTag)
    ensures r.sent.Some? ==> r.sent.value == Post(Endpoint("getUnitTestResult"), map["sid" := sid, "temp" := temp, "term" := term])
    ensures IsSuccess(r.result) <==> r.sent.Some? && FetchSucceeds(RejectEmptyBody, http(r.sent.value))
  {
    if Missing(sid) || Missing(temp) then ToolCall(LoginRequired(UnitTag), None)
    else
      var request := Post(Endpoint("getUnitTestResult"), map["sid" := sid, "temp" := temp, "term" := term]);
      ToolCall(ClassifyFetch(UnitTag, "Unable to fetch results", "No results found", RejectEmptyBody, http(request)), Some(request))
  }

  // ---------------------------------------------------------------------------------------------
  // Relative dates

  predicate IsRelative(entryDate: string) {
    Lower(entryDate) in {"today", "tomorrow", "yesterday"}
  }

  /** How many days from today a relative date word means. */
  function Offset(word: string): int {
    if word == "tomorrow" then 1 else if word == "yesterday" then -1 else 0
  }

  /** The `entry_date` rewrite of get_homework and get_worksheet, with `today` the local date that
      `datetime.now()` reports. */
  function ResolveEntryDate(entryDate: string, today: Date): (r: Result<string>)
    requires Valid(today)
    ensures !IsRelative(entryDate) ==> r == Ok(entryDate)
    ensures IsRelative(entryDate) && r.Ok? ==>
      && ParseIso(r.value).Some?
      && DayNumber(ParseIso(r.value).value) == DayNumber(today) + Offset(Lower(entryDate))
    ensures r.Err? <==>
      || (Lower(entryDate) == "tomorrow" && today == Date(MaxYear, 12, 31))
      || (Lower(entryDate) == "yesterday" && today == Date(MinYear, 1, 1))
    ensures r.Err? ==> r.message == OutOfRange
  {
    var word := Lower(entryDate);
    if word == "today" then
      IsoRoundTrip(today);
      Ok(Iso(today))
    else if word == "tomorrow" then
      match NextDay(today)
      case Some(t) =>
        IsoRoundTrip(t);
        NextDayIsOneLater(today);
        Ok(Iso(t))
      case None => Err(OutOfRange)
    else if word == "yesterday" then
      match PrevDay(today)
      case Some(y) =>
        IsoRoundTrip(y);
        PrevDayIsOneEarlier(today);
        Ok(Iso(y))
      case None => Err(OutOfRange)
    else Ok(entryDate)
  }

  /** get_homework: gated on temp alone; any parsed 200 reply is a success. */
  function GetHomework(temp: string, entryDate: string, today: Date, http: Request -> HttpOutcome): (r: ToolCall)
    requires Valid(today)
    ensures Missing(temp) ==> r == ToolCall(LoginRequired(HomeworkTag), None)
    ensures r.sent.Some? <==> !Missing(temp) && ResolveEntryDate(entryDate, today).Ok?
    ensures r.sent.Some? ==>
      r.sent.value == Post(Endpoint("getDiary"), map["temp" := temp, "entry_date" := ResolveEntryDate(entryDate, today).value])
    ensures !Missing(temp) && ResolveEntryDate(entryDate, today).Err? ==> r.result == Failure(HomeworkTag, JStr(OutOfRange))
    ensures IsSuccess(r.result) <==> r.sent.Some? && FetchSucceeds(AcceptAny, http(r.sent.value))
  {
    if Missing(temp) then ToolCall(LoginRequired(HomeworkTag), None)
    else match ResolveEntryDate(entryDate, today)
      case Err(e) => ToolCall(Failure(HomeworkTag, JStr(e)), None)
      case Ok(date) =>
        var request := Post(Endpoint("getDiary"), map["temp" := temp, "entry_date" := date]);
        ToolCall(ClassifyFetch(HomeworkTag, "Unable to fetch homework", "", AcceptAny, http(request)), Some(request))
  }

  /** get_syllabus: gated on temp alone; success needs a non-empty body that has a length. */
  function GetSyllabus(temp: string, http: Request -> HttpOutcome): (r: ToolCall)
    ensures r.sent.None? <==> Missing(temp)
    ensures r.sent.None? ==> r.result == LoginRequired(SyllabusTag)
    ensures r.sent.Some? ==> r.sent.value == Post(Endpoint("getSyllabus"), map["temp" := temp])
    ensures IsSuccess(r.result) <==> r.sent.Some? && FetchSucceeds(RejectEmptyCounted, http(r.sent.value))
  {
    if Missing(temp) then ToolCall(LoginRequired(SyllabusTag), None)
    else
      var request := Post(Endpoint("getSyllabus"), map["temp" := temp]);
      ToolCall(ClassifyFetch(SyllabusTag, "Unable to fetch syllabus", "No syllabus found", RejectEmptyCounted, http(request)), Some(request))
  }

  /** get_worksheet: gated on temp alone; success needs a non-empty body that has a length. */
  function GetWorksheet(temp: string, entryDate: string, today: Date, http: Request -> HttpOutcome): (r: ToolCall)
    requires Valid(today)
    ensures Missing(temp) ==> r == ToolCall(LoginRequired(WorksheetTag), None)
    ensures r.sent.Some? <==> !Missing(temp) && ResolveEntryDate(entryDate, today).Ok?
    ensures r.sent.Some? ==>
      r.sent.value == Post(Endpoint("worksheetList"), map["temp" := temp, "entry_date" := ResolveEntryDate(entryDate, today).value])
    ensures !Missing(temp) && ResolveEntryDate(entryDate, today).Err? ==> r.result == Failure(WorksheetTag, JStr(OutOfRange))
    ensures IsSuccess(r.result) <==> r.sent.Some? && FetchSucceeds(RejectEmptyCounted, http(r.sent.value))
  {
    if Missing(temp) then ToolCall(LoginRequired(WorksheetTag), None)
    else match ResolveEntryDate(entryDate, today)
      case Err(e) => ToolCall(Failure(WorksheetTag, JStr(e)), None)
      case Ok(date) =>
        var request := Post(Endpoint("worksheetList"), map["temp" := temp, "entry_date" := date]);
        ToolCall(ClassifyFetch(WorksheetTag, "Unable to fetch worksheets", "No worksheets found", RejectEmptyCounted, http(request)), Some(request))
  }

  /** get_syllabus and get_worksheet log `len(data)` before returning; a truthy body without a length
      (a non-zero number, or `true`) makes that raise, and the tool returns the TypeError text. */
  lemma CountedToolsNeedLength(temp: string, entryDate: string, today: Date, http: Request -> HttpOutcome)
    requires Valid(today) && !Missing(temp)
    ensures var o := http(Post(Endpoint("getSyllabus"), map["temp" := temp]));
      o.Reply? && o.status == 200 && o.body.Parsed? && Truthy(o.body.json) && !HasLen(o.body.json)
      ==> GetSyllabus(temp, http).result == Failure(SyllabusTag, JStr("object of type '" + TypeName(o.body.json) + "' has no len()"))
    ensures ResolveEntryDate(entryDate, today).Ok? ==>
      var o := http(Post(Endpoint("worksheetList"), map["temp" := temp, "entry_date" := ResolveEntryDate(entryDate, today).value]));
      o.Reply? && o.status == 200 && o.body.Parsed? && Truthy(o.body.json) && !HasLen(o.body.json)
      ==> GetWorksheet(temp, entryDate, today, http).result == Failure(WorksheetTag, JStr("object of type '" + TypeName(o.body.json) + "' has no len()"))
  {
  }

  /** A tool that needs a login answers "Please login first" without sending anything whenever its
      credentials are missing, whatever the server would have said. */
  lemma GatesPrecedeRequests(sid: string, temp: string, term: string, entryDate: string, today: Date,
                             http: Request -> HttpOutcome)
    requires Valid(today)
    requires Missing(temp)
    ensures GetTermResult(sid, temp, term, http).sent.None? && NeedsLogin(GetTermResult(sid, temp, term, http).result)
    ensures GetUnitTestResult(sid, temp, term, http).sent.None? && NeedsLogin(GetUnitTestResult(sid, temp, term, http).result)
    ensures GetHomework(temp, entryDate, today, http).sent.None? && NeedsLogin(GetHomework(temp, entryDate, today, http).result)
    ensures GetSyllabus(temp, http).sent.None? && NeedsLogin(GetSyllabus(temp, http).result)
    ensures GetWorksheet(temp, entryDate, today, http).sent.None? && NeedsLogin(GetWorksheet(temp, entryDate, today, http).result)
  {
  }

  // ---------------------------------------------------------------------------------------------
  // get_calendar

  const CalendarUrl := Endpoint("getCalender")

  /** The download link the calendar adds to one entry. */
  function FileUrl(item: Dict, repr: Json -> string): string {
    ApiBase + "/uploads/calender/" + Str(Get(item, "file_location").GetOr(JStr("")), repr)
  }

  function WithFileUrl(item: Dict, repr: Json -> string): Dict {
    item["file_url" := JStr(FileUrl(item, repr))]
  }

  /** `after` is `before` with a `file_url` added to each entry, every other member as it was. */
  predicate Annotated(before: seq<Json>, after: seq<Json>, repr: Json -> string) {
    |after| == |before|
    && forall i :: 0 <= i < |before| ==> before[i].JObj? && after[i] == JObj(WithFileUrl(before[i].fields, repr))
  }

  /** The exception `for item in data: item.get(...)` raises on a truthy body that is not a list. */
  function IterationError(data: Json): string {
    match data
    case JObj(_) => NoGetMessage(JStr(""))  // iterating a dict yields its keys, which are strings
    case JStr(_) => NoGetMessage(JStr(""))  // iterating a string yields one-character strings
    case _ => "'" + TypeName(data) + "' object is not iterable"
  }

  /** Index of the first entry that is not an object (|items| when there is none). */
  function FirstNonObject(items: seq<Json>): (k: nat)
    ensures k <= |items|
    ensures forall i :: 0 <= i < k ==> items[i].JObj?
    ensures k < |items| ==> !items[k].JObj?
  {
    if items == [] then 0
    else if !items[0].JObj? then 0
    else 1 + FirstNonObject(items[1..])
  }

  predicate CalendarSucceeds(o: HttpOutcome) {
    && o.Reply? && o.status == 200 && o.body.Parsed? && o.body.json.JList?
    && o.body.json.items != [] && FirstNonObject(o.body.json.items) == |o.body.json.items|
  }

  /** get_calendar: no login needed; a GET, then a `file_url` is written into every entry in place. */
  method GetCalendar(http: Request -> HttpOutcome, repr: Json -> string) returns (r: ToolCall)
    ensures r.sent == Some(GetUrl(CalendarUrl))
    ensures "type" in r.result && r.result["type"] == JStr("calendar")
    ensures IsSuccess(r.result) <==> CalendarSucceeds(http(GetUrl(CalendarUrl)))
    ensures IsSuccess(r.result) ==>
      && r.result.Keys == {"status", "type", "data"} && r.result["data"].JList?
      && Annotated(http(GetUrl(CalendarUrl)).body.json.items, r.result["data"].items, repr)
    ensures !IsSuccess(r.result) ==> r.result.Keys == {"error", "type"} && r.result["type"] == JStr("calendar")
    ensures var o := http(GetUrl(CalendarUrl));
      o.Raised? ==> r.result == Failure(CalendarTag, JStr(o.reason))
    ensures var o := http(GetUrl(CalendarUrl));
      o.Reply? && o.status != 200 ==> r.result == Failure(CalendarTag, JStr("Unable to fetch calendar"))
    ensures var o := http(GetUrl(CalendarUrl));
      o.Reply? && o.status == 200 && o.body.Malformed? ==> r.result == Failure(CalendarTag, JStr(o.body.reason))
    ensures var o := http(GetUrl(CalendarUrl));
      o.Reply? && o.status == 200 && o.body.Parsed? && Truthy(o.body.json) && !o.body.json.JList?
      ==> r.result == Failure(CalendarTag, JStr(IterationError(o.body.json)))
    ensures var o := http(GetUrl(CalendarUrl));
      o.Reply? && o.status == 200 && o.body.Parsed? && !Truthy(o.body.json)
      ==> r.result == Failure(CalendarTag, JStr("No calendar available"))
    ensures var o := http(GetUrl(CalendarUrl));
      o.Reply? && o.status == 200 && o.body.Parsed? && o.body.json.JList?
      && FirstNonObject(o.body.json.items) < |o.body.json.items|
      ==> r.result == Failure(CalendarTag, JStr(NoGetMessage(o.body.json.items[FirstNonObject(o.body.json.items)])))
  {
    var request := GetUrl(CalendarUrl);
    r := ToolCall(map[], Some(request));
    var o := http(request);
    if o.Raised? {
      r := r.(result := Failure(CalendarTag, JStr(o.reason)));
      return;
    }
    if o.status != 200 {
      r := r.(result := Failure(CalendarTag, JStr("Unable to fetch calendar")));
      return;
    }
    if o.body.Malformed? {
      r := r.(result := Failure(CalendarTag, JStr(o.body.reason)));
      return;
    }
    var data := o.body.json;
    if !Truthy(data) {
      r := r.(result := Failure(CalendarTag, JStr("No calendar available")));
      return;
    }
    if !data.JList? {
      r := r.(result := Failure(CalendarTag, JStr(IterationError(data))));
      return;
    }
    var items := data.items;
    var i := 0;
    while i < |items|
      invariant 0 <= i <= |items|
      invariant |items| == |data.items|
      invariant forall k :: 0 <= k < i ==> data.items[k].JObj? && items[k] == JObj(WithFileUrl(data.items[k].fields, repr))
      invariant forall k :: i <= k < |items| ==> items[k] == data.items[k]
    {
      var item := items[i];
      if !item.JObj? {
        assert FirstNonObject(data.items) == i;
        r := r.(result := Failure(CalendarTag, JStr(NoGetMessage(item))));
        return;
      }
      items := items[i := JObj(WithFileUrl(item.fields, repr))];
      i := i + 1;
    }
    r := r.(result := Success(CalendarTag, JList(items)));
  }
}
