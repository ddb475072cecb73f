/** GenerateRequest.Validate and Part.validate (internal/proxy/request.go). */
module Requests {
  import opened Prelude
  import opened Errors
  import opened GoStrings
  import opened Router

  datatype Media = Media(contentType: string, url: string)
  datatype ToolCall = ToolCall(name: string, callRef: string, input: string)
  datatype ToolResult = ToolResult(name: string, callRef: string, output: string)
  datatype Part = Part(
    text: string,
    media: Option<Media>,
    toolRequest: Option<ToolCall>,
    toolResponse: Option<ToolResult>)
  datatype Message = Message(role: string, content: string, parts: seq<Part>)
  datatype ToolDefinition = ToolDefinition(name: string, description: string)

  /** schemaSize is the number of entries of OutputSchema, the only thing Validate asks of it. */
  datatype GenerateRequest = GenerateRequest(
    modelName: string,
    userMessage: string,
    temperature: Option<real>,
    maxOutputTokens: Option<int>,
    topP: Option<real>,
    topK: Option<int>,
    responseFormat: string,
    schemaSize: nat,
    messages: seq<Message>,
    tools: seq<ToolDefinition>,
    toolChoice: string)

  /** The offending field of a ValidationError, with its indices. */
  datatype Field =
    | ModelName | UserMessage | Temperature | MaxOutputTokens | TopP | TopK
    | ResponseFormat | OutputSchema | ToolChoice
    | ToolName(i: nat)
    | MessageRole(i: nat) | WholeMessage(i: nat)
    | WholePart(i: nat, j: nat) | MediaContentType(i: nat, j: nat) | MediaURL(i: nat, j: nat)
    | ToolRequestName(i: nat, j: nat) | ToolResponseName(i: nat, j: nat)

  datatype Problem = Invalid(field: Field, reason: string) | Routing(err: Error)

  const EMPTY: string := "must not be empty"
  const DUPLICATE: string := "must be unique"
  const NO_MESSAGE: string := "must not be empty when messages is omitted"
  const BAD_TEMPERATURE: string := "must be between 0 and 2"
  const BAD_COUNT: string := "must be at least 1"
  const BAD_TOP_P: string := "must be between 0 and 1"
  const BAD_FORMAT: string := "must be \"json\" when set"
  const SCHEMA_NEEDS_JSON: string := "requires responseFormat \"json\""
  const BAD_CHOICE: string := "must be \"auto\", \"required\", or \"none\" when set"
  const ONE_OF_TWO: string := "must set exactly one of content or parts"
  const ONE_OF_FOUR: string := "must set exactly one of text, media, toolRequest, or toolResponse"
  const ROLES: string := "must be \"user\", \"model\", or \"tool\""

  // --------------------------------------------------- what well-formed means

  function Indicator(b: bool): nat {
    if b then 1 else 0
  }

  /** How many of a part's four alternatives are used; blank text does not count. */
  function Alternatives(p: Part): nat {
    Indicator(!Blank(p.text)) + Indicator(p.media.Some?)
    + Indicator(p.toolRequest.Some?) + Indicator(p.toolResponse.Some?)
  }

  predicate PartOk(p: Part) {
    && Alternatives(p) == 1
    && (p.media.Some? ==> !Blank(p.media.value.contentType) && !Blank(p.media.value.url))
    && (p.toolRequest.Some? ==> !Blank(p.toolRequest.value.name))
    && (p.toolResponse.Some? ==> !Blank(p.toolResponse.value.name))
  }

  predicate RoleOk(role: string) {
    role == "user" || role == "model" || role == "tool"
  }

  /** Content or parts, and not both. */
  predicate ShapeOk(m: Message) {
    !Blank(m.content) != (|m.parts| > 0)
  }

  predicate MessageOk(m: Message) {
    && RoleOk(m.role) && ShapeOk(m)
    && forall j :: 0 <= j < |m.parts| ==> PartOk(m.parts[j])
  }

  /** A named tool whose name no earlier tool has. */
  predicate ToolOk(tools: seq<ToolDefinition>, i: nat)
    requires i < |tools|
  {
    !Blank(tools[i].name) && forall k :: 0 <= k < i ==> tools[k].name != tools[i].name
  }

  const SCALAR_CHECKS: nat := 10
  const SAMPLING_CHECK: nat := 3
  const FORMAT_CHECK: nat := 7

  /** The n-th check on the request's scalar fields: None if it passes. */
  function ScalarCheck(r: GenerateRequest, n: nat): Option<Problem> {
    if n == 0 then
      if Blank(r.modelName) then Some(Invalid(ModelName, EMPTY)) else None
    else if n == 1 then
      if ProviderOf(r.modelName).Err? then Some(Routing(ProviderOf(r.modelName).error)) else None
    else if n == 2 then
      if Blank(r.userMessage) && r.messages == [] then Some(Invalid(UserMessage, NO_MESSAGE)) else None
    else if n == 3 then
      if r.temperature.Some? && !(0.0 <= r.temperature.value <= 2.0) then Some(Invalid(Temperature, BAD_TEMPERATURE))
      else None
    else if n == 4 then
      if r.maxOutputTokens.Some? && r.maxOutputTokens.value < 1 then Some(Invalid(MaxOutputTokens, BAD_COUNT)) else None
    else if n == 5 then
      if r.topP.Some? && !(0.0 <= r.topP.value <= 1.0) then Some(Invalid(TopP, BAD_TOP_P)) else None
    else if n == 6 then
      if r.topK.Some? && r.topK.value < 1 then Some(Invalid(TopK, BAD_COUNT)) else None
    else if n == 7 then
      if r.responseFormat !in {"", "json"} then Some(Invalid(ResponseFormat, BAD_FORMAT)) else None
    else if n == 8 then
      if r.schemaSize > 0 && r.responseFormat != "json" then Some(Invalid(OutputSchema, SCHEMA_NEEDS_JSON)) else None
    else if n == 9 then
      if r.toolChoice !in {"", "auto", "required", "none"} then
        Some(Invalid(ToolChoice, BAD_CHOICE)) else None
    else None
  }

  /** The first upTo checks on scalar fields pass. */
  ghost predicate ScalarsPass(r: GenerateRequest, upTo: nat) {
    forall n: nat :: n < upTo ==> ScalarCheck(r, n).None?
  }

  /** What the scalar fields of an acceptable request look like. */
  predicate ScalarsOk(r: GenerateRequest) {
    && !Blank(r.modelName) && ProviderOf(r.modelName).Ok?
    && (!Blank(r.userMessage) || |r.messages| > 0)
    && (r.temperature.Some? ==> 0.0 <= r.temperature.value <= 2.0)
    && (r.maxOutputTokens.Some? ==> r.maxOutputTokens.value >= 1)
    && (r.topP.Some? ==> 0.0 <= r.topP.value <= 1.0)
    && (r.topK.Some? ==> r.topK.value >= 1)
    && r.responseFormat in {"", "json"}
    && (r.schemaSize > 0 ==> r.responseFormat == "json")
    && r.toolChoice in {"", "auto", "required", "none"}
  }

  /** The checks reject exactly the requests whose scalar fields are out of order. */
  lemma ScalarsOkIffPass(r: GenerateRequest)
    ensures ScalarsOk(r) <==> ScalarsPass(r, SCALAR_CHECKS)
  {
    if ScalarsPass(r, SCALAR_CHECKS) {
      assert ScalarCheck(r, 0).None? && ScalarCheck(r, 1).None? && ScalarCheck(r, 2).None?;
      assert ScalarCheck(r, 3).None? && ScalarCheck(r, 4).None? && ScalarCheck(r, 5).None?;
      assert ScalarCheck(r, 6).None? && ScalarCheck(r, 7).None? && ScalarCheck(r, 8).None?;
      assert ScalarCheck(r, 9).None?;
    }
  }

  ghost predicate ToolsOk(tools: seq<ToolDefinition>, upTo: nat)
    requires upTo <= |tools|
  {
    forall i: nat :: i < upTo ==> ToolOk(tools, i)
  }

  ghost predicate MessagesOk(messages: seq<Message>, upTo: nat)
    requires upTo <= |messages|
  {
    forall i: nat :: i < upTo ==> MessageOk(messages[i])
  }

  /** The requests Validate is to accept. */
  ghost predicate WellFormed(r: GenerateRequest) {
    ScalarsOk(r) && ToolsOk(r.tools, |r.tools|) && MessagesOk(r.messages, |r.messages|)
  }

  predicate DistinctNames(tools: seq<ToolDefinition>) {
    forall i, k :: 0 <= i < |tools| && 0 <= k < |tools| && i != k ==> tools[i].name != tools[k].name
  }

  /** Acceptance includes that the tools' names are pairwise distinct. */
  lemma WellFormedToolsAreDistinct(r: GenerateRequest)
    requires WellFormed(r)
    ensures DistinctNames(r.tools)
  {
    forall i, k | 0 <= i < |r.tools| && 0 <= k < |r.tools| && i != k
      ensures r.tools[i].name != r.tools[k].name
    {
      assert ToolOk(r.tools, Max(i, k));
    }
  }

  // ------------------------------------------------------- the first problem

  /** Problem p is a defect of part q at messages[i].parts[j]. */
  predicate PartDefect(q: Part, i: nat, j: nat, p: Problem) {
    if Alternatives(q) != 1 then p == Invalid(WholePart(i, j), ONE_OF_FOUR)
    else if q.media.Some? then
      if Blank(q.media.value.contentType) then p == Invalid(MediaContentType(i, j), EMPTY)
      else Blank(q.media.value.url) && p == Invalid(MediaURL(i, j), EMPTY)
    else if q.toolRequest.Some? then
      Blank(q.toolRequest.value.name) && p == Invalid(ToolRequestName(i, j), EMPTY)
    else
      q.toolResponse.Some? && Blank(q.toolResponse.value.name) && p == Invalid(ToolResponseName(i, j), EMPTY)
  }

  /** Problem p is a defect of message m at index i, in its least offending part if it is a part's. */
  ghost predicate MessageDefect(m: Message, i: nat, p: Problem) {
    if !RoleOk(m.role) then p == Invalid(MessageRole(i), ROLES)
    else if !ShapeOk(m) then p == Invalid(WholeMessage(i), ONE_OF_TWO)
    else exists j: nat :: PartDefectAt(m, i, j, p)
  }

  predicate PartDefectAt(m: Message, i: nat, j: nat, p: Problem) {
    j < |m.parts| && (forall k :: 0 <= k < j ==> PartOk(m.parts[k])) && PartDefect(m.parts[j], i, j, p)
  }

  predicate ToolDefect(tools: seq<ToolDefinition>, i: nat, p: Problem)
    requires i < |tools|
  {
    !ToolOk(tools, i) && p == Invalid(ToolName(i), if Blank(tools[i].name) then EMPTY else DUPLICATE)
  }

  ghost predicate ScalarProblem(r: GenerateRequest, n: nat, p: Problem) {
    n < SCALAR_CHECKS && ScalarsPass(r, n) && ScalarCheck(r, n) == Some(p)
  }

  ghost predicate ToolProblem(r: GenerateRequest, i: nat, p: Problem) {
    ScalarsPass(r, SCALAR_CHECKS) && i < |r.tools| && ToolsOk(r.tools, i) && ToolDefect(r.tools, i, p)
  }

  ghost predicate MessageProblem(r: GenerateRequest, i: nat, p: Problem) {
    && ScalarsPass(r, SCALAR_CHECKS) && ToolsOk(r.tools, |r.tools|)
    && i < |r.messages| && MessagesOk(r.messages, i) && MessageDefect(r.messages[i], i, p)
  }

  /** p is the request's first problem: everything before it in the order of checks is in order. */
  ghost predicate FirstProblem(r: GenerateRequest, p: Problem) {
    || (exists n: nat :: ScalarProblem(r, n, p))
    || (exists i: nat :: ToolProblem(r, i, p))
    || (exists i: nat :: MessageProblem(r, i, p))
  }

  /**
   * The first problem in its fixed order and words: ten checks on the scalar fields, each of
   * which names its field and its reason, and only behind them the tools and the messages.
   */
  lemma ProblemTable(r: GenerateRequest, p: Problem)
    requires FirstProblem(r, p)
    ensures
      if Blank(r.modelName) then p == Invalid(ModelName, "must not be empty")
      else if ProviderOf(r.modelName).Err? then p == Routing(ProviderOf(r.modelName).error)
      else if Blank(r.userMessage) && r.messages == [] then
        p == Invalid(UserMessage, "must not be empty when messages is omitted")
      else if r.temperature.Some? && (r.temperature.value < 0.0 || r.temperature.value > 2.0) then
        p == Invalid(Temperature, "must be between 0 and 2")
      else if r.maxOutputTokens.Some? && r.maxOutputTokens.value < 1 then
        p == Invalid(MaxOutputTokens, "must be at least 1")
      else if r.topP.Some? && (r.topP.value < 0.0 || r.topP.value > 1.0) then
        p == Invalid(TopP, "must be between 0 and 1")
      else if r.topK.Some? && r.topK.value < 1 then p == Invalid(TopK, "must be at least 1")
      else if r.responseFormat != "" && r.responseFormat != "json" then
        p == Invalid(ResponseFormat, "must be \"json\" when set")
      else if r.schemaSize > 0 && r.responseFormat != "json" then
        p == Invalid(OutputSchema, "requires responseFormat \"json\"")
      else if r.toolChoice !in {"", "auto", "required", "none"} then
        p == Invalid(ToolChoice, "must be \"auto\", \"required\", or \"none\" when set")
      else ScalarsOk(r) && ((exists i: nat :: ToolProblem(r, i, p)) || exists i: nat :: MessageProblem(r, i, p))
  {
    ScalarsOkIffPass(r);
    if n: nat :| ScalarProblem(r, n, p) {
      assert ScalarCheck(r, n).Some?;
      assert n > 0 ==> ScalarCheck(r, 0).None?;
      assert n > 1 ==> ScalarCheck(r, 1).None?;
      assert n > 2 ==> ScalarCheck(r, 2).None?;
      assert n > 3 ==> ScalarCheck(r, 3).None?;
      assert n > 4 ==> ScalarCheck(r, 4).None?;
      assert n > 5 ==> ScalarCheck(r, 5).None?;
      assert n > 6 ==> ScalarCheck(r, 6).None?;
      assert n > 7 ==> ScalarCheck(r, 7).None?;
      assert n > 8 ==> ScalarCheck(r, 8).None?;
    }
  }

  /** A tool problem in its words: a blank name, or one an earlier tool has. */
  lemma ToolTable(r: GenerateRequest, i: nat, p: Problem)
    requires ToolProblem(r, i, p)
    ensures
      if Blank(r.tools[i].name) then p == Invalid(ToolName(i), "must not be empty")
      else
        && p == Invalid(ToolName(i), "must be unique")
        && exists k :: 0 <= k < i && r.tools[k].name == r.tools[i].name
  {}

  /** A message problem in its words, in the order role, shape, then the parts. */
  lemma MessageTable(r: GenerateRequest, i: nat, p: Problem)
    requires MessageProblem(r, i, p)
    ensures
      var m := r.messages[i];
      if m.role !in {"user", "model", "tool"} then
        p == Invalid(MessageRole(i), "must be \"user\", \"model\", or \"tool\"")
      else if Blank(m.content) <==> m.parts == [] then
        p == Invalid(WholeMessage(i), "must set exactly one of content or parts")
      else exists j: nat :: PartDefectAt(m, i, j, p)
  {}

  /** A part problem in its words. */
  lemma PartTable(q: Part, i: nat, j: nat, p: Problem)
    requires PartDefect(q, i, j, p)
    ensures
      if Alternatives(q) != 1 then
        p == Invalid(WholePart(i, j), "must set exactly one of text, media, toolRequest, or toolResponse")
      else
        && p.Invalid? && p.reason == "must not be empty"
        && match p.field
           case MediaContentType(i', j') =>
             i' == i && j' == j && q.media.Some? && Blank(q.media.value.contentType)
           case MediaURL(i', j') =>
             && i' == i && j' == j && q.media.Some?
             && !Blank(q.media.value.contentType) && Blank(q.media.value.url)
           case ToolRequestName(i', j') =>
             i' == i && j' == j && q.toolRequest.Some? && Blank(q.toolRequest.value.name)
           case ToolResponseName(i', j') =>
             i' == i && j' == j && q.toolResponse.Some? && Blank(q.toolResponse.value.name)
           case _ => false
  {}

  /** A part is fine exactly when it has no defect. */
  lemma PartOkIffNoDefect(q: Part, i: nat, j: nat)
    ensures PartOk(q) <==> forall p :: !PartDefect(q, i, j, p)
  {
    if !PartOk(q) {
      var p :=
        if Alternatives(q) != 1 then Invalid(WholePart(i, j), ONE_OF_FOUR)
        else if q.media.Some? then
          Invalid(if Blank(q.media.value.contentType) then MediaContentType(i, j) else MediaURL(i, j), EMPTY)
        else if q.toolRequest.Some? then Invalid(ToolRequestName(i, j), EMPTY)
        else Invalid(ToolResponseName(i, j), EMPTY);
      assert PartDefect(q, i, j, p);
    }
  }

  /** A well-formed request has no first problem: Validate's two answers exclude each other. */
  lemma WellFormedHasNoProblem(r: GenerateRequest, p: Problem)
    requires FirstProblem(r, p)
    ensures !WellFormed(r)
  {
    ScalarsOkIffPass(r);
    if i: nat :| MessageProblem(r, i, p) {
      if WellFormed(r) {
        assert MessageOk(r.messages[i]);
        var j: nat :| PartDefectAt(r.messages[i], i, j, p);
        PartOkIffNoDefect(r.messages[i].parts[j], i, j);
      }
    }
  }

  /** A message has at most one defect that counts as its first. */
  lemma MessageDefectIsUnique(m: Message, i: nat, p: Problem, q: Problem)
    requires MessageDefect(m, i, p) && MessageDefect(m, i, q)
    ensures p == q && !MessageOk(m)
  {
    if RoleOk(m.role) && ShapeOk(m) {
      var j: nat :| PartDefectAt(m, i, j, p);
      var k: nat :| PartDefectAt(m, i, k, q);
      PartOkIffNoDefect(m.parts[j], i, j);
      PartOkIffNoDefect(m.parts[k], i, k);
    }
  }

  /** A request has at most one first problem, so Validate's answer is determined. */
  lemma FirstProblemIsUnique(r: GenerateRequest, p: Problem, q: Problem)
    requires FirstProblem(r, p) && FirstProblem(r, q)
    ensures p == q
  {
    if i: nat :| MessageProblem(r, i, p) {
      MessageDefectIsUnique(r.messages[i], i, p, p);
      if k: nat :| MessageProblem(r, k, q) {
        MessageDefectIsUnique(r.messages[k], k, q, q);
        assert i == k;
        MessageDefectIsUnique(r.messages[i], i, p, q);
      }
    }
  }

  // ------------------------------------------------- there is a first problem

  lemma {:induction false} LeastScalar(r: GenerateRequest, from: nat) returns (n: nat)
    requires from <= SCALAR_CHECKS && ScalarsPass(r, from) && !ScalarsPass(r, SCALAR_CHECKS)
    ensures n < SCALAR_CHECKS && ScalarsPass(r, n) && ScalarCheck(r, n).Some?
    decreases SCALAR_CHECKS - from
  {
    if ScalarCheck(r, from).Some? {
      n := from;
    } else {
      n := LeastScalar(r, from + 1);
    }
  }

  lemma {:induction false} LeastTool(tools: seq<ToolDefinition>, from: nat) returns (i: nat)
    requires from <= |tools| && ToolsOk(tools, from) && !ToolsOk(tools, |tools|)
    ensures i < |tools| && ToolsOk(tools, i) && !ToolOk(tools, i)
    decreases |tools| - from
  {
    if !ToolOk(tools, from) {
      i := from;
    } else {
      i := LeastTool(tools, from + 1);
    }
  }

  lemma {:induction false} LeastMessage(messages: seq<Message>, from: nat) returns (i: nat)
    requires from <= |messages| && MessagesOk(messages, from) && !MessagesOk(messages, |messages|)
    ensures i < |messages| && MessagesOk(messages, i) && !MessageOk(messages[i])
    decreases |messages| - from
  {
    if !MessageOk(messages[from]) {
      i := from;
    } else {
      i := LeastMessage(messages, from + 1);
    }
  }

  lemma {:induction false} LeastPart(m: Message, from: nat) returns (j: nat)
    requires from <= |m.parts| && (forall k :: 0 <= k < from ==> PartOk(m.parts[k]))
    requires exists k :: 0 <= k < |m.parts| && !PartOk(m.parts[k])
    ensures j < |m.parts| && !PartOk(m.parts[j]) && forall k :: 0 <= k < j ==> PartOk(m.parts[k])
    decreases |m.parts| - from
  {
    if !PartOk(m.parts[from]) {
      j := from;
    } else {
      j := LeastPart(m, from + 1);
    }
  }

  /** A message that is not acceptable has a first defect. */
  lemma MessageHasDefect(m: Message, i: nat) returns (p: Problem)
    requires !MessageOk(m)
    ensures MessageDefect(m, i, p)
  {
    if !RoleOk(m.role) {
      p := Invalid(MessageRole(i), ROLES);
    } else if !ShapeOk(m) {
      p := Invalid(WholeMessage(i), ONE_OF_TWO);
    } else {
      var j := LeastPart(m, 0);
      PartOkIffNoDefect(m.parts[j], i, j);
      p :| PartDefect(m.parts[j], i, j, p);
      assert PartDefectAt(m, i, j, p);
    }
  }

  /** A request that is not well-formed has a first problem. */
  lemma IllFormedHasProblem(r: GenerateRequest) returns (p: Problem)
    requires !WellFormed(r)
    ensures FirstProblem(r, p)
  {
    ScalarsOkIffPass(r);
    if !ScalarsPass(r, SCALAR_CHECKS) {
      var n := LeastScalar(r, 0);
      p := ScalarCheck(r, n).value;
      assert ScalarProblem(r, n, p);
    } else if !ToolsOk(r.tools, |r.tools|) {
      var i := LeastTool(r.tools, 0);
      p := Invalid(ToolName(i), if Blank(r.tools[i].name) then EMPTY else DUPLICATE);
      assert ToolProblem(r, i, p);
    } else {
      var i := LeastMessage(r.messages, 0);
      p := MessageHasDefect(r.messages[i], i);
      assert MessageProblem(r, i, p);
    }
  }

  /**
   * The two halves of the specification fit: a request has a first problem exactly when it is
   * not well-formed, and by FirstProblemIsUnique it is then the only one.
   */
  lemma ProblemIffIllFormed(r: GenerateRequest)
    ensures (exists p :: FirstProblem(r, p)) <==> !WellFormed(r)
  {
    if p :| FirstProblem(r, p) {
      WellFormedHasNoProblem(r, p);
    }
    if !WellFormed(r) {
      var p := IllFormedHasProblem(r);
    }
  }

  // ------------------------------------------------------------- the method

  /** request.go:233-268 */
  method ValidatePart(q: Part, i: nat, j: nat) returns (problem: Option<Problem>)
    ensures problem.None? <==> PartOk(q)
    ensures problem.Some? ==> PartDefect(q, i, j, problem.value)
  {
    var used := 0;
    if !Blank(q.text) {
      used := used + 1;
    }
    if q.media.Some? {
      used := used + 1;
    }
    if q.toolRequest.Some? {
      used := used + 1;
    }
    if q.toolResponse.Some? {
      used := used + 1;
    }
    if used != 1 {
      return Some(Invalid(WholePart(i, j), ONE_OF_FOUR));
    }
    if q.media.Some? {
      if Blank(q.media.value.contentType) {
        return Some(Invalid(MediaContentType(i, j), EMPTY));
      }
      if Blank(q.media.value.url) {
        return Some(Invalid(MediaURL(i, j), EMPTY));
      }
    } else if q.toolRequest.Some? {
      if Blank(q.toolRequest.value.name) {
        return Some(Invalid(ToolRequestName(i, j), EMPTY));
      }
    } else if q.toolResponse.Some? {
      if Blank(q.toolResponse.value.name) {
        return Some(Invalid(ToolResponseName(i, j), EMPTY));
      }
    }
    return None;
  }

  /** Of the checks numbered from..to, n is the first that fails, or n is `to` and all pass. */
  ghost predicate FirstFailing(r: GenerateRequest, from: nat, to: nat, n: nat, problem: Option<Problem>) {
    && from <= n <= to
    && (forall k: nat :: from <= k < n ==> ScalarCheck(r, k).None?)
    && (n < to ==> problem.Some? && ScalarCheck(r, n) == problem)
    && (n == to ==> problem.None?)
  }

  /** request.go:172-180 */
  method ValidateSubject(r: GenerateRequest) returns (problem: Option<Problem>)
    ensures exists n: nat :: FirstFailing(r, 0, SAMPLING_CHECK, n, problem)
  {
    if Blank(r.modelName) {
      assert FirstFailing(r, 0, SAMPLING_CHECK, 0, Some(Invalid(ModelName, EMPTY)));
      return Some(Invalid(ModelName, EMPTY));
    }
    var provider := ProviderOf(r.modelName);
    if provider.Err? {
      assert FirstFailing(r, 0, SAMPLING_CHECK, 1, Some(Routing(provider.error)));
      return Some(Routing(provider.error));
    }
    if Blank(r.userMessage) && |r.messages| == 0 {
      assert FirstFailing(r, 0, SAMPLING_CHECK, 2, Some(Invalid(UserMessage, NO_MESSAGE)));
      return Some(Invalid(UserMessage, NO_MESSAGE));
    }
    assert FirstFailing(r, 0, SAMPLING_CHECK, SAMPLING_CHECK, None);
    return None;
  }

  /** request.go:181-192 */
  method ValidateSampling(r: GenerateRequest) returns (problem: Option<Problem>)
    ensures exists n: nat :: FirstFailing(r, SAMPLING_CHECK, FORMAT_CHECK, n, problem)
  {
    if r.temperature.Some? && (r.temperature.value < 0.0 || r.temperature.value > 2.0) {
      assert FirstFailing(r, SAMPLING_CHECK, FORMAT_CHECK, 3, Some(Invalid(Temperature, BAD_TEMPERATURE)));
      return Some(Invalid(Temperature, BAD_TEMPERATURE));
    }
    if r.maxOutputTokens.Some? && r.maxOutputTokens.value < 1 {
      assert FirstFailing(r, SAMPLING_CHECK, FORMAT_CHECK, 4, Some(Invalid(MaxOutputTokens, BAD_COUNT)));
      return Some(Invalid(MaxOutputTokens, BAD_COUNT));
    }
    if r.topP.Some? && (r.topP.value < 0.0 || r.topP.value > 1.0) {
      assert FirstFailing(r, SAMPLING_CHECK, FORMAT_CHECK, 5, Some(Invalid(TopP, BAD_TOP_P)));
      return Some(Invalid(TopP, BAD_TOP_P));
    }
    if r.topK.Some? && r.topK.value < 1 {
      assert FirstFailing(r, SAMPLING_CHECK, FORMAT_CHECK, 6, Some(Invalid(TopK, BAD_COUNT)));
      return Some(Invalid(TopK, BAD_COUNT));
    }
    assert FirstFailing(r, SAMPLING_CHECK, FORMAT_CHECK, FORMAT_CHECK, None);
    return None;
  }

  /** request.go:193-203 */
  method ValidateFormat(r: GenerateRequest) returns (problem: Option<Problem>)
    ensures exists n: nat :: FirstFailing(r, FORMAT_CHECK, SCALAR_CHECKS, n, problem)
  {
    if r.responseFormat != "" && r.responseFormat != "json" {
      assert FirstFailing(r, FORMAT_CHECK, SCALAR_CHECKS, 7, Some(Invalid(ResponseFormat, BAD_FORMAT)));
      return Some(Invalid(ResponseFormat, BAD_FORMAT));
    }
    if r.schemaSize > 0 && r.responseFormat != "json" {
      assert FirstFailing(r, FORMAT_CHECK, SCALAR_CHECKS, 8, Some(Invalid(OutputSchema, SCHEMA_NEEDS_JSON)));
      return Some(Invalid(OutputSchema, SCHEMA_NEEDS_JSON));
    }
    if r.toolChoice != "" && r.toolChoice != "auto" && r.toolChoice != "required" && r.toolChoice != "none" {
      assert FirstFailing(r, FORMAT_CHECK, SCALAR_CHECKS, 9, Some(Invalid(ToolChoice, BAD_CHOICE)));
      return Some(Invalid(ToolChoice, BAD_CHOICE));
    }
    assert FirstFailing(r, FORMAT_CHECK, SCALAR_CHECKS, SCALAR_CHECKS, None);
    return None;
  }

  /** request.go:204-213 */
  method ValidateTools(tools: seq<ToolDefinition>) returns (problem: Option<Problem>)
    ensures problem.None? <==> ToolsOk(tools, |tools|)
    ensures problem.Some? ==> exists i: nat :: i < |tools| && ToolsOk(tools, i) && ToolDefect(tools, i, problem.value)
  {
    var seenTools: set<string> := {};
    var i: nat := 0;
    while i < |tools|
      invariant i <= |tools| && ToolsOk(tools, i)
      invariant seenTools == set k | 0 <= k < i :: tools[k].name
    {
      var name := tools[i].name;
      if Blank(name) {
        assert !ToolOk(tools, i);
        return Some(Invalid(ToolName(i), EMPTY));
      }
      if name in seenTools {
        assert !ToolOk(tools, i);
        return Some(Invalid(ToolName(i), DUPLICATE));
      }
      seenTools := seenTools + {name};
      i := i + 1;
    }
    return None;
  }

  /** The body of the loop over messages, request.go:215-227. */
  method ValidateMessage(m: Message, i: nat) returns (problem: Option<Problem>)
    ensures problem.None? <==> MessageOk(m)
    ensures problem.Some? ==> MessageDefect(m, i, problem.value)
  {
    if m.role != "user" && m.role != "model" && m.role != "tool" {
      return Some(Invalid(MessageRole(i), ROLES));
    }
    var hasContent := !Blank(m.content);
    var hasParts := |m.parts| > 0;
    if hasContent == hasParts {
      return Some(Invalid(WholeMessage(i), ONE_OF_TWO));
    }
    var j: nat := 0;
    while j < |m.parts|
      invariant j <= |m.parts|
      invariant forall k :: 0 <= k < j ==> PartOk(m.parts[k])
    {
      problem := ValidatePart(m.parts[j], i, j);
      if problem.Some? {
        assert PartDefectAt(m, i, j, problem.value);
        return;
      }
      j := j + 1;
    }
    return None;
  }

  /**
   * request.go:171-230. Sound, complete and least: no error exactly for well-formed requests,
   * and otherwise the first problem in the order of checks, with the least index.
   */
  method Validate(r: GenerateRequest) returns (problem: Option<Problem>)
    ensures problem.None? <==> WellFormed(r)
    ensures problem.Some? ==> FirstProblem(r, problem.value)
  {
    ScalarsOkIffPass(r);
    problem := ValidateSubject(r);
    ghost var n: nat :| FirstFailing(r, 0, SAMPLING_CHECK, n, problem);
    if problem.Some? {
      assert ScalarProblem(r, n, problem.value);
      return;
    }
    problem := ValidateSampling(r);
    n :| FirstFailing(r, SAMPLING_CHECK, FORMAT_CHECK, n, problem);
    if problem.Some? {
      assert ScalarProblem(r, n, problem.value);
      return;
    }
    problem := ValidateFormat(r);
    n :| FirstFailing(r, FORMAT_CHECK, SCALAR_CHECKS, n, problem);
    if problem.Some? {
      assert ScalarProblem(r, n, problem.value);
      return;
    }
    assert ScalarsPass(r, SCALAR_CHECKS);
    problem := ValidateTools(r.tools);
    if problem.Some? {
      ghost var i: nat :| i < |r.tools| && ToolsOk(r.tools, i) && ToolDefect(r.tools, i, problem.value);
      assert ToolProblem(r, i, problem.value);
      return;
    }
    var i: nat := 0;
    while i < |r.messages|
      invariant i <= |r.messages| && MessagesOk(r.messages, i)
    {
      problem := ValidateMessage(r.messages[i], i);
      if problem.Some? {
        assert MessageProblem(r, i, problem.value);
        return;
      }
      i := i + 1;
    }
    return None;
  }
}
