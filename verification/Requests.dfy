// A chat request on its way in and out (types.go, upstream.go): which requests are
// accepted, and what the upstream is asked for.
module Requests {
  import opened Wrappers
  import opened Json
  import opened Accumulator
  import opened ToolHistory
  import opened Models

  // A declared tool; no parameters are sent as the schema of an empty object.
  datatype Tool = Tool(kind: string, name: string, parameters: string)

  const EMPTY_SCHEMA := "{\"type\":\"object\",\"properties\":{}}"

  // The tool_choice field as it decodes.
  datatype ToolChoice = Unset | Word(text: string) | NamedFunction(kind: string, name: string) | Malformed

  datatype RequestError =
    | NoMessages | NegativeLimit | BadTemperature | BadTopP
    | UnnamedFunction | DuplicateTool(name: string) | BadParameters
    | BadRole | NoCallID | InvalidToolCall
    | BadChoice | UnavailableChoice

  function ToolNames(tools: seq<Tool>): seq<string> {
    seq(|tools|, i requires 0 <= i < |tools| => tools[i].name)
  }

  // ---------- The choice of a tool ----------

  // What the field names: the default, a keyword, or a function.
  function Wanted(raw: ToolChoice): Option<string> {
    match raw
    case Unset => Some("auto")
    case Word(s) => Some(s)
    case NamedFunction(kind, name) => if kind == "function" && name != "" then Some(name) else None
    case Malformed => None
  }

  predicate Selects(s: string, names: seq<string>) {
    s == "auto" || s == "none" || (s == "required" && names != []) || s in names
  }

  method ChoiceName(raw: ToolChoice, tools: seq<Tool>) returns (choice: Result<string, RequestError>)
    ensures choice == if Wanted(raw).None? then Err(BadChoice)
                      else if Selects(Wanted(raw).value, ToolNames(tools)) then Ok(Wanted(raw).value)
                      else Err(UnavailableChoice)
  {
    if raw.Unset? { return Ok("auto"); }
    if raw.Malformed? || (raw.NamedFunction? && (raw.kind != "function" || raw.name == "")) { return Err(BadChoice); }
    var s := if raw.Word? then raw.text else raw.name;
    if s == "auto" || s == "none" { return Ok(s); }
    if s == "required" && |tools| > 0 { return Ok(s); }
    for i := 0 to |tools|
      invariant forall k | 0 <= k < i :: ToolNames(tools)[k] != s
    {
      assert tools[i].name == ToolNames(tools)[i];
      if tools[i].name == s { return Ok(s); }
    }
    return Err(UnavailableChoice);
  }

  // A policy that demands a call can be met.
  lemma DemandsCanBeMet(names: seq<string>, choice: string, parallel: Option<bool>)
    requires Selects(choice, names)
    ensures choice != "auto" && choice != "none" ==>
              exists name :: name in names && Policy(names, choice, parallel).Allows(name)
    ensures choice == "none" ==> forall name :: !Policy(names, choice, parallel).Allows(name)
  {
    if choice == "required" && names != [] { assert Policy(names, choice, parallel).Allows(names[0]); }
    if choice != "auto" && choice in names && choice != "none" {
      assert Policy(names, choice, parallel).Allows(choice);
    }
  }

  // Naming a declared function demands a call and restricts the calls to it, unless it is
  // called "auto" or "none", or is called "required" and is not the only one declared:
  // the keywords win over the name.
  lemma NamedChoiceForces(names: seq<string>, name: string, parallel: Option<bool>)
    requires name in names && name != ""
    ensures var choice := Wanted(NamedFunction("function", name)).value;
            var p := Policy(names, choice, parallel);
            (choice != "auto" && choice != "none" && forall other :: p.Allows(other) <==> other == name) <==>
            name != "auto" && name != "none" && (name == "required" ==> forall other | other in names :: other == name)
  {
    var p := Policy(names, name, parallel);
    if other :| other in names && other != name {
      assert p.Allows(other) <==> name == "auto" || name == "required";
    }
    assert name != "none" ==> p.Allows(name);
  }

  // ---------- The checks of a request ----------

  datatype Limits = Limits(maxTokens: int, maxCompletionTokens: int, temperature: Option<real>, topP: Option<real>) {
    predicate Ok() {
      && maxTokens >= 0 && maxCompletionTokens >= 0
      && (temperature.Some? ==> 0.0 <= temperature.value <= 2.0)
      && (topP.Some? ==> 0.0 <= topP.value <= 1.0)
    }
  }

  function Defaulted(t: Tool): Tool {
    if t.parameters == "" then t.(parameters := EMPTY_SCHEMA) else t
  }

  predicate ToolOk(rt: Runtime, t: Tool) {
    t.kind == "function" && t.name != "" && rt.nested(Defaulted(t).parameters).Some?
  }

  ghost predicate ToolsOk(rt: Runtime, tools: seq<Tool>) {
    && (forall i | 0 <= i < |tools| :: ToolOk(rt, tools[i]))
    && (forall i, j | 0 <= i < j < |tools| :: tools[i].name != tools[j].name)
  }

  ghost predicate MessagesOk(rt: Runtime, ms: seq<Message>) {
    forall i | 0 <= i < |ms| :: MessageOk(rt, ms[i])
  }

  class ChatRequest {
    const messages: seq<Message>
    const limits: Limits
    const toolChoice: ToolChoice
    var tools: seq<Tool>
    var choice: string

    constructor (messages: seq<Message>, tools: seq<Tool>, toolChoice: ToolChoice, limits: Limits)
      ensures this.messages == messages && this.tools == tools && this.toolChoice == toolChoice && this.limits == limits
    {
      this.messages, this.tools, this.toolChoice, this.limits := messages, tools, toolChoice, limits;
      choice := "";
    }

    // What a request must be, apart from the history.
    ghost predicate Acceptable(rt: Runtime)
      reads this
    {
      && messages != [] && limits.Ok() && ToolsOk(rt, tools) && MessagesOk(rt, messages)
      && Wanted(toolChoice).Some? && Selects(Wanted(toolChoice).value, ToolNames(tools))
    }

    // Accepts exactly the acceptable requests, completing them in place.
    method ValidateRequest(rt: Runtime) returns (error: Option<RequestError>)
      modifies this
      ensures error.None? <==> old(Acceptable(rt))
      ensures error.None? ==>
                && |tools| == |old(tools)|
                && forall i | 0 <= i < |tools| :: tools[i] == Defaulted(old(tools)[i])
      ensures error.None? ==> Some(choice) == Wanted(toolChoice) && Acceptable(rt)
    {
      if |messages| == 0 { return Some(NoMessages); }
      if limits.maxTokens < 0 || limits.maxCompletionTokens < 0 { return Some(NegativeLimit); }
      if limits.temperature.Some? && (limits.temperature.value < 0.0 || limits.temperature.value > 2.0) {
        return Some(BadTemperature);
      }
      if limits.topP.Some? && (limits.topP.value < 0.0 || limits.topP.value > 1.0) { return Some(BadTopP); }
      error := CheckTools(rt);
      if error.Some? { return; }
      error := CheckMessages(rt);
      if error.Some? { return; }
      assert ToolNames(tools) == ToolNames(old(tools));
      var chosen := ChoiceName(toolChoice, tools);
      match chosen
      case Err(e) => return Some(e);
      case Ok(s) =>
        choice := s;
        return None;
    }

    method CheckTools(rt: Runtime) returns (error: Option<RequestError>)
      modifies this`tools
      ensures |tools| == |old(tools)|
      ensures forall i | 0 <= i < |tools| :: tools[i].name == old(tools)[i].name
      ensures error.None? <==> ToolsOk(rt, old(tools))
      ensures error.None? ==> ToolsOk(rt, tools) && forall i | 0 <= i < |tools| :: tools[i] == Defaulted(old(tools)[i])
    {
      ghost var was := tools;
      for i := 0 to |tools|
        invariant |tools| == |was|
        invariant forall k | 0 <= k < i :: tools[k] == Defaulted(was[k]) && ToolOk(rt, was[k])
        invariant forall k | i <= k < |tools| :: tools[k] == was[k]
        invariant forall j, k | 0 <= j < k < i :: was[j].name != was[k].name
      {
        var t := tools[i];
        if t.kind != "function" || t.name == "" {
          assert !ToolOk(rt, was[i]);
          return Some(UnnamedFunction);
        }
        for j := 0 to i
          invariant forall k | 0 <= k < j :: was[k].name != t.name
        {
          if tools[j].name == t.name { return Some(DuplicateTool(t.name)); }
        }
        assert t == was[i];
        if |t.parameters| == 0 { tools := tools[i := t.(parameters := EMPTY_SCHEMA)]; }
        assert tools[i] == Defaulted(was[i]);
        if rt.nested(tools[i].parameters).None? {
          assert !ToolOk(rt, was[i]);
          return Some(BadParameters);
        }
      }
      assert forall k | 0 <= k < |tools| :: ToolOk(rt, tools[k]);
      return None;
    }

    method CheckMessages(rt: Runtime) returns (error: Option<RequestError>)
      ensures error.None? <==> MessagesOk(rt, messages)
    {
      for i := 0 to |messages|
        invariant forall k | 0 <= k < i :: MessageOk(rt, messages[k])
      {
        var m := messages[i];
        if m.role !in ["user", "assistant", "system", "developer", "tool"] { return Some(BadRole); }
        if m.role == "tool" && m.toolCallID == "" { return Some(NoCallID); }
        for j := 0 to |m.toolCalls|
          invariant forall k | 0 <= k < j :: CallOk(rt, m, m.toolCalls[k])
        {
          var c := m.toolCalls[j];
          if m.role != "assistant" || c.kind != "function" || c.id == "" || c.name == "" || !rt.valid(c.args) {
            assert !CallOk(rt, m, m.toolCalls[j]);
            return Some(InvalidToolCall);
          }
        }
      }
      return None;
    }
  }

  // ---------- Messages for the upstream ----------

  // One message as it is sent; nothing stands for null or an absent field.
  datatype Turn =
    Turn(role: string, content: Option<string>, calls: seq<ToolCall>, answers: Option<string>, name: Option<string>)

  method CollectNames(ms: seq<Message>) returns (names: map<string, string>)
    ensures names == Names(ms)
  {
    names := map[];
    for i := 0 to |ms|
      invariant names == Names(ms[..i])
    {
      var calls := ms[i].toolCalls;
      for k := 0 to |calls|
        invariant names == NamesOf(Names(ms[..i]), calls[..k])
      {
        assert calls[..k + 1][..k] == calls[..k];
        names := names[calls[k].id := calls[k].name];
      }
      assert calls[..|calls|] == calls;
      assert ms[..i + 1][..i] == ms[..i];
    }
    assert ms[..|ms|] == ms;
  }

  // What becomes of each message: its call IDs and content are kept, developers speak
  // as the system, and an answer is named after itself or else after its call.
  predicate Renders(item: Turn, m: Message, names: map<string, string>) {
    && item.role == (if m.role == "developer" then "system" else m.role)
    && item.content == (if m.toolCalls != [] && m.content == "" then None else Some(m.content))
    && item.calls == m.toolCalls
    && item.answers == (if m.toolCallID != "" then Some(m.toolCallID) else None)
    && item.name == (if m.toolCallID == "" then None
                     else if m.name != "" then Some(m.name)
                     else if m.toolCallID in names && names[m.toolCallID] != "" then Some(names[m.toolCallID])
                     else None)
  }

  // Callers that declare tools have them announced first.
  const ANNOUNCEMENT :=
    "Tools belong to the API caller. Request tools using native function calls, then wait for the caller's tool "
    + "result with the matching call ID. Do not execute tools yourself or claim a file or command succeeded "
    + "without a successful caller result."

  function Announced(tools: seq<Tool>): seq<Turn> {
    if tools == [] then [] else [Turn("system", Some(ANNOUNCEMENT), [], None, None)]
  }

  method RenderMessages(ms: seq<Message>, tools: seq<Tool>) returns (items: seq<Turn>)
    ensures var first := |Announced(tools)|;
            && |items| == first + |ms| && items[..first] == Announced(tools)
            && forall i | 0 <= i < |ms| :: Renders(items[first + i], ms[i], Names(ms))
  {
    items := [];
    if |tools| > 0 { items := items + [Turn("system", Some(ANNOUNCEMENT), [], None, None)]; }
    ghost var first := |items|;
    var names := CollectNames(ms);
    for i := 0 to |ms|
      invariant |items| == first + i && items[..first] == Announced(tools)
      invariant forall k | 0 <= k < i :: Renders(items[first + k], ms[k], names)
    {
      var m := ms[i];
      var role := m.role;
      if role == "developer" { role := "system"; }
      var item := Turn(role, Some(m.content), [], None, None);
      if |m.toolCalls| > 0 {
        item := item.(calls := m.toolCalls);
        if m.content == "" { item := item.(content := None); }
      }
      if m.toolCallID != "" {
        item := item.(answers := Some(m.toolCallID));
        var name := m.name;
        if name == "" && m.toolCallID in names { name := names[m.toolCallID]; }
        if name != "" { item := item.(name := Some(name)); }
      }
      items := items + [item];
    }
  }

  // In a validated request, each unnamed tool result goes out under the name of the one
  // earlier call it answers.
  lemma AnswersGoOutNamed(rt: Runtime, ms: seq<Message>, i: nat, item: Turn)
    requires MessagesOk(rt, ms) && Validate(ms).Accepted?
    requires i < |ms| && ms[i].Answers() && ms[i].name == "" && Renders(item, ms[i], Names(ms))
    ensures exists c :: c in CallsOf(ms) && c.id == ms[i].toolCallID && item.name == Some(c.name)
    ensures forall c, d | c in CallsOf(ms) && d in CallsOf(ms) && c.id == d.id :: c == d
  {
    var k := AnsweredCall(rt, ms, i);
    CallsNamed(rt, ms, k);
    CallsAreUnique(rt, ms);
    var calls := CallsOf(ms);
    assert MessageOk(rt, ms[i]);
    assert calls[k] in calls;
  }

  // The call that an answer answers, found by its ID.
  lemma AnsweredCall(rt: Runtime, ms: seq<Message>, i: nat) returns (k: nat)
    requires MessagesOk(rt, ms) && Validate(ms).Accepted? && i < |ms| && ms[i].Answers()
    ensures var id, calls := ms[i].toolCallID, CallsOf(ms);
            k < |calls| && calls[k].id == id && id in Names(ms) && Names(ms)[id] == calls[k].name
  {
    MessagesArePlain(rt, ms);
    AnswersAreNamed(ms);
    NamesAreCalls(ms);
    NamesOfDistinct(CallsOf(ms));
    assert ms[i].toolCallID in Elements(CallIDs(CallsOf(ms)));
    k :| 0 <= k < |CallsOf(ms)| && CallIDs(CallsOf(ms))[k] == ms[i].toolCallID;
  }

  lemma CallsAreUnique(rt: Runtime, ms: seq<Message>)
    requires MessagesOk(rt, ms) && Validate(ms).Accepted?
    ensures forall c, d | c in CallsOf(ms) && d in CallsOf(ms) && c.id == d.id :: c == d
  {
    MessagesArePlain(rt, ms);
    AnswersAreNamed(ms);
    var calls := CallsOf(ms);
    forall c, d | c in calls && d in calls && c.id == d.id ensures c == d {
      var a :| 0 <= a < |calls| && calls[a] == c;
      var b :| 0 <= b < |calls| && calls[b] == d;
      assert CallIDs(calls)[a] == CallIDs(calls)[b];
    }
  }

  lemma {:induction false} CallsNamed(rt: Runtime, ms: seq<Message>, k: nat)
    requires MessagesOk(rt, ms) && k < |CallsOf(ms)|
    ensures CallsOf(ms)[k].name != "" && CallsOf(ms)[k].id != ""
  {
    var init, last := ms[..|ms| - 1], ms[|ms| - 1];
    if k < |CallsOf(init)| {
      CallsNamed(rt, init, k);
    } else {
      assert MessageOk(rt, last);
      assert CallOk(rt, last, last.toolCalls[k - |CallsOf(init)|]);
    }
  }

  // ---------- The token budget ----------

  // What the caller asked for, or what a large-window route allows by default.
  function Requested(limits: Limits, route: ModelRoute): int {
    if limits.maxCompletionTokens != 0 then limits.maxCompletionTokens
    else if limits.maxTokens != 0 then limits.maxTokens
    else if route.window > 0 then route.most
    else 0
  }

  predicate Within(n: int, route: ModelRoute) {
    (route.most > 0 ==> n <= route.most) && (route.window > 0 ==> n <= route.window)
  }

  // The output limit is the largest that was asked for and that the route allows, and
  // with the prompt's share it fills the window exactly.
  method Budget(limits: Limits, route: ModelRoute) returns (maxTokens: Option<nat>, promptTokens: Option<nat>)
    requires limits.Ok()
    ensures maxTokens.Some? <==> Requested(limits, route) > 0
    ensures maxTokens.Some? ==> 0 < maxTokens.value <= Requested(limits, route) && Within(maxTokens.value, route)
    ensures maxTokens.Some? ==> forall n | n <= Requested(limits, route) && Within(n, route) :: n <= maxTokens.value
    ensures promptTokens.Some? <==> route.window > 0
    ensures promptTokens.Some? ==> promptTokens.value + (if maxTokens.Some? then maxTokens.value else 0) == route.window
  {
    var limit := limits.maxCompletionTokens;
    if limit == 0 { limit := limits.maxTokens; }
    if route.window > 0 && limit == 0 && route.most > 0 { limit := route.most; }
    maxTokens, promptTokens := None, None;
    if limit > 0 {
      if route.most > 0 && limit > route.most { limit := route.most; }
      if route.window > 0 && limit > route.window { limit := route.window; }
      maxTokens := Some(limit);
    }
    if route.window > 0 { promptTokens := Some(route.window - limit); }
  }
}
