/** The front end's service layer (hermes-interface/services/api.ts): the mock search, the
    mapping of the backend's search answer, and the prompt given to the calling agent. */
module ClientApi {
  import opened Values
  import opened Text
  import opened PromptTemplate

  /** The `BusinessResult` interface (hermes-interface/types/types.ts); `rating` and `website`
      are optional. */
  datatype BusinessResult = BusinessResult(
    name: string,
    phone: string,
    address: string,
    rating: Option<real>,
    agentReasoning: string,
    website: Option<string>)

  /** A backend result after the `||` defaults: every field is some JSON value, since the
      backend's values are not checked against the interface. */
  datatype MappedResult = MappedResult(
    name: Json,
    phone: Json,
    address: Json,
    rating: Json,
    agentReasoning: Json,
    website: Json)

  // ---------------------------------------------------------------------------
  // Mock search

  const MockSearchResults: seq<BusinessResult> := [
    BusinessResult(
      "Mario's Pizza Palace", "(555) 123-4567", "123 Main St, Downtown", Some(4.5),
      "Best rated pizza place within 2 miles, accepts delivery orders, has pepperoni available",
      Some("https://mariospizza.com")),
    BusinessResult(
      "Tony's Authentic Italian", "(555) 987-6543", "456 Oak Ave, Little Italy", Some(4.8),
      "Highest rated option, slightly further but excellent reviews for pepperoni pizza",
      Some("https://tonysitalian.com")),
    BusinessResult(
      "Slice Heaven", "(555) 456-7890", "789 Pine St, Midtown", Some(4.2),
      "Open latest, good backup option if others are busy",
      None)
  ]

  /** The query words that let every mock through. */
  predicate CatchAll(query: string) {
    var q := Lower(query);
    Contains(q, "pizza") || Contains(q, "food") || Contains(q, "delivery")
  }

  /** The filter predicate of the mock search. */
  predicate MockMatches(business: BusinessResult, query: string) {
    var q := Lower(query);
    Contains(Lower(business.name), q) || Contains(Lower(business.agentReasoning), q) || CatchAll(query)
  }

  /** `mockSearchResults.filter(...)`, in order. */
  function FilterMocks(mocks: seq<BusinessResult>, query: string): (r: seq<BusinessResult>)
    ensures |r| <= |mocks|
    ensures forall b :: b in r ==> b in mocks && MockMatches(b, query)
    ensures forall b :: b in mocks && MockMatches(b, query) ==> b in r
  {
    if mocks == [] then []
    else if MockMatches(mocks[0], query) then [mocks[0]] + FilterMocks(mocks[1..], query)
    else FilterMocks(mocks[1..], query)
  }

  lemma {:induction false} FilterIsSubsequence(mocks: seq<BusinessResult>, query: string)
    ensures IsSubsequence(FilterMocks(mocks, query), mocks)
  {
    if mocks != [] {
      FilterIsSubsequence(mocks[1..], query);
      var r := FilterMocks(mocks, query);
      if MockMatches(mocks[0], query) {
        assert r[0] == mocks[0] && r[1..] == FilterMocks(mocks[1..], query);
      }
    }
  }

  /** A catch-all word keeps every mock, in order. */
  lemma {:induction false} CatchAllKeepsAll(mocks: seq<BusinessResult>, query: string)
    requires CatchAll(query)
    ensures FilterMocks(mocks, query) == mocks
  {
    if mocks != [] {
      CatchAllKeepsAll(mocks[1..], query);
      assert mocks == [mocks[0]] + mocks[1..];
    }
  }

  /** The mock branch of `searchPlaces` over a list of mocks: the matching ones, or all of them
      when none matches. */
  function SearchMocks(mocks: seq<BusinessResult>, query: string): (r: seq<BusinessResult>)
    requires mocks != []
    ensures r != []
    ensures IsSubsequence(r, mocks)
    ensures CatchAll(query) ==> r == mocks
    ensures (forall b :: b in mocks ==> !MockMatches(b, query)) ==> r == mocks
    ensures (exists b :: b in mocks && MockMatches(b, query)) ==> r == FilterMocks(mocks, query)
  {
    var filteredResults := FilterMocks(mocks, query);
    FilterIsSubsequence(mocks, query);
    SubsequenceOfItself(mocks);
    if CatchAll(query) then
      CatchAllKeepsAll(mocks, query);
      if |filteredResults| > 0 then filteredResults else mocks
    else if |filteredResults| > 0 then
      assert filteredResults[0] in filteredResults;
      filteredResults
    else mocks
  }

  /** `searchPlaces` with `USE_MOCK_DATA` set. */
  function MockSearch(query: string): (r: seq<BusinessResult>)
    ensures r != [] && IsSubsequence(r, MockSearchResults)
    ensures forall b :: b in r ==> b in MockSearchResults
    ensures CatchAll(query) ==> r == MockSearchResults
  {
    SearchMocks(MockSearchResults, query)
  }

  // ---------------------------------------------------------------------------
  // The backend's answer

  /** `item.key` on an item that is not null. */
  function Field(item: Json, key: string): Option<Json>
    requires !item.JNull?
  {
    match JsProp(item, key)
    case Ok(v) => v
    case Err(_) => None
  }

  /** `v` is the item's `key` when that is present and truthy, and `fallback` otherwise. */
  predicate FieldOrDefault(item: Json, key: string, v: Json, fallback: Json)
    requires !item.JNull?
  {
    var f := Field(item, key);
    (f.Some? && JsTruthy(f.value) ==> v == f.value) && (!(f.Some? && JsTruthy(f.value)) ==> v == fallback)
  }

  /** The arrow function given to `data.map`. Reading a property of `null` throws; the first
      property read is `name`. */
  function MapItem(item: Json): (r: Result<MappedResult, string>)
    ensures r.Err? <==> item.JNull?
    ensures r.Err? ==> r == Err(NullPropertyError("name"))
    ensures r.Ok? ==>
      var m := r.value;
      FieldOrDefault(item, "name", m.name, JStr("")) && FieldOrDefault(item, "phone", m.phone, JStr(""))
      && FieldOrDefault(item, "address", m.address, JStr("")) && FieldOrDefault(item, "rating", m.rating, JInt(0))
      && FieldOrDefault(item, "website", m.website, JStr(""))
  {
    match JsProp(item, "name")
    case Err(e) => Err(e)
    case Ok(name) =>
      Ok(MappedResult(
        JsOr(name, JStr("")),
        JsOr(Field(item, "phone"), JStr("")),
        JsOr(Field(item, "address"), JStr("")),
        JsOr(Field(item, "rating"), JInt(0)),
        JsOr(Field(item, "reasoning"), JsOr(Field(item, "agentReasoning"), JStr(""))),
        JsOr(Field(item, "website"), JStr(""))))
  }

  /** The reasoning is `reasoning`, else `agentReasoning`, else the empty string: the first truthy one. */
  lemma ReasoningFallback(item: Json)
    requires !item.JNull?
    ensures var m := MapItem(item).value; var reasoning := Field(item, "reasoning");
      var agent := Field(item, "agentReasoning");
      (reasoning.Some? && JsTruthy(reasoning.value) ==> m.agentReasoning == reasoning.value)
      && (!(reasoning.Some? && JsTruthy(reasoning.value)) && agent.Some? && JsTruthy(agent.value)
          ==> m.agentReasoning == agent.value)
      && (!(reasoning.Some? && JsTruthy(reasoning.value)) && !(agent.Some? && JsTruthy(agent.value))
          ==> m.agentReasoning == JStr(""))
  {
  }

  /** `data.map(...)`: element by element, in order; the first item that throws ends it. */
  function MapItems(items: seq<Json>): (r: Result<seq<MappedResult>, string>)
    ensures r.Err? <==> exists i :: 0 <= i < |items| && items[i].JNull?
    ensures r.Ok? ==> |r.value| == |items| && forall i :: 0 <= i < |items| ==> Ok(r.value[i]) == MapItem(items[i])
  {
    if items == [] then Ok([])
    else
      match MapItem(items[0])
      case Err(e) => Err(e)
      case Ok(m) =>
        match MapItems(items[1..])
        case Err(e) => Err(e)
        case Ok(ms) =>
          assert forall i :: 1 <= i < |items| ==> items[i] == items[1..][i - 1];
          Ok([m] + ms)
  }

  /** The real-API branch of `searchPlaces` after the request: a non-ok status throws, a body
      that does not decode rethrows, an array is mapped and anything else gives no results. */
  function ReadSearchResponse(ok: bool, status: int, data: Result<Json, string>): (r: Result<seq<MappedResult>, string>)
    ensures !ok ==> r == Err("HTTP error! status: " + IntToString(status))
    ensures ok && data.Err? ==> r == Err(data.error)
    ensures ok && data.Ok? && !data.value.JArr? ==> r == Ok([])
    ensures ok && data.Ok? && data.value.JArr? ==> r == MapItems(data.value.items)
  {
    if !ok then Err("HTTP error! status: " + IntToString(status))
    else
      match data
      case Err(e) => Err(e)
      case Ok(v) => if v.JArr? then MapItems(v.items) else Ok([])
  }

  // ---------------------------------------------------------------------------
  // generateCallPrompt

  /** `${x}` for a rating; JavaScript's number formatting is not modelled. */
  type NumberText = real -> string

  /** A JavaScript `string | undefined` that is truthy. */
  predicate Given(s: Option<string>) { s.Some? && s.value != "" }

  function RatingLine(rating: Option<real>, numberText: NumberText): string {
    if rating.Some? && rating.value != 0.0 then RatingLead + numberText(rating.value) + RatingTail else ""
  }

  function AddressLine(userAddress: Option<string>): string {
    if Given(userAddress) then AddressLead + userAddress.value else ""
  }

  /** The opening lines, up to the business's address. */
  function ContextLines(userQuery: string, business: BusinessResult, u: string, currentDate: string): (lines: seq<string>)
    ensures |lines| == 10
    ensures lines[2] == DateLead + currentDate + "."
    ensures lines[6] == u + RequestLead + userQuery + "\""
    ensures lines[7] == BusinessLead + business.name && lines[8] == PhoneLead + business.phone
    ensures lines[9] == BusinessAddressLead + business.address
  {
    [ Persona,
      "",
      DateLead + currentDate + ".",
      "",
      YouAre + u + AssistantCalling + business.name + ContextTail,
      "",
      u + RequestLead + userQuery + "\"",
      BusinessLead + business.name,
      PhoneLead + business.phone,
      BusinessAddressLead + business.address
    ]
  }

  /** The goal and the instructions, after the two optional lines. */
  function InstructionLines(businessName: string, u: string, phone: string): (lines: seq<string>)
    ensures |lines| == 23
    ensures lines[7] == "- " + u + CallbackMiddle + phone
  {
    GoalLines(businessName, u) + ["- " + u + CallbackMiddle + phone] + RuleLines(u)
  }

  /** The goal and the instructions before the callback number. */
  function GoalLines(businessName: string, u: string): (lines: seq<string>)
    ensures |lines| == 7
  {
    [ "",
      GoalLead + u + GoalMiddle + u + GoalTail,
      "",
      InstructionsHeading,
      OnPhoneLead + businessName + OnPhoneMiddle + u + Communicate + u + OnPhoneTail,
      IntroduceLead + u + IntroduceTail,
      ExplainLead + u + ExplainTail
    ]
  }

  /** The instructions after the callback number. */
  function RuleLines(u: string): (lines: seq<string>)
    ensures |lines| == 15
  {
    [ Friendly,
      Details,
      NextSteps,
      Focused,
      Discretion,
      "",
      NameLead + u + NameMiddle + u + NameTail,
      CalendarLead + u + CalendarMiddle + u + CalendarTail,
      "",
      CalendarAdd,
      "",
      Brevity,
      NoDetours,
      "",
      OpeningLead + u + OpeningMiddle
    ]
  }

  /** The lines of the prompt; `currentDate` is the caller's date in long US form. A name or
      phone left `undefined` takes its default; an empty string does not. */
  function PromptLines(
    userQuery: string, business: BusinessResult, userName: Option<string>, userPhone: Option<string>,
    userAddress: Option<string>, currentDate: string, numberText: NumberText): (lines: seq<string>)
    ensures |lines| == 35
    ensures lines[2] == DateLead + currentDate + "."
    ensures lines[6] == userName.GetOr(DefaultName) + RequestLead + userQuery + "\""
    ensures lines[7] == BusinessLead + business.name && lines[8] == PhoneLead + business.phone
    ensures lines[9] == BusinessAddressLead + business.address
    ensures lines[10] != "" <==> business.rating.Some? && business.rating.value != 0.0
    ensures lines[10] != "" ==> lines[10] == RatingLead + numberText(business.rating.value) + RatingTail
    ensures lines[11] != "" <==> Given(userAddress)
    ensures lines[11] != "" ==> lines[11] == AddressLead + userAddress.value
    ensures lines[19] == "- " + userName.GetOr(DefaultName) + CallbackMiddle + userPhone.GetOr(DefaultPhone)
  {
    var u := userName.GetOr(DefaultName);
    ContextLines(userQuery, business, u, currentDate)
    + [RatingLine(business.rating, numberText), AddressLine(userAddress)]
    + InstructionLines(business.name, u, userPhone.GetOr(DefaultPhone))
  }

  /** The lines joined by line breaks, as the template literal writes them. */
  function JoinLines(lines: seq<string>): (r: string)
    ensures lines != [] ==> |r| == |lines| - 1 + SumLengths(lines)
  {
    if lines == [] then ""
    else if |lines| == 1 then lines[0]
    else lines[0] + "\n" + JoinLines(lines[1..])
  }

  function SumLengths(lines: seq<string>): nat {
    if lines == [] then 0 else |lines[0]| + SumLengths(lines[1..])
  }

  /** Splitting at line breaks undoes `JoinLines` when no line holds a break. */
  function SplitLines(s: string): (lines: seq<string>)
    ensures |lines| >= 1
    decreases |s|
  {
    if s == [] then [""]
    else
      var rest := SplitLines(s[1..]);
      if s[0] == '\n' then [""] + rest else [[s[0]] + rest[0]] + rest[1..]
  }

  predicate NoBreaks(lines: seq<string>) { forall i :: 0 <= i < |lines| ==> NoBreak(lines[i]) }

  lemma {:induction false} SplitPrefix(line: string, s: string, rest: seq<string>)
    requires NoBreak(line) && SplitLines(s) == rest
    ensures SplitLines(line + s) == [line + rest[0]] + rest[1..]
    decreases |line|
  {
    if line != [] {
      SplitPrefix(line[1..], s, rest);
      assert (line + s)[0] == line[0];
      assert (line + s)[1..] == line[1..] + s;
      var inner := SplitLines(line[1..] + s);
      assert inner[0] == line[1..] + rest[0] && inner[1..] == rest[1..];
      assert [line[0]] + (line[1..] + rest[0]) == line + rest[0];
    } else {
      assert line + s == s;
      assert line + rest[0] == rest[0];
      assert rest == [rest[0]] + rest[1..];
    }
  }

  lemma {:induction false} SplitJoin(lines: seq<string>)
    requires lines != [] && NoBreaks(lines)
    ensures SplitLines(JoinLines(lines)) == lines
    decreases |lines|
  {
    if |lines| == 1 {
      SplitPrefix(lines[0], "", [""]);
      assert lines[0] + "" == lines[0];
      assert lines == [lines[0]];
    } else {
      var tail := JoinLines(lines[1..]);
      SplitJoin(lines[1..]);
      assert SplitLines("\n" + tail) == [""] + lines[1..] by {
        assert ("\n" + tail)[1..] == tail;
      }
      SplitPrefix(lines[0], "\n" + tail, [""] + lines[1..]);
      assert ([""] + lines[1..])[0] == "" && ([""] + lines[1..])[1..] == lines[1..];
      assert lines[0] + "" == lines[0];
      assert lines[0] + "\n" + tail == lines[0] + ("\n" + tail);
      assert lines == [lines[0]] + lines[1..];
    }
  }

  /** No value the template inserts holds a line break. */
  predicate InputsNoBreak(
    userQuery: string, business: BusinessResult, userName: Option<string>, userPhone: Option<string>,
    userAddress: Option<string>, currentDate: string, numberText: NumberText)
  {
    NoBreak(userQuery) && NoBreak(business.name) && NoBreak(business.phone) && NoBreak(business.address)
    && (userName.Some? ==> NoBreak(userName.value)) && (userPhone.Some? ==> NoBreak(userPhone.value))
    && (userAddress.Some? ==> NoBreak(userAddress.value)) && NoBreak(currentDate)
    && (business.rating.Some? ==> NoBreak(numberText(business.rating.value)))
  }

  lemma NoBreaksAppend(a: seq<string>, b: seq<string>)
    requires NoBreaks(a) && NoBreaks(b)
    ensures NoBreaks(a + b)
  {
    assert forall i :: |a| <= i < |a + b| ==> (a + b)[i] == b[i - |a|];
  }

  /** Every line of the prompt is free of breaks when the inserted values are. */
  lemma PromptLinesNoBreaks(
    userQuery: string, business: BusinessResult, userName: Option<string>, userPhone: Option<string>,
    userAddress: Option<string>, currentDate: string, numberText: NumberText)
    requires InputsNoBreak(userQuery, business, userName, userPhone, userAddress, currentDate, numberText)
    ensures NoBreaks(PromptLines(userQuery, business, userName, userPhone, userAddress, currentDate, numberText))
  {
    var u := userName.GetOr(DefaultName);
    var phone := userPhone.GetOr(DefaultPhone);
    ContextLinesNoBreaks(userQuery, business, u, currentDate);
    var c := ContextLines(userQuery, business, u, currentDate);
    var o := [RatingLine(business.rating, numberText), AddressLine(userAddress)];
    var g := GoalLines(business.name, u);
    var k := ["- " + u + CallbackMiddle + phone];
    var rl := RuleLines(u);
    OptionalLinesNoBreak();
    ExplainLineNoBreak();
    assert NoBreaks(o);
    GoalLinesNoBreaks(business.name, u);
    RuleLinesNoBreaks(u);
    NoBreaksAppend(g, k);
    NoBreaksAppend(g + k, rl);
    NoBreaksAppend(c, o);
    NoBreaksAppend(c + o, g + k + rl);
  }

  lemma ContextLinesNoBreaks(userQuery: string, business: BusinessResult, u: string, currentDate: string)
    requires NoBreak(userQuery) && NoBreak(business.name) && NoBreak(business.phone)
    requires NoBreak(business.address) && NoBreak(u) && NoBreak(currentDate)
    ensures NoBreaks(ContextLines(userQuery, business, u, currentDate))
  {
    PersonaRoleNoBreak();
    PersonaDisguiseNoBreak();
    PersonaVoiceNoBreak();
    PersonaPaceNoBreak();
    IntroductionNoBreak();
    BusinessFieldsNoBreak();
  }

  lemma GoalLinesNoBreaks(businessName: string, u: string)
    requires NoBreak(businessName) && NoBreak(u)
    ensures NoBreaks(GoalLines(businessName, u))
  {
    GoalFrameNoBreak();
    GoalMiddleNoBreak();
    OnPhoneLineNoBreak();
    IntroduceLineNoBreak();
    ExplainLineNoBreak();
  }

  lemma RuleLinesNoBreaks(u: string)
    requires NoBreak(u)
    ensures NoBreaks(RuleLines(u))
  {
    FriendlyNoBreak();
    DetailsNoBreak();
    NextStepsNoBreak();
    FocusedNoBreak();
    DiscretionNoBreak();
    NameTailNoBreak();
    CalendarFrameNoBreak();
    CalendarMiddleNoBreak();
    CalendarToolNoBreak();
    CalendarBookingNoBreak();
    BrevityNoBreak();
    NoDetoursNoBreak();
    OpeningLeadNoBreak();
    OpeningMiddleNoBreak();
  }

  /** `generateCallPrompt`. */
  function GenerateCallPrompt(
    userQuery: string, business: BusinessResult, userName: Option<string>, userPhone: Option<string>,
    userAddress: Option<string>, currentDate: string, numberText: NumberText): (prompt: string)
    ensures var lines := PromptLines(userQuery, business, userName, userPhone, userAddress, currentDate, numberText);
      |prompt| == 34 + SumLengths(lines) && (NoBreaks(lines) ==> SplitLines(prompt) == lines)
    ensures InputsNoBreak(userQuery, business, userName, userPhone, userAddress, currentDate, numberText) ==>
      SplitLines(prompt) == PromptLines(userQuery, business, userName, userPhone, userAddress, currentDate, numberText)
  {
    var lines := PromptLines(userQuery, business, userName, userPhone, userAddress, currentDate, numberText);
    if InputsNoBreak(userQuery, business, userName, userPhone, userAddress, currentDate, numberText) then
      PromptLinesNoBreaks(userQuery, business, userName, userPhone, userAddress, currentDate, numberText);
      SplitJoin(lines);
      JoinLines(lines)
    else if NoBreaks(lines) then
      SplitJoin(lines);
      JoinLines(lines)
    else
      JoinLines(lines)
  }
}
