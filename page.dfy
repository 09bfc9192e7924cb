/** The single page of the web interface (hermes-interface/app/page.tsx): its state, the screen
    that state selects, the handlers that change it, and the call timer's text. */
module Page {
  import opened Values
  import opened Text

  /** The page's own `BusinessResult` interface. */
  datatype Business = Business(
    id: string, name: string, phone: string, address: string, rating: real,
    hours: string, category: string, agentReasoning: string)

  datatype Appointment = Appointment(date: string, time: string, confirmationNumber: string)

  /** The page's `CallResult` interface; `appointmentDetails` is optional. */
  datatype CallResult = CallResult(
    success: bool, business: Business, summary: string, details: seq<string>,
    appointmentDetails: Option<Appointment>, nextSteps: seq<string>, callDuration: string)

  /** The four screens the page renders. */
  datatype Screen = CallResultsScreen | ActiveCallScreen | ResultsScreen | Homepage

  // ---------------------------------------------------------------------------
  // Mock data

  const MockResults: seq<Business> := [
    Business("1", "Mario's Pizza Palace", "(555) 123-4567", "123 Main St, Downtown", 4.5,
      "Open until 11 PM", "Pizza",
      "Best rated pizza place within 2 miles, accepts delivery orders, has pepperoni available"),
    Business("2", "Tony's Authentic Italian", "(555) 987-6543", "456 Oak Ave, Little Italy", 4.8,
      "Open until 10 PM", "Pizza",
      "Highest rated option, slightly further but excellent reviews for pepperoni pizza"),
    Business("3", "Slice Heaven", "(555) 456-7890", "789 Pine St, Midtown", 4.2,
      "Open until 12 AM", "Pizza",
      "Open latest, good backup option if others are busy")
  ]

  const MockCallResult: CallResult := CallResult(
    true,
    MockResults[0],
    "Successfully ordered a large pepperoni pizza for delivery. Order confirmed and payment processed.",
    [ "Called Mario's Pizza Palace at 8:23 PM",
      "Spoke with Maria at the front desk",
      "Confirmed large pepperoni pizza availability",
      "Provided delivery address: 123 Your Street",
      "Payment processed: $18.99 + $3.00 delivery fee",
      "Estimated delivery time: 35-45 minutes" ],
    Some(Appointment("Today", "9:00 PM - 9:45 PM", "MP-2024-1847")),
    [ "Pizza will be delivered to your address",
      "Delivery confirmation sent to your phone",
      "Receipt emailed to your account" ],
    "3m 42s")

  // The scripted call after its first line.
  const CallScriptTail: seq<string> := [
    "Call connected",
    "Agent: Hi, I'd like to place an order for delivery",
    "Restaurant: What can I get for you?",
    "Agent: I'd like a large pepperoni pizza",
    "Restaurant: Perfect! Can I get your delivery address?",
    "Agent: Yes, it's 123 Your Street",
    "Restaurant: Great! Your total is $21.99. How would you like to pay?",
    "Agent: I'll pay with the card on file",
    "Restaurant: Perfect! Your order will be ready in 35-45 minutes",
    "Agent: Thank you! Have a great evening",
    "Call completed successfully"
  ]

  /** The transcript lines `handleExecuteCall` plays for a business. */
  function CallScript(business: Business): (lines: seq<string>)
    ensures |lines| == 12
    ensures lines[0] == "Dialing " + business.name + "..."
    ensures lines[11] == "Call completed successfully"
  {
    ["Dialing " + business.name + "..."] + CallScriptTail
  }

  // ---------------------------------------------------------------------------
  // Screen selection

  /** The screen rendered for a state: call results, then the active call, then the results,
      then the homepage, each shown only when the ones before it are not. */
  function SelectScreen(
    showCallResults: bool, callResult: Option<CallResult>, isOnCall: bool,
    currentBusiness: Option<Business>, showResults: bool): (s: Screen)
    ensures s == CallResultsScreen <==> showCallResults && callResult.Some?
    ensures s == ActiveCallScreen <==> !(showCallResults && callResult.Some?) && isOnCall && currentBusiness.Some?
    ensures s == ResultsScreen <==>
      !(showCallResults && callResult.Some?) && !(isOnCall && currentBusiness.Some?) && showResults
    ensures s == Homepage <==>
      !(showCallResults && callResult.Some?) && !(isOnCall && currentBusiness.Some?) && !showResults
  {
    if showCallResults && callResult.Some? then CallResultsScreen
    else if isOnCall && currentBusiness.Some? then ActiveCallScreen
    else if showResults then ResultsScreen
    else Homepage
  }

  // ---------------------------------------------------------------------------
  // The call timer's text

  /** JavaScript's `%` on integers: the remainder takes the sign of the dividend. */
  function JsRem(a: int, b: int): (r: int)
    requires b > 0
    ensures a >= 0 ==> r == a % b
    ensures a < 0 ==> -b < r <= 0 && r == -((-a) % b)
  {
    if a >= 0 then a % b else -((-a) % b)
  }

  /** `s.padStart(2, "0")`. */
  function PadTwo(s: string): (r: string)
    ensures |r| == if |s| >= 2 then |s| else 2
    ensures |s| < 2 ==> r[2 - |s|..] == s && forall j :: 0 <= j < 2 - |s| ==> r[j] == '0'
    ensures |s| >= 2 ==> r == s
  {
    if |s| >= 2 then s else seq(2 - |s|, _ => '0') + s
  }

  /** Text joined around a colon splits back into its two parts. */
  lemma ColonSplit(a: string, b: string)
    requires |b| == 2
    ensures var r := a + ":" + b; |r| == |a| + 3 && r[|r| - 3] == ':' && r[..|r| - 3] == a && r[|r| - 2..] == b
  {
    var r := a + ":" + b;
    assert r[..|r| - 3] == a;
    assert r[|r| - 2..] == b;
  }

  /** `m:ss` text: the minutes, a colon and two digits, each part reading back as written. */
  lemma MinSecText(m: nat, sec: nat)
    requires sec < 60
    ensures var r := NatToString(m) + ":" + PadTwo(NatToString(sec));
      |r| >= 4 && r[|r| - 3] == ':' && AllDigits(r[..|r| - 3]) && AllDigits(r[|r| - 2..])
      && ParseNat(r[..|r| - 3]) == m && ParseNat(r[|r| - 2..]) == sec
      && (|r| > 4 ==> r[0] != '0')
  {
    var a, b := NatToString(m), PadTwo(NatToString(sec));
    TwoDigitsParse(sec);
    ParseNatToString(m);
    ColonSplit(a, b);
  }

  /** `formatDuration`: whole minutes (rounded down), a colon, and the remaining seconds
      padded to two characters. */
  function FormatDuration(seconds: int): (r: string)
    ensures seconds >= 0 ==>
      |r| >= 4 && r[|r| - 3] == ':' && AllDigits(r[..|r| - 3]) && AllDigits(r[|r| - 2..])
      && ParseNat(r[..|r| - 3]) == seconds / 60 && ParseNat(r[|r| - 2..]) == seconds % 60
    ensures seconds >= 0 && |r| > 4 ==> r[0] != '0'
    ensures seconds < 0 ==> |r| >= 1 && r[0] == '-'
  {
    var mins := seconds / 60;
    var secs := JsRem(seconds, 60);
    if seconds >= 0 then
      MinSecText(mins, secs);
      IntToString(mins) + ":" + PadTwo(IntToString(secs))
    else
      IntToString(mins) + ":" + PadTwo(IntToString(secs))
  }

  /** A number below 100, padded to two characters, is two digits that read back as it. */
  lemma TwoDigitsParse(n: nat)
    requires n < 100
    ensures var p := PadTwo(NatToString(n)); |p| == 2 && AllDigits(p) && ParseNat(p) == n
  {
    var p := PadTwo(NatToString(n));
    if n < 10 {
      assert p == ['0', DigitChar(n)];
      assert p[..1] == ['0'];
      assert ParseNat(['0']) == 0 by { assert ['0'][..0] == []; }
    } else {
      ParseNatToString(n);
    }
  }

  /** Reads `m:ss` back into seconds; `None` for text of any other shape. */
  function ParseDuration(t: string): Option<nat>
  {
    if |t| >= 4 && t[|t| - 3] == ':' && AllDigits(t[..|t| - 3]) && AllDigits(t[|t| - 2..])
       && ParseNat(t[|t| - 2..]) < 60
    then Some(ParseNat(t[..|t| - 3]) * 60 + ParseNat(t[|t| - 2..]))
    else None
  }

  /** The timer's text determines the number of seconds it shows. */
  lemma DurationRoundTrip(seconds: nat)
    ensures ParseDuration(FormatDuration(seconds)) == Some(seconds)
  {
    var r := FormatDuration(seconds);
    var m, s := ParseNat(r[..|r| - 3]), ParseNat(r[|r| - 2..]);
    assert m == seconds / 60 && s == seconds % 60 < 60;
    assert m * 60 + s == seconds;
  }

  /** Distinct second counts are shown as distinct texts. */
  lemma FormatDurationInjective(s1: nat, s2: nat)
    requires FormatDuration(s1) == FormatDuration(s2)
    ensures s1 == s2
  {
    DurationRoundTrip(s1);
    DurationRoundTrip(s2);
  }

  // ---------------------------------------------------------------------------
  // The page state and its handlers

  class HermesPage {
    var query: string
    var results: seq<Business>
    var isProcessing: bool
    var showResults: bool
    var isOnCall: bool
    var callDuration: int
    var currentBusiness: Option<Business>
    var callTranscript: seq<string>
    var isMuted: bool
    var showCallResults: bool
    var callResult: Option<CallResult>

    /** The initial `useState` values: the homepage with an empty query. */
    constructor()
      ensures query == "" && results == [] && !isProcessing && !showResults && !isOnCall
      ensures callDuration == 0 && currentBusiness == None && callTranscript == []
      ensures !isMuted && !showCallResults && callResult == None
      ensures Screen() == Homepage
    {
      query := "";
      results := [];
      isProcessing := false;
      showResults := false;
      isOnCall := false;
      callDuration := 0;
      currentBusiness := None;
      callTranscript := [];
      isMuted := false;
      showCallResults := false;
      callResult := None;
    }

    function Screen(): Screen
      reads this
    {
      SelectScreen(showCallResults, callResult, isOnCall, currentBusiness, showResults)
    }

    /** `handleExecute`, its wait taken as one step: a blank query changes nothing; otherwise
        the mock results are shown. */
    method HandleExecute()
      modifies this
      ensures IsBlank(old(query)) ==> unchanged(this)
      ensures !IsBlank(old(query)) ==>
        results == MockResults && !isProcessing && showResults
        && query == old(query) && isOnCall == old(isOnCall) && callDuration == old(callDuration)
        && currentBusiness == old(currentBusiness) && callTranscript == old(callTranscript)
        && isMuted == old(isMuted) && showCallResults == old(showCallResults) && callResult == old(callResult)
      ensures !IsBlank(old(query)) && !(showCallResults && callResult.Some?) && !(isOnCall && currentBusiness.Some?)
        ==> Screen() == ResultsScreen
    {
      if IsBlank(query) {
        return;
      }
      isProcessing := true;
      showResults := false;
      results := MockResults;
      isProcessing := false;
      showResults := true;
    }

    /** `handleSuggestionClick`: the suggestion becomes the query. */
    method HandleSuggestionClick(suggestion: string)
      modifies this
      ensures query == suggestion
      ensures results == old(results) && isProcessing == old(isProcessing) && showResults == old(showResults)
      ensures isOnCall == old(isOnCall) && callDuration == old(callDuration)
      ensures currentBusiness == old(currentBusiness) && callTranscript == old(callTranscript)
      ensures isMuted == old(isMuted) && showCallResults == old(showCallResults) && callResult == old(callResult)
    {
      query := suggestion;
    }

    /** `handleExecuteCall`, its waits taken as steps: the call starts with an empty transcript,
        the scripted lines are appended one by one in order, and the call ends on the mock
        result. */
    method HandleExecuteCall(business: Business)
      modifies this
      ensures currentBusiness == Some(business) && !showResults && callDuration == 0
      ensures callTranscript == CallScript(business)
      ensures !isOnCall && showCallResults && callResult == Some(MockCallResult)
      ensures query == old(query) && results == old(results) && isProcessing == old(isProcessing)
      ensures isMuted == old(isMuted)
      ensures Screen() == CallResultsScreen
    {
      currentBusiness := Some(business);
      isOnCall := true;
      showResults := false;
      callDuration := 0;
      callTranscript := [];

      var transcript := CallScript(business);
      var i := 0;
      while i < |transcript|
        invariant 0 <= i <= |transcript|
        invariant callTranscript == transcript[..i]
        invariant currentBusiness == Some(business) && isOnCall && !showResults && callDuration == 0
        invariant showCallResults == old(showCallResults) && callResult == old(callResult)
        invariant query == old(query) && results == old(results) && isProcessing == old(isProcessing)
        invariant isMuted == old(isMuted)
      {
        assert transcript[..i + 1] == transcript[..i] + [transcript[i]];
        callTranscript := callTranscript + [transcript[i]];
        i := i + 1;
      }
      assert transcript[..i] == transcript;

      isOnCall := false;
      callResult := Some(MockCallResult);
      showCallResults := true;
    }

    /** `handleYoloMode`: a blank query changes nothing; otherwise the first mock result is
        called. */
    method HandleYoloMode()
      modifies this
      ensures IsBlank(old(query)) ==> unchanged(this)
      ensures !IsBlank(old(query)) ==>
        currentBusiness == Some(MockResults[0]) && !showResults && callDuration == 0
        && callTranscript == CallScript(MockResults[0])
        && !isOnCall && showCallResults && callResult == Some(MockCallResult)
        && query == old(query) && results == old(results) && isProcessing == old(isProcessing)
        && isMuted == old(isMuted) && Screen() == CallResultsScreen
    {
      if IsBlank(query) {
        return;
      }
      if |MockResults| > 0 {
        HandleExecuteCall(MockResults[0]);
      }
    }

    /** `handleNewTask`: back to the homepage with an empty query; the timer, the transcript
        and the mute switch keep their values. */
    method HandleNewTask()
      modifies this
      ensures !showResults && !showCallResults && !isOnCall && query == "" && results == []
      ensures callResult == None && currentBusiness == None
      ensures isProcessing == old(isProcessing) && callDuration == old(callDuration)
      ensures callTranscript == old(callTranscript) && isMuted == old(isMuted)
      ensures Screen() == Homepage
    {
      showResults := false;
      showCallResults := false;
      isOnCall := false;
      query := "";
      results := [];
      callResult := None;
      currentBusiness := None;
    }
  }
}
