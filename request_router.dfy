/** Intent classification of a free-text request (backend/research/request_router.py):
    a request that contains a phone number becomes a direct call, any other request a
    business search. The phone and name patterns are run by the `Regex` engine in the
    order the source lists them. */
module RequestRouter {
  import opened Values
  import opened Text
  import opened Regex

  datatype Request =
    | DirectCall(phoneNumber: string, contactName: Option<string>, purpose: string)
    | BusinessSearch(searchQuery: string, locationPreference: Option<string>)

  /** The dictionary `create_direct_call_business_result` builds; `None` fields are JSON nulls. */
  datatype BusinessRecord = BusinessRecord(
    name: string,
    phone: string,
    address: Option<string>,
    rating: Option<real>,
    agentReasoning: string,
    website: Option<string>)

  /** A pattern as the search runs it: one without pending group ends. */
  type Pattern = ns: seq<Node> | NoClose(ns) witness []

  // ---------------------------------------------------------------------------
  // Phone number patterns

  /** `[-.\s]` */
  const SepClass := CharClass({'-', '.'}, false, false, true)
  /** `[-.]` */
  const DotDashClass := CharClass({'-', '.'}, false, false, false)

  const ThreeDigits: Pattern := var ns := [One(DigitClass), One(DigitClass), One(DigitClass)]; assert NoClose(ns); ns
  const FourDigits: Pattern :=
    var ns := [One(DigitClass), One(DigitClass), One(DigitClass), One(DigitClass)]; assert NoClose(ns); ns
  const Area := Group(1, ThreeDigits)
  const Exchange := Group(2, ThreeDigits)
  const Line := Group(3, FourDigits)

  /** `[-.\s]?([0-9]{3})[-.\s]?([0-9]{4})` */
  const SepTail: Pattern :=
    var ns := [OptOne(SepClass), Exchange, OptOne(SepClass), Line];
    assert NoClose(ThreeDigits) && NoClose(FourDigits) && NoClose([One(SepClass)]);
    assert NoClose(ns);
    ns
  const BasicHead: Pattern :=
    var ns := [OptOne(Exactly('(')), Area, OptOne(Exactly(')'))];
    assert NoClose(ThreeDigits) && NoClose([One(Exactly('('))]) && NoClose([One(Exactly(')'))]);
    assert NoClose(ns);
    ns
  /** `\(?([0-9]{3})\)?[-.\s]?([0-9]{3})[-.\s]?([0-9]{4})` */
  const BasicFormat: Pattern := (NoCloseAppend(BasicHead, SepTail); BasicHead + SepTail)
  const SepOpt: Pattern := var ns := [OptOne(SepClass)]; assert NoClose([One(SepClass)]); assert NoClose(ns); ns
  /** `[-.\s]?` followed by the basic format. */
  const SepBasic: Pattern := (NoCloseAppend(SepOpt, BasicFormat); SepOpt + BasicFormat)
  const CountryCode: Pattern :=
    var ns := [OptOne(Exactly('+')), OptOne(Exactly('1'))];
    assert NoClose([One(Exactly('+'))]) && NoClose([One(Exactly('1'))]);
    assert NoClose(ns);
    ns
  /** `\+?1?[-.\s]?\(?([0-9]{3})\)?[-.\s]?([0-9]{3})[-.\s]?([0-9]{4})` */
  const UsFormat: Pattern := (NoCloseAppend(CountryCode, SepBasic); CountryCode + SepBasic)
  /** `[-.]?([0-9]{3})[-.]?([0-9]{4})` */
  const DotDashTail: Pattern :=
    var ns := [OptOne(DotDashClass), Exchange, OptOne(DotDashClass), Line];
    assert NoClose(ThreeDigits) && NoClose(FourDigits) && NoClose([One(DotDashClass)]);
    assert NoClose(ns);
    ns
  const AreaOnly: Pattern := var ns := [Area]; assert NoClose(ThreeDigits); assert NoClose(ns); ns
  /** `([0-9]{3})[-.]?([0-9]{3})[-.]?([0-9]{4})` */
  const NoSpaces: Pattern := (NoCloseAppend(AreaOnly, DotDashTail); AreaOnly + DotDashTail)

  const PhonePatterns: seq<Pattern> := [UsFormat, BasicFormat, NoSpaces]

  // ---------------------------------------------------------------------------
  // Contact name patterns (run on the lower-cased request)

  const SpaceRun: Pattern := var ns := Plus(SpaceClass); assert NoClose(ns); ns
  const WordRun: Pattern := var ns := Plus(WordClass); assert NoClose(ns); ns
  const CallPrefix: Pattern := (NoCloseLiteral("call"); NoCloseAppend(Literal("call"), SpaceRun); Literal("call") + SpaceRun)
  const MyWords: Pattern := (NoCloseLiteral("my"); NoCloseAppend(Literal("my"), SpaceRun); Literal("my") + SpaceRun)
  const FriendWords: Pattern := (
    NoCloseLiteral("friend"); NoCloseAppend(Literal("friend"), SpaceRun); Literal("friend") + SpaceRun)
  /** `(?:my\s+)?(friend\s+)?(\w+)`, the group around "friend" being group 1. */
  const FriendTail: Pattern :=
    var ns := [Opt(MyWords), Opt([Group(1, FriendWords)]), Group(2, WordRun)];
    assert NoClose(MyWords) && NoClose(FriendWords) && NoClose(WordRun);
    assert NoClose([Group(1, FriendWords)]);
    assert NoClose(ns);
    ns
  /** `call\s+(?:my\s+)?(friend\s+)?(\w+)` */
  const CallFriendPattern: Pattern := (NoCloseAppend(CallPrefix, FriendTail); CallPrefix + FriendTail)
  /** `[\d\-\(\)\s]` */
  const DialClass := CharClass({'-', '(', ')'}, true, false, true)
  const NameGroup: Pattern := var ns := [Group(1, WordRun)]; assert NoClose(WordRun); assert NoClose(ns); ns
  /** `\s+at\s+[\d\-\(\)\s]+` */
  const AtWord: Pattern := (NoCloseLiteral("at"); Literal("at"))
  const DialRun: Pattern := var ns := Plus(DialClass); assert NoClose(ns); ns
  const AtTail: Pattern := (
    NoCloseAppend(SpaceRun, AtWord);
    NoCloseAppend(SpaceRun + AtWord, SpaceRun);
    NoCloseAppend(SpaceRun + AtWord + SpaceRun, DialRun);
    SpaceRun + AtWord + SpaceRun + DialRun)
  /** `(\w+)\s+at\s+[\d\-\(\)\s]+` */
  const NameAtPattern: Pattern := (NoCloseAppend(NameGroup, AtTail); NameGroup + AtTail)
  /** `call\s+(\w+)` */
  const CallNamePattern: Pattern := (NoCloseAppend(CallPrefix, NameGroup); CallPrefix + NameGroup)

  const NamePatterns: seq<Pattern> := [CallFriendPattern, NameAtPattern, CallNamePattern]

  const Stopwords: seq<string> := ["my", "the", "a", "an", "friend"]

  /** What Python raises for `None.title()`. */
  const NoneTitleError := "AttributeError: 'NoneType' object has no attribute 'title'"

  lemma NoCloseAppend(a: seq<Node>, b: seq<Node>)
    requires NoClose(a) && NoClose(b)
    ensures NoClose(a + b)
  {
  }

  lemma NoCloseLiteral(w: string)
    ensures NoClose(Literal(w))
  {
  }

  // ---------------------------------------------------------------------------
  // extract_phone_number

  /** `(ddd) ddd-dddd` */
  predicate IsPhoneShape(s: string) {
    |s| == 14 && s[0] == '(' && s[4] == ')' && s[5] == ' ' && s[9] == '-'
    && AllDigits(s[1..4]) && AllDigits(s[6..9]) && AllDigits(s[10..])
  }

  /** `f"({digits[:3]}) {digits[3:6]}-{digits[6:]}"` */
  function FormatTen(d: string): string
    requires |d| >= 6
  {
    "(" + d[..3] + ") " + d[3..6] + "-" + d[6..]
  }

  /** `f"({digits[1:4]}) {digits[4:7]}-{digits[7:]}"` */
  function FormatEleven(d: string): string
    requires |d| >= 7
  {
    "(" + d[1..4] + ") " + d[4..7] + "-" + d[7..]
  }

  /** The loop of `extract_phone_number`: the first pattern whose leftmost match holds ten
      digits, or eleven starting with 1, decides; a match with any other digit count passes
      on to the next pattern. */
  function ExtractWith(patterns: seq<Pattern>, t: string): (r: Option<string>)
    ensures r.Some? ==> IsPhoneShape(r.value)
  {
    if patterns == [] then None
    else
      match Search(patterns[0], t)
      case Some(f) =>
        var digits := DigitsOf(t[f.start..f.end]);
        if |digits| == 10 then
          FormatTenShape(digits);
          Some(FormatTen(digits))
        else if |digits| == 11 && digits[0] == '1' then
          FormatElevenDropsLeadingOne(digits);
          FormatTenShape(digits[1..]);
          Some(FormatEleven(digits))
        else ExtractWith(patterns[1..], t)
      case None => ExtractWith(patterns[1..], t)
  }

  function ExtractPhoneNumber(text: string): (r: Option<string>)
    ensures r.Some? ==> IsPhoneShape(r.value)
  {
    ExtractWith(PhonePatterns, text)
  }

  /** The eleven-digit branch formats the last ten digits as the ten-digit branch does. */
  lemma FormatElevenDropsLeadingOne(d: string)
    requires |d| == 11
    ensures FormatEleven(d) == FormatTen(d[1..])
  {
    assert d[1..][..3] == d[1..4] && d[1..][3..6] == d[4..7] && d[1..][6..] == d[7..];
  }

  lemma FormatTenShape(d: string)
    requires |d| == 10 && AllDigits(d)
    ensures IsPhoneShape(FormatTen(d))
  {
    var s := FormatTen(d);
    assert s[1..4] == d[..3] && s[6..9] == d[3..6] && s[10..] == d[6..];
  }

  /** Digits survive between separators that hold none. */
  lemma {:induction false} DigitsBetween(a: string, x: string, b: string, y: string, c: string, z: string)
    requires DigitsOf(a) == [] && DigitsOf(b) == [] && DigitsOf(c) == []
    ensures DigitsOf(a + x + b + y + c + z) == DigitsOf(x) + DigitsOf(y) + DigitsOf(z)
  {
    DigitsOfAppend(a, x);
    DigitsOfAppend(a + x, b);
    DigitsOfAppend(a + x + b, y);
    DigitsOfAppend(a + x + b + y, c);
    DigitsOfAppend(a + x + b + y + c, z);
  }

  lemma FormatTenKeepsDigits(d: string)
    requires |d| == 10 && AllDigits(d)
    ensures DigitsOf(FormatTen(d)) == d
  {
    var x, y, z := d[..3], d[3..6], d[6..];
    DigitsOfDigits(x);
    DigitsOfDigits(y);
    DigitsOfDigits(z);
    assert DigitsOf("(") == [] && DigitsOf(") ") == [] && DigitsOf("-") == [];
    DigitsBetween("(", x, ") ", y, "-", z);
    assert x + y + z == d;
  }

  // Counting the digits a pattern produces

  /** A pattern whose productions all hold the same number of digits: every class is
      either `[0-9]` or holds no digit, and optional parts hold no digit. */
  ghost predicate Countable(ns: seq<Node>)
    decreases ns
  {
    forall j :: 0 <= j < |ns| ==> NodeCountable(ns[j])
  }

  ghost predicate NodeCountable(n: Node)
    decreases n
  {
    match n
    case One(k) => k == DigitClass || DigitFree(k)
    case Star(_) => false
    case Opt(body) => Countable(body) && DigitsIn(body) == 0
    case Group(_, body) => Countable(body)
    case Close(_, _) => true
  }

  /** The number of `[0-9]` positions outside optional parts. */
  ghost function DigitsIn(ns: seq<Node>): nat
    decreases ns
  {
    if ns == [] then 0
    else
      (match ns[0]
       case One(k) => if k == DigitClass then 1 else 0
       case Group(_, body) => DigitsIn(body)
       case _ => 0) + DigitsIn(ns[1..])
  }

  lemma {:induction false} DigitsInAppend(a: seq<Node>, b: seq<Node>)
    ensures DigitsIn(a + b) == DigitsIn(a) + DigitsIn(b)
  {
    if a == [] {
      assert a + b == b;
    } else {
      assert (a + b)[0] == a[0] && (a + b)[1..] == a[1..] + b;
      DigitsInAppend(a[1..], b);
    }
  }

  lemma CountableAppend(a: seq<Node>, b: seq<Node>)
    requires Countable(a) && Countable(b)
    ensures Countable(a + b)
  {
  }

  /** Every production of a countable pattern holds exactly `DigitsIn` digits. */
  lemma {:induction false} GenDigits(ns: seq<Node>, t: string, p: nat, caps: Captures, e: nat, out: Captures)
    requires Countable(ns) && Gen(ns, t, p, caps, e, out)
    ensures p <= e <= |t| && |DigitsOf(t[p..e])| == DigitsIn(ns)
    decreases |t| - p, Size(ns)
  {
    GenBounds(ns, t, p, caps, e, out);
    if ns != [] {
      var rest := ns[1..];
      assert NodeCountable(ns[0]);
      assert Countable(rest);
      match ns[0]
      case One(k) =>
        GenDigits(rest, t, p + 1, caps, e, out);
        assert t[p..e][0] == t[p] && t[p..e][1..] == t[p + 1..e];
        if k != DigitClass {
          assert !IsDigit(t[p]);
        }
      case Opt(body) =>
        SizeAppend(body, rest);
        DigitsInAppend(body, rest);
        CountableAppend(body, rest);
        if Gen(body + rest, t, p, caps, e, out) {
          GenDigits(body + rest, t, p, caps, e, out);
        } else {
          GenDigits(rest, t, p, caps, e, out);
        }
      case Group(i, body) =>
        SizeAppend(body, [Close(i, p)] + rest);
        DigitsInAppend(body, [Close(i, p)] + rest);
        DigitsInAppend([Close(i, p)], rest);
        assert Countable([Close(i, p)] + rest);
        CountableAppend(body, [Close(i, p)] + rest);
        GenDigits(body + ([Close(i, p)] + rest), t, p, caps, e, out);
      case Close(i, s) =>
        GenDigits(rest, t, p, caps[i := Span(s, p)], e, out);
    }
  }

  /** An optional part adds no digits to the count. */
  lemma DigitsInOpt(body: seq<Node>)
    ensures DigitsIn([Opt(body)]) == 0
  {
    assert [Opt(body)][1..] == [];
  }

  lemma DigitRunCounts()
    ensures Countable(ThreeDigits) && DigitsIn(ThreeDigits) == 3
    ensures Countable(FourDigits) && DigitsIn(FourDigits) == 4
  {
    var d := One(DigitClass);
    assert ThreeDigits == [d, d, d] && FourDigits == [d, d, d, d];
    assert [d, d, d, d][1..] == [d, d, d] && [d, d, d][1..] == [d, d] && [d, d][1..] == [d] && [d][1..] == [];
    assert DigitsIn([d]) == 1;
    assert DigitsIn([d, d]) == 2;
    assert DigitsIn([d, d, d]) == 3;
    assert DigitsIn([d, d, d, d]) == 4;
  }

  lemma GroupCounts(i: nat, body: seq<Node>)
    requires Countable(body)
    ensures Countable([Group(i, body)]) && DigitsIn([Group(i, body)]) == DigitsIn(body)
  {
    assert [Group(i, body)][1..] == [];
  }

  /** `[-.\s]?([0-9]{3})[-.\s]?([0-9]{4})` always produces seven digits. */
  lemma SepTailCounts()
    ensures Countable(SepTail) && DigitsIn(SepTail) == 7
  {
    DigitRunCounts();
    DigitsInOpt([One(SepClass)]);
    GroupCounts(2, ThreeDigits);
    GroupCounts(3, FourDigits);
    assert SepTail == [OptOne(SepClass)] + ([Exchange] + ([OptOne(SepClass)] + [Line]));
    DigitsInAppend([OptOne(SepClass)], [Line]);
    DigitsInAppend([Exchange], [OptOne(SepClass)] + [Line]);
    DigitsInAppend([OptOne(SepClass)], [Exchange] + ([OptOne(SepClass)] + [Line]));
  }

  /** `\(?([0-9]{3})\)?` always produces three digits. */
  lemma BasicHeadCounts()
    ensures Countable(BasicHead) && DigitsIn(BasicHead) == 3
  {
    DigitRunCounts();
    DigitsInOpt([One(Exactly('('))]);
    DigitsInOpt([One(Exactly(')'))]);
    GroupCounts(1, ThreeDigits);
    assert BasicHead == [OptOne(Exactly('('))] + ([Area] + [OptOne(Exactly(')'))]);
    DigitsInAppend([Area], [OptOne(Exactly(')'))]);
    DigitsInAppend([OptOne(Exactly('('))], [Area] + [OptOne(Exactly(')'))]);
  }

  lemma SepBasicCounts()
    ensures Countable(SepBasic) && DigitsIn(SepBasic) == 10
  {
    SepTailCounts();
    BasicHeadCounts();
    DigitsInAppend(BasicHead, SepTail);
    CountableAppend(BasicHead, SepTail);
    DigitsInOpt([One(SepClass)]);
    DigitsInAppend(SepOpt, BasicFormat);
    CountableAppend(SepOpt, BasicFormat);
  }

  /** `\+?1?` produces no digit or the single digit 1. */
  lemma CountryCodeDigits(t: string, p: nat, caps: Captures, e: nat, out: Captures)
    requires Gen(CountryCode, t, p, caps, e, out)
    ensures p <= e <= |t|
    ensures DigitsOf(t[p..e]) == [] || DigitsOf(t[p..e]) == ['1']
  {
    var plus, one := OptOne(Exactly('+')), OptOne(Exactly('1'));
    assert CountryCode == [plus] + [one];
    var q1, c1 := GenSplit([plus], [one], t, p, caps, e, out);
    GenBounds([plus], t, p, caps, q1, c1);
    GenBounds([one], t, q1, c1, e, out);
    GenOpt([One(Exactly('+'))], t, p, caps, q1, c1);
    GenOne(Exactly('+'), t, p, caps, q1, c1);
    GenOpt([One(Exactly('1'))], t, q1, c1, e, out);
    GenOne(Exactly('1'), t, q1, c1, e, out);
    assert t[p..e] == t[p..q1] + t[q1..e];
    DigitsOfAppend(t[p..q1], t[q1..e]);
    assert DigitsOf(t[p..q1]) == [];
  }

  /** Whatever the first phone pattern matches holds ten digits, or eleven starting with 1. */
  lemma UsFormatDigits(t: string, p: nat, caps: Captures, e: nat, out: Captures)
    requires Gen(UsFormat, t, p, caps, e, out)
    ensures p <= e <= |t|
    ensures var d := DigitsOf(t[p..e]); |d| == 10 || (|d| == 11 && d[0] == '1')
  {
    var q, c := GenSplit(CountryCode, SepBasic, t, p, caps, e, out);
    CountryCodeDigits(t, p, caps, q, c);
    SepBasicCounts();
    GenDigits(SepBasic, t, q, c, e, out);
    assert t[p..e] == t[p..q] + t[q..e];
    DigitsOfAppend(t[p..q], t[q..e]);
  }

  /** The basic format is the first pattern with its first three optional parts skipped. */
  lemma BasicFormatWithinUsFormat(t: string, p: nat, caps: Captures, e: nat, out: Captures)
    requires Gen(BasicFormat, t, p, caps, e, out)
    ensures Gen(UsFormat, t, p, caps, e, out)
  {
    OptSkip([One(SepClass)], BasicFormat, t, p, caps, e, out);
    OptSkip([One(Exactly('1'))], SepBasic, t, p, caps, e, out);
    OptSkip([One(Exactly('+'))], [OptOne(Exactly('1'))] + SepBasic, t, p, caps, e, out);
    assert UsFormat == [OptOne(Exactly('+'))] + ([OptOne(Exactly('1'))] + SepBasic);
  }

  /** Every production of the third pattern is one of the basic format, with the same groups. */
  lemma NoSpacesWithinBasicFormat(t: string, p: nat, caps: Captures, e: nat, out: Captures)
    requires Gen(NoSpaces, t, p, caps, e, out)
    ensures Gen(BasicFormat, t, p, caps, e, out)
  {
    var q1, c1 := GenSplit([Area], DotDashTail, t, p, caps, e, out);
    // [-.]? widens to [-.\s]?, twice
    assert DotDashTail == [OptOne(DotDashClass)] + ([Exchange] + ([OptOne(DotDashClass)] + [Line]));
    var q2, c2 := GenSplit([OptOne(DotDashClass)], [Exchange] + ([OptOne(DotDashClass)] + [Line]), t, q1, c1, e, out);
    var q3, c3 := GenSplit([Exchange], [OptOne(DotDashClass)] + [Line], t, q2, c2, e, out);
    var q4, c4 := GenSplit([OptOne(DotDashClass)], [Line], t, q3, c3, e, out);
    OptOneWiden(DotDashClass, SepClass, t, q1, c1, q2, c2);
    OptOneWiden(DotDashClass, SepClass, t, q3, c3, q4, c4);
    GenJoin([OptOne(SepClass)], [Line], t, q3, c3, q4, c4, e, out);
    GenJoin([Exchange], [OptOne(SepClass)] + [Line], t, q2, c2, q3, c3, e, out);
    GenJoin([OptOne(SepClass)], [Exchange] + ([OptOne(SepClass)] + [Line]), t, q1, c1, q2, c2, e, out);
    assert SepTail == [OptOne(SepClass)] + ([Exchange] + ([OptOne(SepClass)] + [Line]));
    // `\)?` skipped after the area code, `\(?` skipped before it
    OptSkip([One(Exactly(')'))], SepTail, t, q1, c1, e, out);
    GenJoin([Area], [OptOne(Exactly(')'))] + SepTail, t, p, caps, q1, c1, e, out);
    OptSkip([One(Exactly('('))], [Area] + ([OptOne(Exactly(')'))] + SepTail), t, p, caps, e, out);
    assert BasicFormat == [OptOne(Exactly('('))] + ([Area] + ([OptOne(Exactly(')'))] + SepTail));
  }

  lemma BasicFormatSubsumed(t: string)
    ensures Search(BasicFormat, t).Some? ==> Search(UsFormat, t).Some?
  {
    assert NoClose(PhonePatterns[0]) && NoClose(PhonePatterns[1]);
    SearchSound(BasicFormat, t);
    if Search(BasicFormat, t).Some? {
      var f := Search(BasicFormat, t).value;
      BasicFormatWithinUsFormat(t, f.start, map[], f.end, f.groups);
      SearchComplete(UsFormat, t, f.start, f.end, f.groups);
    }
  }

  lemma NoSpacesSubsumed(t: string)
    ensures Search(NoSpaces, t).Some? ==> Search(BasicFormat, t).Some?
  {
    assert NoClose(PhonePatterns[1]) && NoClose(PhonePatterns[2]);
    SearchSound(NoSpaces, t);
    if Search(NoSpaces, t).Some? {
      var f := Search(NoSpaces, t).value;
      NoSpacesWithinBasicFormat(t, f.start, map[], f.end, f.groups);
      SearchComplete(BasicFormat, t, f.start, f.end, f.groups);
    }
  }

  /** The first phone pattern alone decides the result: its leftmost match always returns,
      as the ten digits it holds, or as the last ten of eleven digits that start with 1. */
  lemma ExtractPhoneByFirstPattern(t: string)
    ensures Search(UsFormat, t).None? ==> ExtractPhoneNumber(t).None?
    ensures Search(UsFormat, t).Some? ==>
      var f := Search(UsFormat, t).value;
      var d := DigitsOf(t[f.start..f.end]);
      (|d| == 10 && ExtractPhoneNumber(t) == Some(FormatTen(d)))
      || (|d| == 11 && d[0] == '1' && ExtractPhoneNumber(t) == Some(FormatTen(d[1..])))
  {
    assert PhonePatterns[0] == UsFormat && PhonePatterns[1..] == [BasicFormat, NoSpaces];
    assert [BasicFormat, NoSpaces][1..] == [NoSpaces] && [NoSpaces][1..] == [];
    SearchSound(UsFormat, t);
    match Search(UsFormat, t)
    case Some(f) =>
      UsFormatDigits(t, f.start, map[], f.end, f.groups);
      var d := DigitsOf(t[f.start..f.end]);
      if |d| == 11 {
        FormatElevenDropsLeadingOne(d);
      }
    case None =>
      BasicFormatSubsumed(t);
      NoSpacesSubsumed(t);
      assert ExtractWith([NoSpaces], t) == ExtractWith([], t);
      assert ExtractWith([BasicFormat, NoSpaces], t) == ExtractWith([NoSpaces], t);
  }

  /** No phone number is reported exactly when none of the three patterns matches anywhere. */
  lemma ExtractPhoneNoneIff(t: string)
    ensures ExtractPhoneNumber(t).None? <==>
      Search(UsFormat, t).None? && Search(BasicFormat, t).None? && Search(NoSpaces, t).None?
  {
    ExtractPhoneByFirstPattern(t);
    BasicFormatSubsumed(t);
    NoSpacesSubsumed(t);
  }

  /** The reported number carries the matched digits: all ten, or the ten after a leading 1. */
  lemma ExtractPhoneKeepsDigits(t: string)
    ensures ExtractPhoneNumber(t).Some? ==>
      Search(UsFormat, t).Some? &&
      var f := Search(UsFormat, t).value;
      var d := DigitsOf(t[f.start..f.end]);
      DigitsOf(ExtractPhoneNumber(t).value) == (if |d| == 11 then d[1..] else d)
  {
    ExtractPhoneByFirstPattern(t);
    if ExtractPhoneNumber(t).Some? {
      var f := Search(UsFormat, t).value;
      var d := DigitsOf(t[f.start..f.end]);
      FormatTenKeepsDigits(if |d| == 11 then d[1..] else d);
    }
  }

  // ---------------------------------------------------------------------------
  // Contact name extraction

  /** A name pattern the loop moves past: it does not match, or its group 1 is a stopword. */
  predicate PassesOver(p: Pattern, lowered: string) {
    var s := Search(p, lowered);
    s.None? || (1 in s.value.groups && Captured(lowered, s.value, 1) in Stopwords)
  }

  /** The name loop of `classify_request` over the lower-cased request: the first pattern
      that matches and whose group 1 is not a stopword gives the title-cased name; a group 1
      that did not take part is `None`, passes the stopword test, and `None.title()` raises. */
  function FindContactName(patterns: seq<Pattern>, lowered: string): (r: Result<Option<string>, string>)
    ensures r.Err? ==> r.error == NoneTitleError
    ensures r == Ok(None) <==> forall j :: 0 <= j < |patterns| ==> PassesOver(patterns[j], lowered)
  {
    if patterns == [] then Ok(None)
    else
      assert forall j :: 1 <= j < |patterns| ==> patterns[1..][j - 1] == patterns[j];
      match Search(patterns[0], lowered)
      case None => FindContactName(patterns[1..], lowered)
      case Some(f) =>
        if 1 !in f.groups then Err(NoneTitleError)
        else
          var name := Captured(lowered, f, 1);
          if name in Stopwords then FindContactName(patterns[1..], lowered)
          else Ok(Some(Title(name)))
  }

  function ClassifyRequest(userInput: string): (r: Result<Request, string>)
    ensures ExtractPhoneNumber(userInput).None? <==> r == Ok(BusinessSearch(userInput, None))
    ensures r.Ok? && r.value.DirectCall? ==>
      ExtractPhoneNumber(userInput) == Some(r.value.phoneNumber) && r.value.purpose == userInput
      && FindContactName(NamePatterns, Lower(userInput)) == Ok(r.value.contactName)
    ensures r.Err? <==>
      ExtractPhoneNumber(userInput).Some? && FindContactName(NamePatterns, Lower(userInput)).Err?
    ensures r.Err? ==> r.error == NoneTitleError
    ensures ExtractPhoneNumber(userInput).Some? && FindContactName(NamePatterns, Lower(userInput)).Ok? ==>
      r == Ok(DirectCall(ExtractPhoneNumber(userInput).value, FindContactName(NamePatterns, Lower(userInput)).value,
                         userInput))
  {
    var phoneNumber := ExtractPhoneNumber(userInput);
    if phoneNumber.Some? && phoneNumber.value != "" then
      match FindContactName(NamePatterns, Lower(userInput))
      case Err(e) => Err(e)
      case Ok(contactName) => Ok(DirectCall(phoneNumber.value, contactName, userInput))
    else
      Ok(BusinessSearch(userInput, None))
  }

  lemma TitleStartsUpper(w: string)
    requires w != []
    ensures !IsAsciiLower(Title(w)[0])
  {
  }

  /** The first pattern the loop does not move past decides: the title case of its group 1,
      or the `None.title()` error when that group did not take part. */
  lemma {:induction false} FirstNamePatternDecides(patterns: seq<Pattern>, lowered: string, i: nat)
    requires i < |patterns| && !PassesOver(patterns[i], lowered)
    requires forall j :: 0 <= j < i ==> PassesOver(patterns[j], lowered)
    ensures var f := Search(patterns[i], lowered).value;
      FindContactName(patterns, lowered)
        == if 1 in f.groups then Ok(Some(Title(Captured(lowered, f, 1)))) else Err(NoneTitleError)
  {
    if i > 0 {
      assert PassesOver(patterns[0], lowered);
      assert FindContactName(patterns, lowered) == FindContactName(patterns[1..], lowered);
      forall j | 0 <= j < i - 1
        ensures PassesOver(patterns[1..][j], lowered)
      {
        assert patterns[1..][j] == patterns[j + 1];
      }
      assert patterns[1..][i - 1] == patterns[i];
      FirstNamePatternDecides(patterns[1..], lowered, i - 1);
    }
  }

  /** A name found by the loop is the title-cased group 1 of the first pattern whose match
      captured a group 1 outside the stopwords; every earlier pattern did not match or captured
      a stopword. */
  lemma {:induction false} ContactNameSource(patterns: seq<Pattern>, lowered: string) returns (i: nat, f: Found)
    requires FindContactName(patterns, lowered).Ok? && FindContactName(patterns, lowered).value.Some?
    ensures i < |patterns| && Search(patterns[i], lowered) == Some(f) && 1 in f.groups
    ensures Captured(lowered, f, 1) !in Stopwords
    ensures FindContactName(patterns, lowered).value.value == Title(Captured(lowered, f, 1))
    ensures forall j :: 0 <= j < i ==> PassesOver(patterns[j], lowered)
  {
    assert patterns != [];
    var s := Search(patterns[0], lowered);
    assert s.Some? ==> 1 in s.value.groups;
    if s.Some? && Captured(lowered, s.value, 1) !in Stopwords {
      i, f := 0, s.value;
    } else {
      assert PassesOver(patterns[0], lowered);
      assert FindContactName(patterns, lowered) == FindContactName(patterns[1..], lowered);
      var k;
      k, f := ContactNameSource(patterns[1..], lowered);
      i := k + 1;
      assert patterns[i] == patterns[1..][k];
      forall j | 1 <= j < i
        ensures PassesOver(patterns[j], lowered)
      {
        assert patterns[j] == patterns[1..][j - 1];
      }
    }
  }

  /** `word\s+` produces the word followed by white space, and captures nothing. */
  lemma WordThenSpace(w: string, t: string, p: nat, caps: Captures, e: nat, out: Captures)
    requires Gen(Literal(w) + SpaceRun, t, p, caps, e, out)
    ensures p + |w| < e <= |t| && t[p..p + |w|] == w && out == caps
    ensures forall j :: p + |w| <= j < e ==> IsPySpace(t[j])
  {
    var q, c := GenSplit(Literal(w), SpaceRun, t, p, caps, e, out);
    GenLiteral(w, t, p, caps, q, c);
    GenPlus(SpaceClass, t, q, c, e, out);
  }

  /** `(?:my\s+)?` captures nothing. */
  lemma MyOption(t: string, q0: nat, q1: nat, c1: Captures)
    requires Gen([Opt(MyWords)], t, q0, map[], q1, c1)
    ensures c1 == map[]
  {
    GenOpt(MyWords, t, q0, map[], q1, c1);
    if Gen(MyWords, t, q0, map[], q1, c1) {
      WordThenSpace("my", t, q0, map[], q1, c1);
    }
  }

  /** The optional groups of `(?:my\s+)?(friend\s+)?` record group 1 exactly when "friend"
      and white space were taken. */
  lemma FriendOptions(t: string, q0: nat, e: nat, out: Captures)
    returns (q2: nat, c2: Captures, s: nat)
    requires Gen(FriendTail, t, q0, map[], e, out)
    ensures Gen([Group(2, WordRun)], t, q2, c2, e, out)
    ensures c2 == map[] || (c2 == map[1 := Span(s, q2)] && s + 6 < q2 <= |t|
      && t[s..s + 6] == "friend" && forall j :: s + 6 <= j < q2 ==> IsPySpace(t[j]))
  {
    s := q0;
    assert FriendTail == [Opt(MyWords)] + ([Opt([Group(1, FriendWords)])] + [Group(2, WordRun)]);
    var q1, c1 := GenSplit([Opt(MyWords)], [Opt([Group(1, FriendWords)])] + [Group(2, WordRun)], t, q0, map[], e, out);
    MyOption(t, q0, q1, c1);
    q2, c2 := GenSplit([Opt([Group(1, FriendWords)])], [Group(2, WordRun)], t, q1, c1, e, out);
    GenOpt([Group(1, FriendWords)], t, q1, c1, q2, c2);
    if Gen([Group(1, FriendWords)], t, q1, c1, q2, c2) {
      var mid := GroupSplit(1, FriendWords, t, q1, c1, q2, c2);
      WordThenSpace("friend", t, q1, c1, q2, mid);
      s := q1;
      assert c2 == map[1 := Span(q1, q2)];
    }
  }

  /** Group 1 of the first name pattern, when it takes part, is "friend" and white space. */
  lemma CallFriendGroup(t: string, p: nat, e: nat, out: Captures)
    requires Gen(CallFriendPattern, t, p, map[], e, out)
    ensures 1 in out ==>
      var g := out[1];
      g.start + 6 < g.end <= |t| && t[g.start..g.start + 6] == "friend"
      && forall j :: g.start + 6 <= j < g.end ==> IsPySpace(t[j])
  {
    var q0, c0 := GenSplit(CallPrefix, FriendTail, t, p, map[], e, out);
    WordThenSpace("call", t, p, map[], q0, c0);
    var q2, c2, s := FriendOptions(t, q0, e, out);
    var mid2 := GroupSplit(2, WordRun, t, q2, c2, e, out);
    GenPlus(WordClass, t, q2, c2, e, mid2);
    assert out == c2[2 := Span(q2, e)];
    assert 1 in out ==> out[1] == Span(s, q2);
  }

  /** `"friend" + ws` title-cases to `"Friend" + ws`. */
  lemma TitleFriend(ws: string)
    requires forall j :: 0 <= j < |ws| ==> IsPySpace(ws[j])
    ensures Title("friend" + ws) == "Friend" + ws
  {
    var s, t := "friend" + ws, "Friend" + ws;
    var r := Title(s);
    forall i | 0 <= i < |s|
      ensures r[i] == t[i]
    {
      if i >= 6 {
        assert s[i] == ws[i - 6] == t[i] && !IsAsciiLetter(s[i]);
        assert LowerChar(s[i]) == s[i] && UpperChar(s[i]) == s[i];
      } else {
        var w, u := "friend", "Friend";
        assert s[i] == w[i] && t[i] == u[i];
        assert i > 0 ==> s[i - 1] == w[i - 1] && IsAsciiLetter(w[i - 1]);
      }
    }
  }

  /** When the first name pattern matches, it decides: the name is "Friend" followed by the
      white space after "friend", or, if the request has no "friend" there, the `None.title()`
      error. The later patterns are never consulted. */
  lemma CallFriendDecides(lowered: string)
    ensures Search(CallFriendPattern, lowered).Some? ==>
      var f := Search(CallFriendPattern, lowered).value;
      (1 !in f.groups && FindContactName(NamePatterns, lowered) == Err(NoneTitleError))
      || (1 in f.groups
          && var g := Captured(lowered, f, 1);
          |g| > 6 && g[..6] == "friend" && (forall j :: 6 <= j < |g| ==> IsPySpace(g[j]))
          && FindContactName(NamePatterns, lowered) == Ok(Some("Friend" + g[6..])))
  {
    assert NamePatterns[0] == CallFriendPattern;
    SearchSound(CallFriendPattern, lowered);
    if Search(CallFriendPattern, lowered).Some? {
      var f := Search(CallFriendPattern, lowered).value;
      CallFriendGroup(lowered, f.start, f.end, f.groups);
      if 1 in f.groups {
        var g := Captured(lowered, f, 1);
        assert g[..6] == "friend";
        assert g !in Stopwords by {
          assert |g| > 6;
        }
        assert g == "friend" + g[6..];
        TitleFriend(g[6..]);
      }
    }
  }

  /** Every production of `call\s+(\w+)` is one of the first name pattern with both optional
      parts skipped. */
  lemma CallNameWithinCallFriend(t: string, p: nat, e: nat, out: Captures) returns (out': Captures)
    requires Gen(CallNamePattern, t, p, map[], e, out)
    ensures Gen(CallFriendPattern, t, p, map[], e, out')
  {
    var q, c := GenSplit(CallPrefix, NameGroup, t, p, map[], e, out);
    var mid := GroupSplit(1, WordRun, t, q, c, e, out);
    GroupJoin(2, WordRun, t, q, c, e, mid);
    out' := mid[2 := Span(q, e)];
    OptSkip([Group(1, FriendWords)], [Group(2, WordRun)], t, q, c, e, out');
    OptSkip(MyWords, [Opt([Group(1, FriendWords)])] + [Group(2, WordRun)], t, q, c, e, out');
    assert [Opt(MyWords)] + ([Opt([Group(1, FriendWords)])] + [Group(2, WordRun)]) == FriendTail;
    GenJoin(CallPrefix, FriendTail, t, p, map[], q, c, e, out');
  }

  lemma CallNameSubsumed(t: string)
    ensures Search(CallNamePattern, t).Some? ==> Search(CallFriendPattern, t).Some?
  {
    assert NamePatterns[0] == CallFriendPattern && NamePatterns[2] == CallNamePattern;
    SearchSound(CallNamePattern, t);
    if Search(CallNamePattern, t).Some? {
      var f := Search(CallNamePattern, t).value;
      var out' := CallNameWithinCallFriend(t, f.start, f.end, f.groups);
      SearchComplete(CallFriendPattern, t, f.start, f.end, out');
    }
  }

  /** The third name pattern never changes the outcome: whenever it would match, the first
      one has matched and decided. */
  lemma ThirdNamePatternRedundant(lowered: string)
    ensures FindContactName(NamePatterns, lowered) == FindContactName(NamePatterns[..2], lowered)
  {
    var ps := NamePatterns;
    assert ps[..2] == [CallFriendPattern, NameAtPattern];
    assert ps[1..] == [NameAtPattern, CallNamePattern] && ps[..2][1..] == [NameAtPattern];
    assert [NameAtPattern, CallNamePattern][1..] == [CallNamePattern];
    assert [NameAtPattern][1..] == [] && [CallNamePattern][1..] == [];
    CallFriendDecides(lowered);
    CallNameSubsumed(lowered);
    match Search(CallFriendPattern, lowered)
    case Some(f) =>
      if 1 in f.groups {
        var g := Captured(lowered, f, 1);
        assert g !in Stopwords by {
          assert |g| > 6;
        }
      }
    case None =>
      assert FindContactName([CallNamePattern], lowered) == Ok(None);
  }

  // ---------------------------------------------------------------------------
  // create_direct_call_business_result

  const DirectCallPrefix := "Direct call requested to "

  function DirectCallResult(phoneNumber: string, contactName: Option<string>, purpose: string): (r: BusinessRecord)
    ensures r.name != "" && r.phone == phoneNumber
    ensures r.name == contactName.GetOr("Direct Contact") || r.name == "Direct Contact"
    ensures contactName.Some? && contactName.value != "" ==> r.name == contactName.value
    ensures r.address == Some("Direct phone call") && r.rating.None? && r.website.None?
    ensures |r.agentReasoning| == |DirectCallPrefix| + |r.name| + 6 + |purpose|
    ensures r.agentReasoning[..|DirectCallPrefix|] == DirectCallPrefix
    ensures r.agentReasoning[|DirectCallPrefix|..|DirectCallPrefix| + |r.name|] == r.name
    ensures r.agentReasoning[|r.agentReasoning| - |purpose|..] == purpose
    ensures r.agentReasoning == DirectCallPrefix + r.name + " for: " + purpose
  {
    var displayName := if contactName.Some? && contactName.value != "" then contactName.value else "Direct Contact";
    BusinessRecord(displayName, phoneNumber, Some("Direct phone call"), None,
                   DirectCallPrefix + displayName + " for: " + purpose, None)
  }

  /** A direct call classified from a request yields a record with a non-empty name and the
      extracted number in `(ddd) ddd-dddd` form. */
  lemma DirectCallRecordWellFormed(userInput: string)
    ensures var c := ClassifyRequest(userInput);
      c.Ok? && c.value.DirectCall? ==>
        var r := DirectCallResult(c.value.phoneNumber, c.value.contactName, c.value.purpose);
        r.name != "" && IsPhoneShape(r.phone) && Some(r.phone) == ExtractPhoneNumber(userInput)
  {
  }
}
