/** The part of Python's `re` module that the request classifier uses: concatenations of
    single-character classes, greedy `*`, greedy optional groups and capturing groups,
    searched for leftmost-first with backtracking.

    `Match` is the backtracking engine: it tries the alternatives of each greedy construct
    in the order Python's engine does (the longer repetition first, an optional part taken
    before skipped), threads the captures along the path it follows, and returns the first
    complete match. `Gen` is the relational meaning of a pattern: it holds of every way the
    pattern can produce a stretch of text. The lemmas tie the two together (every match the
    engine returns is a production, and the engine finds a match wherever some production
    exists) and give the algebra of productions that the pattern-specific proofs use. */
module Regex {
  import opened Values
  import opened Text

  /** A character class: explicit characters plus the ASCII `\d`, `\w` and `\s`. */
  datatype CharClass = CharClass(chars: set<char>, digit: bool, word: bool, space: bool)

  predicate InClass(k: CharClass, c: char) {
    c in k.chars || (k.digit && IsDigit(c)) || (k.word && IsWordChar(c)) || (k.space && IsPySpace(c))
  }

  function Exactly(c: char): CharClass { CharClass({c}, false, false, false) }

  const DigitClass := CharClass({}, true, false, false)
  const WordClass := CharClass({}, false, true, false)
  const SpaceClass := CharClass({}, false, false, true)

  /** A class none of whose members is a decimal digit. */
  predicate DigitFree(k: CharClass) {
    !k.digit && !k.word && forall c :: c in k.chars ==> !IsDigit(c)
  }

  datatype Span = Span(start: nat, end: nat)

  type Captures = map<nat, Span>

  datatype Node =
    | One(k: CharClass)                 // one character of the class
    | Star(k: CharClass)                // greedy `k*`
    | Opt(body: seq<Node>)              // greedy `(?:body)?`
    | Group(index: nat, body: seq<Node>) // capturing `(body)`
    | Close(index: nat, start: nat)     // end of a group entered at `start`; only made while matching

  /** `w` as a sequence of literal characters. */
  function Literal(w: string): (ns: seq<Node>)
    ensures |ns| == |w|
    ensures forall j :: 0 <= j < |w| ==> ns[j] == One(Exactly(w[j]))
  {
    if w == [] then [] else [One(Exactly(w[0]))] + Literal(w[1..])
  }

  /** `k+`. */
  function Plus(k: CharClass): seq<Node> { [One(k), Star(k)] }

  /** `(?:one character of k)?`. */
  function OptOne(k: CharClass): Node { Opt([One(k)]) }

  function Size(ns: seq<Node>): nat
    decreases ns
  {
    if ns == [] then 0
    else
      (match ns[0]
       case Opt(body) => 1 + Size(body)
       case Group(_, body) => 2 + Size(body)
       case _ => 1) + Size(ns[1..])
  }

  lemma {:induction false} SizeAppend(a: seq<Node>, b: seq<Node>)
    ensures Size(a + b) == Size(a) + Size(b)
  {
    if a == [] {
      assert a + b == b;
    } else {
      assert (a + b)[0] == a[0] && (a + b)[1..] == a[1..] + b;
      SizeAppend(a[1..], b);
    }
  }

  /** The node lists written as patterns never contain `Close`. */
  predicate NoClose(ns: seq<Node>)
    decreases ns
  {
    forall j :: 0 <= j < |ns| ==> NodeNoClose(ns[j])
  }

  predicate NodeNoClose(n: Node)
    decreases n
  {
    match n
    case Close(_, _) => false
    case Opt(body) => NoClose(body)
    case Group(_, body) => NoClose(body)
    case _ => true
  }

  /** What the engine may meet at position `p`: pattern nodes, and the ends of groups
      entered at or before `p`. */
  predicate Pending(ns: seq<Node>, p: nat) {
    forall j :: 0 <= j < |ns| ==> if ns[j].Close? then ns[j].start <= p else NodeNoClose(ns[j])
  }

  /** Every capture lies within the first `n` characters. */
  predicate SpansWithin(caps: Captures, n: nat) {
    forall i :: i in caps ==> caps[i].start <= caps[i].end <= n
  }

  datatype Hit = Hit(end: nat, caps: Captures)

  /** The first match of `ns` anchored at `p`, in the order Python's engine tries them. */
  function Match(ns: seq<Node>, t: string, p: nat, caps: Captures): (r: Option<Hit>)
    requires p <= |t| && Pending(ns, p)
    ensures r.Some? ==> p <= r.value.end <= |t|
    ensures r.Some? && SpansWithin(caps, p) ==> SpansWithin(r.value.caps, r.value.end)
    decreases |t| - p, Size(ns)
  {
    if ns == [] then Some(Hit(p, caps))
    else
      var rest := ns[1..];
      PendingStep(ns, p);
      match ns[0]
      case One(k) =>
        if p < |t| && InClass(k, t[p]) then Match(rest, t, p + 1, caps) else None
      case Star(k) =>
        if p < |t| && InClass(k, t[p]) then
          PendingLater(ns, p, p + 1);
          var longer := Match(ns, t, p + 1, caps);
          if longer.Some? then longer else Match(rest, t, p, caps)
        else Match(rest, t, p, caps)
      case Opt(body) =>
        SizeAppend(body, rest);
        var taken := Match(body + rest, t, p, caps);
        if taken.Some? then taken else Match(rest, t, p, caps)
      case Group(i, body) =>
        SizeAppend(body, [Close(i, p)] + rest);
        Match(body + ([Close(i, p)] + rest), t, p, caps)
      case Close(i, s) =>
        Match(rest, t, p, caps[i := Span(s, p)])
  }

  /** `ns` can produce `t[p..e]`, turning the captures `caps` into `out`. */
  ghost predicate Gen(ns: seq<Node>, t: string, p: nat, caps: Captures, e: nat, out: Captures)
    decreases |t| - p, Size(ns)
  {
    p <= |t| &&
    if ns == [] then e == p && out == caps
    else
      var rest := ns[1..];
      match ns[0]
      case One(k) => p < |t| && InClass(k, t[p]) && Gen(rest, t, p + 1, caps, e, out)
      case Star(k) =>
        Gen(rest, t, p, caps, e, out)
        || (p < |t| && InClass(k, t[p]) && Gen(ns, t, p + 1, caps, e, out))
      case Opt(body) =>
        SizeAppend(body, rest);
        Gen(body + rest, t, p, caps, e, out) || Gen(rest, t, p, caps, e, out)
      case Group(i, body) =>
        SizeAppend(body, [Close(i, p)] + rest);
        Gen(body + ([Close(i, p)] + rest), t, p, caps, e, out)
      case Close(i, s) => Gen(rest, t, p, caps[i := Span(s, p)], e, out)
  }

  datatype Found = Found(start: nat, end: nat, groups: Captures)

  /** `re.search` from position `k` on: the match at the leftmost position that has one. */
  function SearchFrom(ns: seq<Node>, t: string, k: nat): (r: Option<Found>)
    requires k <= |t| && NoClose(ns)
    ensures r.Some? ==> k <= r.value.start <= r.value.end <= |t|
    ensures r.Some? ==> SpansWithin(r.value.groups, |t|)
    decreases |t| - k
  {
    NoCloseIsPending(ns, k);
    match Match(ns, t, k, map[])
    case Some(h) => Some(Found(k, h.end, h.caps))
    case None => if k == |t| then None else SearchFrom(ns, t, k + 1)
  }

  function Search(ns: seq<Node>, t: string): (r: Option<Found>)
    requires NoClose(ns)
    ensures r.Some? ==> r.value.start <= r.value.end <= |t|
    ensures r.Some? ==> SpansWithin(r.value.groups, |t|)
  {
    SearchFrom(ns, t, 0)
  }

  /** The text a capture holds. */
  function Captured(t: string, f: Found, i: nat): string
    requires SpansWithin(f.groups, |t|) && i in f.groups
  {
    t[f.groups[i].start..f.groups[i].end]
  }

  // ---------------------------------------------------------------------------
  // Well-formedness bookkeeping

  lemma NoCloseIsPending(ns: seq<Node>, p: nat)
    requires NoClose(ns)
    ensures Pending(ns, p)
  {
  }

  /** Entering the first node of a pending list leaves a pending list. */
  lemma PendingStep(ns: seq<Node>, p: nat)
    requires ns != [] && Pending(ns, p)
    ensures Pending(ns[1..], p)
    ensures ns[0].Opt? ==> Pending(ns[0].body + ns[1..], p)
    ensures ns[0].Group? ==> Pending(ns[0].body + ([Close(ns[0].index, p)] + ns[1..]), p)
  {
    assert forall j :: 0 <= j < |ns| - 1 ==> ns[1..][j] == ns[j + 1];
    if ns[0].Opt? || ns[0].Group? {
      var body := ns[0].body;
      assert NodeNoClose(ns[0]);
      assert NoClose(body);
    }
  }

  lemma PendingLater(ns: seq<Node>, p: nat, q: nat)
    requires Pending(ns, p) && p <= q
    ensures Pending(ns, q)
  {
  }

  // ---------------------------------------------------------------------------
  // The engine and the productions agree

  lemma {:induction false} GenBounds(ns: seq<Node>, t: string, p: nat, caps: Captures, e: nat, out: Captures)
    requires Gen(ns, t, p, caps, e, out)
    ensures p <= e <= |t|
    decreases |t| - p, Size(ns)
  {
    if ns != [] {
      var rest := ns[1..];
      match ns[0]
      case One(k) => GenBounds(rest, t, p + 1, caps, e, out);
      case Star(k) =>
        if Gen(rest, t, p, caps, e, out) {
          GenBounds(rest, t, p, caps, e, out);
        } else {
          GenBounds(ns, t, p + 1, caps, e, out);
        }
      case Opt(body) =>
        SizeAppend(body, rest);
        if Gen(body + rest, t, p, caps, e, out) {
          GenBounds(body + rest, t, p, caps, e, out);
        } else {
          GenBounds(rest, t, p, caps, e, out);
        }
      case Group(i, body) =>
        SizeAppend(body, [Close(i, p)] + rest);
        GenBounds(body + ([Close(i, p)] + rest), t, p, caps, e, out);
      case Close(i, s) => GenBounds(rest, t, p, caps[i := Span(s, p)], e, out);
    }
  }

  /** Every match the engine returns is a production of the pattern. */
  lemma {:induction false} MatchSound(ns: seq<Node>, t: string, p: nat, caps: Captures)
    requires p <= |t| && Pending(ns, p)
    requires Match(ns, t, p, caps).Some?
    ensures Gen(ns, t, p, caps, Match(ns, t, p, caps).value.end, Match(ns, t, p, caps).value.caps)
    decreases |t| - p, Size(ns)
  {
    if ns != [] {
      var rest := ns[1..];
      PendingStep(ns, p);
      match ns[0]
      case One(k) => MatchSound(rest, t, p + 1, caps);
      case Star(k) =>
        if p < |t| && InClass(k, t[p]) && Match(ns, t, p + 1, caps).Some? {
          PendingLater(ns, p, p + 1);
          MatchSound(ns, t, p + 1, caps);
        } else {
          MatchSound(rest, t, p, caps);
        }
      case Opt(body) =>
        SizeAppend(body, rest);
        if Match(body + rest, t, p, caps).Some? {
          MatchSound(body + rest, t, p, caps);
        } else {
          MatchSound(rest, t, p, caps);
        }
      case Group(i, body) =>
        SizeAppend(body, [Close(i, p)] + rest);
        MatchSound(body + ([Close(i, p)] + rest), t, p, caps);
      case Close(i, s) => MatchSound(rest, t, p, caps[i := Span(s, p)]);
    }
  }

  /** Wherever the pattern has a production, the engine finds a match (possibly another one). */
  lemma {:induction false} MatchComplete(ns: seq<Node>, t: string, p: nat, caps: Captures, e: nat, out: Captures)
    requires Pending(ns, p) && Gen(ns, t, p, caps, e, out)
    ensures Match(ns, t, p, caps).Some?
    decreases |t| - p, Size(ns)
  {
    if ns != [] {
      var rest := ns[1..];
      PendingStep(ns, p);
      match ns[0]
      case One(k) => MatchComplete(rest, t, p + 1, caps, e, out);
      case Star(k) =>
        if Gen(rest, t, p, caps, e, out) {
          MatchComplete(rest, t, p, caps, e, out);
        } else {
          PendingLater(ns, p, p + 1);
          MatchComplete(ns, t, p + 1, caps, e, out);
        }
      case Opt(body) =>
        SizeAppend(body, rest);
        if Gen(body + rest, t, p, caps, e, out) {
          MatchComplete(body + rest, t, p, caps, e, out);
        } else {
          MatchComplete(rest, t, p, caps, e, out);
        }
      case Group(i, body) =>
        SizeAppend(body, [Close(i, p)] + rest);
        MatchComplete(body + ([Close(i, p)] + rest), t, p, caps, e, out);
      case Close(i, s) => MatchComplete(rest, t, p, caps[i := Span(s, p)], e, out);
    }
  }

  /** The search reports the leftmost position at which the pattern matches. */
  lemma {:induction false} SearchFromSound(ns: seq<Node>, t: string, k: nat)
    requires k <= |t| && NoClose(ns)
    ensures SearchFrom(ns, t, k).Some? ==>
      var f := SearchFrom(ns, t, k).value;
      NoClose(ns) && Pending(ns, f.start) && Match(ns, t, f.start, map[]) == Some(Hit(f.end, f.groups))
    ensures SearchFrom(ns, t, k).None? <==>
      forall q :: k <= q <= |t| ==> (NoCloseIsPending(ns, q); Match(ns, t, q, map[]).None?)
    decreases |t| - k
  {
    NoCloseIsPending(ns, k);
    if Match(ns, t, k, map[]).None? && k < |t| {
      SearchFromSound(ns, t, k + 1);
      forall q | k + 1 <= q <= |t| ensures Pending(ns, q) { NoCloseIsPending(ns, q); }
    }
  }

  /** A match anywhere is found by the search, and what it finds is a production. */
  lemma SearchSound(ns: seq<Node>, t: string)
    requires NoClose(ns)
    ensures Search(ns, t).Some? ==>
      var f := Search(ns, t).value;
      Gen(ns, t, f.start, map[], f.end, f.groups)
  {
    SearchFromSound(ns, t, 0);
    if Search(ns, t).Some? {
      var f := Search(ns, t).value;
      MatchSound(ns, t, f.start, map[]);
    }
  }

  lemma SearchComplete(ns: seq<Node>, t: string, p: nat, e: nat, out: Captures)
    requires NoClose(ns) && Gen(ns, t, p, map[], e, out)
    ensures Search(ns, t).Some?
  {
    NoCloseIsPending(ns, p);
    MatchComplete(ns, t, p, map[], e, out);
    SearchFromSound(ns, t, 0);
  }

  // ---------------------------------------------------------------------------
  // The algebra of productions

  /** A production of `a + b` is a production of `a` followed by one of `b`. */
  lemma {:induction false} GenSplit(a: seq<Node>, b: seq<Node>, t: string, p: nat, caps: Captures, e: nat, out: Captures)
    returns (q: nat, mid: Captures)
    requires Gen(a + b, t, p, caps, e, out)
    ensures Gen(a, t, p, caps, q, mid) && Gen(b, t, q, mid, e, out)
    decreases |t| - p, Size(a)
  {
    if a == [] {
      assert a + b == b;
      q, mid := p, caps;
    } else {
      var rest := a[1..];
      assert (a + b)[0] == a[0] && (a + b)[1..] == rest + b;
      match a[0]
      case One(k) =>
        q, mid := GenSplit(rest, b, t, p + 1, caps, e, out);
      case Star(k) =>
        if Gen(rest + b, t, p, caps, e, out) {
          q, mid := GenSplit(rest, b, t, p, caps, e, out);
        } else {
          q, mid := GenSplit(a, b, t, p + 1, caps, e, out);
        }
      case Opt(body) =>
        SizeAppend(body, rest);
        SizeAppend(body, rest + b);
        if Gen(body + (rest + b), t, p, caps, e, out) {
          assert body + (rest + b) == (body + rest) + b;
          q, mid := GenSplit(body + rest, b, t, p, caps, e, out);
        } else {
          q, mid := GenSplit(rest, b, t, p, caps, e, out);
        }
      case Group(i, body) =>
        var inner := body + ([Close(i, p)] + rest);
        SizeAppend(body, [Close(i, p)] + rest);
        SizeAppend(body, [Close(i, p)] + (rest + b));
        assert body + ([Close(i, p)] + (rest + b)) == inner + b;
        q, mid := GenSplit(inner, b, t, p, caps, e, out);
      case Close(i, s) =>
        q, mid := GenSplit(rest, b, t, p, caps[i := Span(s, p)], e, out);
    }
  }

  /** A production of `a` followed by one of `b` is a production of `a + b`. */
  lemma {:induction false} GenJoin(a: seq<Node>, b: seq<Node>, t: string, p: nat, caps: Captures,
                                   q: nat, mid: Captures, e: nat, out: Captures)
    requires Gen(a, t, p, caps, q, mid) && Gen(b, t, q, mid, e, out)
    ensures Gen(a + b, t, p, caps, e, out)
    decreases |t| - p, Size(a)
  {
    if a == [] {
      assert a + b == b;
    } else {
      var rest := a[1..];
      assert (a + b)[0] == a[0] && (a + b)[1..] == rest + b;
      match a[0]
      case One(k) =>
        GenJoin(rest, b, t, p + 1, caps, q, mid, e, out);
      case Star(k) =>
        if Gen(rest, t, p, caps, q, mid) {
          GenJoin(rest, b, t, p, caps, q, mid, e, out);
        } else {
          GenJoin(a, b, t, p + 1, caps, q, mid, e, out);
        }
      case Opt(body) =>
        SizeAppend(body, rest);
        SizeAppend(body, rest + b);
        if Gen(body + rest, t, p, caps, q, mid) {
          GenJoin(body + rest, b, t, p, caps, q, mid, e, out);
          assert body + (rest + b) == (body + rest) + b;
        } else {
          GenJoin(rest, b, t, p, caps, q, mid, e, out);
        }
      case Group(i, body) =>
        var inner := body + ([Close(i, p)] + rest);
        SizeAppend(body, [Close(i, p)] + rest);
        SizeAppend(body, [Close(i, p)] + (rest + b));
        GenJoin(inner, b, t, p, caps, q, mid, e, out);
        assert body + ([Close(i, p)] + (rest + b)) == inner + b;
      case Close(i, s) =>
        GenJoin(rest, b, t, p, caps[i := Span(s, p)], q, mid, e, out);
    }
  }

  /** One character of a class. */
  lemma GenOne(k: CharClass, t: string, p: nat, caps: Captures, e: nat, out: Captures)
    ensures Gen([One(k)], t, p, caps, e, out) <==>
      p < |t| && InClass(k, t[p]) && e == p + 1 && out == caps
  {
  }

  /** A greedy repetition produces any run of characters of its class and captures nothing. */
  lemma {:induction false} GenStar(k: CharClass, t: string, p: nat, caps: Captures, e: nat, out: Captures)
    ensures Gen([Star(k)], t, p, caps, e, out) <==>
      p <= e <= |t| && out == caps && forall j :: p <= j < e ==> InClass(k, t[j])
    decreases |t| - p
  {
    if p < |t| {
      GenStar(k, t, p + 1, caps, e, out);
    }
  }

  /** An optional part produces what its body produces, or nothing. */
  lemma GenOpt(body: seq<Node>, t: string, p: nat, caps: Captures, e: nat, out: Captures)
    ensures Gen([Opt(body)], t, p, caps, e, out) <==>
      Gen(body, t, p, caps, e, out) || (p <= |t| && e == p && out == caps)
  {
    assert body + [] == body;
    SizeAppend(body, []);
  }

  /** A group produces what its body produces and records where that was. */
  lemma GroupSplit(i: nat, body: seq<Node>, t: string, p: nat, caps: Captures, e: nat, out: Captures)
    returns (mid: Captures)
    requires Gen([Group(i, body)], t, p, caps, e, out)
    ensures Gen(body, t, p, caps, e, mid) && out == mid[i := Span(p, e)]
  {
    SizeAppend(body, [Close(i, p)]);
    assert body + ([Close(i, p)] + []) == body + [Close(i, p)];
    var q: nat;
    q, mid := GenSplit(body, [Close(i, p)], t, p, caps, e, out);
    GenBounds(body, t, p, caps, q, mid);
  }

  lemma GroupJoin(i: nat, body: seq<Node>, t: string, p: nat, caps: Captures, e: nat, mid: Captures)
    requires Gen(body, t, p, caps, e, mid)
    ensures Gen([Group(i, body)], t, p, caps, e, mid[i := Span(p, e)])
  {
    SizeAppend(body, [Close(i, p)]);
    GenBounds(body, t, p, caps, e, mid);
    assert Gen([Close(i, p)], t, e, mid, e, mid[i := Span(p, e)]);
    GenJoin(body, [Close(i, p)], t, p, caps, e, mid, e, mid[i := Span(p, e)]);
    assert body + ([Close(i, p)] + []) == body + [Close(i, p)];
  }

  /** A literal produces exactly itself. */
  lemma {:induction false} GenLiteral(w: string, t: string, p: nat, caps: Captures, e: nat, out: Captures)
    ensures Gen(Literal(w), t, p, caps, e, out) <==>
      p <= |t| && e == p + |w| <= |t| && t[p..e] == w && out == caps
    decreases |w|
  {
    if w != [] {
      GenLiteral(w[1..], t, p + 1, caps, e, out);
      if p + |w| <= |t| {
        assert t[p..p + |w|] == [t[p]] + t[p + 1..p + |w|];
      }
    }
  }

  /** `k+` produces a non-empty run of characters of its class and captures nothing. */
  lemma GenPlus(k: CharClass, t: string, p: nat, caps: Captures, e: nat, out: Captures)
    ensures Gen(Plus(k), t, p, caps, e, out) <==>
      p < e <= |t| && out == caps && forall j :: p <= j < e ==> InClass(k, t[j])
  {
    assert Plus(k) == [One(k)] + [Star(k)];
    if Gen(Plus(k), t, p, caps, e, out) {
      var q, mid := GenSplit([One(k)], [Star(k)], t, p, caps, e, out);
      GenOne(k, t, p, caps, q, mid);
      GenStar(k, t, q, mid, e, out);
    }
    if p < e <= |t| && out == caps && forall j :: p <= j < e ==> InClass(k, t[j]) {
      GenOne(k, t, p, caps, p + 1, caps);
      GenStar(k, t, p + 1, caps, e, out);
      GenJoin([One(k)], [Star(k)], t, p, caps, p + 1, caps, e, out);
    }
  }

  /** An optional part may always be skipped. */
  lemma OptSkip(body: seq<Node>, rest: seq<Node>, t: string, p: nat, caps: Captures, e: nat, out: Captures)
    requires Gen(rest, t, p, caps, e, out)
    ensures Gen([Opt(body)] + rest, t, p, caps, e, out)
  {
    var ns := [Opt(body)] + rest;
    assert ns[0] == Opt(body) && ns[1..] == rest;
    GenBounds(rest, t, p, caps, e, out);
  }

  /** Widening the class of an optional character keeps every production. */
  lemma OptOneWiden(k1: CharClass, k2: CharClass, t: string, p: nat, caps: Captures, e: nat, out: Captures)
    requires Gen([OptOne(k1)], t, p, caps, e, out)
    requires forall c :: InClass(k1, c) ==> InClass(k2, c)
    ensures Gen([OptOne(k2)], t, p, caps, e, out)
  {
    GenOpt([One(k1)], t, p, caps, e, out);
    GenOpt([One(k2)], t, p, caps, e, out);
    GenOne(k1, t, p, caps, e, out);
    GenOne(k2, t, p, caps, e, out);
  }
}
