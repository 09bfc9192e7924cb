/** The transcript poller of the calling service (calling_guy/poll_calls.js): a module-level set
    of message times already relayed, a one-way `callEnded` flag, and one poll of the call's data. */
module PollCalls {
  import opened Values

  /** A `Set` element as `msg.time` can produce it from decoded JSON: `undefined`, or a
      primitive. Integers and reals are one JavaScript number, so a key holds a real. */
  datatype TimeKey = UndefinedTime | PrimitiveTime(v: Json)

  /** What the poller hands to `broadcast`. */
  datatype Broadcast = MessageBroadcast(text: Option<Json>) | CallEndedBroadcast

  /** The state after a poll and the broadcasts it made. */
  datatype PollOutcome = PollOutcome(seen: set<TimeKey>, ended: bool, sent: seq<Broadcast>)

  /** `obj.key` on a value that is not `null`. */
  function Field(obj: Json, key: string): Option<Json>
    requires !obj.JNull?
  {
    match JsProp(obj, key)
    case Ok(v) => v
    case Err(_) => None
  }

  /** The set key of a time, or `None` for an object or an array: a freshly decoded object is
      a new identity, equal to no earlier key. */
  function KeyOf(time: Option<Json>): (k: Option<TimeKey>)
    ensures k.None? <==> time.Some? && (time.value.JObj? || time.value.JArr?)
    ensures time.Some? && time.value.JInt? ==> k == Some(PrimitiveTime(JReal(time.value.i as real)))
    ensures time.Some? && !(time.value.JObj? || time.value.JArr? || time.value.JInt?) ==>
      k == Some(PrimitiveTime(time.value))
    ensures time.None? ==> k == Some(UndefinedTime)
  {
    match time
    case None => Some(UndefinedTime)
    case Some(v) =>
      match v
      case JObj(_) => None
      case JArr(_) => None
      case JInt(i) => Some(PrimitiveTime(JReal(i as real)))
      case _ => Some(PrimitiveTime(v))
  }

  /** `previousMessageTimes.has(msg.time)`. */
  predicate Seen(seen: set<TimeKey>, msg: Json)
    requires !msg.JNull?
  {
    var k := KeyOf(Field(msg, "time"));
    k.Some? && k.value in seen
  }

  predicate NoNull(items: seq<Json>) {
    forall i :: 0 <= i < |items| ==> !items[i].JNull?
  }

  /** `messages.filter(msg => !previousMessageTimes.has(msg.time))`, evaluated against the set
      as it was before the poll. */
  function Unseen(seen: set<TimeKey>, items: seq<Json>): (r: seq<Json>)
    requires NoNull(items)
    ensures |r| <= |items| && NoNull(r)
    ensures forall m :: m in r ==> m in items && !Seen(seen, m)
    ensures forall m :: m in items && !Seen(seen, m) ==> m in r
    ensures IsSubsequence(r, items)
  {
    if items == [] then []
    else
      var last := items[|items| - 1];
      assert forall m :: m in items ==> m in items[..|items| - 1] || m == last;
      var kept := Unseen(seen, items[..|items| - 1]);
      SubsequenceSnoc(kept, items[..|items| - 1], last);
      assert items[..|items| - 1] + [last] == items;
      if Seen(seen, last) then kept else kept + [last]
  }

  /** The filter keeps every unseen message as often as it occurs. */
  lemma {:induction false} UnseenCounts(seen: set<TimeKey>, items: seq<Json>, m: Json)
    requires NoNull(items) && !m.JNull? && !Seen(seen, m)
    ensures multiset(Unseen(seen, items))[m] == multiset(items)[m]
  {
    if items != [] {
      var init, last := items[..|items| - 1], items[|items| - 1];
      UnseenCounts(seen, init, m);
      assert items == init + [last];
      var kept := Unseen(seen, init);
      if !Seen(seen, last) {
        assert Unseen(seen, items) == kept + [last];
      } else {
        assert m != last;
      }
    }
  }

  /** The keys `previousMessageTimes.add(msg.time)` records for some messages. */
  function KeysOf(msgs: seq<Json>): (keys: set<TimeKey>)
    requires NoNull(msgs)
    ensures forall m :: m in msgs && KeyOf(Field(m, "time")).Some? ==> KeyOf(Field(m, "time")).value in keys
  {
    if msgs == [] then {}
    else
      var last := msgs[|msgs| - 1];
      assert forall m :: m in msgs ==> m in msgs[..|msgs| - 1] || m == last;
      var k := KeyOf(Field(last, "time"));
      KeysOf(msgs[..|msgs| - 1]) + (if k.Some? then {k.value} else {})
  }

  /** Every recorded key is the key of some message's time. */
  lemma {:induction false} KeysOfFromMessages(msgs: seq<Json>, k: TimeKey)
    requires NoNull(msgs) && k in KeysOf(msgs)
    ensures exists m :: m in msgs && KeyOf(Field(m, "time")) == Some(k)
  {
    var init, last := msgs[..|msgs| - 1], msgs[|msgs| - 1];
    if KeyOf(Field(last, "time")) == Some(k) {
      assert last in msgs;
    } else {
      KeysOfFromMessages(init, k);
      var m :| m in init && KeyOf(Field(m, "time")) == Some(k);
      assert m in msgs;
    }
  }

  /** One `{ type: 'message', text: msg.message }` per message, in order. */
  function Texts(msgs: seq<Json>): (sent: seq<Broadcast>)
    requires NoNull(msgs)
    ensures |sent| == |msgs|
    ensures forall i :: 0 <= i < |msgs| ==> sent[i] == MessageBroadcast(Field(msgs[i], "message"))
  {
    if msgs == [] then []
    else Texts(msgs[..|msgs| - 1]) + [MessageBroadcast(Field(msgs[|msgs| - 1], "message"))]
  }

  /** The array of messages `pollCall` relays, or `None` when `callData.messages` is missing,
      falsy or not an array. */
  function MessageList(data: Json): Option<seq<Json>>
    requires !data.JNull?
  {
    var messages := Field(data, "messages");
    if messages.Some? && JsTruthy(messages.value) && messages.value.JArr? then Some(messages.value.items)
    else None
  }

  /** The status check: the first `ended` sets the flag; the broadcast that follows reads the
      undeclared `CALL_ID`, and the ReferenceError is caught before anything is sent. */
  function StatusStep(data: Json, seen: set<TimeKey>, ended: bool, sent: seq<Broadcast>): PollOutcome
    requires !data.JNull?
  {
    if !ended && Field(data, "status") == Some(JStr("ended")) then PollOutcome(seen, true, sent)
    else PollOutcome(seen, ended, sent)
  }

  /** `pollCall` on fetched call data (`None` for `undefined`): reading a property of
      `undefined` or `null`, or the `time` of a `null` message, throws before any change, and the
      error is caught. */
  function Poll(seen: set<TimeKey>, ended: bool, callData: Option<Json>): (r: PollOutcome)
    ensures seen <= r.seen && (ended ==> r.ended)
    ensures forall b :: b in r.sent ==> b.MessageBroadcast?
    ensures (callData.Some? && !callData.value.JNull?
             && (MessageList(callData.value).None? || NoNull(MessageList(callData.value).value))
             && Field(callData.value, "status") == Some(JStr("ended"))) ==> r.ended
    ensures (callData.None? || callData.value.JNull?
             || (MessageList(callData.value).Some? && !NoNull(MessageList(callData.value).value))) ==>
      r.ended == ended
  {
    if callData.None? || callData.value.JNull? then PollOutcome(seen, ended, [])
    else
      var data := callData.value;
      match MessageList(data)
      case None => StatusStep(data, seen, ended, [])
      case Some(items) =>
        if !NoNull(items) then PollOutcome(seen, ended, [])
        else
          var unseen := Unseen(seen, items);
          StatusStep(data, seen + KeysOf(unseen), ended, Texts(unseen))
  }

  // ---------------------------------------------------------------------------
  // Properties of a poll

  /** Recording only the unseen messages leaves the same set as recording all of them. */
  lemma {:induction false} KeysOfUnseen(seen: set<TimeKey>, items: seq<Json>)
    requires NoNull(items)
    ensures seen + KeysOf(Unseen(seen, items)) == seen + KeysOf(items)
  {
    if items != [] {
      var init := items[..|items| - 1];
      var last := items[|items| - 1];
      KeysOfUnseen(seen, init);
      var u := Unseen(seen, init);
      if !Seen(seen, last) {
        assert (u + [last])[..|u + [last]| - 1] == u;
      } else {
        assert Unseen(seen, items) == u;
      }
    }
  }

  /** After a poll the set is the old set plus the recordable times of every message in the
      response, so it never shrinks; a poll that throws leaves it as it was. */
  lemma PollRecordsAllTimes(seen: set<TimeKey>, ended: bool, callData: Option<Json>)
    ensures seen <= Poll(seen, ended, callData).seen
    ensures callData.Some? && !callData.value.JNull? && MessageList(callData.value).Some?
            && NoNull(MessageList(callData.value).value) ==>
      Poll(seen, ended, callData).seen == seen + KeysOf(MessageList(callData.value).value)
    ensures callData.None? || callData.value.JNull? || MessageList(callData.value).None?
            || !NoNull(MessageList(callData.value).value) ==>
      Poll(seen, ended, callData).seen == seen
  {
    if callData.Some? && !callData.value.JNull? && MessageList(callData.value).Some?
       && NoNull(MessageList(callData.value).value) {
      KeysOfUnseen(seen, MessageList(callData.value).value);
    }
  }

  /** A poll relays exactly the messages whose time was not seen before it, in order, and
      nothing else: a time seen before is never relayed again. */
  lemma PollRelaysUnseen(seen: set<TimeKey>, ended: bool, callData: Option<Json>)
    ensures callData.None? || callData.value.JNull? || MessageList(callData.value).None?
            || !NoNull(MessageList(callData.value).value) ==>
      Poll(seen, ended, callData).sent == []
    ensures callData.Some? && !callData.value.JNull? && MessageList(callData.value).Some?
            && NoNull(MessageList(callData.value).value) ==>
      var unseen := Unseen(seen, MessageList(callData.value).value);
      Poll(seen, ended, callData).sent == Texts(unseen) && forall m :: m in unseen ==> !Seen(seen, m)
  {
  }

  /** No poll ever sends the `call_ended` broadcast. */
  lemma NoCallEndedBroadcast(seen: set<TimeKey>, ended: bool, callData: Option<Json>)
    ensures forall b :: b in Poll(seen, ended, callData).sent ==> b.MessageBroadcast?
  {
  }

  /** `callEnded` only moves from false to true, and does so on an `ended` status when the poll
      does not throw first. */
  lemma PollEndedMonotone(seen: set<TimeKey>, ended: bool, callData: Option<Json>)
    ensures ended ==> Poll(seen, ended, callData).ended
    ensures Poll(seen, ended, callData).ended && !ended ==>
      callData.Some? && !callData.value.JNull? && Field(callData.value, "status") == Some(JStr("ended"))
    ensures (callData.Some? && !callData.value.JNull?
             && (MessageList(callData.value).None? || NoNull(MessageList(callData.value).value))
             && Field(callData.value, "status") == Some(JStr("ended"))) ==> Poll(seen, ended, callData).ended
    ensures (callData.None? || callData.value.JNull?
             || (MessageList(callData.value).Some? && !NoNull(MessageList(callData.value).value))) ==>
      Poll(seen, ended, callData).ended == ended
  {
  }

  /** Two new messages with the same time in one poll are both relayed, because the filter runs
      before anything is recorded. */
  lemma SameTimeBothRelayed(seen: set<TimeKey>, ended: bool, data: Json, m1: Json, m2: Json)
    requires !data.JNull? && MessageList(data) == Some([m1, m2])
    requires m1.JObj? && m2.JObj? && "time" in m1.fields && "time" in m2.fields
    requires m1.fields["time"] == m2.fields["time"] && !Seen(seen, m1)
    ensures Poll(seen, ended, Some(data)).sent
        == [MessageBroadcast(Field(m1, "message")), MessageBroadcast(Field(m2, "message"))]
  {
    assert Field(m1, "time") == Field(m2, "time");
    UnseenPair(seen, m1, m2);
    PollRelaysUnseen(seen, ended, Some(data));
  }

  /** Two messages whose times were not seen both pass the filter, in order. */
  lemma UnseenPair(seen: set<TimeKey>, m1: Json, m2: Json)
    requires !m1.JNull? && !m2.JNull? && !Seen(seen, m1) && !Seen(seen, m2)
    ensures NoNull([m1, m2]) && Unseen(seen, [m1, m2]) == [m1, m2]
  {
    assert NoNull([m1, m2]);
    assert Unseen(seen, [m1]) == [m1] by { assert [m1][..0] == []; }
    assert [m1, m2][..1] == [m1];
  }

  /** The module-level state of the poller. */
  class CallPoller {
    var previousMessageTimes: set<TimeKey>
    var callEnded: bool

    constructor()
      ensures previousMessageTimes == {} && !callEnded
    {
      previousMessageTimes := {};
      callEnded := false;
    }

    /** The `filter` of `pollCall` against the current set; `None` when a message is `null`
        and reading its `time` throws. */
    method FilterUnseen(items: seq<Json>) returns (newMessages: Option<seq<Json>>)
      ensures newMessages.None? <==> !NoNull(items)
      ensures newMessages.Some? ==> newMessages.value == Unseen(previousMessageTimes, items)
    {
      var kept := [];
      var i := 0;
      while i < |items|
        invariant 0 <= i <= |items| && NoNull(items[..i])
        invariant kept == Unseen(previousMessageTimes, items[..i])
      {
        if items[i].JNull? {
          return None;
        }
        assert items[..i + 1][..i] == items[..i];
        if !Seen(previousMessageTimes, items[i]) {
          kept := kept + [items[i]];
        }
        i := i + 1;
      }
      assert items[..i] == items;
      return Some(kept);
    }

    /** The `forEach` of `pollCall`: each message's time is recorded and its text relayed. */
    method RelayAll(newMessages: seq<Json>) returns (sent: seq<Broadcast>)
      requires NoNull(newMessages)
      modifies this
      ensures previousMessageTimes == old(previousMessageTimes) + KeysOf(newMessages)
      ensures sent == Texts(newMessages)
      ensures callEnded == old(callEnded)
    {
      sent := [];
      var j := 0;
      while j < |newMessages|
        invariant 0 <= j <= |newMessages|
        invariant previousMessageTimes == old(previousMessageTimes) + KeysOf(newMessages[..j])
        invariant sent == Texts(newMessages[..j])
        invariant callEnded == old(callEnded)
      {
        var msg := newMessages[j];
        var k := KeyOf(Field(msg, "time"));
        if k.Some? {
          previousMessageTimes := previousMessageTimes + {k.value};
        }
        sent := sent + [MessageBroadcast(Field(msg, "message"))];
        assert newMessages[..j + 1][..j] == newMessages[..j];
        j := j + 1;
      }
      assert newMessages[..j] == newMessages;
    }

    /** `pollCall`, given the fetched `callData`; returns the broadcasts in order. */
    method PollCall(callData: Option<Json>) returns (sent: seq<Broadcast>)
      modifies this
      ensures PollOutcome(previousMessageTimes, callEnded, sent)
        == Poll(old(previousMessageTimes), old(callEnded), callData)
    {
      sent := [];
      if callData.None? || callData.value.JNull? {
        return;  // TypeError reading `messages`, caught
      }
      var data := callData.value;
      var messages := Field(data, "messages");
      if messages.Some? && JsTruthy(messages.value) && messages.value.JArr? {
        var items := messages.value.items;
        var newMessages := FilterUnseen(items);
        if newMessages.None? {
          return;  // TypeError reading `time`, caught
        }
        sent := RelayAll(newMessages.value);
      }
      if !callEnded && Field(data, "status") == Some(JStr("ended")) {
        callEnded := true;
        // the `call_ended` broadcast reads the undeclared `CALL_ID`: ReferenceError, caught
      }
    }
  }
}
