/**
 On-demand events on the wire: the byte encoding of a list of events, the parser for it, and the
 writers and readers that work on a parcel in place.
 */
module OnDemandEvents {
  import opened Common

  type Byte = x: int | 0 <= x < 256
  type Bytes = seq<Byte>

  const INT32_LIMIT: int := 0x8000_0000

  datatype Condition = Condition(eventId: Int32, name: Bytes, value: Bytes)
  datatype Event = Event(eventId: Int32, name: Bytes, value: Bytes, persistence: bool, conditions: seq<Condition>,
                         enableOnce: bool)

  // ---- primitive values ----

  /** The conversion of a size to `int32_t`. */
  function ToInt32(n: nat): (r: Int32)
    ensures n < INT32_LIMIT ==> r == n
  {
    var u := n % 0x1_0000_0000;
    if u < INT32_LIMIT then u else u - 0x1_0000_0000
  }

  function EncodeInt32(v: Int32): (b: Bytes)
    ensures |b| == 4
  {
    var u := if v < 0 then v + 0x1_0000_0000 else v;
    [u % 0x100, u / 0x100 % 0x100, u / 0x1_0000 % 0x100, u / 0x100_0000]
  }

  function EncodeBool(v: bool): Bytes {
    EncodeInt32(if v then 1 else 0)
  }

  function EncodeString(s: Bytes): Bytes {
    EncodeInt32(ToInt32(|s|)) + s
  }

  function ParseInt32(b: Bytes): Option<(Int32, Bytes)> {
    if |b| < 4 then None
    else
      var u := b[0] as int + b[1] as int * 0x100 + b[2] as int * 0x1_0000 + b[3] as int * 0x100_0000;
      Some((if u < INT32_LIMIT then u else u - 0x1_0000_0000, b[4..]))
  }

  function ParseBool(b: Bytes): Option<(bool, Bytes)> {
    var r := ParseInt32(b);
    if r.None? then None else Some((r.value.0 != 0, r.value.1))
  }

  function ParseString(b: Bytes): Option<(Bytes, Bytes)> {
    var r := ParseInt32(b);
    if r.None? then None
    else
      var (n, rest) := r.value;
      if n < 0 || n > |rest| then None else Some((rest[..n], rest[n..]))
  }

  // ---- conditions and events ----

  function EncodeCondition(c: Condition): Bytes {
    EncodeInt32(c.eventId) + EncodeString(c.name) + EncodeString(c.value)
  }

  function EncodeConditions(cs: seq<Condition>): Bytes {
    if cs == [] then [] else EncodeCondition(cs[0]) + EncodeConditions(cs[1..])
  }

  function Head(e: Event): Condition {
    Condition(e.eventId, e.name, e.value)
  }

  function EncodeEvent(e: Event): Bytes {
    EncodeCondition(Head(e)) + EncodeBool(e.persistence) + EncodeInt32(ToInt32(|e.conditions|))
    + EncodeConditions(e.conditions) + EncodeBool(e.enableOnce)
  }

  function EncodeList(es: seq<Event>): Bytes {
    if es == [] then [] else EncodeEvent(es[0]) + EncodeList(es[1..])
  }

  function EncodeEvents(es: seq<Event>): Bytes {
    EncodeInt32(ToInt32(|es|)) + EncodeList(es)
  }

  function ParseCondition(b: Bytes): Option<(Condition, Bytes)> {
    var id := ParseInt32(b);
    if id.None? then None
    else
      var name := ParseString(id.value.1);
      if name.None? then None
      else
        var value := ParseString(name.value.1);
        if value.None? then None
        else Some((Condition(id.value.0, name.value.0, value.value.0), value.value.1))
  }

  function ParseConditions(n: nat, b: Bytes): Option<(seq<Condition>, Bytes)> {
    if n == 0 then Some(([], b))
    else
      var init := ParseConditions(n - 1, b);
      if init.None? then None
      else
        var last := ParseCondition(init.value.1);
        if last.None? then None else Some((init.value.0 + [last.value.0], last.value.1))
  }

  /** A size that no list in the remaining bytes can have is refused. */
  function ParseSize(b: Bytes): Option<(nat, Bytes)> {
    var r := ParseInt32(b);
    if r.None? || r.value.0 < 0 || r.value.0 > |r.value.1| then None else Some((r.value.0, r.value.1))
  }

  function ParseEvent(b: Bytes): Option<(Event, Bytes)> {
    var head := ParseCondition(b);
    if head.None? then None
    else
      var persistence := ParseBool(head.value.1);
      if persistence.None? then None
      else
        var size := ParseSize(persistence.value.1);
        if size.None? then None
        else
          var conditions := ParseConditions(size.value.0, size.value.1);
          if conditions.None? then None
          else
            var enableOnce := ParseBool(conditions.value.1);
            if enableOnce.None? then None
            else
              var h := head.value.0;
              Some((Event(h.eventId, h.name, h.value, persistence.value.0, conditions.value.0, enableOnce.value.0),
                    enableOnce.value.1))
  }

  function ParseList(n: nat, b: Bytes): Option<(seq<Event>, Bytes)> {
    if n == 0 then Some(([], b))
    else
      var init := ParseList(n - 1, b);
      if init.None? then None
      else
        var last := ParseEvent(init.value.1);
        if last.None? then None else Some((init.value.0 + [last.value.0], last.value.1))
  }

  function ParseEvents(b: Bytes): Option<(seq<Event>, Bytes)> {
    var size := ParseSize(b);
    if size.None? then None else ParseList(size.value.0, size.value.1)
  }

  // ---- what can be written ----

  predicate StringFits(s: Bytes) {
    |s| < INT32_LIMIT
  }

  predicate ConditionFits(c: Condition) {
    StringFits(c.name) && StringFits(c.value)
  }

  /** Every string is short enough for a parcel. */
  predicate StringsFit(e: Event) {
    ConditionFits(Head(e)) && forall i :: 0 <= i < |e.conditions| ==> ConditionFits(e.conditions[i])
  }

  predicate AllStringsFit(es: seq<Event>) {
    forall i :: 0 <= i < |es| ==> StringsFit(es[i])
  }

  predicate SizeFits(e: Event) {
    |e.conditions| < INT32_LIMIT
  }

  /** The list and every list of conditions in it have a size that is an `int32_t`. */
  predicate SizesFit(es: seq<Event>) {
    |es| < INT32_LIMIT && forall i :: 0 <= i < |es| ==> SizeFits(es[i])
  }

  // ---- round trip ----

  lemma Int32RoundTrip(v: Int32, rest: Bytes)
    ensures ParseInt32(EncodeInt32(v) + rest) == Some((v, rest))
  {
    var u: int := if v < 0 then v + 0x1_0000_0000 else v;
    var e := EncodeInt32(v);
    var b := e + rest;
    assert b[0] == e[0] && b[1] == e[1] && b[2] == e[2] && b[3] == e[3];
    assert u == u / 0x100 * 0x100 + u % 0x100;
    assert u / 0x100 / 0x100 == u / 0x1_0000 && u / 0x1_0000 / 0x100 == u / 0x100_0000;
    assert b[4..] == rest;
  }

  lemma BoolRoundTrip(v: bool, rest: Bytes)
    ensures ParseBool(EncodeBool(v) + rest) == Some((v, rest))
  {
    Int32RoundTrip(if v then 1 else 0, rest);
  }

  lemma StringRoundTrip(s: Bytes, rest: Bytes)
    requires StringFits(s)
    ensures ParseString(EncodeString(s) + rest) == Some((s, rest))
  {
    assert EncodeString(s) + rest == EncodeInt32(ToInt32(|s|)) + (s + rest);
    Int32RoundTrip(|s|, s + rest);
    assert (s + rest)[..|s|] == s && (s + rest)[|s|..] == rest;
  }

  lemma ConditionRoundTrip(c: Condition, rest: Bytes)
    requires ConditionFits(c)
    ensures ParseCondition(EncodeCondition(c) + rest) == Some((c, rest))
  {
    hide ParseInt32, EncodeInt32, ParseString, EncodeString;
    var afterName := EncodeString(c.value) + rest;
    var afterId := EncodeString(c.name) + afterName;
    assert EncodeCondition(c) + rest == EncodeInt32(c.eventId) + afterId;
    Int32RoundTrip(c.eventId, afterId);
    StringRoundTrip(c.name, afterName);
    StringRoundTrip(c.value, rest);
  }

  lemma {:induction false} ConditionsRoundTrip(cs: seq<Condition>, done: nat, rest: Bytes)
    requires done <= |cs| && forall i :: 0 <= i < |cs| ==> ConditionFits(cs[i])
    ensures ParseConditions(done, EncodeConditions(cs) + rest) ==
            Some((cs[..done], EncodeConditions(cs[done..]) + rest))
  {
    hide ParseCondition, EncodeCondition;
    if done == 0 {
      assert cs[0..] == cs;
    } else {
      ConditionsRoundTrip(cs, done - 1, rest);
      var tail := cs[done - 1..];
      assert tail[1..] == cs[done..];
      assert EncodeConditions(tail) + rest == EncodeCondition(cs[done - 1]) + (EncodeConditions(cs[done..]) + rest);
      ConditionRoundTrip(cs[done - 1], EncodeConditions(cs[done..]) + rest);
      assert cs[..done] == cs[..done - 1] + [cs[done - 1]];
    }
  }

  lemma {:induction false} ConditionsAreNotShort(cs: seq<Condition>)
    ensures |EncodeConditions(cs)| >= |cs|
  {
    if cs != [] {
      ConditionsAreNotShort(cs[1..]);
    }
  }

  lemma {:induction false} ListIsNotShort(es: seq<Event>)
    ensures |EncodeList(es)| >= |es|
  {
    if es != [] {
      ListIsNotShort(es[1..]);
    }
  }

  /** The size guard lets every genuine size through. */
  lemma SizeRoundTrip(n: nat, rest: Bytes)
    requires n < INT32_LIMIT && n <= |rest|
    ensures ParseSize(EncodeInt32(ToInt32(n)) + rest) == Some((n, rest))
  {
    Int32RoundTrip(n, rest);
  }

  lemma EventRoundTrip(e: Event, rest: Bytes)
    requires StringsFit(e) && SizeFits(e)
    ensures ParseEvent(EncodeEvent(e) + rest) == Some((e, rest))
  {
    hide ParseInt32, EncodeInt32, ParseCondition, EncodeCondition, ParseConditions, EncodeConditions;
    hide ParseBool, EncodeBool, ParseSize;
    var r4 := EncodeBool(e.enableOnce) + rest;
    var r3 := EncodeConditions(e.conditions) + r4;
    var r2 := EncodeInt32(ToInt32(|e.conditions|)) + r3;
    var r1 := EncodeBool(e.persistence) + r2;
    assert EncodeEvent(e) + rest == EncodeCondition(Head(e)) + r1;
    ConditionRoundTrip(Head(e), r1);
    BoolRoundTrip(e.persistence, r2);
    ConditionsAreNotShort(e.conditions);
    SizeRoundTrip(|e.conditions|, r3);
    ConditionsRoundTrip(e.conditions, |e.conditions|, r4);
    assert e.conditions[..|e.conditions|] == e.conditions && e.conditions[|e.conditions|..] == [];
    EmptyConditions(r4);
    BoolRoundTrip(e.enableOnce, rest);
  }

  lemma EmptyConditions(rest: Bytes)
    ensures EncodeConditions([]) + rest == rest
  {
  }

  lemma {:induction false} ListRoundTrip(es: seq<Event>, done: nat, rest: Bytes)
    requires done <= |es| && AllStringsFit(es) && forall i :: 0 <= i < |es| ==> SizeFits(es[i])
    ensures ParseList(done, EncodeList(es) + rest) == Some((es[..done], EncodeList(es[done..]) + rest))
  {
    hide ParseEvent, EncodeEvent, StringsFit;
    if done == 0 {
      assert es[0..] == es;
    } else {
      ListRoundTrip(es, done - 1, rest);
      var tail := es[done - 1..];
      assert tail[1..] == es[done..];
      assert EncodeList(tail) + rest == EncodeEvent(es[done - 1]) + (EncodeList(es[done..]) + rest);
      EventRoundTrip(es[done - 1], EncodeList(es[done..]) + rest);
      assert es[..done] == es[..done - 1] + [es[done - 1]];
    }
  }

  /** Parsing what was written gives the same events and leaves the bytes behind them alone. */
  lemma RoundTrip(es: seq<Event>, rest: Bytes)
    requires AllStringsFit(es) && SizesFit(es)
    ensures ParseEvents(EncodeEvents(es) + rest) == Some((es, rest))
  {
    hide ParseInt32, EncodeInt32, ParseSize, StringsFit;
    assert EncodeEvents(es) + rest == EncodeInt32(ToInt32(|es|)) + (EncodeList(es) + rest);
    ListIsNotShort(es);
    SizeRoundTrip(|es|, EncodeList(es) + rest);
    ListRoundTrip(es, |es|, rest);
    assert es[..|es|] == es && es[|es|..] == [] && EncodeList([]) + rest == rest;
  }

  lemma {:induction false} ParsedConditionsFit(n: nat, b: Bytes)
    ensures var r := ParseConditions(n, b); r.Some? ==> |r.value.0| == n
  {
    hide ParseCondition;
    if n > 0 {
      ParsedConditionsFit(n - 1, b);
    }
  }

  lemma ParsedEventFits(b: Bytes)
    ensures var r := ParseEvent(b); r.Some? ==> SizeFits(r.value.0)
  {
    hide ParseCondition, ParseBool, ParseConditions;
    var head := ParseCondition(b);
    if head.Some? {
      var persistence := ParseBool(head.value.1);
      if persistence.Some? {
        var size := ParseSize(persistence.value.1);
        if size.Some? {
          ParsedConditionsFit(size.value.0, size.value.1);
        }
      }
    }
  }

  lemma {:induction false} ParsedListFits(n: nat, b: Bytes)
    ensures var r := ParseList(n, b); r.Some? ==> |r.value.0| == n && forall i :: 0 <= i < n ==> SizeFits(r.value.0[i])
  {
    hide ParseEvent;
    if n > 0 {
      ParsedListFits(n - 1, b);
      var init := ParseList(n - 1, b);
      if init.Some? {
        ParsedEventFits(init.value.1);
      }
    }
  }

  /** The round trip holds exactly when all sizes are `int32_t` values. */
  lemma RoundTripIff(es: seq<Event>, rest: Bytes)
    requires AllStringsFit(es)
    ensures ParseEvents(EncodeEvents(es) + rest) == Some((es, rest)) <==> SizesFit(es)
  {
    if SizesFit(es) {
      RoundTrip(es, rest);
    } else {
      var size := ParseSize(EncodeEvents(es) + rest);
      if size.Some? {
        ParsedListFits(size.value.0, size.value.1);
      }
    }
  }

  /** A list that is one event too long for `int32_t` is such a list: its size is written as a negative
      number. */
  lemma OversizedListIsLost(e: Event, n: nat, rest: Bytes)
    requires StringsFit(e) && n == INT32_LIMIT
    ensures ToInt32(n) == -INT32_LIMIT
    ensures var es := seq(n, _ => e); ParseEvents(EncodeEvents(es) + rest) != Some((es, rest))
  {
    hide ParseEvents, EncodeEvents, StringsFit;
    RoundTripIff(seq(n, _ => e), rest);
  }

  /** A list whose size is negative or larger than the bytes behind it is refused. */
  lemma BadSizeIsRefused(v: Int32, rest: Bytes)
    requires v < 0 || v > |rest|
    ensures ParseEvents(EncodeInt32(v) + rest) == None
  {
    Int32RoundTrip(v, rest);
    hide ParseInt32, EncodeInt32, ParseList;
  }

  /** So is an event whose number of conditions is. */
  lemma BadConditionSizeIsRefused(h: Condition, persistence: bool, v: Int32, rest: Bytes)
    requires ConditionFits(h) && (v < 0 || v > |rest|)
    ensures ParseEvent(EncodeCondition(h) + (EncodeBool(persistence) + (EncodeInt32(v) + rest))) == None
  {
    hide ParseInt32, EncodeInt32, ParseCondition, EncodeCondition, ParseConditions, ParseBool, EncodeBool;
    ConditionRoundTrip(h, EncodeBool(persistence) + (EncodeInt32(v) + rest));
    BoolRoundTrip(persistence, EncodeInt32(v) + rest);
    Int32RoundTrip(v, rest);
  }

  /** Every integer but 0 reads as true. */
  lemma AnyNonZeroIsTrue(v: Int32, rest: Bytes)
    ensures ParseBool(EncodeInt32(v) + rest) == Some((v != 0, rest))
  {
    Int32RoundTrip(v, rest);
  }

  /** No encoding is a prefix of another one, so a list of events is determined by its bytes. */
  lemma EncodingIsPrefixFree(a: seq<Event>, b: seq<Event>, r: Bytes, s: Bytes)
    requires AllStringsFit(a) && SizesFit(a) && AllStringsFit(b) && SizesFit(b)
    requires EncodeEvents(a) + r == EncodeEvents(b) + s
    ensures a == b && r == s
  {
    RoundTrip(a, r);
    RoundTrip(b, s);
  }
}
