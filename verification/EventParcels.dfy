/**
 The writers and readers of on-demand events on a parcel, and the conversions between the events of
 the interface and those of the manager.
 */
module EventParcels {
  import opened Common
  import opened OnDemandEvents

  /** A parcel: bytes appended at the end and consumed from a read position. A write that would
      exceed the capacity fails and writes nothing. */
  class MessageParcel {
    const capacity: nat
    var data: Bytes
    var readPos: nat

    constructor (capacity: nat)
      ensures Valid() && data == [] && Rest() == [] && this.capacity == capacity
    {
      this.capacity := capacity;
      data, readPos := [], 0;
    }

    ghost predicate Valid()
      reads this
    {
      readPos <= |data| <= capacity
    }

    ghost function Rest(): Bytes
      reads this
      requires Valid()
    {
      data[readPos..]
    }

    method Append(b: Bytes) returns (ok: bool)
      requires Valid()
      modifies this`data
      ensures Valid() && data == old(data) + if ok then b else []
      ensures ok <==> |old(data)| + |b| <= capacity
    {
      ok := |data| + |b| <= capacity;
      if ok {
        data := data + b;
      }
    }

    method WriteInt32(v: Int32) returns (ok: bool)
      requires Valid()
      modifies this`data
      ensures Valid() && data == old(data) + if ok then EncodeInt32(v) else []
      ensures ok <==> |old(data)| + 4 <= capacity
    {
      ok := Append(EncodeInt32(v));
    }

    method WriteBool(v: bool) returns (ok: bool)
      requires Valid()
      modifies this`data
      ensures Valid() && data == old(data) + if ok then EncodeBool(v) else []
      ensures ok <==> |old(data)| + |EncodeBool(v)| <= capacity
    {
      ok := Append(EncodeBool(v));
    }

    method WriteString(s: Bytes) returns (ok: bool)
      requires Valid()
      modifies this`data
      ensures Valid() && data == old(data) + if ok then EncodeString(s) else []
      ensures ok <==> StringFits(s) && |old(data)| + |EncodeString(s)| <= capacity
    {
      if |s| >= INT32_LIMIT {
        return false;
      }
      ok := Append(EncodeString(s));
    }

    method ReadInt32() returns (ok: bool, v: Int32)
      requires Valid()
      modifies this`readPos
      ensures Valid()
      ensures ok <==> ParseInt32(old(Rest())).Some?
      ensures ok ==> ParseInt32(old(Rest())) == Some((v, Rest()))
    {
      var r := ParseInt32(data[readPos..]);
      if r.None? {
        return false, 0;
      }
      assert data[readPos..][4..] == data[readPos + 4..];
      readPos := readPos + 4;
      return true, r.value.0;
    }

    method ReadBool() returns (ok: bool, v: bool)
      requires Valid()
      modifies this`readPos
      ensures Valid()
      ensures ok <==> ParseBool(old(Rest())).Some?
      ensures ok ==> ParseBool(old(Rest())) == Some((v, Rest()))
    {
      var n;
      ok, n := ReadInt32();
      v := n != 0;
    }

    method ReadString() returns (ok: bool, s: Bytes)
      requires Valid()
      modifies this`readPos
      ensures Valid()
      ensures ok <==> ParseString(old(Rest())).Some?
      ensures ok ==> ParseString(old(Rest())) == Some((s, Rest()))
    {
      var n;
      ok, n := ReadInt32();
      if !ok || n < 0 || n > |data| - readPos {
        return false, [];
      }
      s := data[readPos..readPos + n];
      assert Rest()[..n] == s && Rest()[n..] == data[readPos + n..];
      readPos := readPos + n;
    }

    /** The bytes that have not been read yet. */
    method GetReadableBytes() returns (n: nat)
      requires Valid()
      ensures n == |Rest()|
    {
      n := |data| - readPos;
    }
  }

  // ---- writers ----

  /** A failed write leaves a part of the encoding behind and means that the whole does not fit. */
  twostate predicate Wrote(p: MessageParcel, ok: bool, fits: bool, b: Bytes)
    reads p
  {
    && p.Valid()
    && (ok <==> fits && |old(p.data)| + |b| <= p.capacity)
    && (ok ==> p.data == old(p.data) + b)
    && old(p.data) <= p.data
  }

  method WriteOnDemandConditionToParcel(c: Condition, p: MessageParcel) returns (ok: bool)
    requires p.Valid()
    modifies p`data
    ensures Wrote(p, ok, ConditionFits(c), EncodeCondition(c))
  {
    hide EncodeInt32, EncodeString;
    ok := p.WriteInt32(c.eventId);
    if !ok {
      return;
    }
    ok := p.WriteString(c.name);
    if !ok {
      return;
    }
    ok := p.WriteString(c.value);
  }

  method WriteOnDemandEventToParcel(e: Event, p: MessageParcel) returns (ok: bool)
    requires p.Valid()
    modifies p`data
    ensures Wrote(p, ok, ConditionFits(Head(e)), EncodeCondition(Head(e)))
  {
    hide EncodeInt32, EncodeString;
    ok := p.WriteInt32(e.eventId);
    if !ok {
      return;
    }
    ok := p.WriteString(e.name);
    if !ok {
      return;
    }
    ok := p.WriteString(e.value);
  }

  lemma {:induction false} ConditionsSnoc(cs: seq<Condition>, i: nat)
    requires i < |cs|
    ensures EncodeConditions(cs[..i + 1]) == EncodeConditions(cs[..i]) + EncodeCondition(cs[i])
    ensures |EncodeConditions(cs[..i + 1])| <= |EncodeConditions(cs)|
  {
    hide EncodeCondition;
    if i == 0 {
      assert cs[..1] == [cs[0]] && cs[..1][1..] == [] && cs[..0] == [];
      assert EncodeConditions([]) == [];
    } else {
      ConditionsSnoc(cs[1..], i - 1);
      assert cs[..i + 1][1..] == cs[1..][..i] && cs[..i][1..] == cs[1..][..i - 1];
    }
  }

  lemma {:induction false} ListSnoc(es: seq<Event>, i: nat)
    requires i < |es|
    ensures EncodeList(es[..i + 1]) == EncodeList(es[..i]) + EncodeEvent(es[i])
    ensures |EncodeList(es[..i + 1])| <= |EncodeList(es)|
  {
    hide EncodeEvent;
    if i == 0 {
      assert es[..1] == [es[0]] && es[..1][1..] == [] && es[..0] == [];
      assert EncodeList([]) == [];
    } else {
      ListSnoc(es[1..], i - 1);
      assert es[..i + 1][1..] == es[1..][..i] && es[..i][1..] == es[1..][..i - 1];
    }
  }

  /** The loop over the conditions of one event. */
  method WriteConditions(cs: seq<Condition>, p: MessageParcel) returns (ok: bool)
    requires p.Valid()
    modifies p`data
    ensures Wrote(p, ok, forall i :: 0 <= i < |cs| ==> ConditionFits(cs[i]), EncodeConditions(cs))
  {
    hide EncodeCondition, ConditionFits, EncodeConditions;
    EncodeNone();
    for i := 0 to |cs|
      invariant p.Valid() && p.data == old(p.data) + EncodeConditions(cs[..i])
      invariant forall j :: 0 <= j < i ==> ConditionFits(cs[j])
    {
      ConditionsSnoc(cs, i);
      ok := WriteOnDemandConditionToParcel(cs[i], p);
      if !ok {
        return;
      }
    }
    assert cs[..|cs|] == cs;
    ok := true;
  }

  lemma EncodeNone()
    ensures EncodeConditions([]) == [] && EncodeList([]) == []
  {
  }

  /** The body of the loop over the events. */
  method WriteWholeEvent(e: Event, p: MessageParcel) returns (ok: bool)
    requires p.Valid()
    modifies p`data
    ensures Wrote(p, ok, StringsFit(e), EncodeEvent(e))
  {
    hide EncodeInt32, EncodeBool, EncodeCondition, EncodeConditions, ConditionFits;
    ok := WriteOnDemandEventToParcel(e, p);
    if !ok {
      return;
    }
    ok := p.WriteBool(e.persistence);
    if !ok {
      return;
    }
    ok := p.WriteInt32(ToInt32(|e.conditions|));
    if !ok {
      return;
    }
    ok := WriteConditions(e.conditions, p);
    if !ok {
      return;
    }
    ok := p.WriteBool(e.enableOnce);
  }

  /** Writes a list of events: it succeeds exactly when the strings and the whole encoding fit, and
      then the parcel has gained the encoding and nothing else. */
  method WriteOnDemandEventsToParcel(es: seq<Event>, p: MessageParcel) returns (ok: bool)
    requires p.Valid()
    modifies p`data
    ensures Wrote(p, ok, AllStringsFit(es), EncodeEvents(es))
  {
    hide EncodeInt32, EncodeEvent, EncodeList, StringsFit;
    ok := p.WriteInt32(ToInt32(|es|));
    if !ok {
      return;
    }
    ghost var start := p.data;
    EncodeNone();
    for i := 0 to |es|
      invariant p.Valid() && p.data == start + EncodeList(es[..i])
      invariant forall j :: 0 <= j < i ==> StringsFit(es[j])
    {
      ListSnoc(es, i);
      ok := WriteWholeEvent(es[i], p);
      if !ok {
        return;
      }
    }
    assert es[..|es|] == es;
    ok := true;
  }

  // ---- readers ----

  method ReadOnDemandConditionFromParcel(p: MessageParcel) returns (ok: bool, c: Condition)
    requires p.Valid()
    modifies p`readPos
    ensures p.Valid()
    ensures ok <==> ParseCondition(old(p.Rest())).Some?
    ensures ok ==> ParseCondition(old(p.Rest())) == Some((c, p.Rest()))
  {
    hide ParseInt32, ParseString;
    c := Condition(0, [], []);
    var id, name, value;
    ok, id := p.ReadInt32();
    if !ok {
      return;
    }
    ok, name := p.ReadString();
    if !ok {
      return;
    }
    ok, value := p.ReadString();
    c := Condition(id, name, value);
  }

  /** The guarded size and the loop over the conditions of one event. */
  method ReadConditions(p: MessageParcel) returns (ok: bool, cs: seq<Condition>)
    requires p.Valid()
    modifies p`readPos
    ensures p.Valid()
    ensures var size := ParseSize(old(p.Rest()));
            var parsed := if size.Some? then ParseConditions(size.value.0, size.value.1) else None;
            (ok <==> parsed.Some?) && (ok ==> parsed == Some((cs, p.Rest())))
  {
    hide ParseInt32, ParseCondition;
    cs := [];
    var size: Int32;
    ok, size := p.ReadInt32();
    if !ok {
      return;
    }
    var readable := p.GetReadableBytes();
    if size > readable || size < 0 {
      return false, [];
    }
    ghost var b := p.Rest();
    for j := 0 to size
      invariant p.Valid() && ParseConditions(j, b) == Some((cs, p.Rest()))
    {
      var c;
      ok, c := ReadOnDemandConditionFromParcel(p);
      if !ok {
        AFailureStays(j, size, b);
        return;
      }
      cs := cs + [c];
    }
    ok := true;
  }

  lemma {:induction false} AFailureStays(j: nat, n: nat, b: Bytes)
    requires j < n && ParseConditions(j + 1, b).None?
    ensures ParseConditions(n, b).None?
  {
    hide ParseCondition;
    if j + 1 < n {
      AFailureStays(j, n - 1, b);
    }
  }

  lemma {:induction false} AnEventFailureStays(j: nat, n: nat, b: Bytes)
    requires j < n && ParseList(j + 1, b).None?
    ensures ParseList(n, b).None?
  {
    hide ParseEvent;
    if j + 1 < n {
      AnEventFailureStays(j, n - 1, b);
    }
  }

  /** The body of the loop over the events. */
  method ReadWholeEvent(p: MessageParcel) returns (ok: bool, e: Event)
    requires p.Valid()
    modifies p`readPos
    ensures p.Valid()
    ensures ok <==> ParseEvent(old(p.Rest())).Some?
    ensures ok ==> ParseEvent(old(p.Rest())) == Some((e, p.Rest()))
  {
    hide ParseCondition, ParseBool, ParseSize, ParseConditions;
    e := Event(0, [], [], false, [], false);
    var head, persistence, cs, enableOnce;
    ok, head := ReadOnDemandConditionFromParcel(p);
    if !ok {
      return;
    }
    ok, persistence := p.ReadBool();
    if !ok {
      return;
    }
    ok, cs := ReadConditions(p);
    if !ok {
      return;
    }
    ok, enableOnce := p.ReadBool();
    e := Event(head.eventId, head.name, head.value, persistence, cs, enableOnce);
  }

  /** Reads a list of events and appends it to `events`. A malformed parcel is refused, with some of
      its events possibly appended. */
  method ReadOnDemandEventsFromParcel(events: seq<Event>, p: MessageParcel) returns (ok: bool, out: seq<Event>)
    requires p.Valid()
    modifies p`readPos
    ensures p.Valid() && events <= out
    ensures ok <==> ParseEvents(old(p.Rest())).Some?
    ensures ok ==> ParseEvents(old(p.Rest())) == Some((out[|events|..], p.Rest()))
  {
    hide ParseInt32, ParseEvent;
    out := events;
    var size: Int32;
    ok, size := p.ReadInt32();
    if !ok {
      return;
    }
    var readable := p.GetReadableBytes();
    if size > readable || size < 0 {
      return false, out;
    }
    ghost var b := p.Rest();
    assert events[|events|..] == [];
    for i := 0 to size
      invariant p.Valid() && events <= out
      invariant ParseList(i, b) == Some((out[|events|..], p.Rest()))
    {
      var e;
      ok, e := ReadWholeEvent(p);
      if !ok {
        AnEventFailureStays(i, size, b);
        return;
      }
      assert (out + [e])[|events|..] == out[|events|..] + [e];
      out := out + [e];
    }
    ok := true;
  }

  /** Writing to a parcel and reading back, with other data behind. */
  method WriteThenRead(es: seq<Event>, behind: Bytes, p: MessageParcel) returns (ok: bool, out: seq<Event>)
    requires p.Valid() && p.Rest() == [] && SizesFit(es)
    modifies p
    ensures p.Valid()
    ensures ok <==> AllStringsFit(es) && |old(p.data)| + |EncodeEvents(es)| + |behind| <= p.capacity
    ensures ok ==> out == es && p.Rest() == behind
  {
    out := [];
    ok := WriteOnDemandEventsToParcel(es, p);
    if !ok {
      return;
    }
    ok := p.Append(behind);
    if !ok {
      return;
    }
    assert p.Rest() == EncodeEvents(es) + behind;
    RoundTrip(es, behind);
    ok, out := ReadOnDemandEventsFromParcel([], p);
  }

  // ---- the manager's own form ----

  type Messages = map<string, string>

  const NO_EXTRA_DATA: int := -1
  const LOW_PRIORITY: int := 3

  datatype InternalCondition = InternalCondition(eventId: Int32, name: Bytes, value: Bytes, extraMessages: Messages)
  datatype InternalEvent = InternalEvent(
    eventId: Int32, name: Bytes, value: Bytes, extraDataId: int, persistence: bool,
    conditions: seq<InternalCondition>, enableOnce: bool, loadPriority: int, extraMessages: Messages)

  /** A default-constructed event of each form; the id is whatever it was. */
  function NewInternal(id: Int32): InternalEvent {
    InternalEvent(id, [], [], NO_EXTRA_DATA, false, [], false, LOW_PRIORITY, map[])
  }

  function NewEvent(id: Int32): Event {
    Event(id, [], [], false, [], false)
  }

  function InternalOf(c: Condition): InternalCondition {
    InternalCondition(c.eventId, c.name, c.value, map[])
  }

  function ExternalOf(c: InternalCondition): Condition {
    Condition(c.eventId, c.name, c.value)
  }

  function Internals(cs: seq<Condition>): seq<InternalCondition> {
    seq(|cs|, i requires 0 <= i < |cs| => InternalOf(cs[i]))
  }

  function Externals(cs: seq<InternalCondition>): seq<Condition> {
    seq(|cs|, i requires 0 <= i < |cs| => ExternalOf(cs[i]))
  }

  function ToInternal(from: Event, to: InternalEvent): InternalEvent {
    InternalEvent(from.eventId, from.name, from.value, to.extraDataId, from.persistence,
                  to.conditions + Internals(from.conditions), from.enableOnce, to.loadPriority, to.extraMessages)
  }

  function ToExternal(from: InternalEvent, to: Event): Event {
    Event(from.eventId, from.name, from.value, from.persistence, to.conditions + Externals(from.conditions),
          from.enableOnce)
  }

  method ConvertToOnDemandEvent(from: Event, to: InternalEvent) returns (r: InternalEvent)
    ensures r == ToInternal(from, to)
  {
    var conditions := to.conditions;
    for i := 0 to |from.conditions|
      invariant conditions == to.conditions + Internals(from.conditions[..i])
    {
      var c := from.conditions[i];
      conditions := conditions + [InternalCondition(c.eventId, c.name, c.value, map[])];
      assert Internals(from.conditions[..i + 1]) == Internals(from.conditions[..i]) + [InternalOf(c)];
    }
    assert from.conditions[..|from.conditions|] == from.conditions;
    r := InternalEvent(from.eventId, from.name, from.value, to.extraDataId, from.persistence, conditions,
                       from.enableOnce, to.loadPriority, to.extraMessages);
  }

  method ConvertToSystemAbilityOnDemandEvent(from: InternalEvent, to: Event) returns (r: Event)
    ensures r == ToExternal(from, to)
  {
    var conditions := to.conditions;
    for i := 0 to |from.conditions|
      invariant conditions == to.conditions + Externals(from.conditions[..i])
    {
      var c := from.conditions[i];
      conditions := conditions + [Condition(c.eventId, c.name, c.value)];
      assert Externals(from.conditions[..i + 1]) == Externals(from.conditions[..i]) + [ExternalOf(c)];
    }
    assert from.conditions[..|from.conditions|] == from.conditions;
    r := Event(from.eventId, from.name, from.value, from.persistence, conditions, from.enableOnce);
  }

  /** Converting to the manager's form and back is the identity, for fresh targets. */
  lemma ConversionRoundTrip(e: Event, a: Int32, b: Int32)
    ensures ToExternal(ToInternal(e, NewInternal(a)), NewEvent(b)) == e
  {
    assert Externals(Internals(e.conditions)) == e.conditions;
  }

  predicate NothingExtra(e: InternalEvent) {
    && e.extraDataId == NO_EXTRA_DATA && e.loadPriority == LOW_PRIORITY && e.extraMessages == map[]
    && forall i :: 0 <= i < |e.conditions| ==> e.conditions[i].extraMessages == map[]
  }

  /** The other way round it is the identity exactly for events that carry nothing extra. */
  lemma ConversionBackRoundTrip(e: InternalEvent, a: Int32, b: Int32)
    ensures ToInternal(ToExternal(e, NewEvent(a)), NewInternal(b)) == e <==> NothingExtra(e)
  {
    var r := Internals(Externals(e.conditions));
    assert |r| == |e.conditions|;
    forall i | 0 <= i < |r| ensures r[i] == InternalOf(ExternalOf(e.conditions[i])) { }
    if NothingExtra(e) {
      assert r == e.conditions;
    }
    assert [] + r == r && [] + Externals(e.conditions) == Externals(e.conditions);
  }
}
