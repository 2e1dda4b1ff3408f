/**
 How often each user id looked up each ability: counters under packed 64-bit keys, and the
 periodic report that unpacks them and starts afresh.
 */
module LookupStatistics {
  import opened Common

  type Key = nat

  const MAX_SA_FREQUENCY_COUNT: int := 0x7fff_ffff - 1000000
  const TWO_32: int := 0x1_0000_0000

  datatype Lookup = Lookup(uid: Int32, sa: Int32)
  datatype Report = Report(uid: nat, sa: nat, count: int)

  /** The conversion of an `int32_t` to `uint32_t`. */
  function Unsigned(v: Int32): nat {
    if v < 0 then v + TWO_32 else v
  }

  /** Shifting the uid up by 32 bits leaves the lower half free for the ability. */
  function GenerateFreKey(uid: Int32, sa: Int32): Key
    requires uid >= 0
  {
    uid * TWO_32 + Unsigned(sa)
  }

  function Unpack(key: Key, count: int): Report {
    Report(key / TWO_32, key % TWO_32, count)
  }

  function Updated(m: map<Key, int>, l: Lookup): map<Key, int> {
    if l.uid < 0 then m
    else
      var key := GenerateFreKey(l.uid, l.sa);
      var count := if key in m then m[key] else 0;
      m[key := if count < MAX_SA_FREQUENCY_COUNT then count + 1 else count]
  }

  function After(ls: seq<Lookup>): map<Key, int> {
    if ls == [] then map[] else Updated(After(ls[..|ls| - 1]), ls[|ls| - 1])
  }

  /** One report per counter, in some order. */
  ghost predicate IsReport(reports: seq<Report>, m: map<Key, int>, keys: seq<Key>) {
    && |reports| == |keys|
    && (forall i, j :: 0 <= i < j < |keys| ==> keys[i] != keys[j])
    && (forall k :: k in keys <==> k in m)
    && (forall i :: 0 <= i < |keys| ==> keys[i] in m && reports[i] == Unpack(keys[i], m[keys[i]]))
  }

  class FrequencyTable {
    var saFrequencyMap: map<Key, int>

    constructor ()
      ensures saFrequencyMap == After([])
    {
      saFrequencyMap := map[];
    }

    method UpdateSaFreMap(l: Lookup) returns (count: int)
      modifies this
      ensures saFrequencyMap == Updated(old(saFrequencyMap), l)
      ensures count == if l.uid < 0 then -1 else saFrequencyMap[GenerateFreKey(l.uid, l.sa)]
    {
      if l.uid < 0 {
        return -1;
      }
      var key := GenerateFreKey(l.uid, l.sa);
      count := if key in saFrequencyMap then saFrequencyMap[key] else 0;
      if count < MAX_SA_FREQUENCY_COUNT {
        count := count + 1;
      }
      saFrequencyMap := saFrequencyMap[key := count];
    }

    method ReportGetSAPeriodically() returns (reports: seq<Report>, ghost keys: seq<Key>)
      modifies this
      ensures IsReport(reports, old(saFrequencyMap), keys)
      ensures saFrequencyMap == After([])
    {
      var all := KeySeq(saFrequencyMap.Keys);
      keys := all;
      reports := [];
      for i := 0 to |all|
        invariant |reports| == i
        invariant forall j :: 0 <= j < i ==> reports[j] == Unpack(all[j], saFrequencyMap[all[j]])
      {
        reports := reports + [Report(all[i] / TWO_32, all[i] % TWO_32, saFrequencyMap[all[i]])];
      }
      saFrequencyMap := map[];
    }
  }

  /** How often a uid looked up an ability. */
  function Times(ls: seq<Lookup>, l: Lookup): nat {
    if ls == [] then 0 else Times(ls[..|ls| - 1], l) + if ls[|ls| - 1] == l then 1 else 0
  }

  function Min(a: int, b: int): int {
    if a < b then a else b
  }

  /** Packing loses nothing: unpacking gives the uid and the ability back. */
  lemma UnpackInvertsPack(l: Lookup, count: int)
    requires l.uid >= 0
    ensures Unpack(GenerateFreKey(l.uid, l.sa), count) == Report(l.uid, Unsigned(l.sa), count)
  {
    var u := Unsigned(l.sa);
    assert 0 <= u < TWO_32;
    assert (l.uid * TWO_32 + u) / TWO_32 == l.uid && (l.uid * TWO_32 + u) % TWO_32 == u;
  }

  /** Different lookups have different keys. */
  lemma PackIsInjective(a: Lookup, b: Lookup)
    requires a.uid >= 0 && b.uid >= 0 && GenerateFreKey(a.uid, a.sa) == GenerateFreKey(b.uid, b.sa)
    ensures a == b
  {
    UnpackInvertsPack(a, 0);
    UnpackInvertsPack(b, 0);
  }

  /** Every counter is the number of lookups of its pair, up to the cap. */
  lemma {:induction false} CountersAreExact(ls: seq<Lookup>, l: Lookup)
    requires l.uid >= 0
    ensures var key := GenerateFreKey(l.uid, l.sa);
            && (key in After(ls) <==> Times(ls, l) > 0)
            && (key in After(ls) ==> After(ls)[key] == Min(Times(ls, l), MAX_SA_FREQUENCY_COUNT))
  {
    if ls != [] {
      var last := ls[|ls| - 1];
      CountersAreExact(ls[..|ls| - 1], l);
      if last.uid >= 0 && GenerateFreKey(last.uid, last.sa) == GenerateFreKey(l.uid, l.sa) {
        PackIsInjective(last, l);
      }
    }
  }

  lemma {:induction false} KeysComeFromLookups(ls: seq<Lookup>, key: Key) returns (l: Lookup)
    requires key in After(ls)
    ensures l.uid >= 0 && key == GenerateFreKey(l.uid, l.sa) && Times(ls, l) > 0
  {
    var last := ls[|ls| - 1];
    if last.uid >= 0 && GenerateFreKey(last.uid, last.sa) == key {
      l := last;
    } else {
      l := KeysComeFromLookups(ls[..|ls| - 1], key);
    }
  }

  /** After any lookups, the report has for every pair that was looked up with a valid uid exactly one
      line, with the number of its lookups up to the cap. */
  lemma ReportIsExact(ls: seq<Lookup>, reports: seq<Report>, keys: seq<Key>, l: Lookup) returns (i: nat)
    requires IsReport(reports, After(ls), keys) && l.uid >= 0 && Times(ls, l) > 0
    ensures i < |reports| && reports[i] == Report(l.uid, Unsigned(l.sa), Min(Times(ls, l), MAX_SA_FREQUENCY_COUNT))
    ensures forall j :: 0 <= j < |reports| && reports[j].uid == l.uid && reports[j].sa == Unsigned(l.sa) ==> j == i
  {
    CountersAreExact(ls, l);
    var key := GenerateFreKey(l.uid, l.sa);
    assert key in keys;
    i :| i < |keys| && keys[i] == key;
    UnpackInvertsPack(l, After(ls)[key]);
    forall j | 0 <= j < |reports| && reports[j].uid == l.uid && reports[j].sa == Unsigned(l.sa) ensures j == i {
      assert keys[j] == keys[j] / TWO_32 * TWO_32 + keys[j] % TWO_32;
    }
  }

  /** Nothing else is reported. */
  lemma ReportsOnlyLookups(ls: seq<Lookup>, reports: seq<Report>, keys: seq<Key>, i: nat) returns (l: Lookup)
    requires IsReport(reports, After(ls), keys) && i < |reports|
    ensures l.uid >= 0 && reports[i] == Report(l.uid, Unsigned(l.sa), Min(Times(ls, l), MAX_SA_FREQUENCY_COUNT))
    ensures Times(ls, l) > 0
  {
    l := KeysComeFromLookups(ls, keys[i]);
    CountersAreExact(ls, l);
    UnpackInvertsPack(l, After(ls)[keys[i]]);
  }
}
