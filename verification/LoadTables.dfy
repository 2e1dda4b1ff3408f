/**
 The pending-load table as the base manager keeps it: for every ability being started a map from
 requesting device to the list of its callbacks, and the number of callbacks per local process.
 Every method leaves the table as the corresponding operation of `PendingLoads` says.
 */
module LoadTables {
  import opened Common
  import opened PendingLoads
  import ListenerTables

  const INVALID_CALL_PROC: int := 1005

  type Starting = map<Sa, map<Device, seq<Callback>>>

  function ItemAt(m: Starting, sa: Sa): map<Device, seq<Callback>> {
    if sa in m then m[sa] else map[]
  }

  /** All lists of the nested map, by ability and device. */
  ghost function Flat(m: Starting): Table {
    map k | k in ListKeys(m) :: ItemAt(m, k.0)[k.1]
  }

  ghost function ListKeys(m: Starting): (r: set<Key>)
    ensures forall k: Key :: k in r <==> k.1 in ItemAt(m, k.0)
  {
    set sa, d | sa in m && d in ItemAt(m, sa) :: (sa, d)
  }

  lemma FlatAt(m: Starting, k: Key)
    ensures k in Flat(m) <==> k.0 in m && k.1 in m[k.0]
    ensures k in Flat(m) ==> Flat(m)[k] == m[k.0][k.1]
  {
  }

  lemma ListInItem(m: Starting, k: Key)
    ensures ListAt(Flat(m), k) == if k.1 in ItemAt(m, k.0) then ItemAt(m, k.0)[k.1] else []
  {
    FlatAt(m, k);
  }

  lemma FlatEqual(m: Starting, t: Table)
    requires forall k :: k in t <==> k.0 in m && k.1 in m[k.0]
    requires forall k :: k in t ==> t[k] == m[k.0][k.1]
    ensures Flat(m) == t
  {
    forall k: Key ensures k in Flat(m) <==> k in t { FlatAt(m, k); }
    forall k | k in t ensures Flat(m)[k] == t[k] { FlatAt(m, k); }
  }

  lemma FlatPut(m: Starting, k: Key, list: seq<Callback>)
    ensures Flat(m[k.0 := ItemAt(m, k.0)[k.1 := list]]) == Flat(m)[k := list]
  {
    var m' := m[k.0 := ItemAt(m, k.0)[k.1 := list]];
    var t := Flat(m)[k := list];
    forall x: Key
      ensures x in t <==> x.0 in m' && x.1 in m'[x.0]
      ensures x in t ==> t[x] == m'[x.0][x.1]
    {
      FlatAt(m, x);
    }
    FlatEqual(m', t);
  }

  lemma FlatWithout(m: Starting, k: Key)
    ensures Flat(m[k.0 := ItemAt(m, k.0) - {k.1}]) == Flat(m) - {k}
  {
    var m' := m[k.0 := ItemAt(m, k.0) - {k.1}];
    var t := Flat(m) - {k};
    forall x: Key
      ensures x in t <==> x.0 in m' && x.1 in m'[x.0]
      ensures x in t ==> t[x] == m'[x.0][x.1]
    {
      FlatAt(m, x);
    }
    FlatEqual(m', t);
  }

  lemma FlatWithoutEmpty(m: Starting, sa: Sa)
    requires ItemAt(m, sa) == map[]
    ensures Flat(m - {sa}) == Flat(m)
  {
    forall x: Key
      ensures x in Flat(m) <==> x.0 in m - {sa} && x.1 in (m - {sa})[x.0]
      ensures x in Flat(m) ==> Flat(m)[x] == (m - {sa})[x.0][x.1]
    {
      FlatAt(m, x);
    }
    FlatEqual(m - {sa}, Flat(m));
  }

  function KeysFor(sa: Sa, devices: seq<Device>): (r: seq<Key>)
    ensures |r| == |devices| && forall n :: 0 <= n < |r| ==> r[n] == (sa, devices[n])
  {
    seq(|devices|, n requires 0 <= n < |devices| => (sa, devices[n]))
  }

  /** Visiting every device of an ability visits every list of the ability. */
  lemma AllKeys(m: Starting, sa: Sa, devices: seq<Device>)
    requires forall d :: d in devices <==> d in ItemAt(m, sa)
    ensures forall k :: k in KeysFor(sa, devices) <==> k in Flat(m) && k.0 == sa
  {
    forall k: Key ensures k in KeysFor(sa, devices) <==> k in Flat(m) && k.0 == sa {
      FlatAt(m, k);
      if k.0 == sa && k.1 in devices {
        var n :| 0 <= n < |devices| && devices[n] == k.1;
        assert KeysFor(sa, devices)[n] == k;
      }
    }
  }

  lemma {:induction false} FirstIndex(s: seq<Callback>, o: Obj, i: nat)
    requires i <= |s| && (forall j :: 0 <= j < i ==> s[j].ref.obj != o) && (i < |s| ==> s[i].ref.obj == o)
    ensures IndexOf(s, o) == i
  {
    if i > 0 {
      FirstIndex(s[1..], o, i - 1);
    }
  }

  lemma {:induction false} FinishedLists(l: Loads, keys: seq<Key>, outcome: Outcome, k: Key)
    ensures k in FinishLists(l, keys, outcome).table <==> k in l.table && k !in keys
    ensures k in FinishLists(l, keys, outcome).table ==> FinishLists(l, keys, outcome).table[k] == l.table[k]
  {
    if keys != [] {
      FinishedLists(l, keys[..|keys| - 1], outcome, k);
      assert keys == keys[..|keys| - 1] + [keys[|keys| - 1]];
    }
  }

  lemma NothingDied(l: Loads, o: Obj)
    ensures DiedEverywhere(l, [], o) == l
  {
  }

  lemma NothingFinished(l: Loads, outcome: Outcome)
    ensures FinishLists(l, [], outcome) == l
  {
  }

  lemma {:induction false} DiedInTurn(l: Loads, a: seq<Key>, b: seq<Key>, o: Obj)
    ensures DiedEverywhere(l, a + b, o) == DiedEverywhere(DiedEverywhere(l, a, o), b, o)
    decreases |b|
  {
    if b == [] {
      assert a + b == a;
    } else {
      var init := b[..|b| - 1];
      assert (a + b)[..|a + b| - 1] == a + init;
      DiedInTurn(l, a, init, o);
    }
  }

  lemma KeysForDistinct(sa: Sa, devices: seq<Device>)
    requires forall i, j :: 0 <= i < j < |devices| ==> devices[i] != devices[j]
    ensures NoKeyTwice(KeysFor(sa, devices))
  {
  }

  lemma JoinedKeys(keys: seq<Key>, more: seq<Key>, abilities: seq<Sa>, sa: Sa)
    requires NoKeyTwice(keys) && NoKeyTwice(more) && sa !in abilities
    requires (forall k :: k in keys ==> k.0 in abilities) && forall k :: k in more ==> k.0 == sa
    ensures NoKeyTwice(keys + more)
  {
    assert forall i :: 0 <= i < |keys| ==> keys[i] in keys;
    assert forall i :: 0 <= i < |more| ==> more[i] in more;
  }

  lemma OneMoreKey(sa: Sa, devices: seq<Device>, i: nat)
    requires i < |devices|
    ensures KeysFor(sa, devices[..i + 1]) == KeysFor(sa, devices[..i]) + [(sa, devices[i])]
  {
  }

  lemma OneMoreDied(l: Loads, keys: seq<Key>, k: Key, o: Obj)
    ensures DiedEverywhere(l, keys + [k], o) == Died(DiedEverywhere(l, keys, o), k, o)
  {
    assert (keys + [k])[..|keys|] == keys;
  }

  /** A list that comes next is still there when those before it are finished. */
  lemma OneMoreFinished(l: Loads, keys: seq<Key>, k: Key, outcome: Outcome)
    requires k !in keys
    ensures FinishLists(l, keys + [k], outcome) == FinishList(FinishLists(l, keys, outcome), k, outcome)
    ensures ListAt(FinishLists(l, keys, outcome).table, k) == ListAt(l.table, k)
  {
    assert (keys + [k])[..|keys|] == keys;
    FinishedLists(l, keys, outcome, k);
  }

  /** Finishing all lists of an ability takes the ability out of the nested map. */
  lemma FinishedAbility(m: Starting, l: Loads, sa: Sa, keys: seq<Key>, outcome: Outcome)
    requires l.table == Flat(m) && forall k :: k in keys <==> k in l.table && k.0 == sa
    ensures Flat(m - {sa}) == FinishLists(l, keys, outcome).table
  {
    var done := FinishLists(l, keys, outcome).table;
    forall k: Key
      ensures k in done <==> k.0 in m - {sa} && k.1 in (m - {sa})[k.0]
      ensures k in done ==> done[k] == (m - {sa})[k.0][k.1]
    {
      FinishedLists(l, keys, outcome, k);
      FlatAt(m, k);
    }
    FlatEqual(m - {sa}, done);
  }

  lemma {:induction false} FinishKeepsTickets(l: Loads, keys: seq<Key>, outcome: Outcome)
    ensures FinishLists(l, keys, outcome).next == l.next
  {
    if keys != [] {
      FinishKeepsTickets(l, keys[..|keys| - 1], outcome);
    }
  }

  class LoadTable {
    var startingAbilityMap: Starting
    var callbackCountMap: map<Pid, int>
    var nextTicket: Ticket
    var told: seq<(Ticket, Outcome)>

    constructor ()
      ensures Value() == EMPTY
    {
      startingAbilityMap, callbackCountMap, nextTicket, told := map[], map[], 0, [];
    }

    ghost function Value(): Loads
      reads this
    {
      Loads(Flat(startingAbilityMap), callbackCountMap, nextTicket, told)
    }

    /** A local load request. When the ability is there the callback is told at once, if this was a
        call through the interface, and never waits. */
    method DoLoadSystemAbility(sa: Sa, ref: Ref, pid: Pid, present: bool, interfaceCall: bool, started: Err)
        returns (err: Err, toldAtOnce: bool)
      modifies this
      ensures present ==> Value() == old(Value()) && err == ErrOk && toldAtOnce == interfaceCall
      ensures !present ==> Value() == Accept(old(Value()), sa, ref, pid).0 && !toldAtOnce
      ensures !present ==>
                err == if nextTicket == old(nextTicket) then Accept(old(Value()), sa, ref, pid).1 else started
    {
      hide Flat;
      if present {
        return ErrOk, interfaceCall;
      }
      toldAtOnce := false;
      ghost var was, k := startingAbilityMap, (sa, LOCAL_DEVICE);
      var item := ItemAt(startingAbilityMap, sa);
      var list := if LOCAL_DEVICE in item then item[LOCAL_DEVICE] else [];
      startingAbilityMap := startingAbilityMap[sa := item[LOCAL_DEVICE := list]];
      ListInItem(was, k);
      FlatPut(was, k, list);
      for i := 0 to |list|
        invariant forall j :: 0 <= j < i ==> list[j].ref.obj != ref.obj
      {
        if list[i].ref.obj == ref.obj {
          assert HasObj(list, ref.obj);
          return ErrOk, false;
        }
      }
      var count := if pid in callbackCountMap then callbackCountMap[pid] else 0;
      if count >= MAX_SUBSCRIBE_COUNT {
        return CallbackMapSizeLimit, false;
      }
      callbackCountMap := callbackCountMap[pid := count + 1];
      var added := list + [Callback(ref, pid, nextTicket)];
      startingAbilityMap := startingAbilityMap[sa := item[LOCAL_DEVICE := added]];
      nextTicket := nextTicket + 1;
      FlatPut(was, k, added);
      assert startingAbilityMap == was[sa := item[LOCAL_DEVICE := added]];
      err := started;
    }

    /** A load request from another device. */
    method DoLoadSystemAbilityFromRpc(device: Device, sa: Sa, ref: Ref, present: bool)
        returns (toldAtOnce: bool)
      modifies this
      ensures toldAtOnce == present
      ensures Value() == if present then old(Value()) else AcceptRpc(old(Value()), (sa, device), ref)
    {
      hide Flat;
      if present {
        return true;
      }
      ghost var was := startingAbilityMap;
      var item := ItemAt(startingAbilityMap, sa);
      var list := if device in item then item[device] else [];
      var added := list + [Callback(ref, 0, nextTicket)];
      startingAbilityMap := startingAbilityMap[sa := item[device := added]];
      nextTicket := nextTicket + 1;
      ListInItem(was, (sa, device));
      FlatPut(was, (sa, device), added);
      toldAtOnce := false;
    }

    /** `RemoveStartingAbilityCallbackLocked`: the charge of one callback is given back. */
    method RemoveStartingAbilityCallbackLocked(c: Callback)
      modifies this`callbackCountMap
      ensures callbackCountMap == ListenerTables.Release(old(callbackCountMap), c.pid)
    {
      if c.pid in callbackCountMap {
        callbackCountMap := callbackCountMap[c.pid := callbackCountMap[c.pid] - 1];
        if callbackCountMap[c.pid] == 0 {
          callbackCountMap := callbackCountMap - {c.pid};
        }
      }
    }

    /** One list of a finished ability: everybody on it is told and its charge given back. */
    method FinishOneList(list: seq<Callback>, outcome: Outcome)
      modifies this`callbackCountMap, this`told
      ensures callbackCountMap == ReleaseAll(old(callbackCountMap), list)
      ensures told == old(told) + Tell(list, outcome)
    {
      for j := 0 to |list|
        invariant callbackCountMap == ReleaseAll(old(callbackCountMap), list[..j])
        invariant told == old(told) + Tell(list[..j], outcome)
      {
        told := told + [(list[j].ticket, outcome)];
        assert Tell(list[..j + 1], outcome) == Tell(list[..j], outcome) + [(list[j].ticket, outcome)];
        RemoveStartingAbilityCallbackLocked(list[j]);
        assert list[..j + 1][..j] == list[..j];
      }
      assert list[..|list|] == list;
    }

    /** All lists of one ability, as the success and the start failure path empty them. `keys` is the
        order in which the devices were visited. */
    method FinishAbility(sa: Sa, outcome: Outcome) returns (ghost keys: seq<Key>)
      modifies this
      ensures forall k :: k in keys <==> k in old(Value()).table && k.0 == sa
      ensures Value() == FinishLists(old(Value()), keys, outcome)
      ensures sa !in startingAbilityMap
    {
      hide Flat, FinishLists, KeysFor;
      keys := [];
      NothingFinished(Value(), outcome);
      if sa !in startingAbilityMap {
        AllKeys(startingAbilityMap, sa, []);
        return;
      }
      ghost var was := Value();
      var item := startingAbilityMap[sa];
      var devices := KeySeq(item.Keys);
      for i := 0 to |devices|
        invariant startingAbilityMap == old(startingAbilityMap) && nextTicket == old(nextTicket)
        invariant keys == KeysFor(sa, devices[..i])
        invariant callbackCountMap == FinishLists(was, keys, outcome).counts
        invariant told == FinishLists(was, keys, outcome).told
      {
        ghost var k := (sa, devices[i]);
        OneMoreKey(sa, devices, i);
        OneMoreFinished(was, keys, k, outcome);
        ListInItem(startingAbilityMap, k);
        FinishOneList(item[devices[i]], outcome);
        keys := keys + [k];
      }
      startingAbilityMap := startingAbilityMap - {sa};
      assert devices[..|devices|] == devices;
      AllKeys(old(startingAbilityMap), sa, devices);
      FinishedAbility(old(startingAbilityMap), was, sa, keys, outcome);
      FinishKeepsTickets(was, keys, outcome);
    }

    /** The ability was added: everybody waiting for it is told. */
    method NotifySystemAbilityLoaded(sa: Sa) returns (ghost keys: seq<Key>)
      modifies this
      ensures forall k :: k in keys <==> k in old(Value()).table && k.0 == sa
      ensures Value() == FinishLists(old(Value()), keys, Success)
      ensures sa !in startingAbilityMap
    {
      keys := FinishAbility(sa, Success);
    }

    /** The ability could not be started: everybody waiting for it is told the error, unless the
        ability is there after all or the report does not come from its own process. */
    method OnStartSystemAbilityFail(sa: Sa, code: int, present: bool, hasProfile: bool, fromItsProcess: bool)
        returns (err: Err, ghost keys: seq<Key>)
      modifies this
      ensures Value() == FinishLists(old(Value()), keys, StartFailed(code))
      ensures if !present && hasProfile && fromItsProcess
              then err == ErrOk && forall k :: k in keys <==> k in old(Value()).table && k.0 == sa
              else keys == [] && (err == ErrOk <==> present)
    {
      keys := [];
      if present {
        return ErrOk, [];
      }
      if !hasProfile {
        return InvalidValue, [];
      }
      if !fromItsProcess {
        return OtherFailure(INVALID_CALL_PROC), [];
      }
      keys := FinishAbility(sa, StartFailed(code));
      err := ErrOk;
    }

    /** A load that timed out. */
    method CleanCallbackForLoadFailed(sa: Sa, device: Device, o: Obj)
      modifies this
      ensures Value() == TimeOut(old(Value()), (sa, device), o)
    {
      hide Flat;
      ghost var was := Value();
      ghost var k := (sa, device);
      if sa !in startingAbilityMap {
        FlatAt(startingAbilityMap, k);
        assert was.table - {k} == was.table;
        return;
      }
      var item := startingAbilityMap[sa];
      var list := if device in item then item[device] else [];
      ListInItem(startingAbilityMap, k);
      var i := FindCallback(list, o);
      if i < |list| {
        told := told + [(list[i].ticket, TimedOut)];
        RemoveStartingAbilityCallbackLocked(list[i]);
        list := RemoveEqual(list, list[i]);
      }
      PutBack(sa, device, list);
    }

    /** The position of a callback in a list, or the length of the list. */
    method FindCallback(list: seq<Callback>, o: Obj) returns (i: nat)
      ensures i == IndexOf(list, o)
    {
      i := 0;
      while i < |list| && list[i].ref.obj != o
        invariant i <= |list| && forall j :: 0 <= j < i ==> list[j].ref.obj != o
      {
        i := i + 1;
      }
      FirstIndex(list, o, i);
    }

    /** Stores a list back, dropping it when empty, and the ability with its last list. */
    method PutBack(sa: Sa, device: Device, list: seq<Callback>)
      requires sa in startingAbilityMap
      modifies this`startingAbilityMap
      ensures Flat(startingAbilityMap) == PutList(old(Flat(startingAbilityMap)), (sa, device), list)
      ensures startingAbilityMap - {sa} == old(startingAbilityMap) - {sa}
      ensures var item := old(startingAbilityMap)[sa];
              ItemAt(startingAbilityMap, sa) == if list == [] then item - {device} else item[device := list]
    {
      hide Flat;
      ghost var was, k := startingAbilityMap, (sa, device);
      var item := startingAbilityMap[sa];
      item := if list == [] then item - {device} else item[device := list];
      startingAbilityMap := startingAbilityMap[sa := item];
      if list == [] {
        FlatWithout(was, k);
      } else {
        FlatPut(was, k, list);
      }
      if item == map[] {
        FlatWithoutEmpty(startingAbilityMap, sa);
        startingAbilityMap := startingAbilityMap - {sa};
      }
    }

    /** A dead callback leaves one list, once. */
    method RemoveStartingAbilityCallback(sa: Sa, device: Device, o: Obj)
      requires sa in startingAbilityMap && device in startingAbilityMap[sa]
      modifies this`startingAbilityMap, this`callbackCountMap
      ensures Value() == Died(old(Value()), (sa, device), o)
      ensures startingAbilityMap - {sa} == old(startingAbilityMap) - {sa}
      ensures ItemAt(startingAbilityMap, sa) - {device} == old(startingAbilityMap)[sa] - {device}
    {
      hide Flat, PutList, IndexOf, ListenerTables.Release;
      var list := startingAbilityMap[sa][device];
      ListInItem(startingAbilityMap, (sa, device));
      var at := FindCallback(list, o);
      if at < |list| {
        RemoveStartingAbilityCallbackLocked(list[at]);
        list := list[..at] + list[at + 1..];
      }
      PutBack(sa, device, list);
    }

    /** A dead callback leaves the lists of one ability, at most once each. */
    method RemoveStartingAbilityCallbackForDevice(sa: Sa, o: Obj) returns (ghost keys: seq<Key>)
      requires sa in startingAbilityMap
      modifies this`startingAbilityMap, this`callbackCountMap
      ensures NoKeyTwice(keys) && forall k :: k in keys <==> k in old(Value()).table && k.0 == sa
      ensures Value() == DiedEverywhere(old(Value()), keys, o)
      ensures startingAbilityMap - {sa} == old(startingAbilityMap) - {sa}
    {
      hide Flat, Died, DiedEverywhere, KeysFor;
      ghost var was := Value();
      var item := startingAbilityMap[sa];
      var devices := KeySeq(item.Keys);
      keys := [];
      NothingDied(was, o);
      for i := 0 to |devices|
        invariant keys == KeysFor(sa, devices[..i])
        invariant Value() == DiedEverywhere(was, keys, o)
        invariant startingAbilityMap - {sa} == old(startingAbilityMap) - {sa}
        invariant forall n :: i <= n < |devices| ==> devices[n] in ItemAt(startingAbilityMap, sa)
      {
        ghost var k := (sa, devices[i]);
        ghost var before := ItemAt(startingAbilityMap, sa);
        RemoveStartingAbilityCallback(sa, devices[i], o);
        forall n | i < n < |devices| ensures devices[n] in ItemAt(startingAbilityMap, sa) {
          assert devices[n] in before - {devices[i]};
        }
        OneMoreKey(sa, devices, i);
        OneMoreDied(was, keys, k, o);
        keys := keys + [k];
      }
      assert devices[..|devices|] == devices;
      AllKeys(old(startingAbilityMap), sa, devices);
      KeysForDistinct(sa, devices);
    }

    /** A dead callback leaves every list. `keys` holds every list of the table. */
    method OnAbilityCallbackDied(o: Obj) returns (ghost keys: seq<Key>)
      modifies this
      ensures NoKeyTwice(keys) && forall k :: k in keys <==> k in old(Value()).table
      ensures Value() == DiedEverywhere(old(Value()), keys, o)
    {
      hide Flat, Died, DiedEverywhere;
      ghost var was := Value();
      NothingDied(was, o);
      var abilities := KeySeq(startingAbilityMap.Keys);
      keys := [];
      for i := 0 to |abilities|
        invariant Value() == DiedEverywhere(was, keys, o)
        invariant NoKeyTwice(keys)
        invariant forall k :: k in keys <==> k in was.table && k.0 in abilities[..i]
        invariant forall n :: i <= n < |abilities| ==> abilities[n] in startingAbilityMap
        invariant forall n :: i <= n < |abilities| ==>
                                startingAbilityMap[abilities[n]] == old(startingAbilityMap)[abilities[n]]
      {
        var sa := abilities[i];
        ghost var before := startingAbilityMap;
        ghost var more := RemoveStartingAbilityCallbackForDevice(sa, o);
        DiedInTurn(was, keys, more, o);
        JoinedKeys(keys, more, abilities[..i], sa);
        keys := keys + more;
        assert abilities[..i + 1] == abilities[..i] + [sa];
        forall k: Key ensures k in more <==> k in was.table && k.0 == sa {
          FlatAt(before, k);
          FlatAt(old(startingAbilityMap), k);
        }
        forall n | i < n < |abilities|
          ensures abilities[n] in startingAbilityMap
          ensures startingAbilityMap[abilities[n]] == before[abilities[n]]
        {
          assert abilities[n] in before - {sa};
        }
      }
      assert abilities[..|abilities|] == abilities;
      forall k | k in was.table ensures k in keys { FlatAt(old(startingAbilityMap), k); }
    }
  }
}
