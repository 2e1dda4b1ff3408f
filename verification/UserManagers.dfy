/**
 The manager of one user's abilities, as far as its status listeners go. `lists` and `counts` are
 inherited from the base manager, `info` is its own. Every public method is proved against the
 operation on `SubscriptionView` it stands for.
 */
module UserManagers {
  import opened Common
  import opened ListenerTables
  import V = SubscriptionView

  class UserManager {
    const userId: User
    var lists: ListenerMap       // listenerMap_
    var counts: map<Pid, int>    // subscribeCountMap_
    var info: InfoMap            // subscriberInfoMap_
    var recipients: bool         // abilityStatusDeath_ != nullptr: between Init and Destroy

    ghost function T(): Tables
      reads this
    {
      Tables(lists, counts, info)
    }

    ghost function View(): V.View
      reads this
    {
      ViewOf(T())
    }

    ghost predicate Valid()
      reads this
    {
      recipients && ListenerTables.Valid(T())
    }

    lemma ViewIsValid()
      requires Valid()
      ensures V.Valid(View()) && CountsExact(counts, View().owner)
    {
    }

    lemma OwnerView()
      ensures OwnerOf(T().lists) == View().owner
    {
    }

    /** A freshly initialised manager: empty tables, death recipients in place. */
    constructor (userId: User)
      ensures Valid() && View() == V.EMPTY && this.userId == userId
    {
      this.userId := userId;
      lists, counts, info, recipients := map[], map[], map[], true;
      new;
      assert View() == V.EMPTY;
      assert forall p :: V.Charged(View().owner, p) == {};
    }

    // ---- inherited from the base manager ----

    /** The scan of a listener list for an object. */
    static method FindListener(listeners: seq<SAListener>, o: Obj) returns (i: nat)
      ensures i == IndexOf(listeners, o)
    {
      i := 0;
      assert listeners[i..] == listeners;
      while i < |listeners|
        invariant 0 <= i <= |listeners|
        invariant IndexOf(listeners, o) == i + IndexOf(listeners[i..], o)
      {
        assert listeners[i..][1..] == listeners[i + 1..];
        if listeners[i].obj == o {
          return;
        }
        i := i + 1;
      }
    }

    method SubscribeSystemAbilityInner(sa: Sa, listener: Option<Obj>, pid: Pid) returns (r: Err)
      modifies `lists, `counts
      ensures listener.None? ==> r == InvalidValue && lists == old(lists) && counts == old(counts)
      ensures listener.Some? ==>
                var (l, c, e) := Subscribe(old(lists), old(counts), recipients, sa, listener.value, pid);
                lists == l && counts == c && r == e
    {
      if !CheckInputSysAbilityId(sa) || listener.None? {
        return InvalidValue;
      }
      lists := lists[sa := ListOf(lists, sa)];
      var i := FindListener(lists[sa], listener.value);
      if i < |lists[sa]| {
        return ErrOk;
      }
      var count := if pid in counts then counts[pid] else 0;
      if count >= MAX_SUBSCRIBE_COUNT {
        return PermissionDenied;
      }
      counts := counts[pid := count + 1];
      if recipients {
        lists := lists[sa := lists[sa] + [SAListener(listener.value, pid)]];
      }
      return ErrOk;
    }

    /** Erases the entry of `o` from one ability's list and gives its charge back. */
    method UnSubscribeSystemAbilityLocked(sa: Sa, o: Obj)
      requires sa in lists
      modifies `lists, `counts
      ensures lists.Keys == old(lists.Keys)
      ensures var (l, c) := Erase(old(lists), old(counts), sa, o);
              lists == l && counts == c
    {
      var item := FindListener(lists[sa], o);
      if item == |lists[sa]| {
        return;
      }
      var callpid := lists[sa][item].pid;
      if callpid in counts {
        counts := counts[callpid := counts[callpid] - 1];
        if counts[callpid] == 0 {
          counts := counts - {callpid};
        }
      }
      lists := lists[sa := lists[sa][..item] + lists[sa][item + 1..]];
    }

    method BaseUnSubscribeSystemAbility(sa: Sa, listener: Option<Obj>) returns (r: Err)
      modifies `lists, `counts
      ensures r == if !CheckInputSysAbilityId(sa) || listener.None? then InvalidValue else ErrOk
      ensures var (l, c) :=
                if r == ErrOk then Erase(old(lists), old(counts), sa, listener.value) else (old(lists), old(counts));
              lists == l && counts == c
    {
      if !CheckInputSysAbilityId(sa) || listener.None? {
        return InvalidValue;
      }
      lists := lists[sa := ListOf(lists, sa)];
      UnSubscribeSystemAbilityLocked(sa, listener.value);
      return ErrOk;
    }

    /** The inherited reaction to a listener's death: it leaves every ability's list. */
    method BaseDropListener(o: Obj) returns (keys: seq<Sa>)
      modifies `lists, `counts
      ensures Covers(keys, old(lists.Keys))
      ensures var (l, c) := EraseAll(old(lists), old(counts), keys, o);
              lists == l && counts == c
    {
      keys := KeySeq(lists.Keys);
      for i := 0 to |keys|
        invariant lists.Keys == old(lists.Keys)
        invariant var (l, c) := EraseAll(old(lists), old(counts), keys[..i], o);
                  lists == l && counts == c
      {
        assert keys[..i + 1][..i] == keys[..i];
        UnSubscribeSystemAbilityLocked(keys[i], o);
      }
      assert keys[..|keys|] == keys;
    }

    // ---- its own subscriber records ----

    /** The record scan of a subscription over one ability's list. */
    static method ScanAndAdd(records: seq<SubscriberInfo>, gone: set<Obj>, o: Obj, fg: bool)
        returns (infos: seq<SubscriberInfo>)
      ensures infos == AddInfo(records, gone, o, fg)
    {
      infos := records;
      var i := 0;
      assert infos[i..] == infos && infos[..i] == [];
      while i < |infos|
        invariant 0 <= i <= |infos|
        invariant AddInfo(records, gone, o, fg) == infos[..i] + AddInfo(infos[i..], gone, o, fg)
        decreases |infos| - i
      {
        CutAt(infos, i);
        if infos[i].obj in gone {
          infos := infos[..i] + infos[i + 1..];
          continue;
        }
        if infos[i].obj == o {
          infos := infos[i := SetFlag(infos[i], fg, true)];
          return;
        }
        i := i + 1;
      }
      assert infos[i..] == [] && infos[..i] == infos;
      infos := infos + [SubscriberInfo(o, !fg, fg)];
    }

    /** The record scan of an unsubscription; `none` when no subscription of `o` is left. */
    static method ScanAndRemove(records: seq<SubscriberInfo>, gone: set<Obj>, o: Obj, fg: bool)
        returns (infos: seq<SubscriberInfo>, none: bool)
      ensures var (r, n) := RemoveInfo(records, gone, o, fg);
              infos == r && none == n
    {
      hide RemoveInfo;
      infos, none := records, true;
      var i := 0;
      assert infos[i..] == infos && infos[..i] == [];
      while i < |infos|
        invariant 0 <= i <= |infos| && none
        invariant RemoveInfo(records, gone, o, fg).0 == infos[..i] + RemoveInfo(infos[i..], gone, o, fg).0
        invariant RemoveInfo(records, gone, o, fg).1 == RemoveInfo(infos[i..], gone, o, fg).1
        decreases |infos| - i
      {
        CutAt(infos, i);
        RemoveInfoAt(infos, i, gone, o, fg);
        if infos[i].obj in gone {
          infos := infos[..i] + infos[i + 1..];
          continue;
        }
        if infos[i].obj == o {
          var e := SetFlag(infos[i], fg, false);
          if e.direct || e.foreground {
            infos, none := infos[i := e], false;
            return;
          }
          infos := infos[..i] + infos[i + 1..];
          return;
        }
        i := i + 1;
      }
      assert infos[i..] == [] && infos[..i] == infos;
      RemoveInfoNone(gone, o, fg);
    }

    static lemma RemoveInfoNone(gone: set<Obj>, o: Obj, fg: bool)
      ensures RemoveInfo([], gone, o, fg) == ([], true)
    {
    }

    /** One step of the scan. */
    static lemma RemoveInfoAt(s: seq<SubscriberInfo>, i: int, gone: set<Obj>, o: Obj, fg: bool)
      requires 0 <= i < |s|
      ensures var e, rest := SetFlag(s[i], fg, false), RemoveInfo(s[i + 1..], gone, o, fg);
              RemoveInfo(s[i..], gone, o, fg) ==
              if s[i].obj in gone then rest
              else if s[i].obj != o then ([s[i]] + rest.0, rest.1)
              else if e.direct || e.foreground then ([e] + s[i + 1..], false)
              else (s[i + 1..], true)
    {
      CutAt(s, i);
    }

    static lemma CutAt(s: seq<SubscriberInfo>, i: int)
      requires 0 <= i < |s|
      ensures s[i..][1..] == s[i + 1..] && s[..i + 1] == s[..i] + [s[i]]
      ensures (s[..i] + s[i + 1..])[i..] == s[i + 1..] && (s[..i] + s[i + 1..])[..i] == s[..i]
      ensures forall e :: s[i := e] == s[..i] + ([e] + s[i + 1..])
    {
    }

    method AddSubscriberInfo(sa: Sa, listener: Option<Obj>, fg: bool, gone: set<Obj>)
      modifies `info
      ensures info == if listener.None? then old(info) else AddRecord(old(info), gone, sa, listener.value, fg)
    {
      if listener.None? {
        return;
      }
      var infos := ScanAndAdd(InfosOf(info, sa), gone, listener.value, fg);
      AddInfoNonEmpty(InfosOf(info, sa), gone, listener.value, fg);
      info := info[sa := infos];
    }

    method RemoveSubscriberInfo(sa: Sa, listener: Option<Obj>, fg: bool, gone: set<Obj>) returns (none: bool)
      modifies `info
      ensures var (i, n) :=
                if listener.None? then (old(info), false) else RemoveRecord(old(info), gone, sa, listener.value, fg);
              info == i && none == n
    {
      if listener.None? {
        return false;
      }
      if sa !in info {
        assert info - {sa} == info;
        return true;
      }
      var infos;
      infos, none := ScanAndRemove(info[sa], gone, listener.value, fg);
      info := if infos == [] then info - {sa} else info[sa := infos];
    }

    /** The record of a listener in one ability's list, when it has one. */
    static method FindRecord(infos: seq<SubscriberInfo>, o: Obj) returns (r: Option<SubscriberInfo>)
      requires GoodRecords(infos)
      ensures forall fg :: o in Flags(infos, fg) <==> r.Some? && Flag(r.value, fg)
      ensures r.Some? ==> r.value.direct || r.value.foreground
    {
      assert infos[0..] == infos;
      for i := 0 to |infos|
        invariant GoodRecords(infos[i..])
        invariant forall fg :: o in Flags(infos, fg) <==> o in Flags(infos[i..], fg)
      {
        assert infos[i..][1..] == infos[i + 1..];
        if infos[i].obj == o {
          FlagsAreRecorded(infos[i + 1..], false);
          FlagsAreRecorded(infos[i + 1..], true);
          return Some(infos[i]);
        }
      }
      return None;
    }

    /** A listener is told about an ability iff it subscribed directly, or for the foreground user
        while this user is the foreground user. No record can have expired here (`PurgeIsIdle`). */
    method ShouldNotifySubscriber(sa: Sa, listener: Option<Obj>, foregroundUser: User) returns (tell: bool)
      requires Valid()
      ensures tell <==> && listener.Some?
                        && (|| (sa, listener.value) in View().direct
                            || ((sa, listener.value) in View().foreground && userId == foregroundUser))
    {
      if listener.None? || sa !in info {
        return false;
      }
      var record := FindRecord(info[sa], listener.value);
      if record.None? {
        return false;
      }
      if record.value.direct {
        return true;
      }
      return !record.value.foreground || userId == foregroundUser;
    }

    // ---- its public operations ----

    /** Record the flag, subscribe, and take the flag back on a refusal. */
    method RecordAndSubscribe(sa: Sa, listener: Option<Obj>, fg: bool, pid: Pid, gone: set<Obj>) returns (r: Err)
      requires recipients
      modifies `lists, `counts, `info
      ensures listener.None? ==> r == InvalidValue && T() == old(T())
      ensures listener.Some? ==> (T(), r) == SubscribeWithPid(old(T()), gone, sa, listener.value, fg, pid)
    {
      ghost var t := T();
      AddSubscriberInfo(sa, listener, fg, gone);
      r := SubscribeSystemAbilityInner(sa, listener, pid);
      if r != ErrOk {
        var _ := RemoveSubscriberInfo(sa, listener, fg, gone);
      }
    }

    method SubscribeSystemAbilityWithPid(sa: Sa, listener: Option<Obj>, fg: bool, pid: Pid, gone: set<Obj>)
        returns (r: Err)
      requires Valid() && NotHeld(T(), gone) && (listener.Some? ==> listener.value !in gone)
      modifies this
      ensures Valid() && NotHeld(T(), gone)
      ensures (View(), r) == if listener.None? then (old(View()), InvalidValue)
                             else V.Subscribe(old(View()), (sa, listener.value), fg, pid)
    {
      if listener.Some? {
        SubscribeRefines(T(), gone, sa, listener.value, fg, pid);
      }
      hide ListenerTables.Valid, ViewOf, NotHeld, SubscribeWithPid, V.Subscribe;
      r := RecordAndSubscribe(sa, listener, fg, pid, gone);
    }

    /** Take the flag away, and unsubscribe when none is left. */
    method ForgetAndUnsubscribe(sa: Sa, o: Obj, fg: bool, gone: set<Obj>)
      requires CheckInputSysAbilityId(sa)
      modifies `lists, `counts, `info
      ensures T() == UnSubscribe(old(T()), gone, sa, o, fg).0
    {
      hide RemoveRecord, Erase;
      var none := RemoveSubscriberInfo(sa, Some(o), fg, gone);
      if !none {
        return;
      }
      var _ := BaseUnSubscribeSystemAbility(sa, Some(o));
    }

    method UnSubscribeSystemAbility(sa: Sa, listener: Option<Obj>, fg: bool, gone: set<Obj>) returns (r: Err)
      requires Valid() && NotHeld(T(), gone) && (listener.Some? ==> listener.value !in gone)
      modifies this
      ensures Valid() && NotHeld(T(), gone)
      ensures (View(), r) == if listener.None? then (old(View()), InvalidValue)
                             else V.Unsubscribe(old(View()), (sa, listener.value), fg)
    {
      if !CheckInputSysAbilityId(sa) || listener.None? {
        return InvalidValue;
      }
      UnSubscribeRefines(T(), gone, sa, listener.value, fg);
      UnSubscribeSucceeds(T(), gone, sa, listener.value, fg);
      hide ListenerTables.Valid, ViewOf, NotHeld, UnSubscribe, V.Unsubscribe;
      ForgetAndUnsubscribe(sa, listener.value, fg, gone);
      r := ErrOk;
    }

    /** The records of a dead listener leave every ability's list. */
    method DropRecordsOf(o: Obj, gone: set<Obj>) returns (keys: seq<Sa>)
      modifies `info
      ensures Covers(keys, old(info.Keys)) && info == DropRecords(old(info), keys, gone, o)
    {
      keys := KeySeq(info.Keys);
      for i := 0 to |keys|
        invariant info == DropRecords(old(info), keys[..i], gone, o)
      {
        var sa := keys[i];
        var infos := RemoveIf(InfosOf(info, sa), gone, o);
        info := if infos == [] then info - {sa} else info[sa := infos];
        assert keys[..i + 1][..i] == keys[..i];
      }
      assert keys[..|keys|] == keys;
    }

    /** The reaction to a listener's death. */
    method DropListener(remoteObject: Obj, gone: set<Obj>)
      requires Valid() && NotHeld(T(), gone)
      modifies this
      ensures Valid() && View() == V.DropListener(old(View()), remoteObject)
    {
      hide ListenerTables.Valid, NotHeld, ViewOf, EraseAll, DropRecords, Covers, V.DropListener;
      ghost var t := T();
      var listKeys := BaseDropListener(remoteObject);
      var infoKeys := DropRecordsOf(remoteObject, gone);
      DropRefines(t, gone, remoteObject, listKeys, infoKeys);
    }

    static method RemoveIf(records: seq<SubscriberInfo>, gone: set<Obj>, o: Obj) returns (infos: seq<SubscriberInfo>)
      ensures infos == DropInfo(records, gone, o)
    {
      infos := [];
      var i := 0;
      assert records[i..] == records;
      while i < |records|
        invariant 0 <= i <= |records|
        invariant DropInfo(records, gone, o) == infos + DropInfo(records[i..], gone, o)
      {
        assert records[i..][1..] == records[i + 1..];
        if records[i].obj !in gone && records[i].obj != o {
          infos := infos + [records[i]];
        }
        i := i + 1;
      }
    }

    /** Teardown: every table is emptied and the death recipients are gone. */
    method Destroy()
      modifies this
      ensures View() == V.EMPTY && counts == map[] && !recipients
    {
      lists, counts, info, recipients := map[], map[], map[], false;
      assert View() == V.EMPTY;
    }
  }
}
