/**
 The three maps a user manager keeps about ability listeners, as values: the listener lists per
 ability, the subscribe count per process, and the subscriber records with their two flags.
 `ViewOf` gives their meaning; the lemmas say what each table edit means.
 */
module ListenerTables {
  import opened Common
  import V = SubscriptionView

  datatype SAListener = SAListener(obj: Obj, pid: Pid)
  datatype SubscriberInfo = SubscriberInfo(obj: Obj, direct: bool, foreground: bool)

  type ListenerMap = map<Sa, seq<SAListener>>
  type InfoMap = map<Sa, seq<SubscriberInfo>>

  datatype Tables = Tables(lists: ListenerMap, counts: map<Pid, int>, info: InfoMap)

  function ListOf(lists: ListenerMap, sa: Sa): seq<SAListener> {
    if sa in lists then lists[sa] else []
  }

  function InfosOf(info: InfoMap, sa: Sa): seq<SubscriberInfo> {
    if sa in info then info[sa] else []
  }

  // ---- listener lists ----

  /** Which process pays for each listener of one list. */
  function Owners(s: seq<SAListener>): map<Obj, Pid> {
    if s == [] then map[] else Owners(s[1..])[s[0].obj := s[0].pid]
  }

  ghost predicate Distinct(s: seq<SAListener>) {
    s != [] ==> s[0].obj !in Owners(s[1..]) && Distinct(s[1..])
  }

  ghost function ListedKeys(lists: ListenerMap): (r: set<V.Key>)
    ensures forall k: V.Key :: k in r <==> k.1 in Owners(ListOf(lists, k.0))
  {
    set sa, o | sa in lists && o in Owners(lists[sa]) :: (sa, o)
  }

  ghost function OwnerOf(lists: ListenerMap): map<V.Key, Pid> {
    map k | k in ListedKeys(lists) :: Owners(ListOf(lists, k.0))[k.1]
  }

  lemma {:induction false} OwnersAppend(s: seq<SAListener>, e: SAListener)
    requires Distinct(s) && e.obj !in Owners(s)
    ensures Distinct(s + [e]) && Owners(s + [e]) == Owners(s)[e.obj := e.pid]
  {
    if s == [] {
      assert [e][1..] == [];
    } else {
      OwnersAppend(s[1..], e);
      assert (s + [e])[1..] == s[1..] + [e];
    }
  }

  lemma {:induction false} OwnersErase(s: seq<SAListener>, i: int)
    requires Distinct(s) && 0 <= i < |s|
    ensures var r := s[..i] + s[i + 1..];
            && Distinct(r) && Owners(r) == Owners(s) - {s[i].obj}
            && s[i].obj in Owners(s) && Owners(s)[s[i].obj] == s[i].pid
  {
    var r := s[..i] + s[i + 1..];
    if i == 0 {
      assert r == s[1..];
    } else {
      OwnersErase(s[1..], i - 1);
      assert r[1..] == s[1..][..i - 1] + s[1..][i..];
    }
  }

  /** The place of `o` in a list, or the length of the list. */
  function IndexOf(s: seq<SAListener>, o: Obj): (i: nat)
    ensures i <= |s|
    ensures i < |s| ==> s[i].obj == o
  {
    if s == [] then 0 else if s[0].obj == o then 0 else 1 + IndexOf(s[1..], o)
  }

  lemma {:induction false} IndexOfMeaning(s: seq<SAListener>, o: Obj)
    ensures IndexOf(s, o) < |s| <==> o in Owners(s)
  {
    if s != [] {
      IndexOfMeaning(s[1..], o);
    }
  }

  ghost predicate AllDistinct(lists: ListenerMap) {
    forall sa :: sa in lists ==> Distinct(lists[sa])
  }

  lemma AppendListener(lists: ListenerMap, sa: Sa, o: Obj, pid: Pid)
    requires AllDistinct(lists) && o !in Owners(ListOf(lists, sa))
    ensures var l' := lists[sa := ListOf(lists, sa) + [SAListener(o, pid)]];
            AllDistinct(l') && OwnerOf(l') == OwnerOf(lists)[(sa, o) := pid]
  {
    OwnersAppend(ListOf(lists, sa), SAListener(o, pid));
    hide Owners, Distinct;
    var l' := lists[sa := ListOf(lists, sa) + [SAListener(o, pid)]];
    assert ListedKeys(l') == ListedKeys(lists) + {(sa, o)};
  }

  lemma ShrinkList(lists: ListenerMap, sa: Sa, r: seq<SAListener>, o: Obj)
    requires Owners(r) == Owners(ListOf(lists, sa)) - {o}
    ensures OwnerOf(lists[sa := r]) == OwnerOf(lists) - {(sa, o)}
  {
    assert ListedKeys(lists[sa := r]) == ListedKeys(lists) - {(sa, o)};
  }

  lemma EraseListener(lists: ListenerMap, sa: Sa, i: int)
    requires AllDistinct(lists) && sa in lists && 0 <= i < |lists[sa]|
    ensures var l' := lists[sa := lists[sa][..i] + lists[sa][i + 1..]];
            var k := (sa, lists[sa][i].obj);
            && AllDistinct(l') && OwnerOf(l') == OwnerOf(lists) - {k}
            && k in OwnerOf(lists) && OwnerOf(lists)[k] == lists[sa][i].pid
  {
    OwnersErase(lists[sa], i);
    ShrinkList(lists, sa, lists[sa][..i] + lists[sa][i + 1..], lists[sa][i].obj);
  }

  /** `operator[]` on an absent ability inserts an empty list, which means nothing. */
  lemma EmptyListIsInvisible(lists: ListenerMap, sa: Sa)
    ensures OwnerOf(lists[sa := ListOf(lists, sa)]) == OwnerOf(lists)
  {
    assert ListedKeys(lists[sa := ListOf(lists, sa)]) == ListedKeys(lists);
  }

  // ---- subscriber records ----

  predicate Flag(e: SubscriberInfo, fg: bool) {
    if fg then e.foreground else e.direct
  }

  function SetFlag(e: SubscriberInfo, fg: bool, value: bool): SubscriberInfo {
    if fg then e.(foreground := value) else e.(direct := value)
  }

  function Objs(s: seq<SubscriberInfo>): set<Obj> {
    if s == [] then {} else {s[0].obj} + Objs(s[1..])
  }

  /** The listeners of one list that hold a subscription of kind `fg`. */
  function Flags(s: seq<SubscriberInfo>, fg: bool): set<Obj> {
    if s == [] then {} else (if Flag(s[0], fg) then {s[0].obj} else {}) + Flags(s[1..], fg)
  }

  /** Records name different listeners, and none is left without a subscription. */
  ghost predicate GoodRecords(s: seq<SubscriberInfo>) {
    s != [] ==> s[0].obj !in Objs(s[1..]) && (s[0].direct || s[0].foreground) && GoodRecords(s[1..])
  }

  lemma {:induction false} RecordedMeansFlagged(s: seq<SubscriberInfo>)
    requires GoodRecords(s)
    ensures Objs(s) == Flags(s, true) + Flags(s, false)
  {
    if s != [] {
      RecordedMeansFlagged(s[1..]);
    }
  }

  ghost function FlagKeys(info: InfoMap, fg: bool): (r: set<V.Key>)
    ensures forall k: V.Key :: k in r <==> k.1 in Flags(InfosOf(info, k.0), fg)
  {
    set sa, o | sa in info && o in Flags(info[sa], fg) :: (sa, o)
  }

  ghost function ViewOf(t: Tables): V.View {
    V.View(FlagKeys(t.info, false), FlagKeys(t.info, true), OwnerOf(t.lists))
  }

  /** What the record scan of a subscription leaves: expired records met on the way are dropped,
      the matching record gets the flag, and a new record is appended when there is none. */
  function AddInfo(s: seq<SubscriberInfo>, gone: set<Obj>, o: Obj, fg: bool): seq<SubscriberInfo> {
    if s == [] then [SubscriberInfo(o, !fg, fg)]
    else if s[0].obj in gone then AddInfo(s[1..], gone, o, fg)
    else if s[0].obj == o then [SetFlag(s[0], fg, true)] + s[1..]
    else [s[0]] + AddInfo(s[1..], gone, o, fg)
  }

  /** What the record scan of an unsubscription leaves, and whether no subscription of the
      listener remains. */
  function RemoveInfo(s: seq<SubscriberInfo>, gone: set<Obj>, o: Obj, fg: bool): (seq<SubscriberInfo>, bool) {
    if s == [] then ([], true)
    else if s[0].obj in gone then RemoveInfo(s[1..], gone, o, fg)
    else if s[0].obj == o then
      var e := SetFlag(s[0], fg, false);
      if e.direct || e.foreground then ([e] + s[1..], false) else (s[1..], true)
    else
      var (r, none) := RemoveInfo(s[1..], gone, o, fg);
      ([s[0]] + r, none)
  }

  function DropInfo(s: seq<SubscriberInfo>, gone: set<Obj>, o: Obj): seq<SubscriberInfo> {
    if s == [] then []
    else if s[0].obj in gone || s[0].obj == o then DropInfo(s[1..], gone, o)
    else [s[0]] + DropInfo(s[1..], gone, o)
  }

  lemma {:induction false} AddInfoMeaning(s: seq<SubscriberInfo>, gone: set<Obj>, o: Obj, fg: bool)
    requires GoodRecords(s) && Objs(s) !! gone
    ensures var r := AddInfo(s, gone, o, fg);
            && GoodRecords(r) && Objs(r) == Objs(s) + {o}
            && Flags(r, fg) == Flags(s, fg) + {o}
            && Flags(r, !fg) == Flags(s, !fg)
  {
    if s == [] {
      assert [SubscriberInfo(o, !fg, fg)][1..] == [];
    } else if s[0].obj == o {
      assert ([SetFlag(s[0], fg, true)] + s[1..])[1..] == s[1..];
    } else {
      AddInfoMeaning(s[1..], gone, o, fg);
      var r := AddInfo(s[1..], gone, o, fg);
      assert ([s[0]] + r)[1..] == r;
    }
  }

  lemma {:induction false} AddInfoNonEmpty(s: seq<SubscriberInfo>, gone: set<Obj>, o: Obj, fg: bool)
    ensures AddInfo(s, gone, o, fg) != []
  {
    if s != [] && s[0].obj in gone {
      AddInfoNonEmpty(s[1..], gone, o, fg);
    }
  }

  lemma {:induction false} FlagsAreRecorded(s: seq<SubscriberInfo>, fg: bool)
    ensures Flags(s, fg) <= Objs(s)
  {
    if s != [] {
      FlagsAreRecorded(s[1..], fg);
    }
  }

  lemma {:induction false} RemoveInfoMeaning(s: seq<SubscriberInfo>, gone: set<Obj>, o: Obj, fg: bool)
    requires GoodRecords(s) && Objs(s) !! gone
    ensures var (r, none) := RemoveInfo(s, gone, o, fg);
            && GoodRecords(r) && Objs(r) <= Objs(s)
            && Flags(r, fg) == Flags(s, fg) - {o}
            && Flags(r, !fg) == Flags(s, !fg)
            && (none <==> o !in Flags(s, !fg))
  {
    if s != [] {
      FlagsAreRecorded(s[1..], fg);
      FlagsAreRecorded(s[1..], !fg);
      if s[0].obj == o {
        assert ([SetFlag(s[0], fg, false)] + s[1..])[1..] == s[1..];
      } else {
        RemoveInfoMeaning(s[1..], gone, o, fg);
        var r := RemoveInfo(s[1..], gone, o, fg).0;
        assert ([s[0]] + r)[1..] == r;
      }
    }
  }

  lemma {:induction false} DropInfoMeaning(s: seq<SubscriberInfo>, gone: set<Obj>, o: Obj, fg: bool)
    requires GoodRecords(s) && Objs(s) !! gone
    ensures var r := DropInfo(s, gone, o);
            && GoodRecords(r) && Objs(r) <= Objs(s)
            && Flags(r, fg) == Flags(s, fg) - {o}
  {
    if s != [] {
      FlagsAreRecorded(s[1..], fg);
      DropInfoMeaning(s[1..], gone, o, fg);
      var r := DropInfo(s[1..], gone, o);
      assert ([s[0]] + r)[1..] == r;
    }
  }

  // ---- the whole tables ----

  ghost predicate AllGood(info: InfoMap) {
    forall sa :: sa in info ==> GoodRecords(info[sa])
  }

  /** The count map is exact: no zero entries, and each count is the number of listed keys. */
  ghost predicate CountsExact(counts: map<Pid, int>, owner: map<V.Key, Pid>) {
    forall p :: (p in counts <==> V.Count(owner, p) > 0) && (p in counts ==> counts[p] == V.Count(owner, p))
  }

  /** Gives one charge of process `p` back; an exhausted entry disappears. */
  function Release(counts: map<Pid, int>, p: Pid): map<Pid, int> {
    if p !in counts then counts
    else if counts[p] - 1 == 0 then counts - {p}
    else counts[p := counts[p] - 1]
  }

  lemma ChargeKeepsExact(counts: map<Pid, int>, owner: map<V.Key, Pid>, k: V.Key, pid: Pid)
    requires CountsExact(counts, owner) && V.WithinQuota(owner)
    requires k !in owner && V.Count(owner, pid) < MAX_SUBSCRIBE_COUNT
    ensures CountsExact(counts[pid := V.Count(owner, pid) + 1], owner[k := pid])
    ensures V.WithinQuota(owner[k := pid])
  {
    var counts' := counts[pid := V.Count(owner, pid) + 1];
    forall p ensures
        var n := V.Count(owner[k := pid], p);
        n <= MAX_SUBSCRIBE_COUNT && (p in counts' <==> n > 0) && (p in counts' ==> counts'[p] == n) {
      V.CountAfterCharge(owner, k, pid, p);
      assert V.Count(owner, p) <= MAX_SUBSCRIBE_COUNT;
    }
  }

  lemma ReleaseKeepsExact(counts: map<Pid, int>, owner: map<V.Key, Pid>, k: V.Key)
    requires CountsExact(counts, owner) && V.WithinQuota(owner) && k in owner
    ensures CountsExact(Release(counts, owner[k]), owner - {k})
    ensures V.WithinQuota(owner - {k})
  {
    var counts' := Release(counts, owner[k]);
    V.CountAfterRelease(owner, k, owner[k]);
    forall p ensures
        var n := V.Count(owner - {k}, p);
        n <= MAX_SUBSCRIBE_COUNT && (p in counts' <==> n > 0) && (p in counts' ==> counts'[p] == n) {
      V.CountAfterRelease(owner, k, p);
      assert V.Count(owner, p) <= MAX_SUBSCRIBE_COUNT;
    }
  }

  ghost predicate Valid(t: Tables) {
    && AllDistinct(t.lists)
    && AllGood(t.info)
    && V.Valid(ViewOf(t))
    && CountsExact(t.counts, OwnerOf(t.lists))
  }

  /** A remote object a table still holds a strong reference to cannot have expired. */
  ghost predicate NotHeld(t: Tables, gone: set<Obj>) {
    forall k: V.Key :: k in OwnerOf(t.lists) ==> k.1 !in gone
  }

  /** So the weak-pointer purge of the record scans never drops anything. */
  lemma PurgeIsIdle(t: Tables, gone: set<Obj>, sa: Sa)
    requires Valid(t) && NotHeld(t, gone)
    ensures Objs(InfosOf(t.info, sa)) !! gone
  {
    var s := InfosOf(t.info, sa);
    if sa in t.info {
      RecordedMeansFlagged(s);
    }
    forall o | o in Objs(s) ensures o !in gone {
      assert (sa, o) in ViewOf(t).direct + ViewOf(t).foreground;
      assert (sa, o) in OwnerOf(t.lists);
    }
  }

  // ---- the inherited operations ----

  /** What the inherited subscribe does to the listener lists and the counts. Without the death
      recipient the charge is made but nothing is listed. */
  function Subscribe(lists: ListenerMap, counts: map<Pid, int>, recipients: bool, sa: Sa, o: Obj, pid: Pid)
    : (ListenerMap, map<Pid, int>, Err)
  {
    var s := ListOf(lists, sa);
    var count := if pid in counts then counts[pid] else 0;
    if !CheckInputSysAbilityId(sa) then (lists, counts, InvalidValue)
    else if IndexOf(s, o) < |s| then (lists[sa := s], counts, ErrOk)
    else if count >= MAX_SUBSCRIBE_COUNT then (lists[sa := s], counts, PermissionDenied)
    else (lists[sa := if recipients then s + [SAListener(o, pid)] else s], counts[pid := count + 1], ErrOk)
  }

  /** What erasing a listener from one ability's list does to the lists and the counts. */
  function Erase(lists: ListenerMap, counts: map<Pid, int>, sa: Sa, o: Obj): (ListenerMap, map<Pid, int>) {
    var s := ListOf(lists, sa);
    var i := IndexOf(s, o);
    if i == |s| then (lists[sa := s], counts)
    else (lists[sa := s[..i] + s[i + 1..]], Release(counts, s[i].pid))
  }

  /** Erasing a dead listener from the lists of all the abilities in `keys`. */
  function EraseAll(lists: ListenerMap, counts: map<Pid, int>, keys: seq<Sa>, o: Obj): (ListenerMap, map<Pid, int>) {
    if keys == [] then (lists, counts)
    else
      var (l, c) := EraseAll(lists, counts, keys[..|keys| - 1], o);
      Erase(l, c, keys[|keys| - 1], o)
  }

  /** What the inherited tables keep on their own: no ability lists a listener twice, each count is
      exactly the number of listed entries of its process, and none is over the limit. */
  ghost predicate BaseValid(lists: ListenerMap, counts: map<Pid, int>) {
    AllDistinct(lists) && V.WithinQuota(OwnerOf(lists)) && CountsExact(counts, OwnerOf(lists))
  }

  lemma ListedMeansFound(lists: ListenerMap, sa: Sa, o: Obj)
    ensures (sa, o) in OwnerOf(lists) <==> IndexOf(ListOf(lists, sa), o) < |ListOf(lists, sa)|
    ensures (sa, o) in OwnerOf(lists) <==> o in Owners(ListOf(lists, sa))
  {
    IndexOfMeaning(ListOf(lists, sa), o);
  }

  lemma TouchKeepsValid(lists: ListenerMap, counts: map<Pid, int>, sa: Sa)
    requires BaseValid(lists, counts)
    ensures BaseValid(lists[sa := ListOf(lists, sa)], counts)
  {
    EmptyListIsInvisible(lists, sa);
  }

  lemma NewListenerKeepsValid(lists: ListenerMap, counts: map<Pid, int>, sa: Sa, o: Obj, pid: Pid)
    requires BaseValid(lists, counts) && (sa, o) !in OwnerOf(lists)
    requires V.Count(OwnerOf(lists), pid) < MAX_SUBSCRIBE_COUNT
    ensures var l := lists[sa := ListOf(lists, sa) + [SAListener(o, pid)]];
            && BaseValid(l, counts[pid := V.Count(OwnerOf(lists), pid) + 1])
            && OwnerOf(l) == OwnerOf(lists)[(sa, o) := pid]
  {
    ListedMeansFound(lists, sa, o);
    AppendListener(lists, sa, o, pid);
    ChargeKeepsExact(counts, OwnerOf(lists), (sa, o), pid);
  }

  /** The inherited subscribe in terms of the charged keys. */
  lemma SubscribeMeaning(lists: ListenerMap, counts: map<Pid, int>, sa: Sa, o: Obj, pid: Pid)
    requires BaseValid(lists, counts)
    ensures var (l, c, r) := Subscribe(lists, counts, true, sa, o, pid);
            var was := OwnerOf(lists);
            && BaseValid(l, c)
            && if !CheckInputSysAbilityId(sa) then r == InvalidValue && OwnerOf(l) == was
               else if (sa, o) in was then r == ErrOk && OwnerOf(l) == was
               else if V.Count(was, pid) >= MAX_SUBSCRIBE_COUNT then r == PermissionDenied && OwnerOf(l) == was
               else r == ErrOk && OwnerOf(l) == was[(sa, o) := pid]
  {
    ListedMeansFound(lists, sa, o);
    assert V.Count(OwnerOf(lists), pid) == if pid in counts then counts[pid] else 0;
    if (sa, o) in OwnerOf(lists) || V.Count(OwnerOf(lists), pid) >= MAX_SUBSCRIBE_COUNT {
      TouchKeepsValid(lists, counts, sa);
      EmptyListIsInvisible(lists, sa);
    } else {
      NewListenerKeepsValid(lists, counts, sa, o, pid);
    }
  }

  /** Without the death recipient a new listener is charged for and never listed: the counts stay
      exact if and only if the id is illegal, the listener is listed already or its process is full. */
  lemma SubscribeWithoutRecipient(lists: ListenerMap, counts: map<Pid, int>, sa: Sa, o: Obj, pid: Pid)
    requires BaseValid(lists, counts)
    ensures var (l, c, r) := Subscribe(lists, counts, false, sa, o, pid);
            && OwnerOf(l) == OwnerOf(lists)
            && (BaseValid(l, c) <==> || !CheckInputSysAbilityId(sa) || (sa, o) in OwnerOf(lists)
                                     || V.Count(OwnerOf(lists), pid) >= MAX_SUBSCRIBE_COUNT)
            && (r == ErrOk <==> && CheckInputSysAbilityId(sa)
                                && ((sa, o) in OwnerOf(lists) || V.Count(OwnerOf(lists), pid) < MAX_SUBSCRIBE_COUNT))
  {
    var (l, c, r) := Subscribe(lists, counts, false, sa, o, pid);
    ListedMeansFound(lists, sa, o);
    EmptyListIsInvisible(lists, sa);
    TouchKeepsValid(lists, counts, sa);
    assert V.Count(OwnerOf(lists), pid) == if pid in counts then counts[pid] else 0;
    if r == ErrOk && (sa, o) !in OwnerOf(lists) {
      assert c[pid] == V.Count(OwnerOf(lists), pid) + 1;
    }
  }

  /** One legal subscription on a destroyed manager, whose tables are empty, is accepted and leaves a
      count of one for a process that is listed nowhere. */
  lemma DestroyedManagerLeaks(sa: Sa, o: Obj, pid: Pid)
    requires CheckInputSysAbilityId(sa)
    ensures BaseValid(map[], map[])
    ensures Subscribe(map[], map[], false, sa, o, pid) == (map[sa := []], map[pid := 1], ErrOk)
    ensures V.Count(OwnerOf(map[sa := []]), pid) == 0 && !BaseValid(map[sa := []], map[pid := 1])
  {
    assert OwnerOf(map[]) == map[];
    forall p ensures V.Count(map[], p) == 0 { assert V.Charged(map[], p) == {}; }
    SubscribeWithoutRecipient(map[], map[], sa, o, pid);
  }

  lemma EraseMeaning(lists: ListenerMap, counts: map<Pid, int>, sa: Sa, o: Obj)
    requires BaseValid(lists, counts)
    ensures var (l, c) := Erase(lists, counts, sa, o);
            BaseValid(l, c) && OwnerOf(l) == OwnerOf(lists) - {(sa, o)}
  {
    var s := ListOf(lists, sa);
    var i := IndexOf(s, o);
    ListedMeansFound(lists, sa, o);
    hide OwnerOf, Owners, CountsExact, V.WithinQuota, AllDistinct, Distinct, Release;
    if i == |s| {
      assert OwnerOf(lists) - {(sa, o)} == OwnerOf(lists);
      TouchKeepsValid(lists, counts, sa);
      EmptyListIsInvisible(lists, sa);
    } else {
      EraseListener(lists, sa, i);
      ReleaseKeepsExact(counts, OwnerOf(lists), (sa, o));
    }
  }

  lemma MinusMinus<K, T>(m: map<K, T>, a: set<K>, b: set<K>)
    ensures m - a - b == m - (a + b)
  {
  }

  ghost function Pairs(keys: seq<Sa>, o: Obj): set<V.Key> {
    set sa | sa in keys :: (sa, o)
  }

  lemma PairsSnoc(init: seq<Sa>, sa: Sa, o: Obj)
    ensures Pairs(init + [sa], o) == Pairs(init, o) + {(sa, o)}
  {
  }

  lemma {:induction false} EraseAllMeaning(lists: ListenerMap, counts: map<Pid, int>, keys: seq<Sa>, o: Obj)
    requires BaseValid(lists, counts)
    ensures var (l, c) := EraseAll(lists, counts, keys, o);
            BaseValid(l, c) && OwnerOf(l) == OwnerOf(lists) - Pairs(keys, o)
  {
    hide OwnerOf, BaseValid, Erase;
    if keys == [] {
      assert Pairs(keys, o) == {};
      assert OwnerOf(lists) - {} == OwnerOf(lists);
    } else {
      var init, sa := keys[..|keys| - 1], keys[|keys| - 1];
      EraseAllMeaning(lists, counts, init, o);
      var (l, c) := EraseAll(lists, counts, init, o);
      EraseMeaning(l, c, sa, o);
      MinusMinus(OwnerOf(lists), Pairs(init, o), {(sa, o)});
      PairsSnoc(init, sa, o);
      assert keys == init + [sa];
    }
  }

  // ---- the operations of a user manager ----

  /** The record map after an ability's records became `s`; an empty list is erased. */
  function PutInfos(info: InfoMap, sa: Sa, s: seq<SubscriberInfo>): (r: InfoMap)
    ensures forall x :: InfosOf(r, x) == if x == sa then s else InfosOf(info, x)
  {
    if s == [] then info - {sa} else info[sa := s]
  }

  function AddRecord(info: InfoMap, gone: set<Obj>, sa: Sa, o: Obj, fg: bool): InfoMap {
    PutInfos(info, sa, AddInfo(InfosOf(info, sa), gone, o, fg))
  }

  function RemoveRecord(info: InfoMap, gone: set<Obj>, sa: Sa, o: Obj, fg: bool): (InfoMap, bool) {
    var (s, none) := RemoveInfo(InfosOf(info, sa), gone, o, fg);
    (PutInfos(info, sa, s), none)
  }

  function DropRecords(info: InfoMap, keys: seq<Sa>, gone: set<Obj>, o: Obj): InfoMap {
    if keys == [] then info
    else
      var r := DropRecords(info, keys[..|keys| - 1], gone, o);
      var sa := keys[|keys| - 1];
      PutInfos(r, sa, DropInfo(InfosOf(r, sa), gone, o))
  }

  /** `SubscribeSystemAbilityWithPid`: record the flag, subscribe, take the flag back on a refusal. */
  function SubscribeWithPid(t: Tables, gone: set<Obj>, sa: Sa, o: Obj, fg: bool, pid: Pid): (Tables, Err) {
    var info := AddRecord(t.info, gone, sa, o, fg);
    var (l, c, r) := Subscribe(t.lists, t.counts, true, sa, o, pid);
    (Tables(l, c, if r == ErrOk then info else RemoveRecord(info, gone, sa, o, fg).0), r)
  }

  /** `UnSubscribeSystemAbility` of one kind: the list entry goes only with the last flag. */
  function UnSubscribe(t: Tables, gone: set<Obj>, sa: Sa, o: Obj, fg: bool): (Tables, Err) {
    if !CheckInputSysAbilityId(sa) then (t, InvalidValue)
    else
      var (info, none) := RemoveRecord(t.info, gone, sa, o, fg);
      if !none then (t.(info := info), ErrOk)
      else
        var (l, c) := Erase(t.lists, t.counts, sa, o);
        (Tables(l, c, info), ErrOk)
  }

  lemma UnSubscribeSucceeds(t: Tables, gone: set<Obj>, sa: Sa, o: Obj, fg: bool)
    requires CheckInputSysAbilityId(sa)
    ensures UnSubscribe(t, gone, sa, o, fg).1 == ErrOk
  {
  }

  lemma FlagsGrow(info: InfoMap, sa: Sa, s: seq<SubscriberInfo>, fg: bool, o: Obj)
    requires Flags(s, fg) == Flags(InfosOf(info, sa), fg) + {o}
    ensures FlagKeys(PutInfos(info, sa, s), fg) == FlagKeys(info, fg) + {(sa, o)}
  {
  }

  lemma FlagsShrink(info: InfoMap, sa: Sa, s: seq<SubscriberInfo>, fg: bool, o: Obj)
    requires Flags(s, fg) == Flags(InfosOf(info, sa), fg) - {o}
    ensures FlagKeys(PutInfos(info, sa, s), fg) == FlagKeys(info, fg) - {(sa, o)}
  {
  }

  lemma FlagsKept(info: InfoMap, sa: Sa, s: seq<SubscriberInfo>, fg: bool)
    requires Flags(s, fg) == Flags(InfosOf(info, sa), fg)
    ensures FlagKeys(PutInfos(info, sa, s), fg) == FlagKeys(info, fg)
  {
  }

  lemma AddRecordMeaning(info: InfoMap, gone: set<Obj>, sa: Sa, o: Obj, fg: bool)
    requires AllGood(info) && Objs(InfosOf(info, sa)) !! gone
    ensures var r := AddRecord(info, gone, sa, o, fg);
            && AllGood(r) && Objs(InfosOf(r, sa)) == Objs(InfosOf(info, sa)) + {o}
            && FlagKeys(r, fg) == FlagKeys(info, fg) + {(sa, o)}
            && FlagKeys(r, !fg) == FlagKeys(info, !fg)
  {
    var s := AddInfo(InfosOf(info, sa), gone, o, fg);
    AddInfoMeaning(InfosOf(info, sa), gone, o, fg);
    FlagsGrow(info, sa, s, fg, o);
    FlagsKept(info, sa, s, !fg);
  }

  lemma RemoveRecordMeaning(info: InfoMap, gone: set<Obj>, sa: Sa, o: Obj, fg: bool)
    requires AllGood(info) && Objs(InfosOf(info, sa)) !! gone
    ensures var (r, none) := RemoveRecord(info, gone, sa, o, fg);
            && AllGood(r)
            && FlagKeys(r, fg) == FlagKeys(info, fg) - {(sa, o)}
            && FlagKeys(r, !fg) == FlagKeys(info, !fg)
            && (none <==> (sa, o) !in FlagKeys(info, !fg))
  {
    var s := RemoveInfo(InfosOf(info, sa), gone, o, fg).0;
    RemoveInfoMeaning(InfosOf(info, sa), gone, o, fg);
    FlagsShrink(info, sa, s, fg, o);
    FlagsKept(info, sa, s, !fg);
  }

  /** Subscribing through the tables is subscribing in the view. */
  lemma SubscribeRefines(t: Tables, gone: set<Obj>, sa: Sa, o: Obj, fg: bool, pid: Pid)
    requires Valid(t) && NotHeld(t, gone) && o !in gone
    ensures var (t', r) := SubscribeWithPid(t, gone, sa, o, fg, pid);
            Valid(t') && NotHeld(t', gone) && (ViewOf(t'), r) == V.Subscribe(ViewOf(t), (sa, o), fg, pid)
  {
    var (t', r) := SubscribeWithPid(t, gone, sa, o, fg, pid);
    var info := AddRecord(t.info, gone, sa, o, fg);
    PurgeIsIdle(t, gone, sa);
    AddRecordMeaning(t.info, gone, sa, o, fg);
    SubscribeMeaning(t.lists, t.counts, sa, o, pid);
    V.SubscribeKeepsValid(ViewOf(t), (sa, o), fg, pid);
    if r != ErrOk {
      RemoveRecordMeaning(info, gone, sa, o, fg);
      RefusedWasAbsent(t, sa, o, fg, pid);
    }
  }

  /** A refused subscription names a key without any subscription: taking the flag back is exact. */
  lemma RefusedWasAbsent(t: Tables, sa: Sa, o: Obj, fg: bool, pid: Pid)
    requires Valid(t) && Subscribe(t.lists, t.counts, true, sa, o, pid).2 != ErrOk
    ensures (sa, o) !in FlagKeys(t.info, fg)
  {
    SubscribeMeaning(t.lists, t.counts, sa, o, pid);
    assert (sa, o) !in ViewOf(t).owner.Keys;
    assert (sa, o) !in ViewOf(t).direct + ViewOf(t).foreground;
  }

  /** Unsubscribing one kind through the tables is unsubscribing it in the view. */
  lemma UnSubscribeRefines(t: Tables, gone: set<Obj>, sa: Sa, o: Obj, fg: bool)
    requires Valid(t) && NotHeld(t, gone) && o !in gone
    ensures var (t', r) := UnSubscribe(t, gone, sa, o, fg);
            Valid(t') && NotHeld(t', gone) && (ViewOf(t'), r) == V.Unsubscribe(ViewOf(t), (sa, o), fg)
  {
    V.UnsubscribeKeepsValid(ViewOf(t), (sa, o), fg);
    if CheckInputSysAbilityId(sa) {
      PurgeIsIdle(t, gone, sa);
      RemoveRecordMeaning(t.info, gone, sa, o, fg);
      EraseMeaning(t.lists, t.counts, sa, o);
    }
  }

  ghost predicate Covers(keys: seq<Sa>, s: set<Sa>) {
    forall sa :: sa in s ==> sa in keys
  }

  /** Dropping a listener's record from the list of one ability. */
  lemma DropOneRecordList(info: InfoMap, sa: Sa, gone: set<Obj>, o: Obj, fg: bool)
    requires AllGood(info) && Objs(InfosOf(info, sa)) !! gone
    ensures var s := DropInfo(InfosOf(info, sa), gone, o);
            && GoodRecords(s) && Objs(s) !! gone && AllGood(PutInfos(info, sa, s))
            && FlagKeys(PutInfos(info, sa, s), fg) == FlagKeys(info, fg) - {(sa, o)}
  {
    DropInfoMeaning(InfosOf(info, sa), gone, o, fg);
    FlagsShrink(info, sa, DropInfo(InfosOf(info, sa), gone, o), fg, o);
  }

  lemma {:induction false} DropRecordsMeaning(info: InfoMap, keys: seq<Sa>, gone: set<Obj>, o: Obj)
    requires AllGood(info) && forall sa :: Objs(InfosOf(info, sa)) !! gone
    ensures var r := DropRecords(info, keys, gone, o);
            && AllGood(r) && (forall sa :: Objs(InfosOf(r, sa)) !! gone)
            && (forall fg :: FlagKeys(r, fg) == FlagKeys(info, fg) - Pairs(keys, o))
  {
    if keys != [] {
      var init, sa := keys[..|keys| - 1], keys[|keys| - 1];
      DropRecordsMeaning(info, init, gone, o);
      var r := DropRecords(info, init, gone, o);
      var s := DropInfo(InfosOf(r, sa), gone, o);
      PairsSnoc(init, sa, o);
      assert keys == init + [sa];
      forall fg ensures GoodRecords(s) && Objs(s) !! gone
                     && FlagKeys(PutInfos(r, sa, s), fg) == FlagKeys(info, fg) - Pairs(keys, o) {
        DropOneRecordList(r, sa, gone, o, fg);
      }
    }
  }

  lemma DropFlagKeys(info: InfoMap, keys: seq<Sa>, o: Obj, fg: bool)
    requires Covers(keys, info.Keys)
    ensures FlagKeys(info, fg) - Pairs(keys, o) == set k | k in FlagKeys(info, fg) && k.1 != o
  {
    forall k: V.Key | k in FlagKeys(info, fg) ensures k.0 in keys {
      assert k.1 in Flags(InfosOf(info, k.0), fg);
    }
  }

  lemma DropOwners(lists: ListenerMap, keys: seq<Sa>, o: Obj)
    requires Covers(keys, lists.Keys)
    ensures OwnerOf(lists) - Pairs(keys, o) == map k | k in OwnerOf(lists) && k.1 != o :: OwnerOf(lists)[k]
  {
    forall k: V.Key | k in OwnerOf(lists) ensures k.0 in keys {
      assert k.1 in Owners(ListOf(lists, k.0));
    }
  }

  /** Removing a dead listener through the tables is dropping it from the view. */
  lemma DropRefines(t: Tables, gone: set<Obj>, o: Obj, listKeys: seq<Sa>, infoKeys: seq<Sa>)
    requires Valid(t) && NotHeld(t, gone) && Covers(listKeys, t.lists.Keys) && Covers(infoKeys, t.info.Keys)
    ensures var (l, c) := EraseAll(t.lists, t.counts, listKeys, o);
            var t' := Tables(l, c, DropRecords(t.info, infoKeys, gone, o));
            Valid(t') && ViewOf(t') == V.DropListener(ViewOf(t), o)
  {
    forall sa ensures Objs(InfosOf(t.info, sa)) !! gone { PurgeIsIdle(t, gone, sa); }
    EraseAllMeaning(t.lists, t.counts, listKeys, o);
    DropRecordsMeaning(t.info, infoKeys, gone, o);
    DropOwners(t.lists, listKeys, o);
    DropFlagKeys(t.info, infoKeys, o, true);
    DropFlagKeys(t.info, infoKeys, o, false);
    V.DropListenerKeepsValid(ViewOf(t), o);
  }
}
