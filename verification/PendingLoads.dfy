/**
 Callbacks waiting for an ability to be loaded. Each list belongs to one ability and one requesting
 device; callbacks of local callers are charged to their process, callbacks that came from another
 device carry pid 0 and are not. Every accepted callback gets a ticket, so that the results can say
 that it leaves the table once and is told at most one outcome.
 */
module PendingLoads {
  import opened Common
  import ListenerTables

  type Device = string
  type Key = (Sa, Device)
  type Ticket = nat

  const LOCAL_DEVICE: Device := "local"

  /** A reference to a callback: which proxy it is, and the remote object behind the proxy. Several
      proxies may stand for one object. */
  datatype Ref = Ref(proxy: nat, obj: Obj)

  datatype Callback = Callback(ref: Ref, pid: Pid, ticket: Ticket)
  datatype Outcome = Success | StartFailed(code: int) | TimedOut

  type Table = map<Key, seq<Callback>>
  type Item = (Key, Callback)

  datatype Loads = Loads(table: Table, counts: map<Pid, int>, next: Ticket, told: seq<(Ticket, Outcome)>)

  const EMPTY := Loads(map[], map[], 0, [])

  function ListAt(t: Table, k: Key): seq<Callback> {
    if k in t then t[k] else []
  }

  /** The waiting callbacks with their lists. */
  ghost function Items(t: Table): (r: set<Item>)
    ensures forall x: Item :: x in r <==> x.1 in ListAt(t, x.0)
  {
    set k, c | k in t && c in t[k] :: (k, c)
  }

  ghost predicate HasTicket(items: set<Item>, n: Ticket) {
    exists x :: x in items && x.1.ticket == n
  }

  ghost predicate Pending(t: Table, n: Ticket) {
    HasTicket(Items(t), n)
  }

  function Charged(items: set<Item>, p: Pid): set<Item> {
    set x | x in items && x.1.pid == p
  }

  ghost function CountOf(items: set<Item>, p: Pid): nat {
    |Charged(items, p)|
  }

  ghost predicate ExactAt(counts: map<Pid, int>, items: set<Item>, p: Pid) {
    && (p in counts <==> CountOf(items, p) > 0)
    && (p in counts ==> counts[p] == CountOf(items, p) <= MAX_SUBSCRIBE_COUNT)
  }

  /** The count of every process except 0 is the number of its waiting callbacks, within the limit. */
  ghost predicate CountsExact(counts: map<Pid, int>, items: set<Item>) {
    forall p :: p != 0 ==> ExactAt(counts, items, p)
  }

  /** Tickets are used once, local processes wait in local lists, and a callback that is charged is the
      first one of its object. */
  ghost predicate GoodList(k: Key, s: seq<Callback>, next: Ticket) {
    && (forall c :: c in s ==> c.ticket < next && (c.pid != 0 ==> k.1 == LOCAL_DEVICE))
    && (forall i, j :: 0 <= i < j < |s| ==> s[i].ticket != s[j].ticket)
    && (forall i, j :: 0 <= i < j < |s| && s[j].pid != 0 ==> s[i].ref.obj != s[j].ref.obj)
  }

  ghost predicate Separate(items: set<Item>) {
    forall x, y :: x in items && y in items && x.1.ticket == y.1.ticket ==> x == y
  }

  ghost predicate ToldOnce(l: Loads) {
    && (forall i, j :: 0 <= i < j < |l.told| ==> l.told[i].0 != l.told[j].0)
    && (forall i :: 0 <= i < |l.told| ==> l.told[i].0 < l.next && !Pending(l.table, l.told[i].0))
  }

  ghost predicate Valid(l: Loads) {
    && (forall k :: k in l.table ==> GoodList(k, l.table[k], l.next))
    && Separate(Items(l.table))
    && CountsExact(l.counts, Items(l.table))
    && ToldOnce(l)
  }

  // ---- the operations ----

  function HasObj(s: seq<Callback>, o: Obj): bool {
    exists i :: 0 <= i < |s| && s[i].ref.obj == o
  }

  /** A local load request for an ability that is not there yet. */
  function Accept(l: Loads, sa: Sa, ref: Ref, pid: Pid): (Loads, Err) {
    var k := (sa, LOCAL_DEVICE);
    var s := ListAt(l.table, k);
    var count := if pid in l.counts then l.counts[pid] else 0;
    if HasObj(s, ref.obj) then (l.(table := l.table[k := s]), ErrOk)
    else if count >= MAX_SUBSCRIBE_COUNT then (l.(table := l.table[k := s]), CallbackMapSizeLimit)
    else (Loads(l.table[k := s + [Callback(ref, pid, l.next)]], l.counts[pid := count + 1], l.next + 1, l.told), ErrOk)
  }

  /** A load request from another device: no duplicate check, no charge. */
  function AcceptRpc(l: Loads, k: Key, ref: Ref): Loads {
    l.(table := l.table[k := ListAt(l.table, k) + [Callback(ref, 0, l.next)]], next := l.next + 1)
  }

  function ReleaseAll(counts: map<Pid, int>, s: seq<Callback>): map<Pid, int> {
    if s == [] then counts
    else ListenerTables.Release(ReleaseAll(counts, s[..|s| - 1]), s[|s| - 1].pid)
  }

  function Tell(s: seq<Callback>, outcome: Outcome): seq<(Ticket, Outcome)> {
    seq(|s|, i requires 0 <= i < |s| => (s[i].ticket, outcome))
  }

  /** Every callback of one list is told the outcome and leaves. */
  function FinishList(l: Loads, k: Key, outcome: Outcome): Loads {
    var s := ListAt(l.table, k);
    Loads(l.table - {k}, ReleaseAll(l.counts, s), l.next, l.told + Tell(s, outcome))
  }

  /** The same for several lists: all devices of an ability that was loaded or failed to start. */
  function FinishLists(l: Loads, keys: seq<Key>, outcome: Outcome): Loads {
    if keys == [] then l else FinishList(FinishLists(l, keys[..|keys| - 1], outcome), keys[|keys| - 1], outcome)
  }

  function IndexOf(s: seq<Callback>, o: Obj): (i: nat)
    ensures i <= |s|
    ensures i < |s| ==> s[i].ref.obj == o
    ensures i == |s| ==> !HasObj(s, o)
  {
    if s == [] then 0 else if s[0].ref.obj == o then 0 else 1 + IndexOf(s[1..], o)
  }

  /** `list::remove` of a value: every entry with the same proxy and pid. */
  function RemoveEqual(s: seq<Callback>, c: Callback): (r: seq<Callback>)
    ensures forall x :: x in r <==> x in s && !(x.ref == c.ref && x.pid == c.pid)
  {
    if s == [] then []
    else if s[0].ref == c.ref && s[0].pid == c.pid then RemoveEqual(s[1..], c)
    else [s[0]] + RemoveEqual(s[1..], c)
  }

  function PutList(t: Table, k: Key, s: seq<Callback>): (r: Table)
    ensures forall x :: ListAt(r, x) == if x == k then s else ListAt(t, x)
  {
    if s == [] then t - {k} else t[k := s]
  }

  /** A load that timed out: the first entry of the callback is told and its value leaves the list. */
  function TimeOut(l: Loads, k: Key, o: Obj): Loads {
    var s := ListAt(l.table, k);
    var i := IndexOf(s, o);
    if i == |s| then l.(table := PutList(l.table, k, s))
    else Loads(PutList(l.table, k, RemoveEqual(s, s[i])), ListenerTables.Release(l.counts, s[i].pid), l.next,
               l.told + [(s[i].ticket, TimedOut)])
  }

  /** A dead callback leaves a list without being told. */
  function Died(l: Loads, k: Key, o: Obj): Loads {
    var s := ListAt(l.table, k);
    var i := IndexOf(s, o);
    if i == |s| then l.(table := PutList(l.table, k, s))
    else l.(table := PutList(l.table, k, s[..i] + s[i + 1..]), counts := ListenerTables.Release(l.counts, s[i].pid))
  }

  function DiedEverywhere(l: Loads, keys: seq<Key>, o: Obj): Loads {
    if keys == [] then l else Died(DiedEverywhere(l, keys[..|keys| - 1], o), keys[|keys| - 1], o)
  }

  // ---- the counts ----

  lemma CountWith(items: set<Item>, x: Item, p: Pid)
    requires x !in items
    ensures CountOf(items + {x}, p) == CountOf(items, p) + if x.1.pid == p then 1 else 0
  {
    assert Charged(items + {x}, p) == Charged(items, p) + if x.1.pid == p then {x} else {};
  }

  lemma CountWithout(items: set<Item>, x: Item, p: Pid)
    requires x in items
    ensures CountOf(items - {x}, p) == CountOf(items, p) - if x.1.pid == p then 1 else 0
  {
    assert Charged(items - {x}, p) == Charged(items, p) - if x.1.pid == p then {x} else {};
  }

  lemma ChargeKeepsExact(counts: map<Pid, int>, items: set<Item>, x: Item)
    requires CountsExact(counts, items) && x !in items
    requires x.1.pid in counts ==> counts[x.1.pid] < MAX_SUBSCRIBE_COUNT
    ensures var p := x.1.pid;
            CountsExact(counts[p := (if p in counts then counts[p] else 0) + 1], items + {x})
  {
    var q := x.1.pid;
    var counts' := counts[q := (if q in counts then counts[q] else 0) + 1];
    forall p | p != 0 ensures ExactAt(counts', items + {x}, p) {
      assert ExactAt(counts, items, p);
      CountWith(items, x, p);
    }
  }

  lemma UnchargedKeepsExact(counts: map<Pid, int>, items: set<Item>, x: Item)
    requires CountsExact(counts, items) && x !in items && x.1.pid == 0
    ensures CountsExact(counts, items + {x})
  {
    forall p | p != 0 ensures ExactAt(counts, items + {x}, p) {
      assert ExactAt(counts, items, p);
      CountWith(items, x, p);
    }
  }

  lemma ReleaseKeepsExact(counts: map<Pid, int>, items: set<Item>, x: Item)
    requires CountsExact(counts, items) && x in items
    ensures CountsExact(ListenerTables.Release(counts, x.1.pid), items - {x})
  {
    forall p | p != 0 ensures ExactAt(ListenerTables.Release(counts, x.1.pid), items - {x}, p) {
      assert ExactAt(counts, items, p);
      CountWithout(items, x, p);
    }
  }

  // ---- the lists ----

  lemma AppendItems(t: Table, k: Key, c: Callback)
    ensures Items(t[k := ListAt(t, k) + [c]]) == Items(t) + {(k, c)}
  {
    var t' := t[k := ListAt(t, k) + [c]];
    assert forall x: Item :: x.1 in ListAt(t', x.0) <==> x.1 in ListAt(t, x.0) || x == (k, c);
  }

  lemma TicketsAreOld(l: Loads, x: Item)
    requires Valid(l) && x in Items(l.table)
    ensures x.1.ticket < l.next
  {
    assert GoodList(x.0, l.table[x.0], l.next);
  }

  lemma AppendKeepsGood(k: Key, s: seq<Callback>, c: Callback, next: Ticket)
    requires GoodList(k, s, next) && c.ticket == next && (c.pid != 0 ==> k.1 == LOCAL_DEVICE && !HasObj(s, c.ref.obj))
    ensures GoodList(k, s + [c], next + 1)
  {
    assert forall i :: 0 <= i < |s| ==> s[i] in s;
  }

  /** A new ticket is not in the table, so appending keeps everything apart. */
  lemma AppendKeepsLists(l: Loads, k: Key, c: Callback)
    requires Valid(l) && c.ticket == l.next && (c.pid != 0 ==> k.1 == LOCAL_DEVICE)
    requires c.pid != 0 ==> !HasObj(ListAt(l.table, k), c.ref.obj)
    ensures var t := l.table[k := ListAt(l.table, k) + [c]];
            && (forall x :: x in t ==> GoodList(x, t[x], l.next + 1))
            && (k, c) !in Items(l.table)
            && Separate(Items(l.table) + {(k, c)})
  {
    var t := l.table[k := ListAt(l.table, k) + [c]];
    forall x | x in t ensures GoodList(x, t[x], l.next + 1) {
      assert x in l.table ==> GoodList(x, l.table[x], l.next);
      if x == k {
        AppendKeepsGood(k, ListAt(l.table, k), c, l.next);
      }
    }
    forall x | x in Items(l.table) ensures x.1.ticket < l.next { TicketsAreOld(l, x); }
  }

  lemma AppendKeepsTold(l: Loads, k: Key, c: Callback)
    requires Valid(l) && c.ticket == l.next
    ensures var t := l.table[k := ListAt(l.table, k) + [c]];
            forall i :: 0 <= i < |l.told| ==> !Pending(t, l.told[i].0)
  {
    AppendItems(l.table, k, c);
    var t := l.table[k := ListAt(l.table, k) + [c]];
    forall i | 0 <= i < |l.told| ensures !Pending(t, l.told[i].0) {
      assert !Pending(l.table, l.told[i].0);
    }
  }

  lemma AcceptKeepsValid(l: Loads, sa: Sa, ref: Ref, pid: Pid)
    requires Valid(l)
    ensures var (l', r) := Accept(l, sa, ref, pid);
            && Valid(l')
            && (l'.next == l.next ==> Items(l'.table) == Items(l.table) && l'.counts == l.counts && l'.told == l.told)
            && (l'.next != l.next ==>
                  && r == ErrOk && l'.next == l.next + 1 && l'.told == l.told
                  && Items(l'.table) == Items(l.table) + {((sa, LOCAL_DEVICE), Callback(ref, pid, l.next))})
  {
    var k := (sa, LOCAL_DEVICE);
    var c := Callback(ref, pid, l.next);
    var l' := Accept(l, sa, ref, pid).0;
    if l'.next == l.next {
      assert Items(l'.table) == Items(l.table);
    } else {
      AppendKeepsLists(l, k, c);
      AppendItems(l.table, k, c);
      AppendKeepsTold(l, k, c);
      ChargeKeepsExact(l.counts, Items(l.table), (k, c));
    }
  }

  /** A local callback of a process except 0 is accepted iff it does not wait for the ability already
      and the process has fewer than 256 waiting; only a full process is refused. */
  lemma AcceptMeaning(l: Loads, sa: Sa, ref: Ref, pid: Pid)
    requires Valid(l) && pid != 0
    ensures var (l', r) := Accept(l, sa, ref, pid);
            var waits := exists x :: x in Items(l.table) && x.0 == (sa, LOCAL_DEVICE) && x.1.ref.obj == ref.obj;
            && (l'.next == l.next + 1 <==> !waits && CountOf(Items(l.table), pid) < MAX_SUBSCRIBE_COUNT)
            && (r == CallbackMapSizeLimit <==> !waits && CountOf(Items(l.table), pid) >= MAX_SUBSCRIBE_COUNT)
            && (r == ErrOk || r == CallbackMapSizeLimit)
  {
    assert ExactAt(l.counts, Items(l.table), pid);
    var k := (sa, LOCAL_DEVICE);
    var s := ListAt(l.table, k);
    if HasObj(s, ref.obj) {
      var i :| 0 <= i < |s| && s[i].ref.obj == ref.obj;
      assert (k, s[i]) in Items(l.table);
    }
    hide Valid;
  }

  lemma AcceptRpcKeepsValid(l: Loads, k: Key, ref: Ref)
    requires Valid(l)
    ensures Valid(AcceptRpc(l, k, ref))
    ensures Items(AcceptRpc(l, k, ref).table) == Items(l.table) + {(k, Callback(ref, 0, l.next))}
  {
    var c := Callback(ref, 0, l.next);
    AppendKeepsLists(l, k, c);
    AppendItems(l.table, k, c);
    AppendKeepsTold(l, k, c);
    UnchargedKeepsExact(l.counts, Items(l.table), (k, c));
  }

  // ---- leaving the table ----

  /** Callbacks that leave, each told at most once: what every removal path comes down to. */
  lemma LeavingKeepsValid(l: Loads, l': Loads, gone: set<Item>, extra: seq<(Ticket, Outcome)>)
    requires Valid(l) && l'.next == l.next && l'.told == l.told + extra
    requires forall k :: k in l'.table ==> GoodList(k, l'.table[k], l.next)
    requires gone <= Items(l.table) && Items(l'.table) == Items(l.table) - gone
    requires CountsExact(l'.counts, Items(l'.table))
    requires forall i, j :: 0 <= i < j < |extra| ==> extra[i].0 != extra[j].0
    requires forall i :: 0 <= i < |extra| ==> HasTicket(gone, extra[i].0)
    ensures Valid(l')
  {
    forall i | 0 <= i < |extra|
      ensures extra[i].0 < l.next && Pending(l.table, extra[i].0) && !Pending(l'.table, extra[i].0)
    {
      assert HasTicket(gone, extra[i].0);
      var x :| x in gone && x.1.ticket == extra[i].0;
      TicketsAreOld(l, x);
    }
    forall i | 0 <= i < |l.told| ensures !Pending(l'.table, l.told[i].0) {
      assert !Pending(l.table, l.told[i].0);
    }
    forall i, j | 0 <= i < j < |l'.told| ensures l'.told[i].0 != l'.told[j].0 {
      if i < |l.told| <= j {
        assert !Pending(l.table, l.told[i].0) && Pending(l.table, extra[j - |l.told|].0);
      }
    }
  }

  ghost function ItemsOf(k: Key, s: seq<Callback>): set<Item> {
    set c | c in s :: (k, c)
  }

  lemma {:induction false} ReleaseAllExact(counts: map<Pid, int>, items: set<Item>, k: Key, s: seq<Callback>)
    requires CountsExact(counts, items) && ItemsOf(k, s) <= items
    requires forall i, j :: 0 <= i < j < |s| ==> s[i].ticket != s[j].ticket
    ensures CountsExact(ReleaseAll(counts, s), items - ItemsOf(k, s))
  {
    if s == [] {
      assert items - ItemsOf(k, s) == items;
    } else {
      var init, c := s[..|s| - 1], s[|s| - 1];
      assert s == init + [c];
      assert ItemsOf(k, s) == ItemsOf(k, init) + {(k, c)};
      assert (k, c) in ItemsOf(k, s);
      assert c !in init;
      ReleaseAllExact(counts, items, k, init);
      ReleaseKeepsExact(ReleaseAll(counts, init), items - ItemsOf(k, init), (k, c));
      assert items - ItemsOf(k, init) - {(k, c)} == items - ItemsOf(k, s);
    }
  }

  lemma FinishListKeepsValid(l: Loads, k: Key, outcome: Outcome)
    requires Valid(l)
    ensures Valid(FinishList(l, k, outcome))
    ensures Items(FinishList(l, k, outcome).table) == Items(l.table) - ItemsOf(k, ListAt(l.table, k))
  {
    var s := ListAt(l.table, k);
    var l' := FinishList(l, k, outcome);
    assert k in l.table ==> GoodList(k, s, l.next);
    ReleaseAllExact(l.counts, Items(l.table), k, s);
    var extra := Tell(s, outcome);
    forall i | 0 <= i < |extra| ensures HasTicket(ItemsOf(k, s), extra[i].0) {
      assert (k, s[i]) in ItemsOf(k, s);
    }
    LeavingKeepsValid(l, l', ItemsOf(k, s), extra);
  }

  lemma {:induction false} FinishListsKeepsValid(l: Loads, keys: seq<Key>, outcome: Outcome)
    requires Valid(l)
    ensures var l' := FinishLists(l, keys, outcome);
            && Valid(l') && l'.next == l.next
            && (forall x :: x in Items(l'.table) <==> x in Items(l.table) && x.0 !in keys)
  {
    if keys != [] {
      var init, k := keys[..|keys| - 1], keys[|keys| - 1];
      FinishListsKeepsValid(l, init, outcome);
      FinishListKeepsValid(FinishLists(l, init, outcome), k, outcome);
      assert keys == init + [k];
    }
  }

  lemma UnchargedLeave(counts: map<Pid, int>, items: set<Item>, gone: set<Item>)
    requires CountsExact(counts, items) && forall x :: x in gone ==> x.1.pid == 0
    ensures CountsExact(counts, items - gone)
  {
    forall p | p != 0 ensures ExactAt(counts, items - gone, p) {
      assert ExactAt(counts, items, p);
      assert Charged(items - gone, p) == Charged(items, p);
    }
  }

  lemma ConsKeepsGood(k: Key, c: Callback, r: seq<Callback>, next: Ticket)
    requires GoodList(k, r, next) && c.ticket < next && (c.pid != 0 ==> k.1 == LOCAL_DEVICE)
    requires forall x :: x in r ==> x.ticket != c.ticket && (x.pid != 0 ==> x.ref.obj != c.ref.obj)
    ensures GoodList(k, [c] + r, next)
  {
    assert forall i :: 0 <= i < |r| ==> r[i] in r;
  }

  lemma TailIsGood(k: Key, s: seq<Callback>, next: Ticket)
    requires GoodList(k, s, next) && s != []
    ensures GoodList(k, s[1..], next)
    ensures forall x :: x in s[1..] ==> x.ticket != s[0].ticket && (x.pid != 0 ==> x.ref.obj != s[0].ref.obj)
    ensures s[0].ticket < next && (s[0].pid != 0 ==> k.1 == LOCAL_DEVICE)
  {
    var t := s[1..];
    assert s[0] in s;
    assert forall i :: 0 <= i < |t| ==> t[i] == s[i + 1] && t[i] in s;
  }

  lemma {:induction false} RemoveEqualKeepsGood(k: Key, s: seq<Callback>, c: Callback, next: Ticket)
    requires GoodList(k, s, next)
    ensures GoodList(k, RemoveEqual(s, c), next)
  {
    if s != [] {
      TailIsGood(k, s, next);
      hide GoodList;
      RemoveEqualKeepsGood(k, s[1..], c, next);
      if !(s[0].ref == c.ref && s[0].pid == c.pid) {
        ConsKeepsGood(k, s[0], RemoveEqual(s[1..], c), next);
      }
    }
  }

  /** Removing a charged callback by value removes just that one. */
  lemma EqualMeansSame(k: Key, s: seq<Callback>, i: nat, next: Ticket)
    requires GoodList(k, s, next) && i < |s|
    ensures s[i].pid != 0 ==> forall c :: c in s && c.ref == s[i].ref && c.pid == s[i].pid ==> c == s[i]
  {
  }

  /** The callbacks that leave with callback `c` when it times out. */
  function LeavingWith(items: set<Item>, k: Key, c: Callback): set<Item> {
    set x | x in items && x.0 == k && x.1.ref == c.ref && x.1.pid == c.pid
  }

  lemma RemoveEqualItems(t: Table, k: Key, c: Callback)
    ensures Items(PutList(t, k, RemoveEqual(ListAt(t, k), c))) == Items(t) - LeavingWith(Items(t), k, c)
  {
    hide RemoveEqual, PutList;
  }

  /** One charge is given back for a callback that times out: the others that leave with it pay nothing. */
  lemma TimeOutKeepsExact(counts: map<Pid, int>, items: set<Item>, k: Key, c: Callback)
    requires CountsExact(counts, items) && (k, c) in items
    requires c.pid != 0 ==> LeavingWith(items, k, c) == {(k, c)}
    ensures CountsExact(ListenerTables.Release(counts, c.pid), items - LeavingWith(items, k, c))
  {
    hide CountsExact;
    ReleaseKeepsExact(counts, items, (k, c));
    if c.pid == 0 {
      UnchargedLeave(ListenerTables.Release(counts, c.pid), items - {(k, c)}, LeavingWith(items, k, c));
      assert items - {(k, c)} - LeavingWith(items, k, c) == items - LeavingWith(items, k, c);
    }
  }

  lemma TimeOutFoundKeepsValid(l: Loads, k: Key, o: Obj)
    requires Valid(l) && IndexOf(ListAt(l.table, k), o) < |ListAt(l.table, k)|
    ensures Valid(TimeOut(l, k, o))
    ensures Items(TimeOut(l, k, o).table) <= Items(l.table)
  {
    var s := ListAt(l.table, k);
    var l' := TimeOut(l, k, o);
    var c := s[IndexOf(s, o)];
    var gone := LeavingWith(Items(l.table), k, c);
    assert c in s && (k, c) in Items(l.table) && (k, c) in gone;
    assert GoodList(k, s, l.next);
    EqualMeansSame(k, s, IndexOf(s, o), l.next);
    assert c.pid != 0 ==> gone == {(k, c)};
    RemoveEqualKeepsGood(k, s, c, l.next);
    RemoveEqualItems(l.table, k, c);
    TimeOutKeepsExact(l.counts, Items(l.table), k, c);
    assert HasTicket(gone, c.ticket);
    hide Items, RemoveEqual, CountsExact, HasTicket, Separate, ToldOnce, IndexOf;
    LeavingKeepsValid(l, l', gone, [(c.ticket, TimedOut)]);
  }

  lemma TimeOutKeepsValid(l: Loads, k: Key, o: Obj)
    requires Valid(l)
    ensures Valid(TimeOut(l, k, o))
    ensures Items(TimeOut(l, k, o).table) <= Items(l.table)
  {
    var s := ListAt(l.table, k);
    if IndexOf(s, o) == |s| {
      assert Items(TimeOut(l, k, o).table) == Items(l.table);
    } else {
      TimeOutFoundKeepsValid(l, k, o);
    }
  }

  lemma EraseKeepsGood(k: Key, s: seq<Callback>, i: nat, next: Ticket)
    requires GoodList(k, s, next) && i < |s|
    ensures var r := s[..i] + s[i + 1..];
            GoodList(k, r, next) && forall c :: c in r <==> c in s && c != s[i]
  {
    var r := s[..i] + s[i + 1..];
    assert forall j :: 0 <= j < |r| ==> r[j] == s[if j < i then j else j + 1];
    forall c | c in s && c != s[i] ensures c in r {
      var j :| 0 <= j < |s| && s[j] == c;
      assert r[if j < i then j else j - 1] == c;
    }
  }

  lemma EraseItems(t: Table, k: Key, s: seq<Callback>, c: Callback)
    requires c in ListAt(t, k) && forall x :: x in s <==> x in ListAt(t, k) && x != c
    ensures Items(PutList(t, k, s)) == Items(t) - {(k, c)}
  {
    hide PutList;
  }

  lemma DiedKeepsValid(l: Loads, k: Key, o: Obj)
    requires Valid(l)
    ensures Valid(Died(l, k, o)) && Died(l, k, o).told == l.told
    ensures Items(Died(l, k, o).table) <= Items(l.table)
  {
    var s := ListAt(l.table, k);
    var l' := Died(l, k, o);
    var i := IndexOf(s, o);
    if i == |s| {
      assert Items(l'.table) == Items(l.table);
    } else {
      assert s[i] in s && GoodList(k, s, l.next);
      EraseKeepsGood(k, s, i, l.next);
      EraseItems(l.table, k, s[..i] + s[i + 1..], s[i]);
      ReleaseKeepsExact(l.counts, Items(l.table), (k, s[i]));
      hide Items, CountsExact, HasTicket, Separate, ToldOnce, IndexOf;
      LeavingKeepsValid(l, l', {(k, s[i])}, []);
    }
  }

  lemma {:induction false} DiedEverywhereKeepsValid(l: Loads, keys: seq<Key>, o: Obj)
    requires Valid(l)
    ensures var l' := DiedEverywhere(l, keys, o);
            Valid(l') && l'.told == l.told && l'.next == l.next && Items(l'.table) <= Items(l.table)
  {
    if keys != [] {
      DiedEverywhereKeepsValid(l, keys[..|keys| - 1], o);
      DiedKeepsValid(DiedEverywhere(l, keys[..|keys| - 1], o), keys[|keys| - 1], o);
    }
  }

  // ---- every run ----

  datatype Op =
    | Load(sa: Sa, ref: Ref, pid: Pid)
    | LoadFromRpc(k: Key, ref: Ref)
    | Finish(keys: seq<Key>, outcome: Outcome)
    | Timeout(k: Key, obj: Obj)
    | CallbackDied(keys: seq<Key>, obj: Obj)

  function Apply(l: Loads, op: Op): Loads {
    match op
    case Load(sa, ref, pid) => Accept(l, sa, ref, pid).0
    case LoadFromRpc(k, ref) => AcceptRpc(l, k, ref)
    case Finish(keys, outcome) => FinishLists(l, keys, outcome)
    case Timeout(k, o) => TimeOut(l, k, o)
    case CallbackDied(keys, o) => DiedEverywhere(l, keys, o)
  }

  function Run(ops: seq<Op>): Loads {
    if ops == [] then EMPTY else Apply(Run(ops[..|ops| - 1]), ops[|ops| - 1])
  }

  /** One operation keeps the table valid, hands out at most one new ticket, and never brings a
      callback back. */
  lemma ApplyKeepsValid(l: Loads, op: Op)
    requires Valid(l)
    ensures var l' := Apply(l, op);
            && Valid(l') && l.next <= l'.next && l.told <= l'.told
            && (forall x :: x in Items(l'.table) ==> x in Items(l.table) || x.1.ticket >= l.next)
  {
    match op
    case Load(sa, ref, pid) => AcceptKeepsValid(l, sa, ref, pid);
    case LoadFromRpc(k, ref) => AcceptRpcKeepsValid(l, k, ref);
    case Finish(keys, outcome) =>
      FinishListsKeepsValid(l, keys, outcome);
      FinishListsToldGrows(l, keys, outcome);
    case Timeout(k, o) => TimeOutKeepsValid(l, k, o);
    case CallbackDied(keys, o) => DiedEverywhereKeepsValid(l, keys, o);
  }

  lemma {:induction false} FinishListsToldGrows(l: Loads, keys: seq<Key>, outcome: Outcome)
    ensures l.told <= FinishLists(l, keys, outcome).told
  {
    if keys != [] {
      FinishListsToldGrows(l, keys[..|keys| - 1], outcome);
    }
  }

  lemma {:induction false} RunIsValid(ops: seq<Op>)
    ensures Valid(Run(ops))
  {
    if ops == [] {
      assert Items(EMPTY.table) == {};
      forall p | p != 0 ensures ExactAt(EMPTY.counts, {}, p) { assert Charged({}, p) == {}; }
    } else {
      RunIsValid(ops[..|ops| - 1]);
      ApplyKeepsValid(Run(ops[..|ops| - 1]), ops[|ops| - 1]);
    }
  }

  /** After any operations, the count of every process except 0 is the number of its waiting
      callbacks, all of them local, and at most 256. */
  lemma CountsAreConserved(ops: seq<Op>, p: Pid)
    requires p != 0
    ensures var l := Run(ops);
            && (p in l.counts <==> CountOf(Items(l.table), p) > 0)
            && (p in l.counts ==> l.counts[p] == CountOf(Items(l.table), p))
            && CountOf(Items(l.table), p) <= MAX_SUBSCRIBE_COUNT
            && forall x :: x in Items(l.table) && x.1.pid == p ==> x.0.1 == LOCAL_DEVICE
  {
    RunIsValid(ops);
    var l := Run(ops);
    assert ExactAt(l.counts, Items(l.table), p);
    forall x | x in Items(l.table) && x.1.pid == p ensures x.0.1 == LOCAL_DEVICE {
      assert GoodList(x.0, l.table[x.0], l.next);
    }
  }

  /** No callback is told two outcomes, and none that still waits has been told any. */
  lemma AtMostOneOutcome(ops: seq<Op>, i: nat, j: nat)
    requires i < |Run(ops).told| && j < |Run(ops).told| && Run(ops).told[i].0 == Run(ops).told[j].0
    ensures i == j && !Pending(Run(ops).table, Run(ops).told[i].0)
  {
    RunIsValid(ops);
    var l := Run(ops);
    assert forall a, b :: 0 <= a < b < |l.told| ==> l.told[a].0 != l.told[b].0;
  }

  lemma NeverBack(l: Loads, op: Op, n: Ticket)
    requires Valid(l) && n < l.next && !Pending(l.table, n)
    ensures !Pending(Apply(l, op).table, n) && l.next <= Apply(l, op).next
  {
    ApplyKeepsValid(l, op);
    hide Apply, Valid, Items;
    var l' := Apply(l, op);
    forall x | x in Items(l'.table) ensures x.1.ticket != n {
      if x in Items(l.table) {
        assert x.1.ticket == n ==> HasTicket(Items(l.table), n);
      }
    }
  }

  /** A callback that has left never comes back: tickets handed out before and not waiting now are
      not waiting after any further operations either. */
  lemma {:induction false} LeavesForGood(ops: seq<Op>, more: seq<Op>, n: Ticket)
    requires n < Run(ops).next && !Pending(Run(ops).table, n)
    ensures !Pending(Run(ops + more).table, n) && Run(ops).next <= Run(ops + more).next
    decreases |more|
  {
    hide Run, Apply, Valid, Pending;
    if more == [] {
      assert ops + more == ops;
    } else {
      var init := more[..|more| - 1];
      LeavesForGood(ops, init, n);
      RunIsValid(ops + init);
      OneMoreOp(ops + init, more[|more| - 1]);
      assert ops + more == ops + init + [more[|more| - 1]];
      NeverBack(Run(ops + init), more[|more| - 1], n);
    }
  }

  lemma OneMoreOp(ops: seq<Op>, op: Op)
    ensures Run(ops + [op]) == Apply(Run(ops), op)
  {
    assert (ops + [op])[..|ops|] == ops;
  }

  lemma {:induction false} FinishedAreTold(l: Loads, keys: seq<Key>, outcome: Outcome, x: Item)
    requires Valid(l) && x in Items(l.table) && x.0 in keys
    ensures (x.1.ticket, outcome) in FinishLists(l, keys, outcome).told
  {
    var init, k := keys[..|keys| - 1], keys[|keys| - 1];
    assert keys == init + [k];
    if x.0 in init {
      FinishedAreTold(l, init, outcome, x);
    } else {
      FinishListsKeepsValid(l, init, outcome);
      var s := ListAt(FinishLists(l, init, outcome).table, k);
      var i :| 0 <= i < |s| && s[i] == x.1;
      assert Tell(s, outcome)[i] == (x.1.ticket, outcome);
    }
  }

  lemma OnlyOneDies(l: Loads, k: Key, o: Obj, x: Item)
    requires Valid(l) && x in Items(l.table) && x !in Items(Died(l, k, o).table)
    ensures x.0 == k && x.1.ref.obj == o
  {
    var s := ListAt(l.table, k);
    var i := IndexOf(s, o);
    if i < |s| {
      assert s[i] in s && GoodList(k, s, l.next);
      EraseKeepsGood(k, s, i, l.next);
    }
    hide Valid, GoodList, IndexOf;
  }

  lemma {:induction false} OnlyTheDeadLeave(l: Loads, keys: seq<Key>, o: Obj, x: Item)
    requires Valid(l) && x in Items(l.table) && x !in Items(DiedEverywhere(l, keys, o).table)
    ensures x.0 in keys && x.1.ref.obj == o
  {
    if keys != [] {
      var init, k := keys[..|keys| - 1], keys[|keys| - 1];
      assert keys == init + [k];
      var mid := DiedEverywhere(l, init, o);
      if x !in Items(mid.table) {
        OnlyTheDeadLeave(l, init, o, x);
      } else {
        DiedEverywhereKeepsValid(l, init, o);
        hide Valid, Died, Items;
        OnlyOneDies(mid, k, o, x);
      }
    }
  }

  /** How a callback leaves: by success or start failure of its own ability, and then it is told just
      that; by a timeout of its own object, when it is the first entry of that object, and then it is
      told, or when it is the same proxy once more, and then it is not; or by its own death, and then
      it is told nothing. Requests never remove one. */
  lemma WhoLeavesIsTold(l: Loads, op: Op, x: Item)
    requires Valid(l) && x in Items(l.table) && x !in Items(Apply(l, op).table)
    ensures match op
            case Load(_, _, _) => false
            case LoadFromRpc(_, _) => false
            case Finish(keys, outcome) => x.0 in keys && (x.1.ticket, outcome) in Apply(l, op).told
            case Timeout(k, o) =>
              var s := ListAt(l.table, k);
              var i := IndexOf(s, o);
              && x.0 == k && i < |s| && x.1.ref == s[i].ref && x.1.ref.obj == o && x.1.pid == s[i].pid
              && Apply(l, op).told == l.told + [(s[i].ticket, TimedOut)]
              && ((x.1.ticket, TimedOut) in Apply(l, op).told <==> x.1 == s[i])
              && (x.1.pid != 0 ==> x.1 == s[i])
            case CallbackDied(keys, o) => x.0 in keys && x.1.ref.obj == o && Apply(l, op).told == l.told
  {
    match op
    case Load(sa, ref, pid) => AcceptKeepsValid(l, sa, ref, pid);
    case LoadFromRpc(k, ref) => AcceptRpcKeepsValid(l, k, ref);
    case Finish(keys, outcome) =>
      FinishListsKeepsValid(l, keys, outcome);
      FinishedAreTold(l, keys, outcome, x);
    case Timeout(k, o) =>
      var s := ListAt(l.table, k);
      var i := IndexOf(s, o);
      if i < |s| {
        assert s[i] in s && GoodList(k, s, l.next);
        EqualMeansSame(k, s, i, l.next);
      }
    case CallbackDied(keys, o) =>
      DiedEverywhereKeepsValid(l, keys, o);
      OnlyTheDeadLeave(l, keys, o, x);
  }

  // ---- who leaves ----

  /** The first entry of an object in its list. */
  ghost predicate IsFirst(t: Table, x: Item, o: Obj) {
    var s := ListAt(t, x.0);
    IndexOf(s, o) < |s| && s[IndexOf(s, o)] == x.1
  }

  /** A charged callback is the first one of its object. */
  lemma ChargedIsFirst(l: Loads, x: Item)
    requires Valid(l) && x in Items(l.table) && x.1.pid != 0
    ensures IsFirst(l.table, x, x.1.ref.obj)
  {
    var s := ListAt(l.table, x.0);
    var j :| 0 <= j < |s| && s[j] == x.1;
    assert GoodList(x.0, s, l.next);
    FirstOfObject(s, x.1.ref.obj, j);
  }

  lemma {:induction false} FirstOfObject(s: seq<Callback>, o: Obj, j: nat)
    requires j < |s| && s[j].ref.obj == o && forall i :: 0 <= i < j ==> s[i].ref.obj != o
    ensures IndexOf(s, o) == j
  {
    if j > 0 {
      FirstOfObject(s[1..], o, j - 1);
    }
  }

  /** From one list exactly the first entry of a dead object leaves. */
  lemma DeathTakesFirst(l: Loads, k: Key, o: Obj, x: Item)
    requires Valid(l)
    ensures x in Items(Died(l, k, o).table) <==> x in Items(l.table) && !(x.0 == k && IsFirst(l.table, x, o))
    ensures ListAt(Died(l, k, o).table, x.0) == ListAt(l.table, x.0) || x.0 == k
  {
    var s := ListAt(l.table, k);
    var i := IndexOf(s, o);
    if i < |s| {
      assert s[i] in s && GoodList(k, s, l.next);
      EraseKeepsGood(k, s, i, l.next);
      hide GoodList, Valid, IndexOf;
    }
  }

  ghost predicate NoKeyTwice(keys: seq<Key>) {
    forall i, j :: 0 <= i < j < |keys| ==> keys[i] != keys[j]
  }

  lemma {:induction false} OtherListsStay(l: Loads, keys: seq<Key>, o: Obj, k: Key)
    requires k !in keys
    ensures ListAt(DiedEverywhere(l, keys, o).table, k) == ListAt(l.table, k)
  {
    if keys != [] {
      OtherListsStay(l, keys[..|keys| - 1], o, k);
      assert keys == keys[..|keys| - 1] + [keys[|keys| - 1]];
    }
  }

  lemma SameListSameFirst(t: Table, t': Table, x: Item, o: Obj)
    requires ListAt(t, x.0) == ListAt(t', x.0)
    ensures IsFirst(t, x, o) <==> IsFirst(t', x, o)
  {
  }

  lemma {:induction false} FirstsLeave(l: Loads, keys: seq<Key>, o: Obj, x: Item)
    requires Valid(l) && NoKeyTwice(keys)
    ensures x in Items(DiedEverywhere(l, keys, o).table) <==>
            x in Items(l.table) && !(x.0 in keys && IsFirst(l.table, x, o))
  {
    hide Valid, Items, Died, IsFirst, ListAt;
    if keys != [] {
      var init, k := keys[..|keys| - 1], keys[|keys| - 1];
      assert keys == init + [k] && k !in init;
      FirstsLeave(l, init, o, x);
      DiedEverywhereKeepsValid(l, init, o);
      var mid := DiedEverywhere(l, init, o);
      DeathTakesFirst(mid, k, o, x);
      OtherListsStay(l, init, o, k);
      if x.0 == k {
        SameListSameFirst(mid.table, l.table, x, o);
      }
    }
  }

  /**
   The death of a callback object: from every list visited exactly the first entry of the object leaves,
   so every charged callback of the object does and its charge is given back; everybody else stays.
   */
  lemma TheDeadLeave(l: Loads, keys: seq<Key>, o: Obj, x: Item)
    requires Valid(l) && NoKeyTwice(keys)
    ensures var l' := DiedEverywhere(l, keys, o);
            && Valid(l')
            && (x in Items(l'.table) <==> x in Items(l.table) && !(x.0 in keys && IsFirst(l.table, x, o)))
            && (x.0 in keys && x.1.ref.obj == o && x.1.pid != 0 ==> x !in Items(l'.table))
            && (x in Items(l.table) && x.1.ref.obj != o ==> x in Items(l'.table))
  {
    hide Valid, Items, Died, DiedEverywhere;
    DiedEverywhereKeepsValid(l, keys, o);
    FirstsLeave(l, keys, o, x);
    if x in Items(l.table) && x.1.ref.obj == o && x.1.pid != 0 {
      ChargedIsFirst(l, x);
    }
  }

  /** A timeout tells the first entry of its object, which leaves its list together with its equals by
      proxy and pid; nobody else leaves. Without such an entry nothing happens. */
  lemma TimeOutTakesFirst(l: Loads, k: Key, o: Obj, x: Item)
    requires Valid(l)
    ensures var l', s := TimeOut(l, k, o), ListAt(l.table, k);
            var i := IndexOf(s, o);
            && (i == |s| ==> Items(l'.table) == Items(l.table) && l'.told == l.told)
            && (i < |s| ==> && l'.told == l.told + [(s[i].ticket, TimedOut)]
                            && (x in Items(l'.table) <==>
                                  x in Items(l.table) && !(x.0 == k && x.1.ref == s[i].ref && x.1.pid == s[i].pid))
                            && (k, s[i]) !in Items(l'.table))
  {
    var s := ListAt(l.table, k);
    var i := IndexOf(s, o);
    if i < |s| {
      RemoveEqualItems(l.table, k, s[i]);
      hide Items, RemoveEqual;
    } else {
      assert Items(TimeOut(l, k, o).table) == Items(l.table);
    }
  }
}
