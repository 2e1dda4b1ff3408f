/**
 Conservation of subscriptions in the inherited listener tables, over every sequence of subscribe,
 unsubscribe and listener-death calls on an initialised manager.
 */
module BaseSubscriptions {
  import opened Common
  import opened ListenerTables
  import V = SubscriptionView

  datatype Op =
    | SubscribeOp(sa: Sa, obj: Obj, pid: Pid)
    | UnsubscribeOp(sa: Sa, obj: Obj)
    | ListenerDied(keys: seq<Sa>, obj: Obj)

  datatype Base = Base(lists: ListenerMap, counts: map<Pid, int>)

  function Apply(b: Base, op: Op): Base {
    match op
    case SubscribeOp(sa, o, pid) =>
      var (l, c, _) := Subscribe(b.lists, b.counts, true, sa, o, pid);
      Base(l, c)
    case UnsubscribeOp(sa, o) =>
      var (l, c) := if CheckInputSysAbilityId(sa) then Erase(b.lists, b.counts, sa, o) else (b.lists, b.counts);
      Base(l, c)
    case ListenerDied(keys, o) =>
      var (l, c) := EraseAll(b.lists, b.counts, keys, o);
      Base(l, c)
  }

  function Run(ops: seq<Op>): Base {
    if ops == [] then Base(map[], map[]) else Apply(Run(ops[..|ops| - 1]), ops[|ops| - 1])
  }

  lemma {:induction false} RunIsValid(ops: seq<Op>)
    ensures BaseValid(Run(ops).lists, Run(ops).counts)
  {
    if ops == [] {
      assert OwnerOf(map[]) == map[];
      forall p ensures V.Count(map[], p) == 0 { assert V.Charged(map[], p) == {}; }
    } else {
      RunIsValid(ops[..|ops| - 1]);
      var b := Run(ops[..|ops| - 1]);
      hide BaseValid, OwnerOf;
      match ops[|ops| - 1]
      case SubscribeOp(sa, o, pid) => SubscribeMeaning(b.lists, b.counts, sa, o, pid);
      case UnsubscribeOp(sa, o) => EraseMeaning(b.lists, b.counts, sa, o);
      case ListenerDied(keys, o) => EraseAllMeaning(b.lists, b.counts, keys, o);
    }
  }

  lemma {:induction false} DistinctMeansOnce(s: seq<SAListener>, i: nat, j: nat)
    requires Distinct(s) && i < |s| && j < |s| && s[i].obj == s[j].obj
    ensures i == j
  {
    if i > 0 && j > 0 {
      DistinctMeansOnce(s[1..], i - 1, j - 1);
    } else if i != j {
      ListedIsOwned(s[1..], (if i > 0 then i else j) - 1);
    }
  }

  lemma {:induction false} ListedIsOwned(s: seq<SAListener>, i: nat)
    requires i < |s|
    ensures s[i].obj in Owners(s)
  {
    if i > 0 {
      ListedIsOwned(s[1..], i - 1);
    }
  }

  /** After any calls, the count of a process is the number of its listener entries over all
      abilities, there is no zero count, and none exceeds 256. */
  lemma CountsAreConserved(ops: seq<Op>, p: Pid)
    ensures var b := Run(ops);
            && (p in b.counts ==> b.counts[p] > 0)
            && (if p in b.counts then b.counts[p] else 0) == V.Count(OwnerOf(b.lists), p) <= MAX_SUBSCRIBE_COUNT
  {
    RunIsValid(ops);
    assert V.Count(OwnerOf(Run(ops).lists), p) <= MAX_SUBSCRIBE_COUNT;
  }

  /** No ability ever lists a listener twice. */
  lemma NoListenerTwice(ops: seq<Op>, sa: Sa, i: nat, j: nat)
    requires var s := ListOf(Run(ops).lists, sa); i < |s| && j < |s| && s[i].obj == s[j].obj
    ensures i == j
  {
    RunIsValid(ops);
    DistinctMeansOnce(Run(ops).lists[sa], i, j);
  }

  /** After the notice of its death, a listener is listed nowhere and everybody else as before. */
  lemma DeathLeavesNothing(ops: seq<Op>, keys: seq<Sa>, o: Obj, k: V.Key)
    requires Covers(keys, Run(ops).lists.Keys)
    ensures var b, b' := Run(ops), Apply(Run(ops), ListenerDied(keys, o));
            && (k in OwnerOf(b'.lists) <==> k in OwnerOf(b.lists) && k.1 != o)
            && (k in OwnerOf(b'.lists) ==> OwnerOf(b'.lists)[k] == OwnerOf(b.lists)[k])
  {
    RunIsValid(ops);
    EraseAllMeaning(Run(ops).lists, Run(ops).counts, keys, o);
    DropOwners(Run(ops).lists, keys, o);
  }
}
