/**
 What a user manager's listener and subscriber tables mean: two independent sets of
 (ability, listener) keys, the direct and the foreground subscriptions, and for each key
 that is in either of them the process whose quota pays for it.
 */
module SubscriptionView {
  import opened Common

  type Key = (Sa, Obj)

  datatype View = View(direct: set<Key>, foreground: set<Key>, owner: map<Key, Pid>)

  const EMPTY := View({}, {}, map[])

  /** The keys charged to process `pid`. */
  function Charged(owner: map<Key, Pid>, pid: Pid): set<Key> {
    set k | k in owner && owner[k] == pid
  }

  function Count(owner: map<Key, Pid>, pid: Pid): nat {
    |Charged(owner, pid)|
  }

  ghost predicate WithinQuota(owner: map<Key, Pid>) {
    forall p :: Count(owner, p) <= MAX_SUBSCRIBE_COUNT
  }

  /** The listener table is the union of both sets, every key names a legal ability, and no process
      is over its quota. */
  ghost predicate Valid(v: View) {
    && v.owner.Keys == v.direct + v.foreground
    && (forall k :: k in v.owner ==> CheckInputSysAbilityId(k.0))
    && WithinQuota(v.owner)
  }

  /** The subscriptions of the kind an operation works on. */
  function Flagged(v: View, fg: bool): set<Key> {
    if fg then v.foreground else v.direct
  }

  lemma FlaggedMeaning(v: View)
    ensures Flagged(v, true) == v.foreground && Flagged(v, false) == v.direct
  {
  }

  function Mark(v: View, k: Key, fg: bool): View {
    if fg then v.(foreground := v.foreground + {k}) else v.(direct := v.direct + {k})
  }

  function Unmark(v: View, k: Key, fg: bool): View {
    if fg then v.(foreground := v.foreground - {k}) else v.(direct := v.direct - {k})
  }

  function Subscribe(v: View, k: Key, fg: bool, pid: Pid): (View, Err) {
    if !CheckInputSysAbilityId(k.0) then (v, InvalidValue)
    else if k in v.owner then (Mark(v, k, fg), ErrOk)
    else if Count(v.owner, pid) >= MAX_SUBSCRIBE_COUNT then (v, PermissionDenied)
    else (Mark(v, k, fg).(owner := v.owner[k := pid]), ErrOk)
  }

  function Unsubscribe(v: View, k: Key, fg: bool): (View, Err) {
    if !CheckInputSysAbilityId(k.0) then (v, InvalidValue)
    else
      var w := Unmark(v, k, fg);
      if k in w.direct + w.foreground then (w, ErrOk) else (w.(owner := w.owner - {k}), ErrOk)
  }

  /** Everything a listener held disappears when its death is noticed. */
  function DropListener(v: View, o: Obj): View {
    View(set k | k in v.direct && k.1 != o,
         set k | k in v.foreground && k.1 != o,
         map k | k in v.owner && k.1 != o :: v.owner[k])
  }

  lemma CountAfterCharge(owner: map<Key, Pid>, k: Key, pid: Pid, p: Pid)
    requires k !in owner
    ensures Count(owner[k := pid], p) == Count(owner, p) + if p == pid then 1 else 0
  {
    assert Charged(owner[k := pid], p) == Charged(owner, p) + if p == pid then {k} else {};
  }

  lemma CountAfterRelease(owner: map<Key, Pid>, k: Key, p: Pid)
    requires k in owner
    ensures Count(owner - {k}, p) == Count(owner, p) - if p == owner[k] then 1 else 0
  {
    assert Charged(owner - {k}, p) == Charged(owner, p) - if p == owner[k] then {k} else {};
  }

  lemma CountMonotone(big: map<Key, Pid>, small: map<Key, Pid>, p: Pid)
    requires forall k :: k in small ==> k in big && big[k] == small[k]
    ensures Count(small, p) <= Count(big, p)
  {
    SubsetCardinality(Charged(small, p), Charged(big, p));
  }

  lemma {:induction false} SubsetCardinality<T>(a: set<T>, b: set<T>)
    requires a <= b
    ensures |a| <= |b|
  {
    if a != {} {
      var x :| x in a;
      SubsetCardinality(a - {x}, b - {x});
    }
  }

  /** A subscription adds exactly its own key to its own kind, or nothing at all. */
  lemma SubscribeKeepsValid(v: View, k: Key, fg: bool, pid: Pid)
    requires Valid(v)
    ensures var (w, r) := Subscribe(v, k, fg, pid);
            && Valid(w)
            && (r == ErrOk <==> && CheckInputSysAbilityId(k.0)
                                && (k in v.owner || Count(v.owner, pid) < MAX_SUBSCRIBE_COUNT))
            && (r == ErrOk ==> Flagged(w, fg) == Flagged(v, fg) + {k} && Flagged(w, !fg) == Flagged(v, !fg))
            && (r != ErrOk ==> w == v)
  {
    var (w, r) := Subscribe(v, k, fg, pid);
    if r == ErrOk && k !in v.owner {
      forall p ensures Count(w.owner, p) <= MAX_SUBSCRIBE_COUNT {
        CountAfterCharge(v.owner, k, pid, p);
        assert Count(v.owner, p) <= MAX_SUBSCRIBE_COUNT;
      }
    }
  }

  /** Removing one kind of subscription never cancels the other kind. */
  lemma UnsubscribeKeepsValid(v: View, k: Key, fg: bool)
    requires Valid(v)
    ensures var (w, r) := Unsubscribe(v, k, fg);
            && Valid(w)
            && (r == ErrOk <==> CheckInputSysAbilityId(k.0))
            && (r == ErrOk ==> Flagged(w, fg) == Flagged(v, fg) - {k})
            && Flagged(w, !fg) == Flagged(v, !fg)
            && (r != ErrOk ==> w == v)
  {
    var (w, r) := Unsubscribe(v, k, fg);
    forall p ensures Count(w.owner, p) <= MAX_SUBSCRIBE_COUNT {
      CountMonotone(v.owner, w.owner, p);
    }
  }

  lemma DropListenerKeepsValid(v: View, o: Obj)
    requires Valid(v)
    ensures Valid(DropListener(v, o))
  {
    forall p ensures Count(DropListener(v, o).owner, p) <= MAX_SUBSCRIBE_COUNT {
      CountMonotone(v.owner, DropListener(v, o).owner, p);
    }
  }

  /**
   Undoing an accepted subscription restores the tables exactly, including the quota charge and a
   subscription of the other kind, if and only if the key did not already have a subscription of
   this kind.
   */
  lemma RollbackIsExact(v: View, k: Key, fg: bool, pid: Pid)
    requires Valid(v)
    requires Subscribe(v, k, fg, pid).1 == ErrOk
    ensures Unsubscribe(Subscribe(v, k, fg, pid).0, k, fg) == (v, ErrOk) <==> k !in Flagged(v, fg)
  {
    var w := Subscribe(v, k, fg, pid).0;
    var u := Unsubscribe(w, k, fg).0;
    assert Flagged(u, fg) == Flagged(v, fg) - {k};
    if k !in Flagged(v, fg) {
      assert u.direct == v.direct && u.foreground == v.foreground;
      assert u.owner == v.owner;
    }
  }

  /** The same for undoing an unsubscription, when the quota still pays for it in the same way. */
  lemma ResubscribeIsExact(v: View, k: Key, fg: bool)
    requires Valid(v) && k in Flagged(v, fg) && CheckInputSysAbilityId(k.0)
    ensures Subscribe(Unsubscribe(v, k, fg).0, k, fg, v.owner[k]) == (v, ErrOk)
  {
    var w := Unsubscribe(v, k, fg).0;
    if k !in w.owner {
      CountAfterRelease(v.owner, k, v.owner[k]);
      assert Count(v.owner, v.owner[k]) <= MAX_SUBSCRIBE_COUNT;
    }
    var u := Subscribe(w, k, fg, v.owner[k]).0;
    assert u.direct == v.direct && u.foreground == v.foreground && u.owner == v.owner;
  }
}
