/**
 The list of idle processes that may be unloaded, least recently used first. `idle` is what the state
 scheduler tells about the abilities that are idle, `canUnload` the processes it allows to unload.
 */
module IdleProcesses {
  import opened Common

  type Name = string

  datatype Info = Info(pid: Pid, processName: Name, lastIdleTime: int)

  ghost predicate Sorted(s: seq<Info>) {
    forall i, j :: 0 <= i < j < |s| ==> s[i].lastIdleTime <= s[j].lastIdleTime
  }

  /** The list holds each entry once, and one entry for a process. */
  ghost predicate OnePerProcess(s: seq<Info>) {
    && (forall x :: x in s ==> multiset(s)[x] == 1)
    && (forall x, y :: x in s && y in s && x.processName == y.processName ==> x == y)
  }

  /** `x` is what the scheduler tells about one of the abilities. */
  ghost predicate IsIdle(sas: seq<Sa>, idle: map<Sa, Info>, x: Info) {
    exists i :: 0 <= i < |sas| && sas[i] in idle && idle[sas[i]] == x
  }

  /** `x` is the latest idle ability of its process. */
  ghost predicate IsLatest(sas: seq<Sa>, idle: map<Sa, Info>, x: Info) {
    && IsIdle(sas, idle, x)
    && forall y :: IsIdle(sas, idle, y) && y.processName == x.processName ==> y.lastIdleTime <= x.lastIdleTime
  }

  ghost predicate HasProcess(s: seq<Info>, name: Name) {
    exists x :: x in s && x.processName == name
  }

  /** Exactly the unloadable processes with an idle ability, each with its latest idle time. */
  ghost predicate IsIdleList(sas: seq<Sa>, idle: map<Sa, Info>, canUnload: set<Name>, s: seq<Info>) {
    && OnePerProcess(s)
    && (forall x :: x in s ==> IsLatest(sas, idle, x) && x.processName in canUnload)
    && (forall y :: IsIdle(sas, idle, y) && y.processName in canUnload ==> HasProcess(s, y.processName))
  }

  /** The order does not matter for which entries there are. */
  lemma OrderDoesNotMatter(sas: seq<Sa>, idle: map<Sa, Info>, canUnload: set<Name>, s: seq<Info>, t: seq<Info>)
    requires IsIdleList(sas, idle, canUnload, s) && multiset(s) == multiset(t)
    ensures IsIdleList(sas, idle, canUnload, t)
  {
    assert forall x :: x in s <==> x in multiset(s);
    assert forall x :: x in t <==> x in multiset(t);
    forall y | IsIdle(sas, idle, y) && y.processName in canUnload ensures HasProcess(t, y.processName) {
      assert HasProcess(s, y.processName);
      var x :| x in s && x.processName == y.processName;
      assert x in t;
    }
  }

  function Insert(x: Info, s: seq<Info>): (r: seq<Info>)
    ensures multiset(r) == multiset(s) + multiset{x}
  {
    if s == [] then [x]
    else if x.lastIdleTime < s[0].lastIdleTime then [x] + s
    else
      assert s == [s[0]] + s[1..];
      [s[0]] + Insert(x, s[1..])
  }

  lemma {:induction false} InsertKeepsSorted(x: Info, s: seq<Info>)
    requires Sorted(s)
    ensures Sorted(Insert(x, s))
  {
    if s != [] && x.lastIdleTime >= s[0].lastIdleTime {
      InsertKeepsSorted(x, s[1..]);
      var r := Insert(x, s[1..]);
      forall i | 0 <= i < |r| ensures s[0].lastIdleTime <= r[i].lastIdleTime {
        assert r[i] in multiset(r);
        assert r[i] == x || r[i] in s[1..];
      }
    }
  }

  method Sort(s: seq<Info>) returns (r: seq<Info>)
    ensures Sorted(r) && multiset(r) == multiset(s)
  {
    r := [];
    for i := 0 to |s|
      invariant Sorted(r) && multiset(r) == multiset(s[..i])
    {
      InsertKeepsSorted(s[i], r);
      r := Insert(s[i], r);
      assert s[..i + 1] == s[..i] + [s[i]];
    }
    assert s[..|s|] == s;
  }

  /** The table of processes holds the latest idle ability of every process seen so far. */
  ghost predicate IsTable(sas: seq<Sa>, idle: map<Sa, Info>, procs: map<Name, Info>) {
    && (forall n :: n in procs ==> procs[n].processName == n && IsLatest(sas, idle, procs[n]))
    && (forall y :: IsIdle(sas, idle, y) ==> y.processName in procs)
  }

  lemma OneMore(sas: seq<Sa>, i: nat, idle: map<Sa, Info>, x: Info)
    requires i < |sas|
    ensures IsIdle(sas[..i + 1], idle, x) <==> IsIdle(sas[..i], idle, x) || (sas[i] in idle && idle[sas[i]] == x)
  {
    assert sas[..i + 1][i] == sas[i];
    if IsIdle(sas[..i], idle, x) {
      var j :| 0 <= j < i && sas[..i][j] in idle && idle[sas[..i][j]] == x;
      assert sas[..i + 1][j] == sas[j];
    }
    if IsIdle(sas[..i + 1], idle, x) {
      var j :| 0 <= j < i + 1 && sas[..i + 1][j] in idle && idle[sas[..i + 1][j]] == x;
      assert j < i ==> sas[..i][j] == sas[j];
    }
  }

  /** The first loop. */
  method CollectLatest(sas: seq<Sa>, idle: map<Sa, Info>) returns (procs: map<Name, Info>)
    ensures IsTable(sas, idle, procs)
  {
    procs := map[];
    for i := 0 to |sas|
      invariant IsTable(sas[..i], idle, procs)
    {
      forall x
        ensures IsIdle(sas[..i + 1], idle, x) <==> IsIdle(sas[..i], idle, x) || (sas[i] in idle && idle[sas[i]] == x)
      {
        OneMore(sas, i, idle, x);
      }
      if sas[i] !in idle {
        continue;
      }
      var info := idle[sas[i]];
      hide IsIdle;
      if info.processName !in procs {
        procs := procs[info.processName := info];
      } else if procs[info.processName].lastIdleTime < info.lastIdleTime {
        procs := procs[info.processName := info];
      }
    }
    assert sas[..|sas|] == sas;
  }

  lemma AppendKeepsOne(s: seq<Info>, x: Info)
    requires OnePerProcess(s) && forall y :: y in s ==> y.processName != x.processName
    ensures OnePerProcess(s + [x])
  {
    assert multiset(s + [x]) == multiset(s) + multiset{x};
    assert x !in s && x !in multiset(s);
    forall y | y in s + [x] ensures multiset(s + [x])[y] == 1 {
      assert y in s || y == x;
    }
  }

  /** The entries of the named processes that may be unloaded. */
  ghost predicate IsSelection(names: seq<Name>, procs: map<Name, Info>, canUnload: set<Name>, r: seq<Info>) {
    && (forall x :: x in r ==> && x.processName in names && x.processName in canUnload && x.processName in procs
                               && x == procs[x.processName])
    && (forall n :: n in names && n in canUnload && n in procs ==> procs[n] in r)
  }

  lemma SelectionIsIdleList(sas: seq<Sa>, idle: map<Sa, Info>, canUnload: set<Name>, procs: map<Name, Info>,
                            names: seq<Name>, r: seq<Info>)
    requires IsTable(sas, idle, procs) && IsSelection(names, procs, canUnload, r) && OnePerProcess(r)
    requires forall n :: n in procs ==> n in names
    ensures IsIdleList(sas, idle, canUnload, r)
  {
    hide IsIdle, IsLatest, OnePerProcess;
    forall y | IsIdle(sas, idle, y) && y.processName in canUnload ensures HasProcess(r, y.processName) {
      assert procs[y.processName] in r;
    }
  }

  /** The second loop. */
  method SelectUnloadable(sas: seq<Sa>, idle: map<Sa, Info>, canUnload: set<Name>, procs: map<Name, Info>)
      returns (r: seq<Info>)
    requires IsTable(sas, idle, procs)
    ensures IsIdleList(sas, idle, canUnload, r)
  {
    hide IsIdle, IsLatest, OnePerProcess, IsIdleList;
    var names := KeySeq(procs.Keys);
    r := [];
    assert OnePerProcess(r) by { NoneIsOne(); }
    for i := 0 to |names|
      invariant OnePerProcess(r)
      invariant IsSelection(names[..i], procs, canUnload, r)
    {
      assert names[..i + 1] == names[..i] + [names[i]];
      if names[i] in canUnload {
        AppendKeepsOne(r, procs[names[i]]);
        r := r + [procs[names[i]]];
      }
    }
    assert names[..|names|] == names;
    SelectionIsIdleList(sas, idle, canUnload, procs, names, r);
  }

  lemma NoneIsOne()
    ensures OnePerProcess([])
  {
  }

  /** Ascending by last idle time; exactly one entry for every unloadable process with an idle
      ability, carrying the largest idle time among its abilities. Entries already in the list are
      kept and sorted in. */
  method GetLruIdleSystemAbilityProc(ready: bool, sas: seq<Sa>, idle: map<Sa, Info>, canUnload: set<Name>,
                                     processInfos: seq<Info>)
      returns (err: Err, out: seq<Info>, ghost found: seq<Info>)
    ensures !ready ==> err == InvalidValue && out == processInfos
    ensures ready ==> err == ErrOk && Sorted(out) && multiset(out) == multiset(processInfos) + multiset(found)
    ensures ready ==> IsIdleList(sas, idle, canUnload, found)
    ensures ready && processInfos == [] ==> IsIdleList(sas, idle, canUnload, out)
  {
    if !ready {
      return InvalidValue, processInfos, [];
    }
    var procs := CollectLatest(sas, idle);
    var selected := SelectUnloadable(sas, idle, canUnload, procs);
    found := selected;
    out := Sort(processInfos + selected);
    err := ErrOk;
    if processInfos == [] {
      assert processInfos + selected == selected;
      OrderDoesNotMatter(sas, idle, canUnload, found, out);
    }
  }
}
