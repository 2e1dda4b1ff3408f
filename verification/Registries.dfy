/**
 The ability map of one manager, the base manager or the manager of one user: registration,
 removal by id, removal of a dead object, lookup.
 */
module Registries {
  import opened Common

  const MAX_SERVICES: nat := 1000

  type Registry = map<Sa, Obj>

  /** What a caller passes when it registers an ability; the object may be missing and the extra
      property may contradict the profile. */
  datatype Registration = Registration(sa: Sa, ability: Option<Obj>, asInProfile: bool)

  predicate Acceptable(r: Registration) {
    CheckInputSysAbilityId(r.sa) && r.ability.Some? && r.asInProfile
  }

  function Added(reg: Registry, r: Registration): Registry {
    if Acceptable(r) && |reg| < MAX_SERVICES then reg[r.sa := r.ability.value] else reg
  }

  predicate AddSucceeds(reg: Registry, r: Registration) {
    Acceptable(r) && |reg| < MAX_SERVICES
  }

  predicate RemoveSucceeds(reg: Registry, sa: Sa) {
    CheckInputSysAbilityId(sa) && sa in reg
  }

  function Lookup(reg: Registry, sa: Sa): Option<Obj> {
    if CheckInputSysAbilityId(sa) && sa in reg then Some(reg[sa]) else None
  }

  /** The first entry, in id order, that holds an object. */
  ghost predicate IsFirstHolder(reg: Registry, o: Obj, sa: Sa) {
    sa in reg && reg[sa] == o && forall x :: x in reg && reg[x] == o ==> sa <= x
  }

  ghost predicate Holds(reg: Registry, o: Obj) {
    exists sa :: sa in reg && reg[sa] == o
  }

  class AbilityMap {
    var abilityMap: Registry

    constructor ()
      ensures abilityMap == map[]
    {
      abilityMap := map[];
    }

    /** Registers an ability. `covered` tells that an older registration was replaced. */
    method AddSystemAbility(r: Registration) returns (err: Err, covered: bool)
      modifies this
      ensures abilityMap == Added(old(abilityMap), r)
      ensures err == ErrOk <==> AddSucceeds(old(abilityMap), r)
      ensures covered <==> err == ErrOk && r.sa in old(abilityMap)
      ensures err == ErrOk ==> Lookup(abilityMap, r.sa) == r.ability
      ensures |old(abilityMap)| <= MAX_SERVICES ==> |abilityMap| <= MAX_SERVICES
    {
      covered := false;
      if !CheckInputSysAbilityId(r.sa) || r.ability.None? {
        return InvalidValue, false;
      }
      if !r.asInProfile {
        return InvalidValue, false;
      }
      if |abilityMap| >= MAX_SERVICES {
        return InvalidValue, false;
      }
      covered := r.sa in abilityMap;
      abilityMap := abilityMap[r.sa := r.ability.value];
      assert abilityMap.Keys == old(abilityMap).Keys + {r.sa};
      err := ErrOk;
    }

    method RemoveSystemAbility(sa: Sa) returns (err: Err)
      modifies this
      ensures err == ErrOk <==> RemoveSucceeds(old(abilityMap), sa)
      ensures abilityMap == if err == ErrOk then old(abilityMap) - {sa} else old(abilityMap)
    {
      if !CheckInputSysAbilityId(sa) {
        return InvalidValue;
      }
      if sa !in abilityMap {
        return InvalidValue;
      }
      abilityMap := abilityMap - {sa};
      err := ErrOk;
    }

    /** The object of some ability died: the first entry that holds it goes, and only that one. */
    method RemoveObject(o: Obj) returns (removed: Option<Sa>)
      modifies this
      ensures removed.Some? <==> Holds(old(abilityMap), o)
      ensures removed.Some? ==> IsFirstHolder(old(abilityMap), o, removed.value)
      ensures abilityMap == if removed.Some? then old(abilityMap) - {removed.value} else old(abilityMap)
    {
      removed := None;
      var ids := KeySeq(abilityMap.Keys);
      for i := 0 to |ids|
        invariant removed.Some? ==> removed.value in abilityMap && abilityMap[removed.value] == o
        invariant forall j :: 0 <= j < i && abilityMap[ids[j]] == o ==> removed.Some? && removed.value <= ids[j]
      {
        if abilityMap[ids[i]] == o && (removed.None? || ids[i] < removed.value) {
          removed := Some(ids[i]);
        }
      }
      if removed.Some? {
        abilityMap := abilityMap - {removed.value};
      }
    }

    method RemoveDiedSystemAbility(sa: Sa)
      modifies this
      ensures abilityMap == old(abilityMap) - {sa}
    {
      if sa !in abilityMap {
        return;
      }
      abilityMap := abilityMap - {sa};
    }

    method CheckSystemAbility(sa: Sa) returns (r: Option<Obj>)
      ensures r == Lookup(abilityMap, sa)
    {
      if !CheckInputSysAbilityId(sa) {
        return None;
      }
      if sa in abilityMap {
        return Some(abilityMap[sa]);
      }
      r := None;
    }
  }
}
