/** A player's weapons and upgrade history (`WeaponController`).

    The upgrade pool is fixed once the component exists. An upgrade asset is either
    a weapon upgrade, which adds its weapon to this controller, or a stat upgrade; a
    damage upgrade raises this controller's damage multiplier, and health and speed
    upgrades act on other components of the player. Applied upgrades are recorded in
    the ghost log `applied`, which lets the invariant say that the history names
    exactly the upgrades that were applied, in order. Resolving a weapon's behaviour
    script to a type is the parameter `resolvesType`. */
module Upgrades {
  import opened Wrappers
  import opened Seqs

  /** A weapon asset: its name and the name of its behaviour class. */
  datatype WeaponData = WeaponData(weaponName: string, behaviorScript: string)

  /** A weapon behaviour added to the player, initialised with its data and the owner's network id. */
  datatype Weapon = Weapon(data: WeaponData, ownerId: nat)

  /** The stats a stat upgrade can raise. */
  datatype StatType = MaxHealth | MoveSpeed | DamageMultiplier | Heal

  /** The two kinds of upgrade asset: a weapon upgrade adds its weapon (which may be
      null); a stat upgrade raises one stat by its value. */
  datatype UpgradeEffect =
    | WeaponUpgrade(weaponData: Option<WeaponData>)
    | StatUpgrade(statType: StatType, value: real)

  /** An upgrade asset: the name and description the panel shows, and what it does. */
  datatype UpgradeData = UpgradeData(upgradeName: string, description: string, effect: UpgradeEffect)

  /** The part of a player's controller that upgrades act on. */
  datatype Loadout = Loadout(activeWeapons: seq<Weapon>, weaponObjects: seq<string>, globalDamageMultiplier: real)

  /** The name of the child object created for a weapon. */
  function WeaponObjectName(data: WeaponData): (name: string)
    ensures |name| == 7 + |data.weaponName| && name[..7] == "Weapon_" && name[7..] == data.weaponName
  {
    "Weapon_" + data.weaponName
  }

  /** `AddWeapon(newData)`: nothing for a null asset; otherwise one more child object, and
      one more active weapon, initialised for this owner, exactly when the behaviour class
      resolves. Earlier weapons and the damage multiplier are kept. */
  function WithWeapon(l: Loadout, newData: Option<WeaponData>, resolvesType: string -> bool, ownerId: nat): (m: Loadout)
    ensures m.globalDamageMultiplier == l.globalDamageMultiplier
    ensures newData.None? ==> m == l
    ensures newData.Some? ==> m.weaponObjects == l.weaponObjects + [WeaponObjectName(newData.value)]
    ensures newData.Some? ==>
      |m.activeWeapons| == |l.activeWeapons| + (if resolvesType(newData.value.behaviorScript) then 1 else 0)
    ensures |l.activeWeapons| <= |m.activeWeapons| && m.activeWeapons[..|l.activeWeapons|] == l.activeWeapons
    ensures forall k :: |l.activeWeapons| <= k < |m.activeWeapons| ==>
      newData.Some? && m.activeWeapons[k] == Weapon(newData.value, ownerId)
  {
    match newData
    case None => l
    case Some(data) =>
      var added := if resolvesType(data.behaviorScript) then [Weapon(data, ownerId)] else [];
      assert (l.activeWeapons + added)[..|l.activeWeapons|] == l.activeWeapons;
      l.(weaponObjects := l.weaponObjects + ["Weapon_" + data.weaponName], activeWeapons := l.activeWeapons + added)
  }

  /** `upgrade.Apply(player)` on the player that owns the loadout: a weapon upgrade adds
      its weapon; a damage upgrade raises the multiplier by its value; health and speed
      upgrades act on other components and leave the loadout as it is. */
  function ApplyUpgrade(l: Loadout, upgrade: UpgradeData, resolvesType: string -> bool, ownerId: nat): Loadout
  {
    match upgrade.effect
    case WeaponUpgrade(data) => WithWeapon(l, data, resolvesType, ownerId)
    case StatUpgrade(stat, value) =>
      if stat == DamageMultiplier then l.(globalDamageMultiplier := l.globalDamageMultiplier + value) else l
  }

  /** The loadout after applying the pool entries named by the in-range indices, in order. */
  function ApplyIndices(l: Loadout, pool: seq<UpgradeData>, indices: seq<int>, resolvesType: string -> bool, ownerId: nat): Loadout
    decreases |indices|
  {
    if indices == [] then l
    else
      var last := indices[|indices| - 1];
      var before := ApplyIndices(l, pool, indices[..|indices| - 1], resolvesType, ownerId);
      if 0 <= last < |pool| then ApplyUpgrade(before, pool[last], resolvesType, ownerId) else before
  }

  /** The total value of the damage upgrades among the in-range indices. */
  function DamageBonus(pool: seq<UpgradeData>, indices: seq<int>): real
  {
    if indices == [] then 0.0
    else
      var u := if 0 <= indices[0] < |pool| then pool[indices[0]].effect else WeaponUpgrade(None);
      (if u.StatUpgrade? && u.statType == DamageMultiplier then u.value else 0.0) + DamageBonus(pool, indices[1..])
  }

  /** The number of weapon upgrades with a weapon asset among the in-range indices. */
  function WeaponGrants(pool: seq<UpgradeData>, indices: seq<int>): nat
  {
    if indices == [] then 0
    else
      var u := if 0 <= indices[0] < |pool| then pool[indices[0]].effect else StatUpgrade(Heal, 0.0);
      (if u.WeaponUpgrade? && u.weaponData.Some? then 1 else 0) + WeaponGrants(pool, indices[1..])
  }

  lemma {:induction false} DamageBonusSnoc(pool: seq<UpgradeData>, indices: seq<int>, i: int)
    ensures DamageBonus(pool, indices + [i]) == DamageBonus(pool, indices) + DamageBonus(pool, [i])
  {
    if indices != [] {
      assert (indices + [i])[1..] == indices[1..] + [i];
      DamageBonusSnoc(pool, indices[1..], i);
    } else {
      assert indices + [i] == [i];
    }
  }

  lemma {:induction false} WeaponGrantsSnoc(pool: seq<UpgradeData>, indices: seq<int>, i: int)
    ensures WeaponGrants(pool, indices + [i]) == WeaponGrants(pool, indices) + WeaponGrants(pool, [i])
  {
    if indices != [] {
      assert (indices + [i])[1..] == indices[1..] + [i];
      WeaponGrantsSnoc(pool, indices[1..], i);
    } else {
      assert indices + [i] == [i];
    }
  }

  /** Applying a list of upgrades raises the damage multiplier by exactly the sum of its
      damage upgrades, whatever their order and whatever else the list holds. */
  lemma {:induction false} ApplyIndicesDamage(l: Loadout, pool: seq<UpgradeData>, indices: seq<int>,
                                              resolvesType: string -> bool, ownerId: nat)
    ensures ApplyIndices(l, pool, indices, resolvesType, ownerId).globalDamageMultiplier
            == l.globalDamageMultiplier + DamageBonus(pool, indices)
    decreases |indices|
  {
    if indices != [] {
      var init, last := indices[..|indices| - 1], indices[|indices| - 1];
      assert indices == init + [last];
      ApplyIndicesDamage(l, pool, init, resolvesType, ownerId);
      DamageBonusSnoc(pool, init, last);
    }
  }

  /** Applying a list of upgrades keeps every earlier weapon and weapon object, and adds
      one weapon object per weapon upgrade that carries a weapon asset. */
  lemma {:induction false} ApplyIndicesWeapons(l: Loadout, pool: seq<UpgradeData>, indices: seq<int>,
                                               resolvesType: string -> bool, ownerId: nat)
    ensures var m := ApplyIndices(l, pool, indices, resolvesType, ownerId);
      && |m.weaponObjects| == |l.weaponObjects| + WeaponGrants(pool, indices)
      && m.weaponObjects[..|l.weaponObjects|] == l.weaponObjects
      && |l.activeWeapons| <= |m.activeWeapons| && m.activeWeapons[..|l.activeWeapons|] == l.activeWeapons
    decreases |indices|
  {
    if indices != [] {
      var init, last := indices[..|indices| - 1], indices[|indices| - 1];
      assert indices == init + [last];
      ApplyIndicesWeapons(l, pool, init, resolvesType, ownerId);
      WeaponGrantsSnoc(pool, init, last);
      var before := ApplyIndices(l, pool, init, resolvesType, ownerId);
      var m := ApplyIndices(l, pool, indices, resolvesType, ownerId);
      assert m.weaponObjects[..|before.weaponObjects|] == before.weaponObjects;
      assert m.activeWeapons[..|before.activeWeapons|] == before.activeWeapons;
      assert m.weaponObjects[..|l.weaponObjects|] == before.weaponObjects[..|l.weaponObjects|];
      assert m.activeWeapons[..|l.activeWeapons|] == before.activeWeapons[..|l.activeWeapons|];
    }
  }

  /** The index test every upgrade operation performs: `0 <= i < pool.Count`. */
  function InPool(n: nat): int -> bool
  {
    i => 0 <= i < n
  }

  /** The names of the in-range entries of `indices`, in order; out-of-range entries are skipped. */
  function UpgradeNames(pool: seq<UpgradeData>, indices: seq<int>): (names: seq<string>)
    ensures |names| <= |indices|
  {
    if indices == [] then []
    else
      (if 0 <= indices[0] < |pool| then [pool[indices[0]].upgradeName] else []) + UpgradeNames(pool, indices[1..])
  }

  /** Whether some upgrade in the pool has this name. */
  predicate IsPoolName(pool: seq<UpgradeData>, name: string)
  {
    exists j :: 0 <= j < |pool| && pool[j].upgradeName == name
  }

  /** Every name shown is the name of some upgrade in the pool. */
  lemma {:induction false} UpgradeNamesFromPool(pool: seq<UpgradeData>, indices: seq<int>)
    ensures forall k :: 0 <= k < |UpgradeNames(pool, indices)| ==> IsPoolName(pool, UpgradeNames(pool, indices)[k])
  {
    if indices != [] {
      UpgradeNamesFromPool(pool, indices[1..]);
      var head := if 0 <= indices[0] < |pool| then [pool[indices[0]].upgradeName] else [];
      var rest := UpgradeNames(pool, indices[1..]);
      assert UpgradeNames(pool, indices) == head + rest;
      forall k | 0 <= k < |head + rest|
        ensures IsPoolName(pool, (head + rest)[k])
      {
        if k < |head| {
          assert (head + rest)[k] == pool[indices[0]].upgradeName;
        } else {
          assert (head + rest)[k] == rest[k - |head|];
        }
      }
    }
  }

  /** The names of two histories laid end to end are the names of each, laid end to end. */
  lemma {:induction false} UpgradeNamesAppend(pool: seq<UpgradeData>, a: seq<int>, b: seq<int>)
    ensures UpgradeNames(pool, a + b) == UpgradeNames(pool, a) + UpgradeNames(pool, b)
  {
    if a != [] {
      var head := if 0 <= a[0] < |pool| then [pool[a[0]].upgradeName] else [];
      assert (a + b)[0] == a[0];
      assert (a + b)[1..] == a[1..] + b;
      UpgradeNamesAppend(pool, a[1..], b);
      var rest, names := UpgradeNames(pool, a[1..]), UpgradeNames(pool, b);
      ConcatAssociative(head, rest, names);
      calc {
        UpgradeNames(pool, a + b);
        head + UpgradeNames(pool, a[1..] + b);
        head + (rest + names);
        (head + rest) + names;
      }
    } else {
      assert a + b == b;
    }
  }

  /** When every index is in range, there is one name per index, the name of the indexed upgrade. */
  lemma {:induction false} UpgradeNamesInRange(pool: seq<UpgradeData>, indices: seq<int>)
    requires AllBelow(indices, |pool|)
    ensures |UpgradeNames(pool, indices)| == |indices|
    ensures forall i :: 0 <= i < |indices| ==> UpgradeNames(pool, indices)[i] == pool[indices[i]].upgradeName
  {
    if indices != [] {
      assert AllBelow(indices[1..], |pool|) by {
        forall i | 0 <= i < |indices[1..]| ensures 0 <= indices[1..][i] < |pool| {
          assert indices[1..][i] == indices[i + 1];
        }
      }
      UpgradeNamesInRange(pool, indices[1..]);
    }
  }

  /** Skipping the out-of-range indices first changes no name. */
  lemma {:induction false} UpgradeNamesFiltered(pool: seq<UpgradeData>, indices: seq<int>)
    ensures UpgradeNames(pool, Filter(indices, InPool(|pool|))) == UpgradeNames(pool, indices)
  {
    if indices != [] {
      var head := if InPool(|pool|)(indices[0]) then [indices[0]] else [];
      assert Filter(indices, InPool(|pool|)) == head + Filter(indices[1..], InPool(|pool|));
      UpgradeNamesAppend(pool, head, Filter(indices[1..], InPool(|pool|)));
      UpgradeNamesFiltered(pool, indices[1..]);
      if head != [] {
        assert head[1..] == [];
      }
    }
  }

  /** The upgrade names shown after a restore: the names shown before it, followed by
      the names of the restored list's valid entries, in the list's order. */
  lemma UpgradeNamesAfterRestore(pool: seq<UpgradeData>, history: seq<int>, restored: seq<int>)
    ensures UpgradeNames(pool, history + Filter(restored, InPool(|pool|)))
            == UpgradeNames(pool, history) + UpgradeNames(pool, restored)
  {
    UpgradeNamesAppend(pool, history, Filter(restored, InPool(|pool|)));
    UpgradeNamesFiltered(pool, restored);
  }

  /** A saved history whose entries all index the pool loses nothing to the restore's
      bounds test, so restoring it appends exactly the saved entries. */
  lemma SaveRestoreRoundTrip(pool: seq<UpgradeData>, saved: seq<int>)
    requires AllBelow(saved, |pool|)
    ensures Filter(saved, InPool(|pool|)) == saved
  {
    FilterProperties(saved, InPool(|pool|));
  }

  class WeaponController {
    const allUpgradesPool: seq<UpgradeData>
    const isServer: bool
    const networkObjectId: nat
    const startingWeapon: Option<WeaponData>
    /** Whether `System.Type.GetType` finds the named behaviour class. */
    const resolvesType: string -> bool

    var activeWeapons: seq<Weapon>
    /** The names of the child objects created for weapons, in creation order. */
    var weaponObjects: seq<string>
    var appliedUpgradeHistory: seq<int>
    /** Multiplier every weapon applies to its damage. */
    var globalDamageMultiplier: real
    /** The component's `enabled` flag (weapons fire only while it is set). */
    var enabled: bool
    /** The player's movement component, if it has one, and whether it is enabled. */
    const hasMovement: bool
    var movementEnabled: bool

    /** The upgrades applied so far, in order. */
    ghost var applied: seq<UpgradeData>

    /** Every history entry indexes the pool, and the history records exactly the applied upgrades. */
    ghost predicate Valid()
      reads this
    {
      && AllBelow(appliedUpgradeHistory, |allUpgradesPool|)
      && |applied| == |appliedUpgradeHistory|
      && forall i :: 0 <= i < |applied| ==> applied[i] == allUpgradesPool[appliedUpgradeHistory[i]]
    }

    constructor (pool: seq<UpgradeData>, isServer: bool, networkObjectId: nat, startingWeapon: Option<WeaponData>,
                 resolvesType: string -> bool, hasMovement: bool)
      ensures Valid()
      ensures allUpgradesPool == pool && this.isServer == isServer && this.networkObjectId == networkObjectId
      ensures this.startingWeapon == startingWeapon && this.resolvesType == resolvesType && this.hasMovement == hasMovement
      ensures activeWeapons == [] && weaponObjects == [] && appliedUpgradeHistory == [] && applied == []
      ensures enabled && movementEnabled && globalDamageMultiplier == 1.0
    {
      allUpgradesPool := pool;
      this.isServer := isServer;
      this.networkObjectId := networkObjectId;
      this.startingWeapon := startingWeapon;
      this.resolvesType := resolvesType;
      this.hasMovement := hasMovement;
      activeWeapons := [];
      weaponObjects := [];
      appliedUpgradeHistory := [];
      applied := [];
      enabled := true;
      movementEnabled := true;
      globalDamageMultiplier := 1.0;
    }

    /** The weapons, weapon objects and damage multiplier, as one value. */
    function CurrentLoadout(): Loadout
      reads this
    {
      Loadout(activeWeapons, weaponObjects, globalDamageMultiplier)
    }

    /** On the server, the starting weapon (if configured) is added. */
    method OnNetworkSpawn()
      modifies this`activeWeapons, this`weaponObjects
      ensures isServer ==> CurrentLoadout() == WithWeapon(old(CurrentLoadout()), startingWeapon, resolvesType, networkObjectId)
      ensures !isServer ==> CurrentLoadout() == old(CurrentLoadout())
    {
      if isServer && startingWeapon.Some? {
        AddWeapon(startingWeapon);
      }
    }

    /** Apply the upgrade at `index` and record it; out-of-range indices are ignored.
        The server-side body of the upgrade request sent by the level-up panel. */
    method RequestUnlockWeaponServerRpc(index: int)
      requires Valid()
      modifies this`appliedUpgradeHistory, this`applied, this`activeWeapons, this`weaponObjects, this`globalDamageMultiplier
      ensures Valid()
      ensures 0 <= index < |allUpgradesPool| ==>
        && appliedUpgradeHistory == old(appliedUpgradeHistory) + [index]
        && applied == old(applied) + [allUpgradesPool[index]]
        && CurrentLoadout() == ApplyUpgrade(old(CurrentLoadout()), allUpgradesPool[index], resolvesType, networkObjectId)
      ensures !(0 <= index < |allUpgradesPool|) ==>
        && appliedUpgradeHistory == old(appliedUpgradeHistory) && applied == old(applied)
        && CurrentLoadout() == old(CurrentLoadout())
    {
      if index < 0 || index >= |allUpgradesPool| {
        return;
      }
      Apply(index);
    }

    /** The same as the request, but only on the server (no client round trip). */
    method ApplyUpgradeAtIndex(index: int)
      requires Valid()
      modifies this`appliedUpgradeHistory, this`applied, this`activeWeapons, this`weaponObjects, this`globalDamageMultiplier
      ensures Valid()
      ensures isServer && 0 <= index < |allUpgradesPool| ==>
        && appliedUpgradeHistory == old(appliedUpgradeHistory) + [index]
        && applied == old(applied) + [allUpgradesPool[index]]
        && CurrentLoadout() == ApplyUpgrade(old(CurrentLoadout()), allUpgradesPool[index], resolvesType, networkObjectId)
      ensures !(isServer && 0 <= index < |allUpgradesPool|) ==>
        && appliedUpgradeHistory == old(appliedUpgradeHistory) && applied == old(applied)
        && CurrentLoadout() == old(CurrentLoadout())
    {
      if !isServer {
        return;
      }
      if index < 0 || index >= |allUpgradesPool| {
        return;
      }
      Apply(index);
    }

    /** Apply `allUpgradesPool[index]` to the player and append `index` to the history. */
    method Apply(index: int)
      requires Valid() && 0 <= index < |allUpgradesPool|
      modifies this`appliedUpgradeHistory, this`applied, this`activeWeapons, this`weaponObjects, this`globalDamageMultiplier
      ensures Valid()
      ensures appliedUpgradeHistory == old(appliedUpgradeHistory) + [index]
      ensures applied == old(applied) + [allUpgradesPool[index]]
      ensures CurrentLoadout() == ApplyUpgrade(old(CurrentLoadout()), allUpgradesPool[index], resolvesType, networkObjectId)
    {
      var selectedUpgrade := allUpgradesPool[index];
      ApplyEffect(selectedUpgrade);
      applied := applied + [selectedUpgrade];
      appliedUpgradeHistory := appliedUpgradeHistory + [index];
    }

    /** An upgrade asset's `Apply` on this player: a weapon upgrade adds its weapon, a
        damage upgrade raises the multiplier; health and speed upgrades go to other
        components of the player and change nothing here. */
    method ApplyEffect(upgrade: UpgradeData)
      modifies this`activeWeapons, this`weaponObjects, this`globalDamageMultiplier
      ensures CurrentLoadout() == ApplyUpgrade(old(CurrentLoadout()), upgrade, resolvesType, networkObjectId)
    {
      match upgrade.effect
      case WeaponUpgrade(weaponData) =>
        AddWeapon(weaponData);
      case StatUpgrade(statType, value) =>
        if statType == DamageMultiplier {
          IncreaseGlobalDamage(value);
        }
    }

    /** A copy of the history: a value, so later changes to either side do not reach the other. */
    method GetAppliedUpgradeHistory() returns (copy: seq<int>)
      requires Valid()
      ensures copy == appliedUpgradeHistory
      ensures AllBelow(copy, |allUpgradesPool|)
    {
      copy := appliedUpgradeHistory;
    }

    /** Re-apply a saved list after a respawn: on the server, the in-range indices are
        applied and appended in the list's order, and the others are skipped. */
    method RestoreUpgrades(upgradeIndices: seq<int>)
      requires Valid()
      modifies this`appliedUpgradeHistory, this`applied, this`activeWeapons, this`weaponObjects, this`globalDamageMultiplier
      ensures Valid()
      ensures isServer ==>
        && appliedUpgradeHistory == old(appliedUpgradeHistory) + Filter(upgradeIndices, InPool(|allUpgradesPool|))
        && CurrentLoadout() == ApplyIndices(old(CurrentLoadout()), allUpgradesPool, upgradeIndices, resolvesType, networkObjectId)
      ensures !isServer ==>
        && appliedUpgradeHistory == old(appliedUpgradeHistory) && applied == old(applied)
        && CurrentLoadout() == old(CurrentLoadout())
    {
      if !isServer {
        return;
      }
      var keep := InPool(|allUpgradesPool|);
      var k := 0;
      while k < |upgradeIndices|
        invariant 0 <= k <= |upgradeIndices|
        invariant Valid()
        invariant appliedUpgradeHistory == old(appliedUpgradeHistory) + Filter(upgradeIndices[..k], keep)
        invariant CurrentLoadout() == ApplyIndices(old(CurrentLoadout()), allUpgradesPool, upgradeIndices[..k], resolvesType, networkObjectId)
      {
        var index := upgradeIndices[k];
        FilterAppend(upgradeIndices[..k], [index], keep);
        assert upgradeIndices[..k + 1] == upgradeIndices[..k] + [index];
        assert upgradeIndices[..k + 1][..k] == upgradeIndices[..k];
        if index >= 0 && index < |allUpgradesPool| {
          Apply(index);
        }
        k := k + 1;
      }
      assert upgradeIndices[..k] == upgradeIndices;
    }

    /** The names of the history's in-range entries, in history order. */
    method GetAppliedUpgradeNames() returns (names: seq<string>)
      ensures names == UpgradeNames(allUpgradesPool, appliedUpgradeHistory)
    {
      names := [];
      var k := 0;
      while k < |appliedUpgradeHistory|
        invariant 0 <= k <= |appliedUpgradeHistory|
        invariant names == UpgradeNames(allUpgradesPool, appliedUpgradeHistory[..k])
      {
        var index := appliedUpgradeHistory[k];
        UpgradeNamesAppend(allUpgradesPool, appliedUpgradeHistory[..k], [index]);
        assert appliedUpgradeHistory[..k + 1] == appliedUpgradeHistory[..k] + [index];
        if index >= 0 && index < |allUpgradesPool| {
          names := names + [allUpgradesPool[index].upgradeName];
        }
        k := k + 1;
      }
      assert appliedUpgradeHistory[..k] == appliedUpgradeHistory;
    }

    /** Damage upgrades raise the shared damage multiplier by their amount; nothing else changes. */
    method IncreaseGlobalDamage(amount: real)
      modifies this`globalDamageMultiplier
      ensures globalDamageMultiplier == old(globalDamageMultiplier) + amount
    {
      globalDamageMultiplier := globalDamageMultiplier + amount;
    }

    /** Add a weapon: nothing for a null asset; otherwise a child object is created, and
        the weapon joins the active list only if its behaviour class resolves. */
    method AddWeapon(newData: Option<WeaponData>)
      modifies this`activeWeapons, this`weaponObjects
      ensures CurrentLoadout() == WithWeapon(old(CurrentLoadout()), newData, resolvesType, networkObjectId)
    {
      if newData.None? {
        return;
      }
      var data := newData.value;
      weaponObjects := weaponObjects + ["Weapon_" + data.weaponName];
      if resolvesType(data.behaviorScript) {
        var newWeapon := Weapon(data, networkObjectId);
        activeWeapons := activeWeapons + [newWeapon];
      }
    }
  }

  /** Death and respawn: the history saved from `source` with `GetAppliedUpgradeHistory`
      and restored into a freshly spawned server-side controller with the same pool gives
      back the same history and the same applied upgrades, and the new loadout is the
      starting weapon followed by the effects of the saved upgrades, in order. */
  method RespawnWithSavedUpgrades(source: WeaponController, newObjectId: nat) returns (respawned: WeaponController)
    requires source.Valid()
    ensures fresh(respawned) && respawned.Valid() && respawned.isServer
    ensures respawned.allUpgradesPool == source.allUpgradesPool
    ensures respawned.appliedUpgradeHistory == source.appliedUpgradeHistory
    ensures respawned.applied == source.applied
    ensures respawned.CurrentLoadout()
            == ApplyIndices(WithWeapon(Loadout([], [], 1.0), source.startingWeapon, source.resolvesType, newObjectId),
                            source.allUpgradesPool, source.appliedUpgradeHistory, source.resolvesType, newObjectId)
  {
    var saved := source.GetAppliedUpgradeHistory();
    respawned := new WeaponController(source.allUpgradesPool, true, newObjectId, source.startingWeapon,
                                      source.resolvesType, source.hasMovement);
    respawned.OnNetworkSpawn();
    respawned.RestoreUpgrades(saved);
    SaveRestoreRoundTrip(source.allUpgradesPool, saved);
    assert respawned.appliedUpgradeHistory == saved;
    assert |respawned.applied| == |source.applied|;
    forall i | 0 <= i < |source.applied|
      ensures respawned.applied[i] == source.applied[i]
    {
    }
  }
}
