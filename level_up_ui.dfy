/** The level-up panel (`LevelUpUI`): it offers the upgrade pool in a random
    order, one option per button, and forwards the player's pick.

    The panel, its buttons and the player's input components are modelled by
    their enabled flags; the button captions are not modelled. Unity's global
    random generator is the field `rng`. */
module LevelUp {
  import opened Wrappers
  import opened Seqs
  import opened UnityRandom
  import opened Upgrades

  /** `s` with the entries at `i` and `j` exchanged (the same `s` when `i == j`). */
  function Swap(s: seq<int>, i: nat, j: nat): (t: seq<int>)
    requires i < |s| && j < |s|
    ensures |t| == |s| && t[i] == s[j] && t[j] == s[i]
    ensures forall k :: 0 <= k < |s| && k != i && k != j ==> t[k] == s[k]
  {
    s[i := s[j]][j := s[i]]
  }

  /** A swap keeps the multiset of entries. */
  lemma SwapMultiset(s: seq<int>, i: nat, j: nat)
    requires i < |s| && j < |s|
    ensures multiset(Swap(s, i, j)) == multiset(s)
  {
    if i != j {
      var t1 := s[i := s[j]];
      assert multiset(t1) == multiset(s) - multiset{s[i]} + multiset{s[j]};
      assert t1[j] == s[j];
      assert multiset(t1[j := s[i]]) == multiset(t1) - multiset{s[j]} + multiset{s[i]};
    }
  }

  /** A swap introduces no duplicate and no entry out of range. */
  lemma SwapKeepsDistinct(s: seq<int>, i: nat, j: nat, n: int)
    requires i < |s| && j < |s|
    ensures Distinct(s) ==> Distinct(Swap(s, i, j))
    ensures AllBelow(s, n) ==> AllBelow(Swap(s, i, j), n)
  {
    var t := Swap(s, i, j);
    if Distinct(s) {
      forall p, q | 0 <= p < q < |t| ensures t[p] != t[q] {
        var fp := if p == i then j else if p == j then i else p;
        var fq := if q == i then j else if q == j then i else q;
        assert t[p] == s[fp] && t[q] == s[fq];
      }
    }
  }

  /** The shuffle loop from position `i` on: at each position, swap in the entry at a
      random position in [i, n). */
  function FisherYates(s: seq<int>, i: nat, r: Rng): (out: (seq<int>, Rng))
    requires i <= |s|
    decreases |s| - i
    ensures |out.0| == |s| && out.0[..i] == s[..i]
    ensures out.1 == Rng(r.stream, r.pos + (|s| - i))
  {
    if i == |s| then (s, r)
    else
      var (j, r') := RangeInt(r, i, |s|);
      FisherYates(Swap(s, i, j), i + 1, r')
  }

  /** The shuffle is a permutation: it keeps the multiset of entries and, with
      it, the absence of duplicates and the range of the entries. */
  lemma {:induction false} FisherYatesPermutes(s: seq<int>, i: nat, r: Rng, n: int)
    requires i <= |s|
    ensures |FisherYates(s, i, r).0| == |s|
    ensures multiset(FisherYates(s, i, r).0) == multiset(s)
    ensures Distinct(s) ==> Distinct(FisherYates(s, i, r).0)
    ensures AllBelow(s, n) ==> AllBelow(FisherYates(s, i, r).0, n)
    decreases |s| - i
  {
    if i < |s| {
      var (j, r') := RangeInt(r, i, |s|);
      SwapMultiset(s, i, j);
      SwapKeepsDistinct(s, i, j, n);
      FisherYatesPermutes(Swap(s, i, j), i + 1, r', n);
    }
  }

  /** The order in which the options are offered: `[0, 1, ..., n-1]`, shuffled. */
  function ShuffledIndices(n: nat, r: Rng): (seq<int>, Rng)
  {
    FisherYates(Iota(n), 0, r)
  }

  /** The offered order is a permutation of `0..n-1`: exactly the pool's indices, each once. */
  lemma ShuffledIndicesArePermutation(n: nat, r: Rng)
    ensures |ShuffledIndices(n, r).0| == n
    ensures multiset(ShuffledIndices(n, r).0) == multiset(Iota(n))
    ensures Distinct(ShuffledIndices(n, r).0)
    ensures AllBelow(ShuffledIndices(n, r).0, n)
  {
    FisherYatesPermutes(Iota(n), 0, r, n);
  }

  /** The button loop: button i is shown iff there is an i-th option, and a shown
      button sends that option; a hidden button keeps whatever it would have sent. */
  function AssignButtons(order: seq<int>, active: seq<bool>, targets: seq<Option<int>>): (out: (seq<bool>, seq<Option<int>>))
    requires |active| == |targets|
    ensures |out.0| == |active| && |out.1| == |targets|
    ensures forall i :: 0 <= i < |active| ==> (out.0[i] <==> i < |order|)
    ensures forall i :: 0 <= i < |active| ==> out.1[i] == if i < |order| then Some(order[i]) else targets[i]
  {
    (seq(|active|, i => i < |order|),
     seq(|targets|, i requires 0 <= i < |targets| => if i < |order| then Some(order[i]) else targets[i]))
  }

  /** The number of shown buttons. */
  function VisibleCount(active: seq<bool>): nat
  {
    if active == [] then 0 else VisibleCount(active[..|active| - 1]) + (if active[|active| - 1] then 1 else 0)
  }

  /** When exactly the first k buttons are shown, min(buttons, k) buttons are visible. */
  lemma {:induction false} VisibleCountPrefix(active: seq<bool>, k: int)
    requires forall i :: 0 <= i < |active| ==> (active[i] <==> i < k)
    ensures VisibleCount(active) == if k <= 0 then 0 else Min(|active|, k)
  {
    if active != [] {
      var init := active[..|active| - 1];
      assert forall i :: 0 <= i < |init| ==> init[i] == active[i];
      VisibleCountPrefix(init, k);
    }
  }

  /** After the options are shown: min(buttons, n) buttons are visible, every visible
      button sends an index of the pool, and no two visible buttons send the same one. */
  lemma ShownButtons(n: nat, r: Rng, active: seq<bool>, targets: seq<Option<int>>)
    requires |active| == |targets|
    ensures var out := AssignButtons(ShuffledIndices(n, r).0, active, targets);
      VisibleCount(out.0) == Min(|active|, n)
    ensures var out := AssignButtons(ShuffledIndices(n, r).0, active, targets);
      forall i :: 0 <= i < |active| && out.0[i] ==> out.1[i].Some? && 0 <= out.1[i].value < n
    ensures var out := AssignButtons(ShuffledIndices(n, r).0, active, targets);
      forall i, j :: 0 <= i < j < |active| && out.0[i] && out.0[j] ==> out.1[i] != out.1[j]
  {
    ShuffledIndicesArePermutation(n, r);
    var out := AssignButtons(ShuffledIndices(n, r).0, active, targets);
    VisibleCountPrefix(out.0, n);
  }

  class LevelUpUI {
    const buttonCount: nat

    var panelActive: bool
    var buttonActive: seq<bool>
    /** The upgrade index each button's click listener sends, if it has one. */
    var buttonTarget: seq<Option<int>>
    var localPlayerController: Option<WeaponController>
    var currentOptions: seq<int>
    /** Unity's global random generator. */
    var rng: Rng

    ghost predicate Valid()
      reads this, if localPlayerController.Some? then {localPlayerController.value} else {}
    {
      && |buttonActive| == buttonCount && |buttonTarget| == buttonCount
      && (localPlayerController.Some? ==> localPlayerController.value.Valid())
    }

    /** `Awake`: the panel starts hidden; no button has a listener yet. */
    constructor (buttonCount: nat, rng: Rng)
      ensures Valid()
      ensures this.buttonCount == buttonCount && this.rng == rng
      ensures !panelActive && localPlayerController.None? && currentOptions == []
      ensures buttonActive == seq(buttonCount, _ => true) && buttonTarget == seq(buttonCount, _ => None)
    {
      this.buttonCount := buttonCount;
      this.rng := rng;
      panelActive := false;
      buttonActive := seq(buttonCount, _ => true);
      buttonTarget := seq(buttonCount, _ => None);
      localPlayerController := None;
      currentOptions := [];
    }

    /** Offer the controller's upgrade pool: shuffle its indices, show one button per
        option (hiding the surplus buttons), show the panel and disable the player's input. */
    method ShowOptions(controller: WeaponController)
      requires Valid() && controller.Valid()
      modifies this, controller`enabled, controller`movementEnabled
      ensures Valid()
      ensures localPlayerController == Some(controller) && currentOptions == [] && panelActive
      ensures var (order, r') := ShuffledIndices(|controller.allUpgradesPool|, old(rng));
        rng == r' && (buttonActive, buttonTarget) == AssignButtons(order, old(buttonActive), old(buttonTarget))
      ensures !controller.enabled
      ensures controller.movementEnabled == if controller.hasMovement then false else old(controller.movementEnabled)
    {
      localPlayerController := Some(controller);
      currentOptions := [];
      var n := |controller.allUpgradesPool|;

      var availableIndices := IndexList(n);
      Shuffle(availableIndices);
      AssignOptionButtons(availableIndices[..]);
      panelActive := true;
      SetPlayerInput(false);
    }

    /** The list `[0, 1, ..., n-1]` of the pool's indices. */
    static method IndexList(n: nat) returns (availableIndices: array<int>)
      ensures fresh(availableIndices)
      ensures availableIndices[..] == Iota(n)
    {
      availableIndices := new int[n];
      var i := 0;
      while i < n
        invariant 0 <= i <= n
        invariant availableIndices[..i] == Iota(i)
      {
        availableIndices[i] := i;
        assert availableIndices[..i + 1] == availableIndices[..i] + [i];
        i := i + 1;
      }
      assert availableIndices[..] == availableIndices[..n];
    }

    /** The Fisher-Yates loop of `ShowOptions`, in place, drawing from the global generator. */
    method Shuffle(availableIndices: array<int>)
      modifies availableIndices, this`rng
      ensures (availableIndices[..], rng) == FisherYates(old(availableIndices[..]), 0, old(rng))
    {
      var n := availableIndices.Length;
      var i := 0;
      while i < n
        invariant 0 <= i <= n
        invariant FisherYates(availableIndices[..], i, rng) == FisherYates(old(availableIndices[..]), 0, old(rng))
      {
        ShuffleStep(availableIndices, i);
        i := i + 1;
      }
    }

    /** One pass of the shuffle loop: swap a random entry of [i, n) into position i. */
    method ShuffleStep(availableIndices: array<int>, i: int)
      requires 0 <= i < availableIndices.Length
      modifies availableIndices, this`rng
      ensures FisherYates(availableIndices[..], i + 1, rng) == FisherYates(old(availableIndices[..]), i, old(rng))
    {
      var temp := availableIndices[i];
      var pick := RangeInt(rng, i, availableIndices.Length);
      rng := pick.1;
      var randomIndex := pick.0;
      availableIndices[i] := availableIndices[randomIndex];
      availableIndices[randomIndex] := temp;
      assert availableIndices[..] == Swap(old(availableIndices[..]), i, randomIndex);
    }

    /** The button loop of `ShowOptions`. */
    method AssignOptionButtons(order: seq<int>)
      requires |buttonActive| == buttonCount && |buttonTarget| == buttonCount
      modifies this`buttonActive, this`buttonTarget
      ensures (buttonActive, buttonTarget) == AssignButtons(order, old(buttonActive), old(buttonTarget))
    {
      var i := 0;
      while i < buttonCount
        invariant 0 <= i <= buttonCount
        invariant |buttonActive| == buttonCount && |buttonTarget| == buttonCount
        invariant forall k :: 0 <= k < i ==> (buttonActive[k] <==> k < |order|)
        invariant forall k :: i <= k < buttonCount ==> buttonActive[k] == old(buttonActive)[k]
        invariant forall k :: 0 <= k < buttonCount ==>
          buttonTarget[k] == if k < i && k < |order| then Some(order[k]) else old(buttonTarget)[k]
      {
        if i >= |order| {
          buttonActive := buttonActive[i := false];
          i := i + 1;
          continue;
        }
        buttonActive := buttonActive[i := true];
        var pickedIndex := order[i];
        buttonTarget := buttonTarget[i := Some(pickedIndex)];
        i := i + 1;
      }
      var out := AssignButtons(order, old(buttonActive), old(buttonTarget));
      assert buttonActive == out.0;
      assert buttonTarget == out.1;
    }

    /** A button's click: send the pick to the server if there is a controller, then hide
        the panel and enable the player's input again. Without a controller, re-enabling
        input dereferences a null reference, so the method stops after hiding the panel. */
    method SelectUpgrade(weaponIndex: int)
      requires Valid()
      modifies this`panelActive
      modifies if localPlayerController.Some? then {localPlayerController.value} else {}
      ensures Valid() && !panelActive
      ensures localPlayerController.Some? ==>
        var c := localPlayerController.value;
        && c.appliedUpgradeHistory
           == old(c.appliedUpgradeHistory) + (if 0 <= weaponIndex < |c.allUpgradesPool| then [weaponIndex] else [])
        && c.enabled
        && c.movementEnabled == (if c.hasMovement then true else old(c.movementEnabled))
        && c.CurrentLoadout()
           == if 0 <= weaponIndex < |c.allUpgradesPool|
              then ApplyUpgrade(old(c.CurrentLoadout()), c.allUpgradesPool[weaponIndex], c.resolvesType, c.networkObjectId)
              else old(c.CurrentLoadout())
    {
      if localPlayerController.Some? {
        localPlayerController.value.RequestUnlockWeaponServerRpc(weaponIndex);
      }
      panelActive := false;
      if localPlayerController.None? {
        return;
      }
      SetPlayerInput(true);
    }

    /** Enable or disable the player's movement (when it has a movement component) and weapons. */
    method SetPlayerInput(enabled: bool)
      requires localPlayerController.Some?
      modifies localPlayerController.value`enabled, localPlayerController.value`movementEnabled
      ensures localPlayerController.value.enabled == enabled
      ensures localPlayerController.value.movementEnabled
              == if localPlayerController.value.hasMovement then enabled else old(localPlayerController.value.movementEnabled)
    {
      var c := localPlayerController.value;
      if c.hasMovement {
        c.movementEnabled := enabled;
      }
      c.enabled := enabled;
    }
  }
}
