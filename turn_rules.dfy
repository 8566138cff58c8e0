/**
 * The turn rules both game pages share.
 *
 * The enemy level follows the danger tier: the player's level for `low`, one
 * above for `medium`, two above for `high`, and the payload's own level for
 * any other tier.
 *
 * Buffs are applied by walking the buff list once: the targets a page routes
 * to a scalar (`hp`, and on the main page also `energy`) are summed, and every
 * other target is added onto the buff map's previous value for that key
 * (`(m[t] || 0) + amount`).
 */
module TurnRules {
  import opened Prelude

  /** The `switch (dl)` on the danger tier; `fallback` is the payload's level (or the player's). */
  function EnemyLevelFor(dangerLevel: string, base: int, fallback: int): (r: int)
    ensures dangerLevel == "low" ==> r == base
    ensures dangerLevel == "medium" ==> r == base + 1
    ensures dangerLevel == "high" ==> r == base + 2
    ensures dangerLevel !in {"low", "medium", "high"} ==> r == fallback
  {
    match dangerLevel
    case "low" => base
    case "medium" => base + 1
    case "high" => base + 2
    case _ => fallback
  }

  /**
   * A named tier puts the enemy at most two levels above the player and never
   * below, and a harder tier never gives a weaker enemy; only an unnamed tier
   * lets the payload's level through, unbounded.
   */
  lemma TierLevelsOrdered(base: int, fallback: int)
    ensures base <= EnemyLevelFor("low", base, fallback) < EnemyLevelFor("medium", base, fallback)
    ensures EnemyLevelFor("medium", base, fallback) < EnemyLevelFor("high", base, fallback) == base + 2
    ensures forall dl :: EnemyLevelFor(dl, base, fallback) != fallback ==> dl in {"low", "medium", "high"}
  {
  }

  /** A well-typed buff: a target name and an integral amount. */
  datatype Buff = Buff(target: string, amount: int)

  /** Total amount of buffs aimed at `t`. */
  function SumFor(buffs: seq<Buff>, t: string): int
  {
    if buffs == [] then 0
    else
      var last := buffs[|buffs| - 1];
      SumFor(buffs[..|buffs| - 1], t) + (if last.target == t then last.amount else 0)
  }

  /** The buff map after adding, in order, every buff whose target is not routed elsewhere. */
  function Merge(prev: map<string, int>, buffs: seq<Buff>, routed: set<string>): map<string, int>
  {
    if buffs == [] then prev
    else
      var m := Merge(prev, buffs[..|buffs| - 1], routed);
      var last := buffs[|buffs| - 1];
      if last.target in routed then m else m[last.target := Lookup(m, last.target) + last.amount]
  }

  /** Summing distributes over concatenation. */
  lemma {:induction false} SumForAppend(a: seq<Buff>, b: seq<Buff>, t: string)
    ensures SumFor(a + b, t) == SumFor(a, t) + SumFor(b, t)
    decreases |b|
  {
    if b == [] {
      assert a + b == a;
    } else {
      var init := b[..|b| - 1];
      assert (a + b)[..|a + b| - 1] == a + init;
      SumForAppend(a, init, t);
    }
  }

  /** A target no buff names sums to zero. */
  lemma {:induction false} SumForUntargeted(buffs: seq<Buff>, t: string)
    requires forall b :: b in buffs ==> b.target != t
    ensures SumFor(buffs, t) == 0
    decreases |buffs|
  {
    if buffs != [] {
      var init := buffs[..|buffs| - 1];
      assert forall b :: b in init ==> b in buffs;
      SumForUntargeted(init, t);
    }
  }

  /**
   * What merging does to one key: a key that is routed elsewhere keeps its
   * previous entry (or stays absent), any other key ends up at its previous
   * value (0 when absent) plus every amount aimed at it.
   */
  lemma {:induction false} MergeAt(prev: map<string, int>, buffs: seq<Buff>, routed: set<string>, k: string)
    ensures k in routed ==> (k in Merge(prev, buffs, routed) <==> k in prev)
    ensures k in routed && k in prev ==> Merge(prev, buffs, routed)[k] == prev[k]
    ensures k !in routed ==> Lookup(Merge(prev, buffs, routed), k) == Lookup(prev, k) + SumFor(buffs, k)
    decreases |buffs|
  {
    if buffs != [] {
      MergeAt(prev, buffs[..|buffs| - 1], routed, k);
    }
  }

  /** The merged map's keys: the previous keys plus every non-routed target. */
  lemma {:induction false} MergeKeys(prev: map<string, int>, buffs: seq<Buff>, routed: set<string>, k: string)
    ensures k in Merge(prev, buffs, routed) <==>
      k in prev || exists b :: b in buffs && b.target == k && k !in routed
    decreases |buffs|
  {
    if buffs != [] {
      var init := buffs[..|buffs| - 1];
      MergeKeys(prev, init, routed, k);
      assert buffs == init + [buffs[|buffs| - 1]];
    }
  }

  /** A key that no buff names is left exactly as it was. */
  lemma {:induction false} MergeUntargeted(prev: map<string, int>, buffs: seq<Buff>, routed: set<string>, k: string)
    requires forall b :: b in buffs ==> b.target != k
    ensures k in Merge(prev, buffs, routed) <==> k in prev
    ensures k in prev ==> Merge(prev, buffs, routed)[k] == prev[k]
    decreases |buffs|
  {
    if buffs != [] {
      var init := buffs[..|buffs| - 1];
      assert forall b :: b in init ==> b in buffs;
      MergeUntargeted(prev, init, routed, k);
    }
  }

  /** The targets the main page turns into scalar bonuses. */
  const PageRouted: set<string> := {"hp", "energy"}

  /**
   * The main page's `forEach` over the turn's buffs: `hp` and `energy` amounts
   * are summed into two bonuses, everything else is added into a copy of the
   * buff map.
   */
  method RouteBuffs(buffs: seq<Buff>, prev: map<string, int>)
    returns (hpBonus: int, energyBonus: int, updated: map<string, int>)
    ensures hpBonus == SumFor(buffs, "hp")
    ensures energyBonus == SumFor(buffs, "energy")
    ensures updated == Merge(prev, buffs, PageRouted)
  {
    hpBonus, energyBonus := 0, 0;
    updated := prev;
    for i := 0 to |buffs|
      invariant hpBonus == SumFor(buffs[..i], "hp")
      invariant energyBonus == SumFor(buffs[..i], "energy")
      invariant updated == Merge(prev, buffs[..i], PageRouted)
    {
      var b := buffs[i];
      assert buffs[..i + 1][..i] == buffs[..i];
      if b.target == "hp" {
        hpBonus := hpBonus + b.amount;
      } else if b.target == "energy" {
        energyBonus := energyBonus + b.amount;
      } else {
        updated := updated[b.target := Lookup(updated, b.target) + b.amount];
      }
    }
    assert buffs[..|buffs|] == buffs;
  }
}
