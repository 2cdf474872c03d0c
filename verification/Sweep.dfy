/** Amounts and seals of a swept channel output (src/main.rs,
    `SpendableOutputs`; src/rgb_utils.rs, `update_transition_beneficiary`). */
module Sweep {
  import opened Prelude

  datatype Assign = Revealed(vout: nat, amount: nat) | Concealed

  /** Items with an optional transition, whose assignments are grouped by type. */
  type Transition = seq<seq<Assign>>
  type Bundle = seq<Option<Transition>>

  function Concat(groups: Transition): seq<Assign> {
    if groups == [] then [] else Concat(groups[..|groups| - 1]) + groups[|groups| - 1]
  }

  function Flat(bundle: Bundle): seq<Assign> {
    if bundle == [] then []
    else
      var last := bundle[|bundle| - 1];
      Flat(bundle[..|bundle| - 1]) + (if last.Some? then Concat(last.value) else [])
  }

  function Worth(a: Assign, vout: nat): nat {
    if a.Revealed? && a.vout == vout then a.amount else 0
  }

  /** What the revealed assignments put on one output. */
  function ShareAt(assigns: seq<Assign>, vout: nat): nat {
    if assigns == [] then 0
    else ShareAt(assigns[..|assigns| - 1], vout) + Worth(assigns[|assigns| - 1], vout)
  }

  function RevealedTotal(assigns: seq<Assign>): nat {
    if assigns == [] then 0
    else
      var last := assigns[|assigns| - 1];
      RevealedTotal(assigns[..|assigns| - 1]) + (if last.Revealed? then last.amount else 0)
  }

  lemma {:induction false} ShareAtAppend(a: seq<Assign>, b: seq<Assign>, vout: nat)
    ensures ShareAt(a + b, vout) == ShareAt(a, vout) + ShareAt(b, vout)
  {
    if b == [] {
      assert a + b == a;
    } else {
      var init := b[..|b| - 1];
      assert (a + b)[..|a + b| - 1] == a + init;
      ShareAtAppend(a, init, vout);
    }
  }

  /** The nested loops over bundle items, assignment groups and assignments. */
  method AmountAt(bundle: Bundle, index: nat) returns (amtRgb: u64)
    requires ShareAt(Flat(bundle), index) <= U64_MAX
    ensures amtRgb == ShareAt(Flat(bundle), index)
  {
    amtRgb := 0;
    for i := 0 to |bundle|
      invariant amtRgb == ShareAt(Flat(bundle[..i]), index)
    {
      FlatPrefix(bundle, i + 1, index);
      FlatStep(bundle, i, index);
      if bundle[i].Some? {
        amtRgb := AddTransition(amtRgb, bundle[i].value, index);
      }
    }
    assert bundle[..|bundle|] == bundle;
  }

  method AddTransition(start: u64, groups: Transition, index: nat) returns (amtRgb: u64)
    requires start + ShareAt(Concat(groups), index) <= U64_MAX
    ensures amtRgb == start + ShareAt(Concat(groups), index)
  {
    amtRgb := start;
    for j := 0 to |groups|
      invariant amtRgb == start + ShareAt(Concat(groups[..j]), index)
    {
      ConcatPrefix(groups, j + 1, index);
      assert groups[..j + 1][..j] == groups[..j];
      ShareAtAppend(Concat(groups[..j]), groups[j], index);
      amtRgb := AddGroup(amtRgb, groups[j], index);
    }
    assert groups[..|groups|] == groups;
  }

  lemma FlatStep(bundle: Bundle, i: nat, vout: nat)
    requires i < |bundle|
    ensures ShareAt(Flat(bundle[..i + 1]), vout) ==
            ShareAt(Flat(bundle[..i]), vout) + (if bundle[i].Some? then ShareAt(Concat(bundle[i].value), vout) else 0)
  {
    assert bundle[..i + 1][..i] == bundle[..i];
    ShareAtAppend(Flat(bundle[..i]), if bundle[i].Some? then Concat(bundle[i].value) else [], vout);
  }

  method AddGroup(start: u64, group: seq<Assign>, index: nat) returns (amtRgb: u64)
    requires start + ShareAt(group, index) <= U64_MAX
    ensures amtRgb == start + ShareAt(group, index)
  {
    amtRgb := start;
    for k := 0 to |group|
      invariant amtRgb == start + ShareAt(group[..k], index)
    {
      assert group[..k + 1][..k] == group[..k];
      ShareAtAppend(group[..k + 1], group[k + 1..], index);
      assert group[..k + 1] + group[k + 1..] == group;
      if group[k].Revealed? && group[k].vout == index {
        amtRgb := amtRgb + group[k].amount;
      }
    }
    assert group[..|group|] == group;
  }

  lemma {:induction false} FlatPrefix(bundle: Bundle, n: nat, vout: nat)
    requires n <= |bundle|
    ensures ShareAt(Flat(bundle[..n]), vout) <= ShareAt(Flat(bundle), vout)
    decreases |bundle| - n
  {
    if n < |bundle| {
      FlatPrefix(bundle, n + 1, vout);
      FlatStep(bundle, n, vout);
    } else {
      assert bundle[..n] == bundle;
    }
  }

  lemma {:induction false} ConcatPrefix(groups: Transition, n: nat, vout: nat)
    requires n <= |groups|
    ensures ShareAt(Concat(groups[..n]), vout) <= ShareAt(Concat(groups), vout)
    decreases |groups| - n
  {
    if n < |groups| {
      ConcatPrefix(groups, n + 1, vout);
      assert groups[..n + 1][..n] == groups[..n];
      ShareAtAppend(Concat(groups[..n]), groups[n], vout);
    } else {
      assert groups[..n] == groups;
    }
  }

  function SumShares(assigns: seq<Assign>, vouts: seq<nat>): nat {
    if vouts == [] then 0 else SumShares(assigns, vouts[..|vouts| - 1]) + ShareAt(assigns, vouts[|vouts| - 1])
  }

  function SumWorth(a: Assign, vouts: seq<nat>): nat {
    if vouts == [] then 0 else SumWorth(a, vouts[..|vouts| - 1]) + Worth(a, vouts[|vouts| - 1])
  }

  predicate NoRepeats(vouts: seq<nat>) {
    forall i, j :: 0 <= i < j < |vouts| ==> vouts[i] != vouts[j]
  }

  lemma {:induction false} SumWorthOf(a: Assign, vouts: seq<nat>)
    requires NoRepeats(vouts)
    ensures SumWorth(a, vouts) == if a.Revealed? && a.vout in vouts then a.amount else 0
  {
    if vouts != [] {
      var init, last := vouts[..|vouts| - 1], vouts[|vouts| - 1];
      SumWorthOf(a, init);
      assert vouts == init + [last];
    }
  }

  lemma {:induction false} SumSharesPeel(assigns: seq<Assign>, vouts: seq<nat>)
    requires assigns != []
    ensures SumShares(assigns, vouts) == SumShares(assigns[..|assigns| - 1], vouts)
            + SumWorth(assigns[|assigns| - 1], vouts)
  {
    if vouts != [] {
      SumSharesPeel(assigns, vouts[..|vouts| - 1]);
    }
  }

  lemma {:induction false} SumSharesOfNothing(vouts: seq<nat>)
    ensures SumShares([], vouts) == 0
  {
    if vouts != [] {
      SumSharesOfNothing(vouts[..|vouts| - 1]);
    }
  }

  /** The shares of distinct outputs never exceed the revealed total, and make it
      up exactly when no revealed assignment of value is on another output. */
  lemma {:induction false} SharesPartition(assigns: seq<Assign>, vouts: seq<nat>)
    requires NoRepeats(vouts)
    ensures SumShares(assigns, vouts) <= RevealedTotal(assigns)
    ensures SumShares(assigns, vouts) == RevealedTotal(assigns) <==>
            forall a :: a in assigns && a.Revealed? && a.amount > 0 ==> a.vout in vouts
  {
    if assigns == [] {
      SumSharesOfNothing(vouts);
    } else {
      var init, last := assigns[..|assigns| - 1], assigns[|assigns| - 1];
      SharesPartition(init, vouts);
      SumSharesPeel(assigns, vouts);
      SumWorthOf(last, vouts);
      assert assigns == init + [last];
    }
  }

  /** The output other than the first OP_RETURN of a pair, or output 0 when there
      is no OP_RETURN: `outputs` says of each output whether it is one. */
  function SealVout(outputs: seq<bool>): nat {
    if true in outputs then Flip(FirstTrue(outputs)) else 0
  }

  /** `index ^ 1`. */
  function Flip(index: nat): nat {
    if index % 2 == 0 then index + 1 else index - 1
  }

  function FirstTrue(outputs: seq<bool>): (i: nat)
    requires true in outputs
    ensures i < |outputs| && outputs[i] && forall j :: 0 <= j < i ==> !outputs[j]
  {
    if outputs[0] then 0 else 1 + FirstTrue(outputs[1..])
  }

  method BeneficiaryVout(outputs: seq<bool>) returns (vout: nat)
    ensures vout == SealVout(outputs)
  {
    vout := 0;
    for index := 0 to |outputs|
      invariant true !in outputs[..index]
    {
      if outputs[index] {
        assert FirstTrue(outputs) == index by {
          assert forall j :: 0 <= j < index ==> outputs[..index][j] == outputs[j];
        }
        return Flip(index);
      }
    }
    assert outputs[..|outputs|] == outputs;
  }

  /** The seal names an output that can hold the asset. */
  predicate SealHolds(outputs: seq<bool>) {
    SealVout(outputs) < |outputs| && !outputs[SealVout(outputs)]
  }

  /** With one OP_RETURN, the seal lands on a spendable output exactly when the
      transaction has the output paired with it. A lone OP_RETURN, or one at the
      even end of an odd count, leaves the seal pointing past the end. */
  lemma SealHoldsExactly(outputs: seq<bool>, index: nat)
    requires index < |outputs| && outputs[index]
    requires forall j :: 0 <= j < |outputs| && j != index ==> !outputs[j]
    ensures SealHolds(outputs) <==> index % 2 == 1 || index + 1 < |outputs|
    ensures |outputs| == 2 ==> SealHolds(outputs) && SealVout(outputs) == 1 - index
  {}

  lemma {:induction false} ConcatAppend(a: Transition, b: Transition)
    ensures Concat(a + b) == Concat(a) + Concat(b)
  {
    if b == [] {
      assert a + b == a;
    } else {
      var init := b[..|b| - 1];
      assert (a + b)[..|a + b| - 1] == a + init;
      ConcatAppend(a, init);
    }
  }

  /** Flattening keeps every assignment in its place: it takes bundles laid end
      to end to lists laid end to end, and so their transitions; an item without
      a transition adds nothing, one with a single group that group. */
  lemma {:induction false} FlatExactly(a: Bundle, b: Bundle, t: Transition, u: Transition, group: seq<Assign>)
    ensures Flat(a + b) == Flat(a) + Flat(b)
    ensures Flat([None]) == [] && Flat([Some([group])]) == group
    ensures Flat([Some(t + u)]) == Flat([Some(t)]) + Flat([Some(u)])
  {
    OneItem(None);
    OneItem(Some(t + u));
    OneItem(Some(t));
    OneItem(Some(u));
    OneItem(Some([group]));
    ConcatAppend(t, u);
    var single: Transition := [group];
    assert single[..0] == [];
    if b == [] {
      assert a + b == a;
    } else {
      var init := b[..|b| - 1];
      assert (a + b)[..|a + b| - 1] == a + init;
      FlatExactly(a, init, t, u, group);
    }
  }

  lemma OneItem(item: Option<Transition>)
    ensures Flat([item]) == if item.Some? then Concat(item.value) else []
  {
    var one: Bundle := [item];
    assert one[..0] == [];
  }

  /** The share of an output is what is revealed for it, whatever else is there:
      one more assignment adds its amount to its own output and nothing to any
      other. */
  lemma ShareExactly(assigns: seq<Assign>, a: Assign, vout: nat)
    ensures ShareAt([], vout) == 0
    ensures ShareAt(assigns + [a], vout) ==
            ShareAt(assigns, vout) + (if a == Revealed(vout, Amount(a)) then Amount(a) else 0)
    ensures RevealedTotal(assigns + [a]) == RevealedTotal(assigns) + Amount(a)
  {
    assert (assigns + [a])[..|assigns|] == assigns;
  }

  function Amount(a: Assign): nat {
    if a.Revealed? then a.amount else 0
  }

  /** The seal is the other output of the first OP_RETURN's pair, whatever else
      the transaction has, and the first output without one. */
  lemma SealVoutExactly(outputs: seq<bool>, index: nat)
    ensures true !in outputs ==> SealVout(outputs) == 0
    ensures index < |outputs| && outputs[index] && (forall j :: 0 <= j < index ==> !outputs[j]) ==>
              SealVout(outputs) != index && SealVout(outputs) / 2 == index / 2
  {
    if index < |outputs| && outputs[index] && (forall j :: 0 <= j < index ==> !outputs[j]) {
      assert FirstTrue(outputs) == index;
    }
  }
}
