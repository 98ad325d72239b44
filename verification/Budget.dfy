/**
 * Selecting the newest items that fit a budget: the closed form that the
 * backwards loops of compaction are proved against.
 */
module Budget {
  import opened Prelude

  function Charges<T>(items: seq<T>, charge: T -> nat): nat {
    if items == [] then 0
    else Charges(items[..|items| - 1], charge) + charge(items[|items| - 1])
  }

  // How many of the newest items are kept whole.
  function Kept<T>(items: seq<T>, budget: nat, charge: T -> nat): (m: nat)
    ensures m <= |items|
  {
    if items == [] || budget == 0 || charge(items[|items| - 1]) > budget then 0
    else 1 + Kept(items[..|items| - 1], budget - charge(items[|items| - 1]), charge)
  }

  function Newest<T>(items: seq<T>, m: nat): seq<T>
    requires m <= |items|
  {
    items[|items| - m..]
  }

  function LeftOver<T>(items: seq<T>, budget: nat, charge: T -> nat): nat {
    var spent := Charges(Newest(items, Kept(items, budget, charge)), charge);
    if spent < budget then budget - spent else 0
  }

  /**
   * The newest items that fit, and in front of them, cut down to what is left of
   * the budget, the newest one that does not.
   */
  function Selected<T>(items: seq<T>, budget: nat, charge: T -> nat, cut: (T, nat) -> T): seq<T> {
    var m := Kept(items, budget, charge);
    var left := LeftOver(items, budget, charge);
    (if m < |items| && left > 0 then [cut(items[|items| - m - 1], left)] else []) + Newest(items, m)
  }

  lemma {:induction false} ChargesConcat<T>(a: seq<T>, b: seq<T>, charge: T -> nat)
    ensures Charges(a + b, charge) == Charges(a, charge) + Charges(b, charge)
  {
    if b == [] {
      assert a + b == a;
    } else {
      assert (a + b)[..|a + b| - 1] == a + b[..|b| - 1];
      ChargesConcat(a, b[..|b| - 1], charge);
    }
  }

  lemma NewestOfInit<T>(items: seq<T>, m: nat, charge: T -> nat)
    requires 0 < m <= |items|
    ensures var last := items[|items| - 1];
            Newest(items, m) == Newest(items[..|items| - 1], m - 1) + [last] &&
            Charges(Newest(items, m), charge) == Charges(Newest(items[..|items| - 1], m - 1), charge) + charge(last)
  {
    var newest := Newest(items, m);
    assert newest[..|newest| - 1] == Newest(items[..|items| - 1], m - 1);
  }

  lemma {:induction false} KeptWithinBudget<T>(items: seq<T>, budget: nat, charge: T -> nat)
    ensures Charges(Newest(items, Kept(items, budget, charge)), charge) <= budget
  {
    var m := Kept(items, budget, charge);
    if m > 0 {
      KeptWithinBudget(items[..|items| - 1], budget - charge(items[|items| - 1]), charge);
      NewestOfInit(items, m, charge);
    }
  }

  /**
   * Exactly which items stay whole: the j-th newest does if it fits together with
   * all newer ones and those had not used up the budget.
   */
  lemma {:induction false} KeptExactly<T>(items: seq<T>, budget: nat, charge: T -> nat, j: nat)
    requires 0 < j <= |items|
    ensures j <= Kept(items, budget, charge) <==>
            Charges(Newest(items, j), charge) <= budget && Charges(Newest(items, j - 1), charge) < budget
  {
    var init, last := items[..|items| - 1], items[|items| - 1];
    NewestOfInit(items, j, charge);
    if j > 1 {
      NewestOfInit(items, j - 1, charge);
      if charge(last) <= budget { KeptExactly(init, budget - charge(last), charge, j - 1); }
    }
  }

  // The same list seen from its newest item, as a backwards loop meets it.
  lemma SelectedFromNewest<T>(items: seq<T>, budget: nat, charge: T -> nat, cut: (T, nat) -> T)
    requires items != []
    ensures var init, last := items[..|items| - 1], items[|items| - 1];
            Selected(items, budget, charge, cut) ==
            if budget == 0 then []
            else if charge(last) > budget then [cut(last, budget)]
            else Selected(init, budget - charge(last), charge, cut) + [last]
  {
    var init, last := items[..|items| - 1], items[|items| - 1];
    var m := Kept(items, budget, charge);
    if budget > 0 && charge(last) <= budget {
      NewestOfInit(items, m, charge);
      KeptWithinBudget(items, budget, charge);
      assert LeftOver(items, budget, charge) == LeftOver(init, budget - charge(last), charge);
      if m < |items| { assert items[|items| - m - 1] == init[|init| - (m - 1) - 1]; }
    }
  }

  lemma SelectedFromNothing<T>(budget: nat, charge: T -> nat, cut: (T, nat) -> T)
    ensures Selected([], budget, charge, cut) == []
  {
  }

  // When an item is left out, or only part of one is kept, all the budget is gone.
  lemma DroppedMeansSpent<T>(items: seq<T>, budget: nat, charge: T -> nat, cut: (T, nat) -> T)
    requires Kept(items, budget, charge) < |items|
    ensures var m := Kept(items, budget, charge);
            var spent := Charges(Newest(items, m), charge);
            spent <= budget &&
            (spent == budget || charge(items[|items| - m - 1]) > budget - spent) &&
            Selected(items, budget, charge, cut) ==
            (if spent == budget then [] else [cut(items[|items| - m - 1], budget - spent)]) + Newest(items, m)
  {
    var m := Kept(items, budget, charge);
    KeptWithinBudget(items, budget, charge);
    KeptExactly(items, budget, charge, m + 1);
    assert Newest(items, m + 1) == [items[|items| - m - 1]] + Newest(items, m);
    ChargesConcat([items[|items| - m - 1]], Newest(items, m), charge);
    assert Charges([items[|items| - m - 1]], charge) == charge(items[|items| - m - 1]);
  }

  // The three steps of a backwards loop that collects its choices newest first.
  lemma StepWhole<T>(items: seq<T>, i: nat, remaining: nat, chosen: seq<T>, charge: T -> nat, cut: (T, nat) -> T)
    requires i < |items| && 0 < remaining && charge(items[i]) <= remaining
    ensures Selected(items[..i + 1], remaining, charge, cut) + Reversed(chosen) ==
            Selected(items[..i], remaining - charge(items[i]), charge, cut) + Reversed(chosen + [items[i]])
  {
    assert items[..i + 1][..i] == items[..i];
    SelectedFromNewest(items[..i + 1], remaining, charge, cut);
    ReversedSnoc(chosen, items[i]);
  }

  lemma StepPart<T>(items: seq<T>, i: nat, remaining: nat, chosen: seq<T>, charge: T -> nat, cut: (T, nat) -> T)
    requires i < |items| && 0 < remaining < charge(items[i])
    ensures Selected(items[..i + 1], remaining, charge, cut) + Reversed(chosen) ==
            Reversed(chosen + [cut(items[i], remaining)])
  {
    var upTo := items[..i + 1];
    assert upTo[|upTo| - 1] == items[i];
    SelectedFromNewest(upTo, remaining, charge, cut);
    ReversedSnoc(chosen, cut(items[i], remaining));
    assert Selected(upTo, remaining, charge, cut) == [cut(items[i], remaining)];
  }

  lemma StepNothing<T>(items: seq<T>, charge: T -> nat, cut: (T, nat) -> T)
    ensures Selected(items, 0, charge, cut) == []
  {
    if items != [] { SelectedFromNewest(items, 0, charge, cut); }
  }

  lemma {:induction false} ChargesAtLeastLength<T>(items: seq<T>, charge: T -> nat)
    requires forall x :: x in items ==> charge(x) >= 1
    ensures |items| <= Charges(items, charge)
  {
    if items != [] { ChargesAtLeastLength(items[..|items| - 1], charge); }
  }

  lemma SelectedCount<T>(items: seq<T>, budget: nat, charge: T -> nat, cut: (T, nat) -> T)
    requires forall x :: x in items ==> charge(x) >= 1
    ensures |Selected(items, budget, charge, cut)| <= budget
  {
    var m := Kept(items, budget, charge);
    KeptWithinBudget(items, budget, charge);
    ChargesAtLeastLength(Newest(items, m), charge);
  }

  lemma {:induction false} ChargesMonotone<T>(items: seq<T>, cost: T -> nat, charge: T -> nat)
    requires forall x :: x in items ==> cost(x) <= charge(x)
    ensures Charges(items, cost) <= Charges(items, charge)
  {
    if items != [] { ChargesMonotone(items[..|items| - 1], cost, charge); }
  }

  // If an item costs no more than its charge and a cut one at most `extra` more than its share, the selection costs at
  // most `extra` more than the budget.
  lemma SelectedCost<T>(items: seq<T>, budget: nat, charge: T -> nat, cut: (T, nat) -> T, cost: T -> nat, extra: nat)
    requires forall x :: x in items ==> cost(x) <= charge(x)
    requires forall x, left: nat :: x in items && 0 < left < charge(x) ==> cost(cut(x, left)) <= left + extra
    ensures Charges(Selected(items, budget, charge, cut), cost) <= budget + extra
  {
    var m := Kept(items, budget, charge);
    var whole := Newest(items, m);
    KeptWithinBudget(items, budget, charge);
    ChargesMonotone(whole, cost, charge);
    var left := LeftOver(items, budget, charge);
    if m < |items| && left > 0 {
      DroppedMeansSpent(items, budget, charge, cut);
      var next := items[|items| - m - 1];
      assert next in items;
      assert [cut(next, left)][..0] == [];
      ChargesConcat([cut(next, left)], whole, cost);
    } else {
      assert Selected(items, budget, charge, cut) == whole;
    }
  }
}
