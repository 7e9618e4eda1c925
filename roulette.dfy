/** Weighted roulette, the selection scheme behind the CEO focus draw, the
    backlog's category draw and the outcome roll. A roll in `[0, total)` walks
    the weights in order and stops at the first entry whose running sum reaches
    the roll. */
module Roulette {
  import opened Random

  /** Sum of a sequence of weights. */
  function Sum(ws: seq<real>): real {
    if ws == [] then 0.0 else Sum(ws[..|ws| - 1]) + ws[|ws| - 1]
  }

  /** A sequence of weights each at least `lo` sums to at least `lo` per entry. */
  lemma {:induction false} SumLowerBound(ws: seq<real>, lo: real)
    requires forall i :: 0 <= i < |ws| ==> ws[i] >= lo
    ensures Sum(ws) >= lo * |ws| as real
  {
    if ws != [] {
      SumLowerBound(ws[..|ws| - 1], lo);
    }
  }

  lemma SumOfThree(ws: seq<real>)
    requires |ws| == 3
    ensures Sum(ws) == ws[0] + ws[1] + ws[2]
  {
    assert ws[..2] == ws[..|ws| - 1];
    assert ws[..1] == ws[..2][..1];
    assert Sum(ws[..1]) == ws[0] by {
      assert ws[..1][..0] == [];
    }
    assert Sum(ws[..2]) == ws[0] + ws[1];
  }

  /** Sum of the first `k` weights. */
  function Prefix(ws: seq<real>, k: nat): real
    requires k <= |ws|
  {
    Sum(ws[..k])
  }

  lemma PrefixStep(ws: seq<real>, k: nat)
    requires k < |ws|
    ensures Prefix(ws, k + 1) == Prefix(ws, k) + ws[k]
  {
    assert ws[..k + 1][..k] == ws[..k];
  }

  /** The index the roulette stops at, scanning from index `i`; `|ws|` when
      no running sum reaches the roll. */
  function SelectFrom(ws: seq<real>, roll: real, i: nat): (j: nat)
    requires i <= |ws|
    ensures i <= j <= |ws|
    decreases |ws| - i
  {
    if i == |ws| then |ws|
    else if roll <= Prefix(ws, i + 1) then i
    else SelectFrom(ws, roll, i + 1)
  }

  function Select(ws: seq<real>, roll: real): (j: nat)
    ensures j <= |ws|
  {
    SelectFrom(ws, roll, 0)
  }

  /** A roll no larger than the total always stops inside the weights, so the
      fallbacks after the source's roulette loops are never reached. */
  lemma {:induction false} SelectInRange(ws: seq<real>, roll: real)
    requires |ws| > 0 && roll <= Sum(ws)
    ensures Select(ws, roll) < |ws|
  {
    SelectFromInRange(ws, roll, 0);
  }

  lemma {:induction false} SelectFromInRange(ws: seq<real>, roll: real, i: nat)
    requires i < |ws| && roll <= Sum(ws)
    ensures SelectFrom(ws, roll, i) < |ws|
    decreases |ws| - i
  {
    if i == |ws| - 1 {
      assert ws[..i + 1] == ws;
    } else if roll > Prefix(ws, i + 1) {
      SelectFromInRange(ws, roll, i + 1);
    }
  }

  /** The selected index is the first one whose running sum reaches the roll. */
  lemma {:induction false} SelectIsFirst(ws: seq<real>, roll: real)
    ensures Select(ws, roll) < |ws| ==> roll <= Prefix(ws, Select(ws, roll) + 1)
    ensures forall j :: 0 < j <= Select(ws, roll) ==> roll > Prefix(ws, j)
  {
    SelectFromIsFirst(ws, roll, 0);
  }

  lemma {:induction false} SelectFromIsFirst(ws: seq<real>, roll: real, i: nat)
    requires i <= |ws|
    ensures SelectFrom(ws, roll, i) < |ws| ==> roll <= Prefix(ws, SelectFrom(ws, roll, i) + 1)
    ensures forall j :: i < j <= SelectFrom(ws, roll, i) ==> roll > Prefix(ws, j)
    decreases |ws| - i
  {
    if i < |ws| && roll > Prefix(ws, i + 1) {
      SelectFromIsFirst(ws, roll, i + 1);
    }
  }

  /** `rng.next() * total` for the draw `f = next()`: a roll in `[0, total)`. */
  function Roll(f: real, total: real): (r: real)
    requires 0.0 <= f < 1.0 && total > 0.0
    ensures 0.0 <= r < total
  {
    FractionOfTotal(f, total);
    f * total
  }

  lemma FractionOfTotal(f: real, total: real)
    requires 0.0 <= f < 1.0 && total > 0.0
    ensures 0.0 <= f * total < total
  {
  }

  /** The source's loop `roll -= weight; if (roll <= 0) return ...` over the
      weights in order. It returns `|ws|` when the loop runs out, which is where
      each caller has its own fallback. */
  method Spin(ws: seq<real>, roll: real) returns (i: nat)
    ensures i == Select(ws, roll)
  {
    var rest := roll;
    i := 0;
    while i < |ws|
      invariant i <= |ws|
      invariant rest == roll - Prefix(ws, i)
      invariant Select(ws, roll) == SelectFrom(ws, roll, i)
    {
      PrefixStep(ws, i);
      rest := rest - ws[i];
      if rest <= 0.0 {
        return;
      }
      i := i + 1;
    }
  }
}
