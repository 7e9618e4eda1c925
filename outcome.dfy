/** The outcome resolver (`rollOutcome`): base weights for the five outcomes,
    additive modifiers from the context, a cap on how far the two failure
    weights may rise above their bases, a floor of 2 on every weight, and a
    weighted roulette over the result. */
module Outcomes {
  import opened Types
  import opened Random
  import opened Roulette

  datatype OutcomeContext = OutcomeContext(
    techDebt: int,
    teamSentiment: int,
    isOverbooked: bool,
    overbookFraction: Option<real>,
    underbookFraction: Option<real>,
    isMoonshot: bool,
    ceoAligned: bool,
    difficulty: Difficulty)

  /** One weight per outcome, in the order clear, partial, unexpected, soft, catastrophe. */
  datatype Weights = Weights(clear: real, partial: real, unexpected: real, soft: real, cat: real)
  {
    function Plus(o: Weights): Weights {
      Weights(clear + o.clear, partial + o.partial, unexpected + o.unexpected, soft + o.soft, cat + o.cat)
    }

    function AsSeq(): (ws: seq<real>)
      ensures |ws| == 5
    {
      [clear, partial, unexpected, soft, cat]
    }
  }

  const Zero := Weights(0.0, 0.0, 0.0, 0.0, 0.0)

  /** The unmodified weights 22 / 50 / 9 / 15 / 4. */
  const Base := Weights(22.0, 50.0, 9.0, 15.0, 4.0)

  const Order: seq<Outcome> := [ClearSuccess, PartialSuccess, UnexpectedImpact, SoftFailure, Catastrophe]

  /** The overbooking fraction: the given one clamped to [0, 1], or 1 / 0 from the flag. */
  function OverbookFraction(ctx: OutcomeContext): (f: real)
    ensures 0.0 <= f <= 1.0
    ensures ctx.overbookFraction.None? ==> f == (if ctx.isOverbooked then 1.0 else 0.0)
    ensures ctx.overbookFraction.Some? && 0.0 <= ctx.overbookFraction.value <= 1.0
            ==> f == ctx.overbookFraction.value
  {
    var given := match ctx.overbookFraction
                 case Some(x) => x
                 case None => if ctx.isOverbooked then 1.0 else 0.0;
    MaxR(0.0, MinR(1.0, given))
  }

  /** The underbooking fraction: the given one clamped to [0, 0.5], or 0. */
  function UnderbookFraction(ctx: OutcomeContext): (f: real)
    ensures 0.0 <= f <= 0.5
    ensures ctx.underbookFraction.None? ==> f == 0.0
    ensures ctx.underbookFraction.Some? && 0.0 <= ctx.underbookFraction.value <= 0.5
            ==> f == ctx.underbookFraction.value
  {
    var given := match ctx.underbookFraction case Some(x) => x case None => 0.0;
    MaxR(0.0, MinR(0.5, given))
  }

  // The modifiers, each as the vector it adds to the weights.

  function AlignmentShift(ctx: OutcomeContext): Weights {
    if ctx.ceoAligned then Weights(10.0, 6.0, 0.0, -8.0, -2.0) else Zero
  }

  function DebtShift(ctx: OutcomeContext): Weights {
    if ctx.techDebt > 80 then Weights(0.0, 0.0, 0.0, 4.0, 3.0)
    else if ctx.techDebt > 65 then Weights(0.0, 0.0, 0.0, 3.0, 2.0)
    else Zero
  }

  function TeamShift(ctx: OutcomeContext): Weights {
    if ctx.teamSentiment < 30 then Weights(0.0, 0.0, 0.0, 3.0, 1.0)
    else if ctx.teamSentiment > 75 then Weights(5.0, 3.0, 0.0, -5.0, -3.0)
    else Zero
  }

  function OverbookShift(f: real): Weights {
    Weights(-4.0 * f, -2.0 * f, 0.0, 5.0 * f, 2.0 * f)
  }

  function UnderbookShift(f: real): Weights {
    Weights(6.0 * f, 3.0 * f, 0.0, -4.0 * f, -2.0 * f)
  }

  function MoonshotShift(ctx: OutcomeContext): Weights {
    if ctx.isMoonshot then Weights(-8.0, 3.0, 0.0, 3.0, 2.0) else Zero
  }

  function DifficultyShift(d: Difficulty): Weights {
    match d
    case Easy => Weights(5.0, 3.0, 0.0, -5.0, -3.0)
    case Hard => Weights(-5.0, 0.0, 0.0, 3.0, 2.0)
    case Normal => Zero
  }

  /** The seven modifiers of a context, as the vectors they add, in the order
      they are applied. */
  function Shifts(ctx: OutcomeContext): (ss: seq<Weights>)
    ensures |ss| == 7
  {
    [AlignmentShift(ctx), DebtShift(ctx), TeamShift(ctx),
     OverbookShift(OverbookFraction(ctx)), UnderbookShift(UnderbookFraction(ctx)),
     MoonshotShift(ctx), DifficultyShift(ctx.difficulty)]
  }

  /** `w` with each vector of `ss` added in turn. */
  function AddAll(w: Weights, ss: seq<Weights>): Weights
    decreases |ss|
  {
    if ss == [] then w else AddAll(w.Plus(ss[0]), ss[1..])
  }

  /** The base weights plus every modifier the context switches on. */
  function Modified(ctx: OutcomeContext): Weights {
    AddAll(Base, Shifts(ctx))
  }

  lemma AddAllStep(w: Weights, ss: seq<Weights>, k: nat)
    requires k < |ss|
    ensures AddAll(w, ss[k..]) == AddAll(w.Plus(ss[k]), ss[k + 1..])
  {
    assert ss[k..][1..] == ss[k + 1..];
  }

  /** The modified weights written out as the sum of the seven vectors. */
  lemma ModifiedSum(ctx: OutcomeContext)
    ensures Modified(ctx)
         == Base.Plus(AlignmentShift(ctx)).Plus(DebtShift(ctx)).Plus(TeamShift(ctx))
                .Plus(OverbookShift(OverbookFraction(ctx))).Plus(UnderbookShift(UnderbookFraction(ctx)))
                .Plus(MoonshotShift(ctx)).Plus(DifficultyShift(ctx.difficulty))
  {
    AddSeven(Base, Shifts(ctx));
  }

  /** Seven vectors added in turn. */
  lemma AddSeven(w: Weights, ss: seq<Weights>)
    requires |ss| == 7
    ensures AddAll(w, ss) == w.Plus(ss[0]).Plus(ss[1]).Plus(ss[2]).Plus(ss[3]).Plus(ss[4]).Plus(ss[5]).Plus(ss[6])
  {
    assert ss[0..] == ss;
    var w1 := w.Plus(ss[0]);
    var w2 := w1.Plus(ss[1]);
    var w3 := w2.Plus(ss[2]);
    var w4 := w3.Plus(ss[3]);
    var w5 := w4.Plus(ss[4]);
    var w6 := w5.Plus(ss[5]);
    AddAllStep(w, ss, 0);
    AddAllStep(w1, ss, 1);
    AddAllStep(w2, ss, 2);
    AddAllStep(w3, ss, 3);
    AddAllStep(w4, ss, 4);
    AddAllStep(w5, ss, 5);
    AddAllStep(w6, ss, 6);
    assert ss[7..] == [];
  }

  /** How far the soft-failure and catastrophe weights together rise above their bases. */
  function FailureExcess(w: Weights): real {
    MaxR(0.0, w.soft - Base.soft) + MaxR(0.0, w.cat - Base.cat)
  }

  /** The cap on the failure weights: when the failure excess exceeds 6, both
      positive excursions are scaled by one factor so that together they are
      exactly 6; otherwise nothing changes. The success weights, and a failure
      weight at or below its base, are kept. */
  function CapFailures(w: Weights): (c: Weights)
    ensures FailureExcess(c) <= 6.0
    ensures FailureExcess(w) > 6.0 ==> FailureExcess(c) == 6.0
    ensures FailureExcess(w) <= 6.0 ==> c == w
    ensures c.clear == w.clear && c.partial == w.partial && c.unexpected == w.unexpected
    ensures w.soft <= Base.soft ==> c.soft == w.soft
    ensures w.cat <= Base.cat ==> c.cat == w.cat
  {
    var softDelta := w.soft - Base.soft;
    var catDelta := w.cat - Base.cat;
    var softPos := MaxR(0.0, softDelta);
    var catPos := MaxR(0.0, catDelta);
    var totalPos := softPos + catPos;
    if totalPos > 6.0 then
      var scale := 6.0 / totalPos;
      ScaledExcess(softPos, catPos, totalPos, scale);
      w.(soft := Base.soft + MinR(0.0, softDelta) + softPos * scale,
         cat := Base.cat + MinR(0.0, catDelta) + catPos * scale)
    else
      w
  }

  lemma ScaledExcess(a: real, b: real, total: real, scale: real)
    requires a >= 0.0 && b >= 0.0 && total == a + b && total > 6.0 && scale == 6.0 / total
    ensures a * scale >= 0.0 && b * scale >= 0.0
    ensures a * scale + b * scale == 6.0
  {
    assert scale > 0.0;
    assert a * scale + b * scale == total * scale;
  }

  /** `Math.max(2, w)` on every weight. */
  function ClampWeights(w: Weights): (c: Weights)
    ensures forall i :: 0 <= i < 5 ==> c.AsSeq()[i] >= 2.0
  {
    Weights(MaxR(2.0, w.clear), MaxR(2.0, w.partial), MaxR(2.0, w.unexpected), MaxR(2.0, w.soft), MaxR(2.0, w.cat))
  }

  /** The weights the roulette spins: modified, capped, then floored at 2. */
  function FinalWeights(ctx: OutcomeContext): Weights {
    ClampWeights(CapFailures(Modified(ctx)))
  }

  /** The floor of 2 is applied after the cap and cannot undo it: raising a
      weight to 2 leaves it below its base of 15 or 4. */
  lemma ClampKeepsCap(w: Weights)
    ensures FailureExcess(ClampWeights(w)) == FailureExcess(w)
  {
  }

  /** Every final weight is at least 2, so the total is at least 10, and the
      failure excess of the final weights is at most 6. */
  lemma FinalWeightsSound(ctx: OutcomeContext)
    ensures forall i :: 0 <= i < 5 ==> FinalWeights(ctx).AsSeq()[i] >= 2.0
    ensures Sum(FinalWeights(ctx).AsSeq()) >= 10.0
    ensures FailureExcess(FinalWeights(ctx)) <= 6.0
  {
    var w := CapFailures(Modified(ctx));
    ClampedTotal(w);
    ClampKeepsCap(w);
  }

  /** Five weights of at least 2 add up to at least 10. */
  lemma ClampedTotal(w: Weights)
    ensures Sum(ClampWeights(w).AsSeq()) >= 10.0
  {
    SumLowerBound(ClampWeights(w).AsSeq(), 2.0);
  }

  /** The outcome the roulette gives for output `u`; the trailing fallback of
      the source is kept, and `RollNeverFallsThrough` shows it is dead. */
  function OutcomeFor(ctx: OutcomeContext, u: bv32): (o: Outcome)
    ensures Sum(FinalWeights(ctx).AsSeq()) >= 10.0
    // the outcome is the one whose cumulative weight band holds the roll
    ensures var ws := FinalWeights(ctx).AsSeq();
            var roll := Roll(Fraction(u), Sum(ws));
            var i := Select(ws, roll);
            i < 5 && o == Order[i] && roll <= Prefix(ws, i + 1) && (i > 0 ==> roll > Prefix(ws, i))
  {
    FinalWeightsSound(ctx);
    var ws := FinalWeights(ctx).AsSeq();
    SelectInRange(ws, Roll(Fraction(u), Sum(ws)));
    SelectIsFirst(ws, Roll(Fraction(u), Sum(ws)));
    var i := Select(ws, Roll(Fraction(u), Sum(ws)));
    if i < 5 then Order[i] else PartialSuccess
  }

  /** The roulette always stops inside the five weights. */
  lemma RollNeverFallsThrough(ctx: OutcomeContext, u: bv32)
    ensures Sum(FinalWeights(ctx).AsSeq()) > 0.0
    ensures Select(FinalWeights(ctx).AsSeq(), Roll(Fraction(u), Sum(FinalWeights(ctx).AsSeq()))) < 5
  {
    FinalWeightsSound(ctx);
    var ws := FinalWeights(ctx).AsSeq();
    SelectInRange(ws, Roll(Fraction(u), Sum(ws)));
  }

  /** The modifier section of `rollOutcome`: each modifier applied in turn to a
      mutable weight record, proved equal to the sum of the shift vectors. */
  method ApplyModifiers(ctx: OutcomeContext) returns (mod: Weights)
    ensures mod == Modified(ctx)
  {
    ModifiedSum(ctx);
    mod := ApplyStateModifiers(ctx);
    mod := ApplyBookingModifiers(mod, OverbookFraction(ctx), UnderbookFraction(ctx));
    mod := ApplyTicketModifiers(mod, ctx);
  }

  /** CEO alignment, tech-debt band and team-sentiment band. */
  method ApplyStateModifiers(ctx: OutcomeContext) returns (mod: Weights)
    ensures mod == Base.Plus(AlignmentShift(ctx)).Plus(DebtShift(ctx)).Plus(TeamShift(ctx))
  {
    mod := Base;
    if ctx.ceoAligned {
      mod := mod.(clear := mod.clear + 10.0, partial := mod.partial + 6.0);
      mod := mod.(soft := mod.soft - 8.0, cat := mod.cat - 2.0);
    }
    assert mod == Base.Plus(AlignmentShift(ctx));
    if ctx.techDebt > 80 {
      mod := mod.(soft := mod.soft + 4.0, cat := mod.cat + 3.0);
    } else if ctx.techDebt > 65 {
      mod := mod.(soft := mod.soft + 3.0, cat := mod.cat + 2.0);
    }
    assert mod == Base.Plus(AlignmentShift(ctx)).Plus(DebtShift(ctx));
    if ctx.teamSentiment < 30 {
      mod := mod.(soft := mod.soft + 3.0, cat := mod.cat + 1.0);
    } else if ctx.teamSentiment > 75 {
      mod := mod.(clear := mod.clear + 5.0, partial := mod.partial + 3.0);
      mod := mod.(soft := mod.soft - 5.0, cat := mod.cat - 3.0);
    }
  }

  /** Overbooking shifts weight from success to failure in proportion to the
      overbooked fraction; underbooking shifts it back. */
  method ApplyBookingModifiers(mod0: Weights, overbook: real, underbook: real) returns (mod: Weights)
    requires overbook >= 0.0 && underbook >= 0.0
    ensures mod == mod0.Plus(OverbookShift(overbook)).Plus(UnderbookShift(underbook))
  {
    mod := mod0;
    if overbook > 0.0 {
      mod := mod.(clear := mod.clear - 4.0 * overbook, partial := mod.partial - 2.0 * overbook);
      mod := mod.(soft := mod.soft + 5.0 * overbook, cat := mod.cat + 2.0 * overbook);
    }
    assert mod == mod0.Plus(OverbookShift(overbook));
    if underbook > 0.0 {
      mod := mod.(clear := mod.clear + 6.0 * underbook, partial := mod.partial + 3.0 * underbook);
      mod := mod.(soft := mod.soft - 4.0 * underbook, cat := mod.cat - 2.0 * underbook);
    }
  }

  /** The moonshot modifier and the difficulty modifier. */
  method ApplyTicketModifiers(mod0: Weights, ctx: OutcomeContext) returns (mod: Weights)
    ensures mod == mod0.Plus(MoonshotShift(ctx)).Plus(DifficultyShift(ctx.difficulty))
  {
    mod := mod0;
    if ctx.isMoonshot {
      mod := mod.(clear := mod.clear - 8.0, partial := mod.partial + 3.0);
      mod := mod.(soft := mod.soft + 3.0, cat := mod.cat + 2.0);
    }
    assert mod == mod0.Plus(MoonshotShift(ctx));
    if ctx.difficulty == Easy {
      mod := mod.(clear := mod.clear + 5.0, partial := mod.partial + 3.0);
      mod := mod.(soft := mod.soft - 5.0, cat := mod.cat - 3.0);
    }
    if ctx.difficulty == Hard {
      mod := mod.(clear := mod.clear - 5.0);
      mod := mod.(soft := mod.soft + 3.0, cat := mod.cat + 2.0);
    }
  }

  /** `rollOutcome`: the modifiers, the cap, the floor and the running-sum roulette. */
  method RollOutcome(rng: Rng, ctx: OutcomeContext) returns (o: Outcome)
    requires rng.Valid()
    modifies rng
    ensures rng.Valid() && rng.origin == old(rng.origin) && rng.drawn == old(rng.drawn) + 1
    ensures rng.t == Advance(old(rng.t))
    ensures o == OutcomeFor(ctx, Mix(rng.t))
  {
    var mod := ApplyModifiers(ctx);

    mod := CapFailures(mod);
    assert ClampWeights(mod) == FinalWeights(ctx);

    var weights := ClampWeights(mod).AsSeq();
    var total := weights[0] + weights[1] + weights[2] + weights[3] + weights[4];
    SumOfFive(weights);
    FinalWeightsSound(ctx);
    assert total == Sum(FinalWeights(ctx).AsSeq());
    var u := rng.Next();
    o := SpinOutcome(weights, Roll(Fraction(u), total));
  }

  /** The running-sum loop of `rollOutcome`: the first outcome whose cumulative
      weight reaches the roll, or partial success when none does. */
  method SpinOutcome(ws: seq<real>, roll: real) returns (o: Outcome)
    requires |ws| == 5
    ensures Select(ws, roll) < 5 ==> o == Order[Select(ws, roll)]
    ensures Select(ws, roll) == 5 ==> o == PartialSuccess
  {
    var acc := 0.0;
    var i := 0;
    while i < 5
      invariant i <= 5
      invariant acc == Prefix(ws, i)
      invariant Select(ws, roll) == SelectFrom(ws, roll, i)
    {
      PrefixStep(ws, i);
      acc := acc + ws[i];
      if roll <= acc {
        o := Order[i];
        return;
      }
      i := i + 1;
    }
    o := PartialSuccess;
  }

  lemma SumOfFive(ws: seq<real>)
    requires |ws| == 5
    ensures Sum(ws) == ws[0] + ws[1] + ws[2] + ws[3] + ws[4]
  {
    var k := 0;
    while k < 5
      invariant k <= 5
      invariant Prefix(ws, k) == if k == 0 then 0.0 else if k == 1 then ws[0]
        else if k == 2 then ws[0] + ws[1] else if k == 3 then ws[0] + ws[1] + ws[2]
        else if k == 4 then ws[0] + ws[1] + ws[2] + ws[3] else ws[0] + ws[1] + ws[2] + ws[3] + ws[4]
    {
      PrefixStep(ws, k);
      k := k + 1;
    }
    assert ws[..5] == ws;
  }
}
