/** Backlog generation (`generateBacklog`): group the catalog by category,
    weight the categories by what the metrics need, guarantee one ticket per
    lagging area, balance ticket sizes, then fill the remaining slots by a
    weighted category draw. No ticket id is offered twice. */
module Backlog {
  import opened Types
  import opened Random
  import opened Roulette

  // ---------------------------------------------------------------- grouping

  /** The catalog's categories in order of first appearance. */
  function CategoriesOf(ts: seq<Template>): (cs: seq<Category>)
    ensures forall c :: c in cs <==> exists i :: 0 <= i < |ts| && ts[i].category == c
    ensures forall i, j :: 0 <= i < j < |cs| ==> cs[i] != cs[j]
    decreases |ts|
  {
    if ts == [] then []
    else
      var init := ts[..|ts| - 1];
      var cs := CategoriesOf(init);
      assert forall i :: 0 <= i < |init| ==> init[i] == ts[i];
      if ts[|ts| - 1].category in cs then cs else cs + [ts[|ts| - 1].category]
  }

  /** The catalog's templates of category `c`, in catalog order. */
  function InCategory(ts: seq<Template>, c: Category): (r: seq<Template>)
    ensures forall t :: t in r <==> t in ts && t.category == c
    decreases |ts|
  {
    if ts == [] then []
    else
      var init := ts[..|ts| - 1];
      assert ts == init + [ts[|ts| - 1]];
      InCategory(init, c) + (if ts[|ts| - 1].category == c then [ts[|ts| - 1]] else [])
  }

  /** A category the catalog does not have has no templates. */
  lemma NoneInCategory(ts: seq<Template>, c: Category)
    requires c !in CategoriesOf(ts)
    ensures InCategory(ts, c) == []
  {
  }

  /** What the grouping loop establishes: the categories in first-appearance
      order, and for each of them its templates. */
  ghost predicate Grouped(ts: seq<Template>, categories: seq<Category>, pools: map<Category, seq<Template>>) {
    categories == CategoriesOf(ts)
    && (forall c :: c in pools <==> c in categories)
    && (forall c :: c in pools ==> pools[c] == InCategory(ts, c))
  }

  /** One iteration of the grouping loop keeps `Grouped`. */
  lemma GroupStep(ts: seq<Template>, t: Template, categories: seq<Category>, pools: map<Category, seq<Template>>)
    requires Grouped(ts, categories, pools)
    ensures Grouped(ts + [t],
      if t.category in categories then categories else categories + [t.category],
      pools[t.category := (if t.category in pools then pools[t.category] else []) + [t]])
  {
    var ts' := ts + [t];
    assert ts'[..|ts|] == ts;
    assert ts'[|ts'| - 1] == t;
    var categories' := if t.category in categories then categories else categories + [t.category];
    var pools' := pools[t.category := (if t.category in pools then pools[t.category] else []) + [t]];
    assert CategoriesOf(ts') == categories';
    forall c | c in pools'
      ensures pools'[c] == InCategory(ts', c)
    {
      assert InCategory(ts', c) == InCategory(ts, c) + (if t.category == c then [t] else []);
      if c == t.category && t.category !in pools {
        NoneInCategory(ts, t.category);
      }
    }
  }

  /** The `templatesByCategory` loop. */
  method GroupByCategory(templates: seq<Template>)
    returns (categories: seq<Category>, pools: map<Category, seq<Template>>)
    ensures Grouped(templates, categories, pools)
    ensures |categories| == 0 <==> |templates| == 0
    ensures forall c :: c in pools ==> |pools[c]| > 0
  {
    categories, pools := [], map[];
    for i := 0 to |templates|
      invariant Grouped(templates[..i], categories, pools)
    {
      var t := templates[i];
      assert templates[..i + 1] == templates[..i] + [t];
      GroupStep(templates[..i], t, categories, pools);
      var list := if t.category in pools then pools[t.category] else [];
      pools := pools[t.category := list + [t]];
      if t.category !in categories {
        categories := categories + [t.category];
      }
    }
    assert templates[..|templates|] == templates;
    if |templates| > 0 {
      assert templates[0].category in categories;
    }
    forall c | c in pools
      ensures |pools[c]| > 0
    {
      var i :| 0 <= i < |templates| && templates[i].category == c;
      assert templates[i] in pools[c];
    }
  }

  // ----------------------------------------------------------------- weights

  /** One entry of the weight map, which keeps insertion order. */
  datatype Weighted = Weighted(category: Category, weight: int)

  function Keys(ws: seq<Weighted>): (ks: seq<Category>)
    ensures |ks| == |ws|
    ensures forall i :: 0 <= i < |ws| ==> ks[i] == ws[i].category
  {
    if ws == [] then [] else [ws[0].category] + Keys(ws[1..])
  }

  /** `weights.get(c) ?? 0`. */
  function WeightOf(ws: seq<Weighted>, c: Category): int {
    if ws == [] then 0
    else if ws[0].category == c then ws[0].weight
    else WeightOf(ws[1..], c)
  }

  function TotalWeight(ws: seq<Weighted>): int {
    if ws == [] then 0 else ws[0].weight + TotalWeight(ws[1..])
  }

  /** `weights.set(c, (weights.get(c) ?? 0) + amount)`: an existing key keeps its
      place, a new one goes to the end. */
  function Bump(ws: seq<Weighted>, c: Category, amount: int): (r: seq<Weighted>)
    ensures Keys(r) == Keys(ws) + (if c in Keys(ws) then [] else [c])
    ensures WeightOf(r, c) == WeightOf(ws, c) + amount
    ensures forall d {:trigger WeightOf(r, d)} :: d != c ==> WeightOf(r, d) == WeightOf(ws, d)
    ensures TotalWeight(r) == TotalWeight(ws) + amount
  {
    if ws == [] then [Weighted(c, amount)]
    else if ws[0].category == c then [ws[0].(weight := ws[0].weight + amount)] + ws[1..]
    else
      var rest := Bump(ws[1..], c, amount);
      assert Keys(ws) == [ws[0].category] + Keys(ws[1..]);
      assert ([ws[0]] + rest)[1..] == rest;
      [ws[0]] + rest
  }

  /** Weight 1 for every category of the catalog. */
  function Uniform(cs: seq<Category>): (ws: seq<Weighted>)
    ensures Keys(ws) == cs
    ensures forall i :: 0 <= i < |ws| ==> ws[i].category == cs[i]
    ensures forall c {:trigger WeightOf(ws, c)} :: WeightOf(ws, c) == (if c in cs then 1 else 0)
    ensures TotalWeight(ws) == |cs|
    ensures forall i :: 0 <= i < |ws| ==> ws[i].weight == 1
  {
    if cs == [] then [] else
      var rest := Uniform(cs[1..]);
      assert ([Weighted(cs[0], 1)] + rest)[1..] == rest;
      assert forall c :: c in cs <==> c == cs[0] || c in cs[1..];
      [Weighted(cs[0], 1)] + rest
  }

  /** The extra weight the metrics give a category: +2 for sales requests below
      45 sales sentiment, for tech-debt work above 55 tech debt, for enterprise
      and self-serve features below 45 growth, and +1 for UX below 45 NPS. */
  function Boost(m: Metrics, c: Category): int {
    if c == SalesRequest then (if m.salesSentiment < 45 then 2 else 0)
    else if c == TechDebtReduction then (if m.techDebt > 55 then 2 else 0)
    else if c == EnterpriseFeature then (if m.enterpriseGrowth < 45 then 2 else 0)
    else if c == SelfServeFeature then (if m.selfServeGrowth < 45 then 2 else 0)
    else if c == UxImprovement then (if m.nps < 45 then 1 else 0)
    else 0
  }

  /** A bump applied only when `cond` holds. */
  function BumpIf(ws: seq<Weighted>, cond: bool, c: Category, amount: int): (r: seq<Weighted>)
    ensures |r| >= |ws| && forall i {:trigger r[i]} :: 0 <= i < |ws| ==> r[i].category == ws[i].category
    ensures forall d {:trigger WeightOf(r, d)} :: WeightOf(r, d) == WeightOf(ws, d) + (if cond && d == c then amount else 0)
    ensures TotalWeight(r) == TotalWeight(ws) + (if cond then amount else 0)
  {
    if cond then Bump(ws, c, amount) else ws
  }

  /** The weight map of `generateBacklog`, bumped in the source's order. */
  function CategoryWeights(cs: seq<Category>, m: Metrics): (ws: seq<Weighted>)
    ensures |ws| >= |cs| && forall i :: 0 <= i < |cs| ==> ws[i].category == cs[i]
  {
    var w0 := Uniform(cs);
    var w1 := BumpIf(w0, m.salesSentiment < 45, SalesRequest, 2);
    var w2 := BumpIf(w1, m.techDebt > 55, TechDebtReduction, 2);
    var w3 := BumpIf(w2, m.enterpriseGrowth < 45, EnterpriseFeature, 2);
    var w4 := BumpIf(w3, m.selfServeGrowth < 45, SelfServeFeature, 2);
    BumpIf(w4, m.nps < 45, UxImprovement, 1)
  }

  /** Every category's weight is 1 if the catalog has it, plus its boost. */
  lemma CategoryWeightOf(cs: seq<Category>, m: Metrics, c: Category)
    ensures WeightOf(CategoryWeights(cs, m), c) == (if c in cs then 1 else 0) + Boost(m, c)
  {
    BoostSplit(m, c);
  }

  /** A category's boost as the sum of the five conditional bumps. */
  lemma BoostSplit(m: Metrics, c: Category)
    ensures Boost(m, c) == (if m.salesSentiment < 45 && c == SalesRequest then 2 else 0)
      + (if m.techDebt > 55 && c == TechDebtReduction then 2 else 0)
      + (if m.enterpriseGrowth < 45 && c == EnterpriseFeature then 2 else 0)
      + (if m.selfServeGrowth < 45 && c == SelfServeFeature then 2 else 0)
      + (if m.nps < 45 && c == UxImprovement then 1 else 0)
  {
  }

  /** The total weight is the number of categories plus all boosts, so it is positive. */
  lemma CategoryWeightsTotal(cs: seq<Category>, m: Metrics)
    ensures TotalWeight(CategoryWeights(cs, m)) == |cs| + Boost(m, SalesRequest) + Boost(m, TechDebtReduction)
      + Boost(m, EnterpriseFeature) + Boost(m, SelfServeFeature) + Boost(m, UxImprovement)
    ensures |cs| > 0 ==> TotalWeight(CategoryWeights(cs, m)) > 0
  {
    BoostValues(m);
  }

  /** The boost of each category that can have one. */
  lemma BoostValues(m: Metrics)
    ensures Boost(m, SalesRequest) == if m.salesSentiment < 45 then 2 else 0
    ensures Boost(m, TechDebtReduction) == if m.techDebt > 55 then 2 else 0
    ensures Boost(m, EnterpriseFeature) == if m.enterpriseGrowth < 45 then 2 else 0
    ensures Boost(m, SelfServeFeature) == if m.selfServeGrowth < 45 then 2 else 0
    ensures Boost(m, UxImprovement) == if m.nps < 45 then 1 else 0
  {
  }

  /** The weights as the roulette's reals. */
  function Values(ws: seq<Weighted>): (vs: seq<real>)
    ensures |vs| == |ws|
    ensures forall i :: 0 <= i < |ws| ==> vs[i] == ws[i].weight as real
    ensures Sum(vs) == TotalWeight(ws) as real
    decreases |ws|
  {
    if ws == [] then []
    else
      var vs := [ws[0].weight as real] + Values(ws[1..]);
      SumFront(vs);
      vs
  }

  /** `Sum`, which adds from the back, also adds from the front. */
  lemma {:induction false} SumFront(vs: seq<real>)
    requires |vs| > 0
    ensures Sum(vs) == vs[0] + Sum(vs[1..])
    decreases |vs|
  {
    if |vs| > 1 {
      var init := vs[..|vs| - 1];
      SumFront(init);
      assert init[1..] == vs[1..][..|vs[1..]| - 1];
    } else {
      assert vs[1..] == [];
      assert vs[..0] == [];
    }
  }

  /** `pickCategory`: a roulette over the weights in insertion order, falling
      back to the first category. */
  method PickCategory(rng: Rng, weights: seq<Weighted>, categories: seq<Category>) returns (c: Category)
    requires rng.Valid() && |categories| > 0 && TotalWeight(weights) > 0
    modifies rng
    ensures rng.Valid() && rng.origin == old(rng.origin) && rng.drawn == old(rng.drawn) + 1
    ensures c in Keys(weights) || c == categories[0]
  {
    var total := TotalWeight(weights) as real;
    var u := rng.Next();
    var i := Spin(Values(weights), Roll(Fraction(u), total));
    if i < |weights| {
      c := weights[i].category;
    } else {
      c := categories[0];
    }
  }

  // ------------------------------------------------------------- guarantees

  /** The categories the backlog must include, in order: self-serve and
      enterprise features below 45 growth, tech-debt work above 55 debt, sales
      requests below 40 sales sentiment and UX below 45 NPS. */
  function Guarantees(m: Metrics): (gs: seq<Category>)
    ensures |gs| <= 5
    ensures m.selfServeGrowth < 45 ==> |gs| > 0 && gs[0] == SelfServeFeature
  {
    var g1 := PushIf([], m.selfServeGrowth < 45, SelfServeFeature);
    var g2 := PushIf(g1, m.enterpriseGrowth < 45, EnterpriseFeature);
    var g3 := PushIf(g2, m.techDebt > 55, TechDebtReduction);
    var g4 := PushIf(g3, m.salesSentiment < 40, SalesRequest);
    PushIf(g4, m.nps < 45, UxImprovement)
  }

  /** Whether the metrics call for a guaranteed ticket of category `c`. */
  predicate Lagging(m: Metrics, c: Category) {
    match c
    case SelfServeFeature => m.selfServeGrowth < 45
    case EnterpriseFeature => m.enterpriseGrowth < 45
    case TechDebtReduction => m.techDebt > 55
    case SalesRequest => m.salesSentiment < 40
    case UxImprovement => m.nps < 45
    case _ => false
  }

  /** The guarantees are exactly the lagging categories. */
  lemma GuaranteesExactly(m: Metrics, c: Category)
    ensures c in Guarantees(m) <==> Lagging(m, c)
  {
    var g1 := PushIf([], m.selfServeGrowth < 45, SelfServeFeature);
    var g2 := PushIf(g1, m.enterpriseGrowth < 45, EnterpriseFeature);
    var g3 := PushIf(g2, m.techDebt > 55, TechDebtReduction);
    var g4 := PushIf(g3, m.salesSentiment < 40, SalesRequest);
    var g5 := PushIf(g4, m.nps < 45, UxImprovement);
    assert Guarantees(m) == g5;
    assert c in g1 <==> m.selfServeGrowth < 45 && c == SelfServeFeature;
    assert c in g2 <==> c in g1 || (m.enterpriseGrowth < 45 && c == EnterpriseFeature);
    assert c in g3 <==> c in g2 || (m.techDebt > 55 && c == TechDebtReduction);
    assert c in g4 <==> c in g3 || (m.salesSentiment < 40 && c == SalesRequest);
    assert c in g5 <==> c in g4 || (m.nps < 45 && c == UxImprovement);
  }

  /** `if (cond) list.push(c)`: the list gains `c` when `cond` holds, and its
      front stays. */
  function PushIf(gs: seq<Category>, cond: bool, c: Category): (r: seq<Category>)
    ensures |gs| > 0 ==> |r| > 0 && r[0] == gs[0]
    ensures gs == [] && cond ==> r == [c]
  {
    if cond then gs + [c] else gs
  }

  // ---------------------------------------------------------------- picking

  ghost function Ids(s: seq<Template>): set<string> {
    set t | t in s :: t.id
  }

  /** What every phase keeps: the picks come from the catalog, no id repeats,
      `used` is the set of picked ids and the list is no longer than `count`. */
  ghost predicate WellPicked(templates: seq<Template>, selected: seq<Template>, used: set<string>, count: int) {
    (forall t :: t in selected ==> t in templates)
    && (forall i, j :: 0 <= i < j < |selected| ==> selected[i].id != selected[j].id)
    && used == Ids(selected)
    && (|selected| <= count || selected == [])
  }

  lemma AddPick(templates: seq<Template>, selected: seq<Template>, used: set<string>, count: int, t: Template)
    requires WellPicked(templates, selected, used, count)
    requires t in templates && t.id !in used && |selected| < count
    ensures WellPicked(templates, selected + [t], used + {t.id}, count)
  {
    var s := selected + [t];
    forall i, j | 0 <= i < j < |s|
      ensures s[i].id != s[j].id
    {
      if j == |selected| {
        assert s[i] in selected;
      }
    }
    assert Ids(s) == Ids(selected) + {t.id};
  }

  /** `pool.find((tpl) => !usedIds.has(tpl.id))`. */
  function FirstUnused(pool: seq<Template>, used: set<string>): (r: Option<Template>)
    ensures r.None? <==> forall t :: t in pool ==> t.id in used
    ensures r.Some? ==> r.value == pool[FirstUnusedIndex(pool, used)]
  {
    var i := FirstUnusedIndex(pool, used);
    if i < |pool| then Some(pool[i]) else None
  }

  /** The index of the first template whose id is unused, or `|pool|`. */
  function FirstUnusedIndex(pool: seq<Template>, used: set<string>): (i: nat)
    ensures i <= |pool|
    ensures forall j :: 0 <= j < i ==> pool[j].id in used
    ensures i < |pool| ==> pool[i].id !in used
  {
    if pool == [] then 0
    else if pool[0].id !in used then 0
    else 1 + FirstUnusedIndex(pool[1..], used)
  }

  /** `pickUniqueFromCategory` on a resolved pool: a draw, up to five redraws
      while the id is taken, then the first unused template. It gives nothing
      exactly when every template of the pool is taken. */
  method PickUnique(rng: Rng, pool: seq<Template>, used: set<string>) returns (r: Option<Template>)
    requires rng.Valid()
    modifies rng
    ensures rng.Valid() && rng.origin == old(rng.origin) && rng.drawn >= old(rng.drawn)
    ensures r.Some? ==> r.value in pool && r.value.id !in used
    ensures r.None? <==> forall t :: t in pool ==> t.id in used
  {
    if |pool| == 0 {
      return None;
    }
    var candidate := rng.Pick(pool);
    var guard := 0;
    while candidate.id in used && guard < 5
      invariant rng.Valid() && rng.origin == old(rng.origin) && rng.drawn >= old(rng.drawn)
      invariant candidate in pool
      decreases 5 - guard
    {
      candidate := rng.Pick(pool);
      guard := guard + 1;
    }
    if candidate.id in used {
      var fallback := FirstUnused(pool, used);
      if fallback.None? {
        return None;
      }
      candidate := fallback.value;
    }
    r := Some(candidate);
  }

  /** The unused templates with effort in `[lo, hi]`. */
  function Sized(ts: seq<Template>, used: set<string>, lo: int, hi: int): (r: seq<Template>)
    ensures forall t :: t in r <==> t in ts && t.id !in used && lo <= t.effort <= hi
  {
    if ts == [] then []
    else
      (if ts[0].id !in used && lo <= ts[0].effort <= hi then [ts[0]] else [])
      + Sized(ts[1..], used, lo, hi)
  }

  /** `pickBySize`: a draw among the unused templates of the size, or nothing
      exactly when there is none. */
  method PickBySize(rng: Rng, templates: seq<Template>, used: set<string>, lo: int, hi: int)
    returns (r: Option<Template>)
    requires rng.Valid()
    modifies rng
    ensures rng.Valid() && rng.origin == old(rng.origin) && rng.drawn >= old(rng.drawn)
    ensures r.Some? ==> r.value in templates && r.value.id !in used && lo <= r.value.effort <= hi
    ensures r.None? <==> forall t :: t in templates && lo <= t.effort <= hi ==> t.id in used
  {
    var pool := Sized(templates, used, lo, hi);
    if |pool| == 0 {
      return None;
    }
    var t := rng.Pick(pool);
    r := Some(t);
  }

  /** The number of picks with effort at most 3, from 4 to 6, or at least 7. */
  function CountSmall(s: seq<Template>): nat {
    if s == [] then 0 else (if s[0].effort <= 3 then 1 else 0) + CountSmall(s[1..])
  }

  function CountMedium(s: seq<Template>): nat {
    if s == [] then 0 else (if 4 <= s[0].effort <= 6 then 1 else 0) + CountMedium(s[1..])
  }

  function CountLarge(s: seq<Template>): nat {
    if s == [] then 0 else (if s[0].effort >= 7 then 1 else 0) + CountLarge(s[1..])
  }

  // ----------------------------------------------------------------- phases

  /** The pool a category draws from: its own templates, or the whole catalog
      for a category the catalog does not have. */
  function PoolFor(templates: seq<Template>, pools: map<Category, seq<Template>>, c: Category): seq<Template> {
    if c in pools then pools[c] else templates
  }

  /** Every template of `pool` is taken. */
  ghost predicate UsedUp(pool: seq<Template>, used: set<string>) {
    forall t :: t in pool ==> t.id in used
  }

  /** `pickUniqueFromCategory`: `PickUnique` on the category's pool. A pick lies
      in the catalog, has an unused id and, for a category the catalog has, is
      of that category. */
  method PickUniqueFromCategory(rng: Rng, templates: seq<Template>, pools: map<Category, seq<Template>>,
                                categories: seq<Category>, category: Category, used: set<string>)
    returns (r: Option<Template>)
    requires rng.Valid() && Grouped(templates, categories, pools)
    modifies rng
    ensures rng.Valid() && rng.origin == old(rng.origin) && rng.drawn >= old(rng.drawn)
    ensures r.Some? ==> r.value in templates && r.value.id !in used
    ensures r.Some? ==> r.value in PoolFor(templates, pools, category)
    ensures r.Some? && category in pools ==> r.value.category == category
    ensures r.None? <==> UsedUp(PoolFor(templates, pools, category), used)
  {
    var pool := PoolFor(templates, pools, category);
    r := PickUnique(rng, pool, used);
  }

  /** One pick per guaranteed category, while there is room. `sources[i]` is
      the guarantee pick `i` was drawn for. */
  method AddGuaranteed(rng: Rng, templates: seq<Template>, pools: map<Category, seq<Template>>,
                       categories: seq<Category>, guarantees: seq<Category>, count: int)
    returns (selected: seq<Template>, used: set<string>, ghost sources: seq<nat>)
    requires rng.Valid() && Grouped(templates, categories, pools)
    requires forall c :: c in pools ==> |pools[c]| > 0
    modifies rng
    ensures rng.Valid() && rng.origin == old(rng.origin) && rng.drawn >= old(rng.drawn)
    ensures WellPicked(templates, selected, used, count)
    ensures |guarantees| > 0 && count >= 1 && guarantees[0] in pools ==>
      |selected| > 0 && selected[0].category == guarantees[0]
    // each pick comes from the pool of its own guarantee, at most one per guarantee
    ensures FromGuarantees(templates, pools, guarantees, selected, sources, |guarantees|)
  {
    selected, used, sources := [], {}, [];
    for k := 0 to |guarantees|
      invariant rng.Valid() && rng.origin == old(rng.origin) && rng.drawn >= old(rng.drawn)
      invariant WellPicked(templates, selected, used, count)
      invariant FromGuarantees(templates, pools, guarantees, selected, sources, k)
      invariant k == 0 ==> selected == []
      invariant k > 0 && count >= 1 && guarantees[0] in pools ==>
        |selected| > 0 && selected[0].category == guarantees[0]
    {
      if |selected| >= count {
        break;
      }
      if k == 0 && guarantees[0] in pools {
        var pool := PoolFor(templates, pools, guarantees[0]);
        assert pool[0] in pool && pool[0].id !in used;
      }
      var candidate := PickUniqueFromCategory(rng, templates, pools, categories, guarantees[k], used);
      if candidate.None? {
        continue;
      }
      AddPick(templates, selected, used, count, candidate.value);
      FromGuaranteesStep(templates, pools, guarantees, selected, sources, k, candidate.value);
      used := used + {candidate.value.id};
      selected, sources := selected + [candidate.value], sources + [k];
    }
  }

  /** The picks were drawn for strictly increasing guarantees below `k`, each
      from the pool of the one it was drawn for. */
  ghost predicate FromGuarantees(templates: seq<Template>, pools: map<Category, seq<Template>>, guarantees: seq<Category>,
                                 selected: seq<Template>, sources: seq<nat>, k: nat)
  {
    k <= |guarantees| && |sources| == |selected|
    && (forall i :: 0 <= i < |sources| ==>
          (sources[i] < k && selected[i] in PoolFor(templates, pools, guarantees[sources[i]])))
    && (forall i, j :: 0 <= i < j < |sources| ==> sources[i] < sources[j])
  }

  /** One more pick, drawn for guarantee `k`. */
  lemma FromGuaranteesStep(templates: seq<Template>, pools: map<Category, seq<Template>>, guarantees: seq<Category>,
                           selected: seq<Template>, sources: seq<nat>, k: nat, t: Template)
    requires FromGuarantees(templates, pools, guarantees, selected, sources, k)
    requires k < |guarantees| && t in PoolFor(templates, pools, guarantees[k])
    ensures FromGuarantees(templates, pools, guarantees, selected + [t], sources + [k], k + 1)
  {
  }

  /** One of the size-balancing loops: picks of effort `[lo, hi]` until
      `counted` reaches `target`, the backlog is full or the size runs out. */
  method FillBySize(rng: Rng, templates: seq<Template>, selected0: seq<Template>, used0: set<string>,
                    count: int, counted: int, target: int, lo: int, hi: int)
    returns (selected: seq<Template>, used: set<string>)
    requires rng.Valid() && WellPicked(templates, selected0, used0, count)
    modifies rng
    ensures rng.Valid() && rng.origin == old(rng.origin) && rng.drawn >= old(rng.drawn)
    ensures WellPicked(templates, selected, used, count)
    ensures |selected| >= |selected0| && selected[..|selected0|] == selected0
    ensures forall i :: |selected0| <= i < |selected| ==> lo <= selected[i].effort <= hi
    // it stops at the target, on a full backlog, or when the size has no unused ticket left
    ensures counted + (|selected| - |selected0|) >= target || |selected| >= count
            || forall t :: t in templates && lo <= t.effort <= hi ==> t.id in used
  {
    selected, used := selected0, used0;
    var n := counted;
    while n < target && |selected| < count
      invariant rng.Valid() && rng.origin == old(rng.origin) && rng.drawn >= old(rng.drawn)
      invariant n == counted + (|selected| - |selected0|)
      invariant WellPicked(templates, selected, used, count)
      invariant |selected| >= |selected0| && selected[..|selected0|] == selected0
      invariant forall i :: |selected0| <= i < |selected| ==> lo <= selected[i].effort <= hi
      decreases count - |selected|
    {
      var ticket := PickBySize(rng, templates, used, lo, hi);
      if ticket.None? {
        break;
      }
      AddPick(templates, selected, used, count, ticket.value);
      used := used + {ticket.value.id};
      selected := selected + [ticket.value];
      n := n + 1;
    }
  }

  /** The last loop: weighted category draws until the backlog is full or the
      drawn category's pool is used up. */
  method FillByWeight(rng: Rng, templates: seq<Template>, pools: map<Category, seq<Template>>,
                      categories: seq<Category>, weights: seq<Weighted>,
                      selected0: seq<Template>, used0: set<string>, count: int)
    returns (selected: seq<Template>, used: set<string>)
    requires rng.Valid() && WellPicked(templates, selected0, used0, count)
    requires Grouped(templates, categories, pools) && |categories| > 0 && TotalWeight(weights) > 0
    requires forall c :: c in pools ==> |pools[c]| > 0
    modifies rng
    ensures rng.Valid() && rng.origin == old(rng.origin) && rng.drawn >= old(rng.drawn)
    ensures WellPicked(templates, selected, used, count)
    ensures |selected| >= |selected0| && selected[..|selected0|] == selected0
    ensures count >= 1 ==> |selected| >= 1
    // it stops on a full backlog or when a drawn category's pool is used up
    ensures |selected| >= count
            || exists c :: (c in Keys(weights) || c == categories[0]) && UsedUp(PoolFor(templates, pools, c), used)
  {
    selected, used := selected0, used0;
    while |selected| < count
      invariant rng.Valid() && rng.origin == old(rng.origin) && rng.drawn >= old(rng.drawn)
      invariant WellPicked(templates, selected, used, count)
      invariant |selected| >= |selected0| && selected[..|selected0|] == selected0
      decreases count - |selected|
    {
      var category := PickCategory(rng, weights, categories);
      if selected == [] {
        var pool := PoolFor(templates, pools, category);
        assert templates[0].category in categories;
        assert pool[0] in pool;
      }
      var candidate := PickUniqueFromCategory(rng, templates, pools, categories, category, used);
      if candidate.None? {
        break;
      }
      AddPick(templates, selected, used, count, candidate.value);
      used := used + {candidate.value.id};
      selected := selected + [candidate.value];
    }
  }

  /** `generateBacklog`. */
  method GenerateBacklog(templates: seq<Template>, metrics: Metrics, rng: Rng, count: int)
    returns (selected: seq<Template>)
    requires rng.Valid()
    modifies rng
    ensures rng.Valid() && rng.origin == old(rng.origin) && rng.drawn >= old(rng.drawn)
    ensures templates == [] ==> selected == [] && rng.drawn == old(rng.drawn)
    ensures count <= 0 ==> selected == []
    ensures |selected| <= count || selected == []
    ensures forall t :: t in selected ==> t in templates
    ensures forall i, j :: 0 <= i < j < |selected| ==> selected[i].id != selected[j].id
    ensures templates != [] && count >= 1 ==> |selected| >= 1
    // a lagging self-serve line puts a self-serve ticket first, when the catalog has one
    ensures metrics.selfServeGrowth < 45 && count >= 1
            && (exists t :: t in templates && t.category == SelfServeFeature)
            ==> selected[0].category == SelfServeFeature
  {
    var categories, pools, weights, guarantees := PlanBacklog(templates, metrics);
    if |categories| == 0 {
      return [];
    }
    selected := PickBacklog(rng, templates, pools, categories, weights, guarantees, count);
  }

  /** The planning half of `generateBacklog`: group the catalog, weight its
      categories and list the guarantees. */
  method PlanBacklog(templates: seq<Template>, metrics: Metrics)
    returns (categories: seq<Category>, pools: map<Category, seq<Template>>,
             weights: seq<Weighted>, guarantees: seq<Category>)
    ensures Grouped(templates, categories, pools)
    ensures |categories| == 0 <==> |templates| == 0
    ensures forall c :: c in pools ==> |pools[c]| > 0
    ensures weights == CategoryWeights(categories, metrics)
    ensures |categories| > 0 ==> TotalWeight(weights) > 0
    ensures guarantees == Guarantees(metrics)
    ensures metrics.selfServeGrowth < 45 && (exists t :: t in templates && t.category == SelfServeFeature)
            ==> |guarantees| > 0 && guarantees[0] == SelfServeFeature && guarantees[0] in pools
  {
    categories, pools := GroupByCategory(templates);
    weights := CategoryWeights(categories, metrics);
    CategoryWeightsTotal(categories, metrics);
    guarantees := Guarantees(metrics);
    if metrics.selfServeGrowth < 45 && (exists t :: t in templates && t.category == SelfServeFeature) {
      SelfServeGuaranteed(templates, categories, pools, metrics);
    }
  }

  /** The picking half of `generateBacklog`: guarantees first, then size
      balancing, then the weighted fill. The first guarantee the catalog can
      serve heads the backlog. */
  method PickBacklog(rng: Rng, templates: seq<Template>, pools: map<Category, seq<Template>>,
                     categories: seq<Category>, weights: seq<Weighted>, guarantees: seq<Category>, count: int)
    returns (selected: seq<Template>)
    requires rng.Valid() && Grouped(templates, categories, pools)
    requires |categories| > 0 && TotalWeight(weights) > 0
    requires forall c :: c in pools ==> |pools[c]| > 0
    modifies rng
    ensures rng.Valid() && rng.origin == old(rng.origin) && rng.drawn >= old(rng.drawn)
    ensures WellPicked(templates, selected, Ids(selected), count)
    ensures count >= 1 ==> |selected| >= 1
    ensures |guarantees| > 0 && count >= 1 && guarantees[0] in pools ==> selected[0].category == guarantees[0]
  {
    var used;
    ghost var sources;
    selected, used, sources := AddGuaranteed(rng, templates, pools, categories, guarantees, count);
    ghost var first := selected;
    selected, used := BalanceSizes(rng, templates, selected, used, count);
    ghost var second := selected;
    selected, used := FillByWeight(rng, templates, pools, categories, weights, selected, used, count);
    if |first| > 0 {
      PrefixOfPrefix(first[..1], second, selected);
    }
  }

  /** A lagging self-serve line with a self-serve template in the catalog makes
      self-serve the first guarantee, and one the catalog can serve. */
  lemma SelfServeGuaranteed(templates: seq<Template>, categories: seq<Category>,
                            pools: map<Category, seq<Template>>, metrics: Metrics)
    requires Grouped(templates, categories, pools)
    requires metrics.selfServeGrowth < 45
    requires exists t :: t in templates && t.category == SelfServeFeature
    ensures |Guarantees(metrics)| > 0 && Guarantees(metrics)[0] == SelfServeFeature
    ensures SelfServeFeature in pools
  {
    var t :| t in templates && t.category == SelfServeFeature;
    var i :| 0 <= i < |templates| && templates[i] == t;
    assert SelfServeFeature in CategoriesOf(templates);
  }

  /** The size-balancing phase: draw a small, medium and large target, then top
      up each size class in turn. The tickets already picked stay in front. */
  method BalanceSizes(rng: Rng, templates: seq<Template>, selected0: seq<Template>, used0: set<string>, count: int)
    returns (selected: seq<Template>, used: set<string>)
    requires rng.Valid() && WellPicked(templates, selected0, used0, count)
    modifies rng
    ensures rng.Valid() && rng.origin == old(rng.origin) && rng.drawn >= old(rng.drawn)
    ensures WellPicked(templates, selected, used, count)
    ensures |selected| >= |selected0| && selected[..|selected0|] == selected0
  {
    var targetSmall := rng.Int(1, 2);
    var targetMedium := rng.Int(2, 3);
    var targetLarge := rng.Int(1, 2);
    var smallCount := CountSmall(selected0);
    var mediumCount := CountMedium(selected0);
    var largeCount := CountLarge(selected0);
    var s1, u1 := FillBySize(rng, templates, selected0, used0, count, smallCount, targetSmall, 1, 3);
    var s2, u2 := FillBySize(rng, templates, s1, u1, count, mediumCount, targetMedium, 4, 6);
    selected, used := FillBySize(rng, templates, s2, u2, count, largeCount, targetLarge, 7, 10);
    PrefixOfPrefix(selected0, s1, s2);
    PrefixOfPrefix(selected0, s2, selected);
  }

  /** A prefix of a prefix is a prefix. */
  lemma PrefixOfPrefix<T>(a: seq<T>, b: seq<T>, c: seq<T>)
    requires |a| <= |b| <= |c| && b[..|a|] == a && c[..|b|] == b
    ensures c[..|a|] == a
  {
    assert c[..|a|] == c[..|b|][..|a|];
  }
}
