/** The in-memory resolution of one sprint commit: the selected tickets are
    looked up in the sprint's backlog, checked against the capacity, rolled and
    applied one after another on a generator seeded from the game, and the
    overbooking penalty and the retro figures are computed. Loading and saving
    the game and sprint rows is not part of this model. */
module Commit {
  import opened Types
  import opened Random
  import opened Capacity
  import opened Outcomes
  import opened Impacts

  // ---------------------------------------------------------------------------
  // Selection

  /** `new Map(backlog.map(t => [t.id, t]))`: each id maps to a template of the
      backlog carrying it; a later entry with the same id replaces an earlier one. */
  function BacklogMap(backlog: seq<Template>): (bm: map<string, Template>)
    ensures forall id :: id in bm <==> exists i :: 0 <= i < |backlog| && backlog[i].id == id
    ensures forall id :: id in bm ==> bm[id].id == id && bm[id] in backlog
    decreases |backlog|
  {
    if backlog == [] then map[]
    else
      var init := backlog[..|backlog| - 1];
      var last := backlog[|backlog| - 1];
      assert forall i :: 0 <= i < |init| ==> init[i] == backlog[i];
      BacklogMap(init)[last.id := last]
  }

  /** The map keeps the last template of each id. */
  lemma {:induction false} LastWins(backlog: seq<Template>, i: nat)
    requires i < |backlog|
    requires forall j :: i < j < |backlog| ==> backlog[j].id != backlog[i].id
    ensures backlog[i].id in BacklogMap(backlog)
    ensures BacklogMap(backlog)[backlog[i].id] == backlog[i]
    decreases |backlog|
  {
    if i < |backlog| - 1 {
      var init := backlog[..|backlog| - 1];
      assert forall j :: i < j < |init| ==> init[j] == backlog[j];
      LastWins(init, i);
    }
  }

  /** `ticketIds.map(id => backlogMap.get(id)).filter(Boolean)`. */
  function SelectTickets(bm: map<string, Template>, ids: seq<string>): (sel: seq<Template>)
    ensures |sel| <= |ids|
    ensures sel == [] <==> forall i :: 0 <= i < |ids| ==> ids[i] !in bm
    ensures forall t :: t in sel ==> t in bm.Values
  {
    if ids == [] then []
    else
      var rest := SelectTickets(bm, ids[1..]);
      assert forall i :: 1 <= i < |ids| ==> ids[i] == ids[1..][i - 1];
      if ids[0] in bm then [bm[ids[0]]] + rest else rest
  }

  /** Selection distributes over the request list, so it keeps request order. */
  lemma {:induction false} SelectConcat(bm: map<string, Template>, a: seq<string>, b: seq<string>)
    ensures SelectTickets(bm, a + b) == SelectTickets(bm, a) + SelectTickets(bm, b)
    decreases |a|
  {
    if a != [] {
      assert (a + b)[1..] == a[1..] + b;
      assert (a + b)[0] == a[0];
      SelectConcat(bm, a[1..], b);
    } else {
      assert a + b == b;
    }
  }

  /** An unknown id is dropped. */
  lemma SelectUnknown(bm: map<string, Template>, id: string)
    requires id !in bm
    ensures SelectTickets(bm, [id]) == []
  {
  }

  /** When every requested id is known, there is one ticket per id, in request
      order, repeated ids included. */
  lemma {:induction false} SelectAllKnown(bm: map<string, Template>, ids: seq<string>)
    requires forall i :: 0 <= i < |ids| ==> ids[i] in bm
    ensures |SelectTickets(bm, ids)| == |ids|
    ensures forall i :: 0 <= i < |ids| ==> SelectTickets(bm, ids)[i] == bm[ids[i]]
    decreases |ids|
  {
    if ids != [] {
      assert forall i :: 0 <= i < |ids[1..]| ==> ids[1..][i] == ids[i + 1];
      SelectAllKnown(bm, ids[1..]);
    }
  }

  /** The selection of a request against a backlog. */
  function Selection(backlog: seq<Template>, ids: seq<string>): seq<Template> {
    SelectTickets(BacklogMap(backlog), ids)
  }

  // ---------------------------------------------------------------------------
  // Capacity check

  /** The `reduce` over the selected tickets' efforts. */
  function TotalEffort(ts: seq<Template>): int
    decreases |ts|
  {
    if ts == [] then 0 else TotalEffort(ts[..|ts| - 1]) + ts[|ts| - 1].effort
  }

  /** `Math.floor(capacity * 1.25)`, which is the integer `(5 * capacity) / 4`. */
  function MaxCapacity(capacity: int): (m: int)
    ensures m == (5 * capacity) / 4
    ensures capacity >= 0 ==> capacity <= m
  {
    var q := (5 * capacity) / 4;
    assert 4 * q <= 5 * capacity < 4 * q + 4;
    assert q as real <= capacity as real * 1.25 < q as real + 1.0;
    (capacity as real * 1.25).Floor
  }

  /** The stored capacity of the sprint, or the one the metrics give. */
  function CapacityOf(stored: Option<int>, m: Metrics): (c: int)
    ensures stored.None? ==> 8 <= c <= 30
  {
    match stored
    case Some(c) => c
    case None => EffectiveCapacity(m)
  }

  // ---------------------------------------------------------------------------
  // Rolling the tickets

  /** The context each ticket is rolled with: current tech debt and team
      sentiment, the overbooking flag without a fraction, and no CEO alignment. */
  function TicketContext(m: Metrics, overbooked: bool, t: Template, d: Difficulty): (ctx: OutcomeContext)
    ensures AlignmentShift(ctx) == Zero
    ensures OverbookFraction(ctx) == (if overbooked then 1.0 else 0.0)
    ensures UnderbookFraction(ctx) == 0.0
    ensures ctx.isMoonshot <==> t.category == Moonshot
  {
    OutcomeContext(m.techDebt, m.teamSentiment, overbooked, None, None, t.category == Moonshot, false, d)
  }

  /** One entry of the retro: the ticket, its outcome and its own deltas. */
  datatype TicketResult = TicketResult(ticket: Template, outcome: Outcome, impacts: map<MetricKey, int>)

  /** The metrics after the requests of every ticket, applied ticket by ticket. */
  function Thread(m: Metrics, plans: seq<seq<Request>>): Metrics
    decreases |plans|
  {
    if plans == [] then m
    else Replay(Thread(m, plans[..|plans| - 1]), plans[|plans| - 1]).updated
  }

  lemma ThreadSnoc(m: Metrics, plans: seq<seq<Request>>, p: seq<Request>)
    ensures Thread(m, plans + [p]) == Replay(Thread(m, plans), p).updated
    ensures forall j :: 0 <= j <= |plans| ==> (plans + [p])[..j] == plans[..j]
  {
    assert (plans + [p])[..|plans|] == plans;
  }

  /** Gauges that start in [0, 100] stay there through every ticket. */
  lemma {:induction false} ThreadKeepsGauges(m: Metrics, plans: seq<seq<Request>>)
    requires GaugesInRange(m)
    ensures GaugesInRange(Thread(m, plans))
    decreases |plans|
  {
    if plans != [] {
      ThreadKeepsGauges(m, plans[..|plans| - 1]);
      ReplayKeepsGauges(Thread(m, plans[..|plans| - 1]), plans[|plans| - 1]);
    }
  }

  // ---------------------------------------------------------------------------
  // Aggregating the deltas

  /** The deltas of `acc` with those of `d` added key by key. */
  function Merge(acc: map<MetricKey, int>, d: map<MetricKey, int>): (r: map<MetricKey, int>)
    ensures r.Keys == acc.Keys + d.Keys
    ensures forall k :: DeltaOf(r, k) == DeltaOf(acc, k) + DeltaOf(d, k)
  {
    map k | k in acc.Keys + d.Keys :: DeltaOf(acc, k) + DeltaOf(d, k)
  }

  /** The per-ticket deltas of the results, in order. */
  function ImpactsOf(rs: seq<TicketResult>): (ds: seq<map<MetricKey, int>>)
    ensures |ds| == |rs|
    decreases |rs|
  {
    if rs == [] then [] else ImpactsOf(rs[..|rs| - 1]) + [rs[|rs| - 1].impacts]
  }

  /** `metric_deltas`: the per-ticket deltas merged in order. */
  function Aggregate(ds: seq<map<MetricKey, int>>): map<MetricKey, int>
    decreases |ds|
  {
    if ds == [] then map[] else Merge(Aggregate(ds[..|ds| - 1]), ds[|ds| - 1])
  }

  /** The sum of the deltas for `k` over all tickets, absent keys counting 0. */
  function SumAt(ds: seq<map<MetricKey, int>>, k: MetricKey): int
    decreases |ds|
  {
    if ds == [] then 0 else SumAt(ds[..|ds| - 1], k) + DeltaOf(ds[|ds| - 1], k)
  }

  /** The aggregate holds, for each metric, the sum of the tickets' deltas, and
      it has a key exactly when some ticket reported one. */
  lemma {:induction false} AggregateSums(ds: seq<map<MetricKey, int>>, k: MetricKey)
    ensures DeltaOf(Aggregate(ds), k) == SumAt(ds, k)
    ensures k in Aggregate(ds) <==> exists i :: 0 <= i < |ds| && k in ds[i]
    decreases |ds|
  {
    if ds != [] {
      var init := ds[..|ds| - 1];
      AggregateSums(init, k);
      assert forall i :: 0 <= i < |init| ==> init[i] == ds[i];
    }
  }

  /** The inner loop over `Object.entries(deltas)`; entries may come in any order. */
  method AddDeltas(acc: map<MetricKey, int>, d: map<MetricKey, int>) returns (r: map<MetricKey, int>)
    ensures r == Merge(acc, d)
  {
    r := acc;
    var todo := d.Keys;
    while todo != {}
      invariant todo <= d.Keys
      invariant PartlyMerged(r, acc, d, todo)
      decreases |todo|
    {
      var k :| k in todo;
      PartlyMergedStep(r, acc, d, todo, k);
      r := r[k := DeltaOf(r, k) + d[k]];
      todo := todo - {k};
    }
    MergeByKeys(r, acc, d);
  }

  /** `r` holds `acc` plus the entries of `d` outside `todo`. */
  ghost predicate PartlyMerged(r: map<MetricKey, int>, acc: map<MetricKey, int>, d: map<MetricKey, int>, todo: set<MetricKey>) {
    r.Keys == acc.Keys + (d.Keys - todo)
    && forall k :: DeltaOf(r, k) == DeltaOf(acc, k) + (if k in todo then 0 else DeltaOf(d, k))
  }

  lemma PartlyMergedStep(r: map<MetricKey, int>, acc: map<MetricKey, int>, d: map<MetricKey, int>,
                         todo: set<MetricKey>, k: MetricKey)
    requires PartlyMerged(r, acc, d, todo) && todo <= d.Keys && k in todo
    ensures PartlyMerged(r[k := DeltaOf(r, k) + d[k]], acc, d, todo - {k})
  {
    var r' := r[k := DeltaOf(r, k) + d[k]];
    forall j
      ensures DeltaOf(r', j) == DeltaOf(acc, j) + (if j in todo - {k} then 0 else DeltaOf(d, j))
    {
      if j != k {
        assert DeltaOf(r', j) == DeltaOf(r, j);
      }
    }
  }

  /** A map with the merged keys and the merged deltas is the merge. */
  lemma MergeByKeys(r: map<MetricKey, int>, acc: map<MetricKey, int>, d: map<MetricKey, int>)
    requires PartlyMerged(r, acc, d, {})
    ensures r == Merge(acc, d)
  {
    var merged := Merge(acc, d);
    forall k | k in r
      ensures r[k] == merged[k]
    {
      assert DeltaOf(r, k) == DeltaOf(merged, k);
    }
  }

  // ---------------------------------------------------------------------------
  // The ticket loop

  /** Whether some ticket soft-failed or hit a catastrophe. */
  predicate AnyFailure(rs: seq<TicketResult>) {
    exists i :: 0 <= i < |rs| && IsFailure(rs[i].outcome)
  }

  /** What one ticket comes to: `t` rolled at stream position `position` in the
      metrics the changes `earlier` of the tickets before it left, with the
      deltas of its own changes `plan`. */
  ghost function Entry(seed: int, metrics: Metrics, difficulty: Difficulty, overbooked: bool,
                       t: Template, earlier: seq<seq<Request>>, plan: seq<Request>, position: nat): (r: TicketResult)
    ensures r.ticket == t
    // the ticket's deltas are the sums of its own changes, one per metric it moved
    ensures forall k :: k in r.impacts <==> Touches(plan, k)
    ensures forall k :: DeltaOf(r.impacts, k) == Total(plan, k)
  {
    var before := Thread(metrics, earlier);
    ReplayRecords(before, plan);
    TicketResult(t, OutcomeFor(TicketContext(before, overbooked, t, difficulty), Mix(AdvanceN(ToInt32(seed), position))),
                 Replay(before, plan).deltas)
  }

  /** `results` are what the loop produces for the first `|results|` selected
      tickets: entry `j` is ticket `j` resolved after the changes `plans[..j]` of
      the tickets before it, its outcome rolled at stream position `positions[j]`. */
  ghost predicate Entries(seed: int, metrics: Metrics, difficulty: Difficulty, overbooked: bool, selected: seq<Template>,
                          results: seq<TicketResult>, plans: seq<seq<Request>>, positions: seq<nat>)
  {
    |results| == |plans| == |positions| <= |selected|
    && forall j {:trigger results[j]} :: 0 <= j < |results| ==>
         results[j] == Entry(seed, metrics, difficulty, overbooked, selected[j], plans[..j], plans[j], positions[j])
  }

  /** The entries one ticket further, given the entry of that ticket. */
  lemma EntriesStep(seed: int, metrics: Metrics, difficulty: Difficulty, overbooked: bool, selected: seq<Template>,
                    results: seq<TicketResult>, plans: seq<seq<Request>>, positions: seq<nat>,
                    r: TicketResult, plan: seq<Request>, position: nat)
    requires Entries(seed, metrics, difficulty, overbooked, selected, results, plans, positions)
    requires |results| < |selected|
    requires r == Entry(seed, metrics, difficulty, overbooked, selected[|results|], plans, plan, position)
    ensures Entries(seed, metrics, difficulty, overbooked, selected, results + [r], plans + [plan], positions + [position])
  {
    var n := |results|;
    forall j | 0 <= j < |results + [r]|
      ensures (results + [r])[j]
           == Entry(seed, metrics, difficulty, overbooked, selected[j], (plans + [plan])[..j], (plans + [plan])[j],
                    (positions + [position])[j])
    {
      if j < n {
        Within(results, r, j);
        Within(plans, plan, j);
        Within(positions, position, j);
      } else {
        Front(plans, plan);
        Front(positions, position);
      }
    }
  }

  /** The aggregate and the failure flag after one more ticket. */
  lemma ResultsSnoc(results: seq<TicketResult>, r: TicketResult)
    ensures Aggregate(ImpactsOf(results + [r])) == Merge(Aggregate(ImpactsOf(results)), r.impacts)
    ensures AnyFailure(results + [r]) <==> AnyFailure(results) || IsFailure(r.outcome)
  {
    assert (results + [r])[..|results|] == results;
    var ds := ImpactsOf(results + [r]);
    assert ds[..|results|] == ImpactsOf(results);
    if AnyFailure(results) {
      var i :| 0 <= i < |results| && IsFailure(results[i].outcome);
      assert (results + [r])[i] == results[i];
    }
    if IsFailure(r.outcome) {
      assert (results + [r])[|results|] == r;
    }
  }

  /** Appending leaves the earlier entries and their prefixes as they were. */
  lemma Within<T>(s: seq<T>, x: T, j: nat)
    requires j < |s|
    ensures (s + [x])[j] == s[j] && (s + [x])[..j] == s[..j]
  {
  }

  /** What was appended, and what it was appended to. */
  lemma Front<T>(s: seq<T>, x: T)
    ensures (s + [x])[..|s|] == s && (s + [x])[|s|] == x
  {
  }

  /** Stream positions in increasing order, all of them before `bound`. */
  ghost predicate Ascending(positions: seq<nat>, bound: nat) {
    (forall j, k :: 0 <= j < k < |positions| ==> positions[j] < positions[k])
    && forall j :: 0 <= j < |positions| ==> 0 < positions[j] < bound
  }

  lemma AscendingSnoc(positions: seq<nat>, bound: nat, position: nat, bound': nat)
    requires Ascending(positions, bound) && 0 < position && bound <= position < bound'
    ensures Ascending(positions + [position], bound')
  {
    assert forall j :: 0 <= j < |positions| ==> (positions + [position])[j] == positions[j];
  }

  /** One iteration of the route's loop without its bookkeeping: the outcome roll
      in the current metrics, then the application of that outcome. `metrics`
      are what the changes `earlier` of the tickets before this one made of
      `start`. */
  method ResolveTicket(rng: Rng, metrics: Metrics, ticket: Template, overbooked: bool, difficulty: Difficulty,
                       ghost seed: int, ghost start: Metrics, ghost earlier: seq<seq<Request>>)
    returns (outcome: Outcome, updated: Metrics, deltas: map<MetricKey, int>, ghost plan: seq<Request>,
             ghost other: MetricKey, ghost position: nat)
    requires rng.Valid() && rng.origin == ToInt32(seed) && metrics == Thread(start, earlier)
    modifies rng
    ensures rng.Valid() && rng.origin == old(rng.origin) && rng.drawn >= old(rng.drawn) + 2
    // the outcome is rolled from the very next draw, then come the impact
    // scale's draw and the draws of that outcome
    ensures position == old(rng.drawn) + 1 && rng.drawn == position + 1 + ImpactDraws(outcome, ticket)
    ensures TicketResult(ticket, outcome, deltas) == Entry(seed, start, difficulty, overbooked, ticket, earlier, plan, position)
    // the changes are those of the rolled outcome, drawn at the scale of the
    // draw after the roll
    ensures Planned(outcome, ticket, plan, other)
    ensures Drawn(outcome, ticket, plan, other, ScaleAt(seed, position))
    ensures updated == Thread(start, earlier + [plan])
  {
    outcome := RollOutcome(rng, TicketContext(metrics, overbooked, ticket, difficulty));
    position := rng.drawn;
    updated, deltas, plan, other := ApplyOutcome(rng, metrics, ticket, outcome);
    ThreadSnoc(start, earlier, plan);
  }

  /** Every ticket's changes `plans[j]` are those of its outcome, with `others[j]`
      the gauge that outcome drew. */
  ghost predicate AllPlanned(results: seq<TicketResult>, plans: seq<seq<Request>>, others: seq<MetricKey>) {
    |plans| == |others| == |results|
    && forall j {:trigger plans[j]} :: 0 <= j < |results| ==>
         Planned(results[j].outcome, results[j].ticket, plans[j], others[j])
  }

  lemma AllPlannedSnoc(results: seq<TicketResult>, plans: seq<seq<Request>>, others: seq<MetricKey>,
                       r: TicketResult, plan: seq<Request>, other: MetricKey)
    requires AllPlanned(results, plans, others) && Planned(r.outcome, r.ticket, plan, other)
    ensures AllPlanned(results + [r], plans + [plan], others + [other])
  {
    forall j | 0 <= j < |results| + 1
      ensures Planned((results + [r])[j].outcome, (results + [r])[j].ticket, (plans + [plan])[j], (others + [other])[j])
    {
      if j < |results| {
        Within(results, r, j);
        Within(plans, plan, j);
        Within(others, other, j);
      }
    }
  }

  /** The impact scale of a ticket whose outcome was rolled at stream position
      `position`: the output of the draw right after the roll. */
  ghost function ScaleAt(seed: int, position: nat): real {
    ImpactScale(Mix(AdvanceN(ToInt32(seed), position + 1)))
  }

  /** The draws the tickets of `results` take: each its outcome roll, its
      impact scale and the draws of its outcome. */
  function Draws(results: seq<TicketResult>): (n: nat)
    ensures 3 * |results| <= n <= 9 * |results|
    decreases |results|
  {
    if results == [] then 0
    else
      var last := results[|results| - 1];
      Draws(results[..|results| - 1]) + 2 + ImpactDraws(last.outcome, last.ticket)
  }

  /** Where in the stream every ticket drew, walking the tickets in order: the
      last ticket rolled its outcome from the draw right after those of the
      tickets before it, and `drawn` counts every draw up to its last one. */
  ghost predicate Walk(results: seq<TicketResult>, positions: seq<nat>, drawn: nat)
    decreases |results|
  {
    && |positions| == |results|
    && if results == [] then drawn == 0
       else
         var n := |results| - 1;
         && positions[n] >= 1
         && Walk(results[..n], positions[..n], positions[n] - 1)
         && drawn == positions[n] + 1 + ImpactDraws(results[n].outcome, results[n].ticket)
  }

  /** Every ticket drew its changes at the scale of the draw after its roll. */
  ghost predicate AllDrawn(seed: int, results: seq<TicketResult>, plans: seq<seq<Request>>, others: seq<MetricKey>,
                           positions: seq<nat>)
  {
    && |plans| == |others| == |positions| == |results|
    && forall j {:trigger plans[j]} :: 0 <= j < |results| ==>
         Drawn(results[j].outcome, results[j].ticket, plans[j], others[j], ScaleAt(seed, positions[j]))
  }

  /** The draws of the tickets, in stream order, with the scale of each ticket's changes. */
  ghost predicate Sequenced(seed: int, results: seq<TicketResult>, plans: seq<seq<Request>>, others: seq<MetricKey>,
                            positions: seq<nat>, drawn: nat)
  {
    Walk(results, positions, drawn) && AllDrawn(seed, results, plans, others, positions)
  }

  lemma WalkSnoc(results: seq<TicketResult>, positions: seq<nat>, drawn: nat, r: TicketResult, position: nat, drawn': nat)
    requires Walk(results, positions, drawn)
    requires position == drawn + 1 && drawn' == position + 1 + ImpactDraws(r.outcome, r.ticket)
    ensures Walk(results + [r], positions + [position], drawn')
  {
    Front(results, r);
    Front(positions, position);
  }

  lemma AllDrawnSnoc(seed: int, results: seq<TicketResult>, plans: seq<seq<Request>>, others: seq<MetricKey>,
                     positions: seq<nat>, r: TicketResult, plan: seq<Request>, other: MetricKey, position: nat)
    requires AllDrawn(seed, results, plans, others, positions)
    requires Drawn(r.outcome, r.ticket, plan, other, ScaleAt(seed, position))
    ensures AllDrawn(seed, results + [r], plans + [plan], others + [other], positions + [position])
  {
    forall j | 0 <= j < |results| + 1
      ensures Drawn((results + [r])[j].outcome, (results + [r])[j].ticket, (plans + [plan])[j], (others + [other])[j],
                    ScaleAt(seed, (positions + [position])[j]))
    {
      if j < |results| {
        Within(results, r, j);
        Within(plans, plan, j);
        Within(others, other, j);
        Within(positions, position, j);
      }
    }
  }

  lemma SequencedSnoc(seed: int, results: seq<TicketResult>, plans: seq<seq<Request>>, others: seq<MetricKey>,
                      positions: seq<nat>, drawn: nat, r: TicketResult, plan: seq<Request>, other: MetricKey,
                      position: nat, drawn': nat)
    requires Sequenced(seed, results, plans, others, positions, drawn)
    requires Drawn(r.outcome, r.ticket, plan, other, ScaleAt(seed, position))
    requires position == drawn + 1 && drawn' == position + 1 + ImpactDraws(r.outcome, r.ticket)
    ensures Sequenced(seed, results + [r], plans + [plan], others + [other], positions + [position], drawn')
  {
    WalkSnoc(results, positions, drawn, r, position, drawn');
    AllDrawnSnoc(seed, results, plans, others, positions, r, plan, other, position);
  }

  /** Read off the walk: ticket `j` rolled its outcome from draw
      `Draws(results[..j]) + 1`, and `drawn` is `Draws(results)`. */
  lemma {:induction false} WalkPositions(results: seq<TicketResult>, positions: seq<nat>, drawn: nat)
    requires Walk(results, positions, drawn)
    ensures drawn == Draws(results)
    ensures forall j :: 0 <= j < |results| ==> positions[j] == Draws(results[..j]) + 1
    decreases |results|
  {
    if results != [] {
      var n := |results| - 1;
      WalkPositions(results[..n], positions[..n], positions[n] - 1);
      forall j | 0 <= j < n
        ensures positions[j] == Draws(results[..j]) + 1
      {
        assert results[..n][..j] == results[..j];
        assert positions[..n][j] == positions[j];
      }
      assert results[..n + 1] == results;
    }
  }

  /** What holds after the loop has resolved the first `|results|` selected
      tickets, with `drawn` draws taken from the generator: the results are the
      entries of those tickets, the metrics are those the tickets' changes
      `plans` left, each ticket's changes are those of its outcome, the first
      roll is the stream's first draw, the deltas are the merge of the
      tickets' deltas and the flag says whether one of them failed. */
  ghost predicate Resolved(seed: int, metrics: Metrics, difficulty: Difficulty, overbooked: bool, selected: seq<Template>,
                           drawn: nat, updated: Metrics, results: seq<TicketResult>, deltas: map<MetricKey, int>,
                           hasFailure: bool, plans: seq<seq<Request>>, others: seq<MetricKey>, positions: seq<nat>)
  {
    && Entries(seed, metrics, difficulty, overbooked, selected, results, plans, positions)
    && (forall j :: 0 <= j < |results| ==> results[j].ticket == selected[j])
    && AllPlanned(results, plans, others)
    && Sequenced(seed, results, plans, others, positions, drawn)
    && Ascending(positions, drawn)
    && (if |positions| == 0 then drawn == 0 else positions[0] == 1)
    && drawn >= 2 * |results|
    && updated == Thread(metrics, plans)
    && deltas == Aggregate(ImpactsOf(results))
    && (hasFailure <==> AnyFailure(results))
  }

  /** One more ticket resolved keeps `Resolved`. */
  lemma ResolvedStep(seed: int, metrics: Metrics, difficulty: Difficulty, overbooked: bool, selected: seq<Template>,
                     drawn: nat, updated: Metrics, results: seq<TicketResult>, deltas: map<MetricKey, int>,
                     hasFailure: bool, plans: seq<seq<Request>>, others: seq<MetricKey>, positions: seq<nat>,
                     r: TicketResult, plan: seq<Request>, other: MetricKey, position: nat,
                     drawn': nat, updated': Metrics, deltas': map<MetricKey, int>, hasFailure': bool)
    requires Resolved(seed, metrics, difficulty, overbooked, selected, drawn, updated, results, deltas, hasFailure,
                      plans, others, positions)
    requires |results| < |selected|
    requires r == Entry(seed, metrics, difficulty, overbooked, selected[|results|], plans, plan, position)
    requires Planned(r.outcome, r.ticket, plan, other)
    requires Drawn(r.outcome, r.ticket, plan, other, ScaleAt(seed, position))
    requires position == drawn + 1 && drawn' == position + 1 + ImpactDraws(r.outcome, r.ticket)
    requires updated' == Thread(metrics, plans + [plan])
    requires deltas' == Merge(deltas, r.impacts)
    requires hasFailure' <==> hasFailure || IsFailure(r.outcome)
    ensures Resolved(seed, metrics, difficulty, overbooked, selected, drawn', updated', results + [r], deltas', hasFailure',
                     plans + [plan], others + [other], positions + [position])
  {
    EntriesStep(seed, metrics, difficulty, overbooked, selected, results, plans, positions, r, plan, position);
    AllPlannedSnoc(results, plans, others, r, plan, other);
    SequencedSnoc(seed, results, plans, others, positions, drawn, r, plan, other, position, drawn');
    ResultsSnoc(results, r);
    AscendingSnoc(positions, drawn, position, drawn');
    if |positions| == 0 {
      assert drawn == 0;
    } else {
      Within(positions, position, 0);
    }
    assert forall j :: 0 <= j < |results| ==> (results + [r])[j] == results[j];
  }

  /** One pass of the route's loop: the next selected ticket resolved, its
      record appended, its deltas merged and the failure flag updated. */
  method ResolveNext(rng: Rng, seed: int, metrics: Metrics, difficulty: Difficulty, selected: seq<Template>,
                     overbooked: bool, updated: Metrics, results: seq<TicketResult>, deltas: map<MetricKey, int>,
                     hasFailure: bool, ghost plans: seq<seq<Request>>, ghost others: seq<MetricKey>,
                     ghost positions: seq<nat>)
    returns (updated': Metrics, results': seq<TicketResult>, deltas': map<MetricKey, int>, hasFailure': bool,
             ghost plans': seq<seq<Request>>, ghost others': seq<MetricKey>, ghost positions': seq<nat>)
    requires rng.Valid() && rng.origin == ToInt32(seed) && |results| < |selected|
    requires Resolved(seed, metrics, difficulty, overbooked, selected, rng.drawn, updated, results, deltas, hasFailure,
                      plans, others, positions)
    modifies rng
    ensures rng.Valid() && rng.origin == old(rng.origin) && |results'| == |results| + 1
    ensures Resolved(seed, metrics, difficulty, overbooked, selected, rng.drawn, updated', results', deltas', hasFailure',
                     plans', others', positions')
  {
    var ticket := selected[|results|];
    ghost var before := rng.drawn;
    var outcome, next, ticketDeltas, plan, other, position :=
      ResolveTicket(rng, updated, ticket, overbooked, difficulty, seed, metrics, plans);
    var failed := hasFailure;
    if outcome == SoftFailure || outcome == Catastrophe {
      failed := true;
    }
    var merged := AddDeltas(deltas, ticketDeltas);
    var result := TicketResult(ticket, outcome, ticketDeltas);
    ResolvedStep(seed, metrics, difficulty, overbooked, selected, before, updated, results, deltas, hasFailure,
                 plans, others, positions, result, plan, other, position, rng.drawn, next, merged, failed);
    results', deltas', hasFailure' := results + [result], merged, failed;
    plans', others', positions' := plans + [plan], others + [other], positions + [position];
    updated' := next;
  }

  /** The loop of the route: a generator from the game's seed, then for every
      selected ticket a roll in the current metrics and the application of its
      outcome, threading metrics and generator from one ticket to the next.
      `plans[i]` are the changes ticket `i` made, `others[i]` the gauge its
      outcome drew and `positions[i]` the stream position of its outcome roll. */
  method ResolveSprint(seed: int, metrics: Metrics, difficulty: Difficulty, selected: seq<Template>, overbooked: bool)
    returns (updated: Metrics, results: seq<TicketResult>, deltas: map<MetricKey, int>, hasFailure: bool,
             rngState: int, ghost plans: seq<seq<Request>>, ghost others: seq<MetricKey>, ghost positions: seq<nat>,
             ghost drawn: nat)
    ensures |results| == |selected|
    ensures Resolved(seed, metrics, difficulty, overbooked, selected, drawn, updated, results, deltas, hasFailure,
                     plans, others, positions)
    ensures ToInt32(rngState) == AdvanceN(ToInt32(seed), drawn)
  {
    var rng := new Rng(seed);
    updated, results, deltas, hasFailure := metrics, [], map[], false;
    plans, others, positions := [], [], [];
    for i := 0 to |selected|
      invariant rng.Valid() && rng.origin == ToInt32(seed) && |results| == i
      invariant Resolved(seed, metrics, difficulty, overbooked, selected, rng.drawn, updated, results, deltas, hasFailure,
                         plans, others, positions)
    {
      updated, results, deltas, hasFailure, plans, others, positions :=
        ResolveNext(rng, seed, metrics, difficulty, selected, overbooked, updated, results, deltas, hasFailure,
                    plans, others, positions);
    }
    rngState := rng.State();
    drawn := rng.drawn;
  }

  // ---------------------------------------------------------------------------
  // Overbooking penalty

  /** The change to team sentiment the penalty records: -5 when overbooked,
      -10 when overbooked and some ticket failed. */
  function PenaltyDelta(overbooked: bool, hasFailure: bool): int {
    if !overbooked then 0 else if hasFailure then -10 else -5
  }

  /** Team sentiment after the penalty: one clamped -5, and a second one on failure. */
  function PenalizedTeam(team: int, overbooked: bool, hasFailure: bool): (n: int)
    ensures !overbooked ==> n == team
    ensures overbooked ==> 0 <= n <= 100
    ensures overbooked && 0 <= team ==> n <= team
  {
    if !overbooked then team
    else
      var once := ClampMetric(team - 5);
      if hasFailure then ClampMetric(once - 5) else once
  }

  /** On a gauge in range the two clamped steps are one step by the whole
      penalty, stopped at 0. */
  lemma PenaltyStopsAtZero(team: int, overbooked: bool, hasFailure: bool)
    requires 0 <= team <= 100
    ensures PenalizedTeam(team, overbooked, hasFailure)
         == (if team + PenaltyDelta(overbooked, hasFailure) < 0 then 0 else team + PenaltyDelta(overbooked, hasFailure))
  {
  }

  /** The penalty step of the route, mutating team sentiment and its delta. */
  method ApplyPenalty(m: Metrics, deltas: map<MetricKey, int>, overbooked: bool, hasFailure: bool)
    returns (m2: Metrics, d2: map<MetricKey, int>)
    ensures m2 == m.Set(TeamSentiment, PenalizedTeam(m.teamSentiment, overbooked, hasFailure))
    ensures DeltaOf(d2, TeamSentiment) == DeltaOf(deltas, TeamSentiment) + PenaltyDelta(overbooked, hasFailure)
    ensures overbooked ==> TeamSentiment in d2
    ensures !overbooked ==> d2 == deltas
    ensures forall k :: k != TeamSentiment ==> (k in d2 <==> k in deltas) && DeltaOf(d2, k) == DeltaOf(deltas, k)
  {
    m2, d2 := m, deltas;
    if overbooked {
      m2 := m2.(teamSentiment := ClampMetric(m2.teamSentiment - 5));
      d2 := d2[TeamSentiment := DeltaOf(d2, TeamSentiment) - 5];
      if hasFailure {
        m2 := m2.(teamSentiment := ClampMetric(m2.teamSentiment - 5));
        d2 := d2[TeamSentiment := DeltaOf(d2, TeamSentiment) - 5];
      }
    }
  }

  // ---------------------------------------------------------------------------
  // Retro figures and the sprint counter

  /** The outcome of every result, in order. */
  function OutcomesOf(rs: seq<TicketResult>): (os: seq<Outcome>)
    ensures |os| == |rs| && forall i :: 0 <= i < |rs| ==> os[i] == rs[i].outcome
    decreases |rs|
  {
    if rs == [] then [] else [rs[0].outcome] + OutcomesOf(rs[1..])
  }

  /** The tickets that landed: clear, partial or unexpected. */
  function CountSuccesses(rs: seq<TicketResult>): (n: nat)
    ensures n <= |rs|
    ensures n == multiset(OutcomesOf(rs))[ClearSuccess] + multiset(OutcomesOf(rs))[PartialSuccess]
                 + multiset(OutcomesOf(rs))[UnexpectedImpact]
    decreases |rs|
  {
    if rs == [] then 0 else (if IsSuccessLike(rs[0].outcome) then 1 else 0) + CountSuccesses(rs[1..])
  }

  /** The tickets that soft-failed or hit a catastrophe. */
  function CountFailures(rs: seq<TicketResult>): (n: nat)
    ensures n <= |rs|
    ensures n == multiset(OutcomesOf(rs))[SoftFailure] + multiset(OutcomesOf(rs))[Catastrophe]
    decreases |rs|
  {
    if rs == [] then 0 else (if IsFailure(rs[0].outcome) then 1 else 0) + CountFailures(rs[1..])
  }

  /** `total - successes` counts exactly the failed tickets. */
  lemma SuccessesAndFailures(rs: seq<TicketResult>)
    ensures CountSuccesses(rs) + CountFailures(rs) == |rs|
    ensures CountFailures(rs) > 0 <==> AnyFailure(rs)
  {
    EveryTicketCounted(rs);
    FailuresCounted(rs);
  }

  lemma {:induction false} EveryTicketCounted(rs: seq<TicketResult>)
    ensures CountSuccesses(rs) + CountFailures(rs) == |rs|
    decreases |rs|
  {
    if rs != [] {
      EveryTicketCounted(rs[1..]);
    }
  }

  lemma {:induction false} FailuresCounted(rs: seq<TicketResult>)
    ensures CountFailures(rs) > 0 <==> AnyFailure(rs)
    decreases |rs|
  {
    if rs != [] {
      FailuresCounted(rs[1..]);
      assert forall i :: 1 <= i < |rs| ==> rs[i] == rs[1..][i - 1];
      if AnyFailure(rs[1..]) {
        var i :| 0 <= i < |rs[1..]| && IsFailure(rs[1..][i].outcome);
        assert rs[i + 1] == rs[1..][i];
      }
    }
  }

  /** The sprint number after a commit: the next one, but never past the third. */
  function NextSprint(current: int): (n: int)
    ensures current < 3 ==> n == current + 1
    ensures current >= 3 ==> n == current
    ensures current <= 3 ==> n <= 3
  {
    if current < 3 then current + 1 else current
  }

  // ---------------------------------------------------------------------------
  // The commit

  /** The fields of the game row the resolution reads. */
  datatype Game = Game(metrics: Metrics, seed: int, difficulty: Difficulty, quarter: int, sprint: int)

  /** The retro of the sprint, without its narrative text. */
  datatype Retro = Retro(sprintNumber: int, outcomes: seq<TicketResult>, deltas: map<MetricKey, int>,
                         successes: nat, failures: int)

  /** What the commit writes back: new metrics, the retro, the unchanged quarter,
      the next sprint number and the generator state to resume from. */
  datatype Committed = Committed(metrics: Metrics, retro: Retro, quarter: int, sprint: int, rngState: int)

  datatype CommitError = NoValidTickets | OverCapacity

  datatype CommitResult = Ok(value: Committed) | Err(error: CommitError)

  /** Whether the selection's effort exceeds the sprint's capacity. */
  function Overbooked(game: Game, storedCapacity: Option<int>, backlog: seq<Template>, ticketIds: seq<string>): bool {
    TotalEffort(Selection(backlog, ticketIds)) > CapacityOf(storedCapacity, game.metrics)
  }

  /** The resolution part of `POST /api/sprint/commit`. */
  method CommitSprint(game: Game, storedCapacity: Option<int>, backlog: seq<Template>, ticketIds: seq<string>)
    returns (r: CommitResult, ghost plans: seq<seq<Request>>, ghost others: seq<MetricKey>, ghost positions: seq<nat>,
             ghost drawn: nat)
    ensures r == Err(NoValidTickets) <==> Selection(backlog, ticketIds) == []
    ensures r == Err(OverCapacity) <==>
      Selection(backlog, ticketIds) != []
      && TotalEffort(Selection(backlog, ticketIds)) > MaxCapacity(CapacityOf(storedCapacity, game.metrics))
    ensures r.Ok? ==> |r.value.retro.outcomes| == |Selection(backlog, ticketIds)|
    ensures r.Ok? ==> forall i :: 0 <= i < |r.value.retro.outcomes| ==>
      r.value.retro.outcomes[i].ticket == Selection(backlog, ticketIds)[i]
    ensures r.Ok? ==> r.value.retro.successes == CountSuccesses(r.value.retro.outcomes)
    ensures r.Ok? ==> r.value.retro.failures == CountFailures(r.value.retro.outcomes)
    ensures r.Ok? ==> r.value.retro.sprintNumber == game.sprint
    ensures r.Ok? ==> r.value.sprint == NextSprint(game.sprint) && r.value.quarter == game.quarter
    ensures r.Ok? ==> forall k :: k != TeamSentiment ==>
      DeltaOf(r.value.retro.deltas, k) == SumAt(ImpactsOf(r.value.retro.outcomes), k)
    ensures r.Ok? ==>
      DeltaOf(r.value.retro.deltas, TeamSentiment)
        == SumAt(ImpactsOf(r.value.retro.outcomes), TeamSentiment)
           + PenaltyDelta(TotalEffort(Selection(backlog, ticketIds)) > CapacityOf(storedCapacity, game.metrics),
                          AnyFailure(r.value.retro.outcomes))
    ensures r.Ok? && GaugesInRange(game.metrics) ==> GaugesInRange(r.value.metrics)
    // every outcome is the roll of its ticket at its stream position, in the
    // metrics the tickets before it left; `plans` are the changes made, each
    // those of its ticket's outcome
    ensures r.Ok? ==>
      Resolved(game.seed, game.metrics, game.difficulty, Overbooked(game, storedCapacity, backlog, ticketIds),
               Selection(backlog, ticketIds), drawn, Thread(game.metrics, plans), r.value.retro.outcomes,
               Aggregate(ImpactsOf(r.value.retro.outcomes)), AnyFailure(r.value.retro.outcomes), plans, others, positions)
    // the new metrics are those changes, then the overbooking penalty
    ensures r.Ok? ==>
      r.value.metrics
        == Thread(game.metrics, plans).Set(TeamSentiment,
             PenalizedTeam(Thread(game.metrics, plans).teamSentiment, Overbooked(game, storedCapacity, backlog, ticketIds),
                           AnyFailure(r.value.retro.outcomes)))
    // the generator state is the seed's stream advanced past every draw of the loop
    ensures r.Ok? ==> ToInt32(r.value.rngState) == AdvanceN(ToInt32(game.seed), drawn)
  {
    plans, others, positions, drawn := [], [], [], 0;
    var backlogMap := BacklogMap(backlog);
    var selected := SelectTickets(backlogMap, ticketIds);
    if |selected| == 0 {
      r := Err(NoValidTickets);
      return;
    }
    var totalEffort := TotalEffort(selected);
    var capacity := CapacityOf(storedCapacity, game.metrics);
    if totalEffort > MaxCapacity(capacity) {
      r := Err(OverCapacity);
      return;
    }
    var overbooked := totalEffort > capacity;

    var updated, results, deltas, hasFailure, rngState;
    updated, results, deltas, hasFailure, rngState, plans, others, positions, drawn :=
      ResolveSprint(game.seed, game.metrics, game.difficulty, selected, overbooked);
    var penalized, finalDeltas := ApplyPenalty(updated, deltas, overbooked, hasFailure);

    var total := |results|;
    var successes := CountSuccesses(results);
    SuccessesAndFailures(results);
    var retro := Retro(game.sprint, results, finalDeltas, successes, total - successes);
    r := Ok(Committed(penalized, retro, game.quarter, NextSprint(game.sprint), rngState));

    DeltasAreSums(results, deltas);
    if GaugesInRange(game.metrics) {
      PenaltyKeepsGauges(game.metrics, plans, overbooked, hasFailure);
    }
  }

  /** The aggregated deltas are, metric by metric, the sums of the tickets' deltas. */
  lemma DeltasAreSums(results: seq<TicketResult>, deltas: map<MetricKey, int>)
    requires deltas == Aggregate(ImpactsOf(results))
    ensures forall k :: DeltaOf(deltas, k) == SumAt(ImpactsOf(results), k)
  {
    forall k
      ensures DeltaOf(deltas, k) == SumAt(ImpactsOf(results), k)
    {
      AggregateSums(ImpactsOf(results), k);
    }
  }

  /** The tickets' changes and then the penalty keep every gauge in [0, 100]. */
  lemma PenaltyKeepsGauges(m: Metrics, plans: seq<seq<Request>>, overbooked: bool, hasFailure: bool)
    requires GaugesInRange(m)
    ensures GaugesInRange(Thread(m, plans).Set(TeamSentiment,
              PenalizedTeam(Thread(m, plans).teamSentiment, overbooked, hasFailure)))
  {
    var u := Thread(m, plans);
    ThreadKeepsGauges(m, plans);
    GaugeFields(u);
    GaugeFields(u.Set(TeamSentiment, PenalizedTeam(u.teamSentiment, overbooked, hasFailure)));
  }
}
