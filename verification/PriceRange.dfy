/** Conditional API price estimates
    (benchmarks/python-realworld-30/benchlib.py): a cost that is known, an
    interval when cache writes cannot be told from ordinary input, or neither.
    Quantities and rates are real numbers; None is anything that is not a
    number. */
module PriceRange {

  datatype Option<+T> = None | Some(value: T)

  datatype Key = Input | Output | CacheRead | CacheWrite

  /** A quantity or a rate for each kind of token. */
  datatype Four = Four(input: Option<real>, output: Option<real>, cacheRead: Option<real>, cacheWrite: Option<real>)

  function At(f: Four, k: Key): Option<real> {
    match k case Input => f.input case Output => f.output case CacheRead => f.cacheRead case CacheWrite => f.cacheWrite
  }

  predicate IsPrice(v: Option<real>) { v.Some? && v.value >= 0.0 }

  const NO_RATES := Four(None, None, None, None)
  const MILLION := 1000000.0

  datatype LongRule = LongRule(above: real, input: real, output: real, cacheRead: real, cacheWrite: real)

  datatype Profile = Profile(id: nat, basis: nat, provider: string, api: string, model: string,
                             dollarsPerMillion: bool, rates: Four, long: Option<LongRule>)

  datatype Identity = Identity(provider: Option<string>, api: Option<string>, model: Option<string>)

  datatype Usage = Usage(parts: Four, inputTotal: Option<real>)

  datatype Range = Range(lower: real, upper: real)

  /** Only estimates with one key are added up. */
  datatype GroupKey = GroupKey(profile: Option<nat>, basis: Option<nat>, stock: bool)

  datatype Estimate = Estimate(key: GroupKey, total: Option<real>, interval: Option<Range>)

  const STOCK_API := "openai-codex-responses"

  // ---- the pieces -------------------------------------------------------------------------------

  predicate Matches(p: Profile, identity: Identity) {
    identity.provider == Some(p.provider) && identity.api == Some(p.api) && identity.model == Some(p.model)
  }

  function Matching(profiles: seq<Profile>, identity: Identity): seq<Profile> {
    if profiles == [] then []
    else
      var before := Matching(profiles[..|profiles| - 1], identity);
      if Matches(profiles[|profiles| - 1], identity) then before + [profiles[|profiles| - 1]] else before
  }

  /** A sum of observations that are all there; of none it is absent. */
  function SumKnown(values: seq<Option<real>>): Option<real> {
    if values != [] && forall i :: 0 <= i < |values| ==> values[i].Some? then Some(Total(values)) else None
  }

  function Total(values: seq<Option<real>>): real
    requires forall i :: 0 <= i < |values| ==> values[i].Some?
  {
    if values == [] then 0.0 else Total(values[..|values| - 1]) + values[|values| - 1].value
  }

  function Scaled(rate: Option<real>, multiplier: real): Option<real> {
    if IsPrice(rate) then Some(rate.value * multiplier) else None
  }

  function Rates(p: Profile, gross: Option<real>): Four {
    if p.long.None? then p.rates
    else if !IsPrice(gross) then NO_RATES
    else if gross.value > p.long.value.above then
      var l := p.long.value;
      Four(Scaled(p.rates.input, l.input), Scaled(p.rates.output, l.output), Scaled(p.rates.cacheRead, l.cacheRead),
           Scaled(p.rates.cacheWrite, l.cacheWrite))
    else p.rates
  }

  /** A zero rate needs no quantity. */
  function CostOf(rate: Option<real>, quantity: Option<real>): Option<real> {
    if !IsPrice(rate) then None
    else if rate.value == 0.0 then Some(0.0)
    else if IsPrice(quantity) then Some(quantity.value * rate.value / MILLION)
    else None
  }

  predicate StockEvidence(u: Usage) {
    && IsPrice(u.parts.input) && IsPrice(u.parts.cacheRead) && IsPrice(u.parts.output)
    && (u.parts.input.value != 0.0 || u.parts.cacheRead.value != 0.0 || u.parts.output.value != 0.0)
  }

  function Gross(u: Usage, stockInput: bool): Option<real> {
    if !stockInput then u.inputTotal
    else if IsPrice(u.parts.input) && IsPrice(u.parts.cacheRead) then Some(u.parts.input.value + u.parts.cacheRead.value)
    else None
  }

  function MinReal(a: real, b: real): real { if a < b then a else b }
  function MaxReal(a: real, b: real): real { if a > b then a else b }

  /** The four costs, and the interval of a combined input. */
  function Priced(rates: Four, u: Usage, combined: bool, complete: bool): (Option<real>, Option<Range>) {
    var output, cacheRead := CostOf(rates.output, u.parts.output), CostOf(rates.cacheRead, u.parts.cacheRead);
    if combined then
      var remainder := SumKnown([cacheRead, output]);
      (None,
       if complete && IsPrice(u.parts.input) && IsPrice(rates.input) && IsPrice(rates.cacheWrite) && remainder.Some? then
         Some(Range(u.parts.input.value * MinReal(rates.input.value, rates.cacheWrite.value) / MILLION + remainder.value,
                    u.parts.input.value * MaxReal(rates.input.value, rates.cacheWrite.value) / MILLION + remainder.value))
       else None)
    else
      var costs := [CostOf(rates.input, u.parts.input), output, cacheRead, CostOf(rates.cacheWrite, u.parts.cacheWrite)];
      (if complete then SumKnown(costs) else None, None)
  }

  datatype Setting = Setting(stock: bool, complete: bool, unknownWrites: bool)

  function IsCombined(identity: Identity, s: Setting): bool {
    (s.stock && identity.api == Some(STOCK_API)) || s.unknownWrites
  }

  function ProfileOf(profiles: seq<Profile>, identity: Identity): Option<Profile> {
    var matches := Matching(profiles, identity);
    if |matches| == 1 then Some(matches[0]) else None
  }

  /** The rates one observation is priced with. */
  function RatesFor(p: Profile, identity: Identity, u: Usage, s: Setting): Four {
    Rates(p, Gross(u, s.stock && identity.api == Some(STOCK_API)))
  }

  function ProfileEstimate(identity: Identity, u: Usage, profiles: seq<Profile>, s: Setting): Estimate {
    match ProfileOf(profiles, identity)
    case None => Estimate(GroupKey(None, None, s.stock), None, None)
    case Some(p) =>
      var key := GroupKey(Some(p.id), Some(p.basis), s.stock);
      if !p.dollarsPerMillion || (s.stock && !StockEvidence(u)) then Estimate(key, None, None)
      else
        var (total, interval) := Priced(RatesFor(p, identity, u, s), u, IsCombined(identity, s), s.complete);
        Estimate(key, total, interval)
  }

  // ---- what was really used ------------------------------------------------------------------------

  /** The tokens of one observation as they really were. */
  datatype Actual = Actual(ordinary: real, write: real, output: real, cacheRead: real)

  /** `quantity` was observed as `seen`, if it was observed at all. */
  predicate Observed(seen: Option<real>, quantity: real) { quantity >= 0.0 && (IsPrice(seen) ==> seen.value == quantity) }

  /** What the observation says about the tokens: when writes are unknown, ordinary
      input and writes together are the observed input. */
  predicate Consistent(u: Usage, combined: bool, a: Actual) {
    && Observed(u.parts.output, a.output) && Observed(u.parts.cacheRead, a.cacheRead)
    && a.ordinary >= 0.0 && a.write >= 0.0
    && (if combined then Observed(u.parts.input, a.ordinary + a.write)
        else Observed(u.parts.input, a.ordinary) && Observed(u.parts.cacheWrite, a.write))
  }

  predicate AllRates(r: Four) { IsPrice(r.input) && IsPrice(r.output) && IsPrice(r.cacheRead) && IsPrice(r.cacheWrite) }

  function RealCost(r: Four, a: Actual): real
    requires AllRates(r)
  {
    a.ordinary * r.input.value / MILLION + a.write * r.cacheWrite.value / MILLION
    + a.output * r.output.value / MILLION + a.cacheRead * r.cacheRead.value / MILLION
  }

  // ---- the bounds are true ------------------------------------------------------------------------------

  /** A cost that is known is the real one. */
  lemma {:induction false} CostIsReal(rate: Option<real>, seen: Option<real>, quantity: real)
    requires CostOf(rate, seen).Some? && Observed(seen, quantity)
    ensures IsPrice(rate) && CostOf(rate, seen).value == quantity * rate.value / MILLION
  {
    if rate.value == 0.0 { assert quantity * 0.0 == 0.0; }
  }

  lemma {:induction false} Times(a: real, x: real, y: real)
    requires a >= 0.0 && x <= y
    ensures a * x <= a * y
  {}

  /** Any split of the input between the two rates costs between all of it at the
      lower and all of it at the higher. */
  lemma {:induction false} SplitBetween(a: real, b: real, x: real, y: real)
    requires a >= 0.0 && b >= 0.0
    ensures (a + b) * MinReal(x, y) <= a * x + b * y <= (a + b) * MaxReal(x, y)
  {
    Times(a, MinReal(x, y), x);
    Times(b, MinReal(x, y), y);
    Times(a, x, MaxReal(x, y));
    Times(b, y, MaxReal(x, y));
    assert (a + b) * MinReal(x, y) == a * MinReal(x, y) + b * MinReal(x, y);
    assert (a + b) * MaxReal(x, y) == a * MaxReal(x, y) + b * MaxReal(x, y);
  }

  lemma {:induction false} TwoKnown(a: Option<real>, b: Option<real>)
    ensures SumKnown([a, b]).Some? <==> a.Some? && b.Some?
    ensures a.Some? && b.Some? ==> SumKnown([a, b]) == Some(a.value + b.value)
  {
    var both := [a, b];
    assert both[..1] == [a] && both[..1][..0] == [];
    if a.Some? && b.Some? {
      assert Total([a]) == Total([]) + a.value;
      assert Total(both) == Total([a]) + b.value;
    }
    assert both[0] == a && both[1] == b;
  }

  lemma {:induction false} FourKnown(a: Option<real>, b: Option<real>, c: Option<real>, d: Option<real>)
    ensures SumKnown([a, b, c, d]).Some? <==> a.Some? && b.Some? && c.Some? && d.Some?
    ensures a.Some? && b.Some? && c.Some? && d.Some? ==>
              SumKnown([a, b, c, d]) == Some(a.value + b.value + c.value + d.value)
  {
    var all := [a, b, c, d];
    assert all[0] == a && all[1] == b && all[2] == c && all[3] == d;
    if a.Some? && b.Some? && c.Some? && d.Some? {
      assert all[..3] == [a, b, c] && [a, b, c][..2] == [a, b];
      TwoKnown(a, b);
      assert Total([a, b]) == a.value + b.value;
      assert Total([a, b, c]) == Total([a, b]) + c.value;
      assert Total(all) == Total([a, b, c]) + d.value;
    }
  }

  /** For every split of the input that the observation allows, the real cost lies
      within the interval; a known total is the real cost; there are never both. */
  lemma {:induction false} PricedIsTrue(rates: Four, u: Usage, combined: bool, complete: bool, a: Actual)
    requires Consistent(u, combined, a)
    ensures PricesTruly(Priced(rates, u, combined, complete), rates, a)
  {
    hide Priced, PricesTruly;
    if combined { CombinedIsTrue(rates, u, complete, a); } else { SeparateIsTrue(rates, u, complete, a); }
  }

  /** A total and an interval that tell the truth about what was really used. */
  predicate PricesTruly(priced: (Option<real>, Option<Range>), rates: Four, a: Actual) {
    && (priced.0.None? || priced.1.None?)
    && (priced.0.Some? || priced.1.Some? ==> AllRates(rates))
    && (priced.0.Some? ==> RealCost(rates, a) == priced.0.value)
    && (priced.1.Some? ==> priced.1.value.lower <= RealCost(rates, a) <= priced.1.value.upper)
  }

  lemma {:induction false} CombinedIsTrue(rates: Four, u: Usage, complete: bool, a: Actual)
    requires Consistent(u, true, a)
    ensures PricesTruly(Priced(rates, u, true, complete), rates, a)
  {
    hide CostOf, SumKnown, RealCost, MinReal, MaxReal;
    var output, cacheRead := CostOf(rates.output, u.parts.output), CostOf(rates.cacheRead, u.parts.cacheRead);
    TwoKnown(cacheRead, output);
    if Priced(rates, u, true, complete).1.Some? {
      CostIsReal(rates.output, u.parts.output, a.output);
      CostIsReal(rates.cacheRead, u.parts.cacheRead, a.cacheRead);
      IntervalIsTrue(rates, u, a, cacheRead.value, output.value);
    }
  }

  lemma {:induction false} SeparateIsTrue(rates: Four, u: Usage, complete: bool, a: Actual)
    requires Consistent(u, false, a)
    ensures PricesTruly(Priced(rates, u, false, complete), rates, a)
  {
    hide CostOf, SumKnown, RealCost;
    FourKnown(CostOf(rates.input, u.parts.input), CostOf(rates.output, u.parts.output),
              CostOf(rates.cacheRead, u.parts.cacheRead), CostOf(rates.cacheWrite, u.parts.cacheWrite));
    if Priced(rates, u, false, complete).0.Some? {
      CostIsReal(rates.output, u.parts.output, a.output);
      CostIsReal(rates.cacheRead, u.parts.cacheRead, a.cacheRead);
      CostIsReal(rates.input, u.parts.input, a.ordinary);
      CostIsReal(rates.cacheWrite, u.parts.cacheWrite, a.write);
      KnownIsTrue(rates, a);
    }
  }

  lemma {:induction false} KnownIsTrue(rates: Four, a: Actual)
    requires AllRates(rates)
    ensures RealCost(rates, a)
            == a.ordinary * rates.input.value / MILLION + a.output * rates.output.value / MILLION
               + a.cacheRead * rates.cacheRead.value / MILLION + a.write * rates.cacheWrite.value / MILLION
  {}

  lemma {:induction false} IntervalIsTrue(rates: Four, u: Usage, a: Actual, cacheRead: real, output: real)
    requires AllRates(rates) && IsPrice(u.parts.input) && a.ordinary >= 0.0 && a.write >= 0.0
    requires u.parts.input.value == a.ordinary + a.write
    requires cacheRead == a.cacheRead * rates.cacheRead.value / MILLION && output == a.output * rates.output.value / MILLION
    ensures var low := u.parts.input.value * MinReal(rates.input.value, rates.cacheWrite.value) / MILLION;
            var high := u.parts.input.value * MaxReal(rates.input.value, rates.cacheWrite.value) / MILLION;
            low + (cacheRead + output) <= RealCost(rates, a) <= high + (cacheRead + output)
  {
    SplitBetween(a.ordinary, a.write, rates.input.value, rates.cacheWrite.value);
    var mixed := a.ordinary * rates.input.value + a.write * rates.cacheWrite.value;
    assert mixed / MILLION == a.ordinary * rates.input.value / MILLION + a.write * rates.cacheWrite.value / MILLION;
  }

  /** The interval is no wider than it must be: all ordinary input and all writes
      are splits the observation allows, and one costs each end. */
  lemma {:induction false} BoundsAreReached(rates: Four, u: Usage, a: Actual)
    requires Consistent(u, true, a) && Priced(rates, u, true, true).1.Some?
    ensures AllRates(rates) && IsPrice(u.parts.input)
    ensures var range := Priced(rates, u, true, true).1.value;
            var q := u.parts.input.value;
            var plain, written := a.(ordinary := q, write := 0.0), a.(ordinary := 0.0, write := q);
            && Consistent(u, true, plain) && Consistent(u, true, written)
            && (if rates.input.value < rates.cacheWrite.value
                then RealCost(rates, plain) == range.lower && RealCost(rates, written) == range.upper
                else RealCost(rates, plain) == range.upper && RealCost(rates, written) == range.lower)
  {
    hide SumKnown, RealCost, CostOf;
    var output, cacheRead := CostOf(rates.output, u.parts.output), CostOf(rates.cacheRead, u.parts.cacheRead);
    TwoKnown(cacheRead, output);
    CostIsReal(rates.output, u.parts.output, a.output);
    CostIsReal(rates.cacheRead, u.parts.cacheRead, a.cacheRead);
    OneSided(rates, a, u.parts.input.value);
  }

  lemma {:induction false} OneSided(rates: Four, a: Actual, q: real)
    requires AllRates(rates)
    ensures var rest := a.cacheRead * rates.cacheRead.value / MILLION + a.output * rates.output.value / MILLION;
            && RealCost(rates, a.(ordinary := q, write := 0.0)) == q * rates.input.value / MILLION + rest
            && RealCost(rates, a.(ordinary := 0.0, write := q)) == q * rates.cacheWrite.value / MILLION + rest
  {
    assert 0.0 * rates.input.value == 0.0 && 0.0 * rates.cacheWrite.value == 0.0;
  }

  /** The same for the estimate of an observation, priced by the one profile that
      matches it. */
  lemma {:induction false} EstimateIsTrue(identity: Identity, u: Usage, profiles: seq<Profile>, s: Setting, a: Actual)
    requires Consistent(u, IsCombined(identity, s), a)
    ensures var e := ProfileEstimate(identity, u, profiles, s);
            && (e.total.None? || e.interval.None?)
            && (e.total.Some? || e.interval.Some? ==>
                  && ProfileOf(profiles, identity).Some?
                  && var rates := RatesFor(ProfileOf(profiles, identity).value, identity, u, s);
                     && AllRates(rates)
                     && (e.total.Some? ==> RealCost(rates, a) == e.total.value)
                     && (e.interval.Some? ==> e.interval.value.lower <= RealCost(rates, a) <= e.interval.value.upper))
  {
    hide Priced, RealCost, RatesFor, AllRates, Consistent;
    if ProfileOf(profiles, identity).Some? {
      PricedIsTrue(RatesFor(ProfileOf(profiles, identity).value, identity, u, s), u, IsCombined(identity, s), s.complete, a);
    }
  }

  // ---- groups ----------------------------------------------------------------------------------------------

  datatype Group = Group(observations: nat, unpriced: nat, subtotal: Option<real>, interval: Option<Range>)

  const EMPTY := Group(0, 0, None, None)

  function Added(g: Group, e: Estimate): Group {
    Group(g.observations + 1,
          g.unpriced + (if e.total.None? && e.interval.None? then 1 else 0),
          if e.total.None? then g.subtotal else Some((if g.subtotal.Some? then g.subtotal.value else 0.0) + e.total.value),
          if e.interval.None? then g.interval
          else
            var base := if g.interval.Some? then g.interval.value else Range(0.0, 0.0);
            Some(Range(base.lower + e.interval.value.lower, base.upper + e.interval.value.upper)))
  }

  /** What the estimates of one key add up to. */
  function GroupOf(items: seq<Estimate>, key: GroupKey): Group {
    if items == [] then EMPTY
    else
      var before := GroupOf(items[..|items| - 1], key);
      if items[|items| - 1].key == key then Added(before, items[|items| - 1]) else before
  }

  /** One pass over the items; a group per key that occurs. */
  method AggregateEstimates(items: seq<Estimate>) returns (groups: map<GroupKey, Group>)
    ensures forall key :: key in groups <==> exists i :: 0 <= i < |items| && items[i].key == key
    ensures forall key :: key in groups ==> groups[key] == GroupOf(items, key)
  {
    groups := map[];
    for k := 0 to |items|
      invariant forall key :: key in groups <==> exists i :: 0 <= i < k && items[i].key == key
      invariant forall key :: key in groups ==> groups[key] == GroupOf(items[..k], key)
    {
      var item := items[k];
      assert items[..k + 1][..k] == items[..k];
      if item.key !in groups {
        AbsentIsEmpty(items[..k], item.key);
        groups := groups[item.key := EMPTY];
      }
      groups := groups[item.key := Added(groups[item.key], item)];
    }
    assert items[..|items|] == items;
  }

  lemma {:induction false} AbsentIsEmpty(items: seq<Estimate>, key: GroupKey)
    requires forall i :: 0 <= i < |items| ==> items[i].key != key
    ensures GroupOf(items, key) == EMPTY
    decreases |items|
  {
    if items != [] { AbsentIsEmpty(items[..|items| - 1], key); }
  }

  predicate IsPriced(e: Estimate) { e.total.Some? || e.interval.Some? }

  /** What the priced observations of a key really cost, given what each cost. */
  function RealTotal(items: seq<Estimate>, costs: seq<real>, key: GroupKey): real
    requires |items| == |costs|
  {
    if items == [] then 0.0
    else
      var n := |items| - 1;
      RealTotal(items[..n], costs[..n], key) + (if items[n].key == key && IsPriced(items[n]) then costs[n] else 0.0)
  }

  /** Each cost is what its estimate says. */
  predicate Faithful(e: Estimate, cost: real) {
    && (e.total.None? || e.interval.None?)
    && (e.total.Some? ==> cost == e.total.value)
    && (e.interval.Some? ==> e.interval.value.lower <= cost <= e.interval.value.upper)
  }

  /** A group's known subtotal and summed range bound what its priced observations
      really cost, and its counts say how many they are. */
  lemma {:induction false} GroupBoundsRealCost(items: seq<Estimate>, costs: seq<real>, key: GroupKey)
    requires |items| == |costs| && forall i :: 0 <= i < |items| ==> Faithful(items[i], costs[i])
    ensures var g := GroupOf(items, key);
            var subtotal := if g.subtotal.Some? then g.subtotal.value else 0.0;
            var range := if g.interval.Some? then g.interval.value else Range(0.0, 0.0);
            && subtotal + range.lower <= RealTotal(items, costs, key) <= subtotal + range.upper
            && g.unpriced <= g.observations
            && (g.unpriced == g.observations <==> g.subtotal.None? && g.interval.None?)
    decreases |items|
  {
    if items != [] {
      var n := |items| - 1;
      GroupBoundsRealCost(items[..n], costs[..n], key);
    }
  }

  // ---- observations, estimated and grouped -------------------------------------------------------------

  /** One observation, and how its tokens really were. */
  datatype Observation = Observation(identity: Identity, usage: Usage, setting: Setting, actual: Actual)

  function EstimateOf(o: Observation, profiles: seq<Profile>): Estimate {
    ProfileEstimate(o.identity, o.usage, profiles, o.setting)
  }

  function Estimates(os: seq<Observation>, profiles: seq<Profile>): seq<Estimate> {
    seq(|os|, i requires 0 <= i < |os| => EstimateOf(os[i], profiles))
  }

  predicate Possible(o: Observation) { Consistent(o.usage, IsCombined(o.identity, o.setting), o.actual) }

  /** What the tokens cost at the rates of the profile that matches; nothing where
      none does, or not all its rates are known. */
  function CostAtRates(o: Observation, profiles: seq<Profile>): real {
    match ProfileOf(profiles, o.identity)
    case None => 0.0
    case Some(p) =>
      var rates := RatesFor(p, o.identity, o.usage, o.setting);
      if AllRates(rates) then RealCost(rates, o.actual) else 0.0
  }

  /** The real cost of the priced observations of a key. */
  function RealSum(os: seq<Observation>, profiles: seq<Profile>, key: GroupKey): real {
    if os == [] then 0.0
    else
      var n := |os| - 1;
      var e := EstimateOf(os[n], profiles);
      RealSum(os[..n], profiles, key) + (if e.key == key && IsPriced(e) then CostAtRates(os[n], profiles) else 0.0)
  }

  function CostsAtRates(os: seq<Observation>, profiles: seq<Profile>): seq<real> {
    seq(|os|, i requires 0 <= i < |os| => CostAtRates(os[i], profiles))
  }

  /** A priced observation is faithful to its own real cost. */
  lemma {:induction false} EstimateIsFaithful(o: Observation, profiles: seq<Profile>)
    requires Possible(o)
    ensures Faithful(EstimateOf(o, profiles), CostAtRates(o, profiles))
  {
    hide ProfileEstimate, ProfileOf, RatesFor, AllRates, RealCost, Consistent;
    EstimateIsTrue(o.identity, o.usage, profiles, o.setting, o.actual);
  }

  lemma {:induction false} SumIsTotal(os: seq<Observation>, profiles: seq<Profile>, key: GroupKey)
    ensures RealSum(os, profiles, key) == RealTotal(Estimates(os, profiles), CostsAtRates(os, profiles), key)
    decreases |os|
  {
    hide CostAtRates, EstimateOf;
    if os != [] {
      var n := |os| - 1;
      SumIsTotal(os[..n], profiles, key);
      assert Estimates(os, profiles)[..n] == Estimates(os[..n], profiles);
      assert CostsAtRates(os, profiles)[..n] == CostsAtRates(os[..n], profiles);
    }
  }

  /** For any observations and any split of each that it allows: each group's known
      subtotal plus its summed range bounds what its priced observations really
      cost at their rates. */
  lemma {:induction false} ObservationsAreBounded(os: seq<Observation>, profiles: seq<Profile>, key: GroupKey)
    requires forall i :: 0 <= i < |os| ==> Possible(os[i])
    ensures var g := GroupOf(Estimates(os, profiles), key);
            var subtotal := if g.subtotal.Some? then g.subtotal.value else 0.0;
            var range := if g.interval.Some? then g.interval.value else Range(0.0, 0.0);
            subtotal + range.lower <= RealSum(os, profiles, key) <= subtotal + range.upper
  {
    hide EstimateOf, CostAtRates, Possible, GroupOf, RealTotal, RealSum, Faithful;
    var items, costs := Estimates(os, profiles), CostsAtRates(os, profiles);
    forall i | 0 <= i < |os|
      ensures Faithful(items[i], costs[i])
    {
      EstimateIsFaithful(os[i], profiles);
    }
    SumIsTotal(os, profiles, key);
    GroupBoundsRealCost(items, costs, key);
  }
}
