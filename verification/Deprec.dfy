/** Double-declining-balance depreciation, over the reals. */
module Deprec {
  import opened Optional

  const DEFAULT_RATE := 0.40

  function Rate(rate: real): (r: real)
    ensures 0.0 < r <= 1.0
  {
    if rate <= 0.0 then DEFAULT_RATE else if rate > 1.0 then 1.0 else rate
  }

  /** The value never goes below the salvage value, nor that below zero or above the cost. */
  function SalvageFloor(salvage: real, cost: real): real {
    var floor := if salvage < 0.0 then 0.0 else salvage;
    if floor > cost then cost else floor
  }

  function Max(a: real, b: real): real { if a < b then b else a }

  function Times(a: real, b: real): real { a * b }

  function Pow(q: real, n: nat): real { if n == 0 then 1.0 else Times(Pow(q, n - 1), q) }

  /** The cost declined so many times. */
  function Raw(cost: real, q: real, y: nat): real { Times(cost, Pow(q, y)) }

  /** The closed form: the cost declined so many times, no lower than the floor; the floor at the end of its life. */
  function Declined(cost: real, salvage: real, life: nat, rate: real, y: nat): real {
    if y == life then SalvageFloor(salvage, cost) else Max(SalvageFloor(salvage, cost), Raw(cost, 1.0 - Rate(rate), y))
  }

  // ---- the loop

  lemma Scale(a: real, b: real, q: real)
    requires a <= b && 0.0 <= q
    ensures Times(a, q) <= Times(b, q)
  {
  }

  lemma Shrink(a: real, q: real)
    requires 0.0 <= q <= 1.0
    ensures 0.0 <= a ==> 0.0 <= Times(a, q) <= a
    ensures a <= 0.0 ==> a <= Times(a, q) <= 0.0
  {
    var b := if a >= 0.0 then a else -a;
    Scale(q, 1.0, b);
    Scale(0.0, q, b);
  }

  lemma RawStarts(cost: real, q: real)
    ensures Raw(cost, q, 0) == cost
  {
  }

  lemma RawNext(cost: real, q: real, y: nat)
    ensures Raw(cost, q, y + 1) == Times(Raw(cost, q, y), q)
  {
    assert Pow(q, y + 1) == Times(Pow(q, y), q);
    Associates(cost, Pow(q, y), q);
  }

  lemma Associates(a: real, b: real, c: real)
    ensures Times(a, Times(b, c)) == Times(Times(a, b), c)
  {
  }

  /** Where a declined cost can lie: not above zero when the cost is negative. */
  predicate Plausible(cost: real, floor: real, x: real) {
    if cost >= 0.0 then 0.0 <= floor <= cost && 0.0 <= x <= cost else floor == cost <= x <= 0.0
  }

  /** Clamping at every step comes to clamping once. */
  lemma ClampOnce(cost: real, floor: real, x: real, q: real)
    requires 0.0 <= q <= 1.0 && Plausible(cost, floor, x)
    ensures Max(floor, Times(Max(floor, x), q)) == Max(floor, Times(x, q)) && Plausible(cost, floor, Times(x, q))
  {
    Shrink(floor, q);
    Shrink(x, q);
    if x < floor { Scale(x, floor, q); }
    hide Times;
  }

  lemma {:induction false} DeclinesPlausibly(cost: real, salvage: real, q: real, y: nat)
    requires 0.0 <= q <= 1.0
    ensures Plausible(cost, SalvageFloor(salvage, cost), Raw(cost, q, y))
  {
    RawStarts(cost, q);
    hide Raw, Times;
    if y > 0 {
      DeclinesPlausibly(cost, salvage, q, y - 1);
      ClampOnce(cost, SalvageFloor(salvage, cost), Raw(cost, q, y - 1), q);
      RawNext(cost, q, y - 1);
    }
  }

  /** One year further in the closed form. */
  lemma NextYear(cost: real, salvage: real, q: real, y: nat)
    requires 0.0 <= q <= 1.0
    ensures var floor := SalvageFloor(salvage, cost);
      Max(floor, Times(Max(floor, Raw(cost, q, y)), q)) == Max(floor, Raw(cost, q, y + 1))
  {
    hide Raw, Times;
    DeclinesPlausibly(cost, salvage, q, y);
    ClampOnce(cost, SalvageFloor(salvage, cost), Raw(cost, q, y), q);
    RawNext(cost, q, y);
  }

  /** The book values at the end of each year of its life; none for a life that is not positive. */
  method AnnualSchedule(cost: real, salvage: real, life: int, rate: real) returns (out: array?<real>)
    ensures life <= 0 ==> out == null
    ensures life > 0 ==> out != null && fresh(out) && out.Length == life + 1
    ensures life > 0 ==> forall y | 0 <= y <= life :: out[y] == Declined(cost, salvage, life, rate, y)
  {
    if life <= 0 {
      return null;
    }
    var r := rate;
    if r <= 0.0 {
      r := DEFAULT_RATE;
    }
    if r > 1.0 {
      r := 1.0;
    }
    var floor := SalvageFloor(salvage, cost);
    out := new real[life + 1];
    out[0] := cost;
    var v := cost;
    RawStarts(cost, 1.0 - r);
    hide Raw, Pow;
    for y := 1 to life + 1
      invariant v == Max(floor, Raw(cost, 1.0 - r, y - 1))
      invariant forall i | 0 <= i < y :: out[i] == Max(floor, Raw(cost, 1.0 - r, i))
    {
      NextYear(cost, salvage, 1.0 - r, y - 1);
      v := Times(v, 1.0 - r);
      if v < floor {
        v := floor;
      }
      out[y] := v;
    }
    out[life] := floor;
  }

  // ---- what the schedule promises

  /** For a cost that is not negative the schedule never rises and stays between the floor and
      the cost; for a negative one that fails, unless its life is a single year. */
  lemma NeverRisesExactly(cost: real, salvage: real, life: nat, rate: real)
    requires life > 0
    ensures (forall y: nat | y < life :: Declined(cost, salvage, life, rate, y + 1) <= Declined(cost, salvage, life,
        rate, y)) <==> (cost >= 0.0 || life == 1)
  {
    if cost >= 0.0 || life == 1 {
      forall y: nat | y < life
        ensures Declined(cost, salvage, life, rate, y + 1) <= Declined(cost, salvage, life, rate, y)
      {
        YearByYear(cost, salvage, life, rate, y);
      }
    } else {
      var q := 1.0 - Rate(rate);
      RawStarts(cost, q);
      RawNext(cost, q, 0);
      Grows(cost, q);
      hide Raw, Times;
      assert Declined(cost, salvage, life, rate, 0 + 1) > Declined(cost, salvage, life, rate, 0);
    }
  }

  lemma Grows(cost: real, q: real)
    requires cost < 0.0 && 0.0 <= q < 1.0
    ensures cost < Times(cost, q)
  {
    assert cost * (1.0 - q) < 0.0;
  }

  lemma YearByYear(cost: real, salvage: real, life: nat, rate: real, y: nat)
    requires y < life && (cost >= 0.0 || life == 1)
    ensures Declined(cost, salvage, life, rate, y + 1) <= Declined(cost, salvage, life, rate, y)
  {
    var q := 1.0 - Rate(rate);
    if y + 1 < life {
      hide Raw, Times;
      DeclinesPlausibly(cost, salvage, q, y);
      Shrink(Raw(cost, q, y), q);
      RawNext(cost, q, y);
    }
  }

  lemma StaysBetween(cost: real, salvage: real, life: nat, rate: real, y: nat)
    requires cost >= 0.0 && y <= life
    ensures SalvageFloor(salvage, cost) <= Declined(cost, salvage, life, rate, y) <= cost
    ensures Declined(cost, salvage, life, rate, life) == SalvageFloor(salvage, cost)
    ensures life > 0 ==> Declined(cost, salvage, life, rate, 0) == cost
  {
    hide Raw;
    DeclinesPlausibly(cost, salvage, 1.0 - Rate(rate), y);
    RawStarts(cost, 1.0 - Rate(rate));
  }

  // ---- the book value at any time

  /** Bought so many years ago (None: no purchase date; not positive: in the future). pow is
      the power function of the platform. */
  function BookValue(cost: real, salvage: real, life: int, rate: real, bought: Option<real>,
                     pow: (real, real) -> real): real {
    if cost <= 0.0 || life <= 0 || bought.None? then cost
    else
      var years := if bought.value > 0.0 then bought.value else 0.0;
      var floor := SalvageFloor(salvage, cost);
      if years >= life as real then floor
      else
        var value := Times(cost, pow(1.0 - Rate(rate), years));
        if value < floor then floor else value
  }

  /** At whole years of its life the book value is the schedule's; past its life it is the floor. */
  lemma BookValueIsSchedule(cost: real, salvage: real, life: nat, rate: real, y: nat, pow: (real, real) -> real)
    requires cost > 0.0 && life > 0 && pow(1.0 - Rate(rate), y as real) == Pow(1.0 - Rate(rate), y)
    ensures BookValue(cost, salvage, life, rate, Some(y as real), pow) ==
      Declined(cost, salvage, life, rate, if y < life then y else life)
  {
  }

  /** Where the power function gives a factor in [0, 1], the book value lies between the floor and the cost. */
  lemma BookValueBetween(cost: real, salvage: real, life: int, rate: real, years: real, pow: (real, real) -> real)
    requires cost > 0.0 && 0.0 <= pow(1.0 - Rate(rate), if years > 0.0 then years else 0.0) <= 1.0
    ensures SalvageFloor(salvage, cost) <= BookValue(cost, salvage, life, rate, Some(years), pow) <= cost
  {
    Shrink(cost, pow(1.0 - Rate(rate), if years > 0.0 then years else 0.0));
    hide Times;
  }

  /** The floor is the salvage value where that lies between zero and the cost, else the nearer end. */
  lemma FloorExactly(salvage: real, cost: real)
    requires cost >= 0.0
    ensures 0.0 <= SalvageFloor(salvage, cost) <= cost
    ensures 0.0 <= salvage <= cost ==> SalvageFloor(salvage, cost) == salvage
    ensures salvage <= 0.0 ==> SalvageFloor(salvage, cost) == 0.0
    ensures salvage >= cost ==> SalvageFloor(salvage, cost) == cost
  {
  }

  /** The rate is the one given where it is one, the default where it is not, and one where it is more. */
  lemma RateExactly(rate: real)
    ensures 0.0 < rate <= 1.0 ==> Rate(rate) == rate
    ensures Rate(rate) == 1.0 <==> rate >= 1.0
    ensures rate <= 0.0 ==> Rate(rate) == 0.40
  {
  }

  /** The time an asset has been in use. */
  function Used(years: real): real { if years > 0.0 then years else 0.0 }

  /** The book value falls with time: it never rises where the power function does not; it is the
      cost until the asset is bought, and the floor from the end of its life on. */
  lemma BookValueFalls(cost: real, salvage: real, life: int, rate: real, u: real, v: real, pow: (real, real) -> real)
    requires cost > 0.0 && life > 0 && u <= v && pow(1.0 - Rate(rate), 0.0) == 1.0
    requires var q := 1.0 - Rate(rate); 0.0 <= pow(q, Used(v)) <= pow(q, Used(u)) <= 1.0
    ensures BookValue(cost, salvage, life, rate, Some(v), pow) <= BookValue(cost, salvage, life, rate, Some(u), pow)
    ensures u <= 0.0 ==> BookValue(cost, salvage, life, rate, Some(u), pow) == cost
    ensures v >= life as real ==> BookValue(cost, salvage, life, rate, Some(v), pow) == SalvageFloor(salvage, cost)
  {
    var q := 1.0 - Rate(rate);
    Scale(pow(q, Used(v)), pow(q, Used(u)), cost);
    Commutes(pow(q, Used(v)), cost);
    Commutes(pow(q, Used(u)), cost);
    Commutes(1.0, cost);
    assert Times(1.0, cost) == cost;
    BookValueBetween(cost, salvage, life, rate, u, pow);
    hide Times, Rate;
  }

  lemma Commutes(a: real, b: real)
    ensures Times(a, b) == Times(b, a)
  {
  }
}
