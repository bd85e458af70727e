/**
 * The cost engine: from the answers collected in a conversation and the
 * current settings to an itemised cost in roubles. Money is exact (real);
 * the current year is a parameter.
 */
module CalculatorLogic {
  import opened Wrappers
  import opened Config
  import opened Fsm

  datatype CustomsResult = CustomsResult(dutyRub: real, customsFeeRub: real, recyclingFeeRub: real, totalCustomsRub: real)

  /** CustomsResult() with its defaults. */
  const NoCustoms := CustomsResult(0.0, 0.0, 0.0, 0.0)

  datatype CalculationResult = CalculationResult(
    carPriceRub: real,
    bankCommissionRub: real,
    companyCommissionRub: real,
    chinaExpensesRub: real,
    customs: CustomsResult,
    totalCostRub: real)

  /** The exceptions the engine can raise on the data bag and the settings. */
  datatype EngineError = KeyError(key: string) | TypeError | ZeroDivisionError

  const IndividualPayer := "Физическое лицо"

  /** For cars under three years: duty is the larger of this share of the price in euro ... */
  const PriceDutyShare := 0.48
  /** ... and this many euro per cm³. */
  const MinDutyPerCc := 2.5

  /** Python's max(a, b). */
  function Max(a: real, b: real): (m: real)
    ensures m >= a && m >= b && (m == a || m == b)
  {
    if b > a then b else a
  }

  /** A set that is not empty has an element. */
  lemma NonEmptyHasElement(s: set<int>)
    requires s != {}
    ensures exists y :: y in s
  {
    if forall y :: y !in s {
      assert false;
    }
  }

  /** A finite non-empty set of ints has a least element. */
  lemma {:induction false} MinExists(s: set<int>)
    requires s != {}
    ensures exists m :: m in s && forall x :: x in s ==> m <= x
    decreases |s|
  {
    NonEmptyHasElement(s);
    var y :| y in s;
    var rest := s - {y};
    if forall x :: x !in rest {
      forall x | x in s ensures y <= x {
        assert x in rest || x == y;
      }
    } else {
      var z :| z in rest;
      assert |rest| < |s|;
      MinExists(rest);
      var m :| m in rest && forall x :: x in rest ==> m <= x;
      var least := if y < m then y else m;
      forall x | x in s ensures least <= x {
        if x != y {
          assert x in rest;
        }
      }
    }
  }

  /** The bounds of a table in ascending order: sorted(items, key=int(bound)). */
  function SortedBounds(keys: set<int>): (bs: seq<int>)
    ensures forall i :: 0 <= i < |bs| ==> bs[i] in keys
    decreases keys
  {
    if keys == {} then []
    else
      MinExists(keys);
      var m :| m in keys && forall x :: x in keys ==> m <= x;
      [m] + SortedBounds(keys - {m})
  }

  /** The first of the sorted bounds is the least, and the rest sorts what is left. */
  lemma SortedBoundsHead(keys: set<int>)
    requires keys != {}
    ensures var bs := SortedBounds(keys);
      |bs| >= 1 && bs[0] in keys && (forall x :: x in keys ==> bs[0] <= x) &&
      bs[1..] == SortedBounds(keys - {bs[0]})
  {
  }

  /** SortedBounds lists its bounds in strictly ascending order ... */
  lemma {:induction false} SortedBoundsAscending(keys: set<int>)
    ensures var bs := SortedBounds(keys);
      forall i, j :: 0 <= i < j < |bs| ==> bs[i] < bs[j]
    decreases keys
  {
    if keys != {} {
      SortedBoundsHead(keys);
      var bs := SortedBounds(keys);
      var m, tail := bs[0], bs[1..];
      SortedBoundsAscending(keys - {m});
      forall i, j | 0 <= i < j < |bs| ensures bs[i] < bs[j] {
        assert bs[j] == tail[j - 1];
        assert tail[j - 1] in keys - {m};
        if i > 0 {
          assert bs[i] == tail[i - 1];
        }
      }
    }
  }

  /** ... and lists every bound. */
  lemma {:induction false} SortedBoundsComplete(keys: set<int>)
    ensures var bs := SortedBounds(keys);
      forall b :: b in keys ==> b in bs
    decreases keys
  {
    if keys != {} {
      SortedBoundsHead(keys);
      var bs := SortedBounds(keys);
      var m, tail := bs[0], bs[1..];
      SortedBoundsComplete(keys - {m});
      forall b | b in keys ensures b in bs {
        if b != m {
          assert b in keys - {m};
          var k :| 0 <= k < |tail| && tail[k] == b;
          assert bs[k + 1] == b;
        }
      }
    }
  }

  /**
   * The scan over the sorted bounds: the rate in euro per cm³ of the first
   * bound the volume does not exceed, or 0 when none fits.
   */
  function ScanRate(bounds: seq<int>, table: DutyTable, volume: real): real
    requires forall i :: 0 <= i < |bounds| ==> bounds[i] in table
    decreases |bounds|
  {
    if bounds == [] then 0.0
    else if volume <= bounds[0] as real then table[bounds[0]]
    else ScanRate(bounds[1..], table, volume)
  }

  /** The rate a table gives an engine volume. */
  function TableRate(table: DutyTable, volume: real): real {
    ScanRate(SortedBounds(table.Keys), table, volume)
  }

  /**
   * The duty in euro a table gives an engine volume: the rate of the first
   * fitting bound times the volume; 0 when no bound fits.
   */
  function TableDutyEur(table: DutyTable, volume: real): real {
    TableRate(table, volume) * volume
  }

  /** `b` is the smallest bound of the table the volume does not exceed. */
  predicate LeastFit(table: DutyTable, volume: real, b: int) {
    b in table && volume <= b as real && forall c :: c in table && volume <= c as real ==> b <= c
  }

  lemma {:induction false} ScanLeastFit(bounds: seq<int>, table: DutyTable, volume: real, b: int)
    requires forall i :: 0 <= i < |bounds| ==> bounds[i] in table
    requires forall i, j :: 0 <= i < j < |bounds| ==> bounds[i] < bounds[j]
    requires b in bounds && volume <= b as real
    requires forall i :: 0 <= i < |bounds| && volume <= bounds[i] as real ==> b <= bounds[i]
    ensures ScanRate(bounds, table, volume) == table[b]
    decreases |bounds|
  {
    var k :| 0 <= k < |bounds| && bounds[k] == b;
    if volume <= bounds[0] as real {
      assert k == 0;
    } else {
      assert k != 0;
      assert bounds[1..][k - 1] == b;
      ScanLeastFit(bounds[1..], table, volume, b);
    }
  }

  lemma {:induction false} ScanNoFit(bounds: seq<int>, table: DutyTable, volume: real)
    requires forall i :: 0 <= i < |bounds| ==> bounds[i] in table
    requires forall i :: 0 <= i < |bounds| ==> bounds[i] as real < volume
    ensures ScanRate(bounds, table, volume) == 0.0
    decreases |bounds|
  {
    if bounds != [] {
      ScanNoFit(bounds[1..], table, volume);
    }
  }

  /** The rate is that of the least bound the volume does not exceed. */
  lemma TableRateLeastFit(table: DutyTable, volume: real, b: int)
    requires LeastFit(table, volume, b)
    ensures TableRate(table, volume) == table[b]
  {
    var bounds := SortedBounds(table.Keys);
    SortedBoundsAscending(table.Keys);
    SortedBoundsComplete(table.Keys);
    assert b in bounds;
    ScanLeastFit(bounds, table, volume, b);
  }

  /** The table duty is the rate of the least bound the volume does not exceed, times the volume. */
  lemma TableDutyLeastFit(table: DutyTable, volume: real, b: int)
    requires LeastFit(table, volume, b)
    ensures TableDutyEur(table, volume) == table[b] * volume
  {
    TableRateLeastFit(table, volume, b);
  }

  /** A volume above every bound of the table pays no table duty. */
  lemma TableDutyNoFit(table: DutyTable, volume: real)
    requires forall c :: c in table ==> c as real < volume
    ensures TableDutyEur(table, volume) == 0.0
  {
    var bounds := SortedBounds(table.Keys);
    assert forall i :: 0 <= i < |bounds| ==> bounds[i] as real < volume;
    ScanNoFit(bounds, table, volume);
  }

  /** Whenever some bound `c` fits, a least one does. */
  lemma LeastFitOf(table: DutyTable, volume: real, c: int) returns (b: int)
    requires c in table && volume <= c as real
    ensures LeastFit(table, volume, b)
  {
    var fits := set x | x in table && volume <= x as real;
    assert c in fits;
    MinExists(fits);
    b :| b in fits && forall x :: x in fits ==> b <= x;
    forall x | x in table && volume <= x as real ensures b <= x {
      assert x in fits;
    }
  }

  /**
   * With non-negative rates that never fall as the bound grows, a larger
   * engine never pays less duty, as long as some bound still fits it.
   */
  lemma TableDutyMonotone(table: DutyTable, v1: real, v2: real, c: int)
    requires RatesNonDecreasing(table) && forall b :: b in table ==> table[b] >= 0.0
    requires 0.0 <= v1 <= v2
    requires c in table && v2 <= c as real
    ensures TableDutyEur(table, v1) <= TableDutyEur(table, v2)
  {
    TableRateMonotone(table, v1, v2, c);
    var r1, r2 := TableRate(table, v1), TableRate(table, v2);
    ProductMonotone(r1, r2, v1, v2);
  }

  lemma TableRateMonotone(table: DutyTable, v1: real, v2: real, c: int)
    requires RatesNonDecreasing(table) && forall b :: b in table ==> table[b] >= 0.0
    requires v1 <= v2
    requires c in table && v2 <= c as real
    ensures 0.0 <= TableRate(table, v1) <= TableRate(table, v2)
  {
    var b2 := LeastFitOf(table, v2, c);
    var b1 := LeastFitOf(table, v1, b2);
    TableRateLeastFit(table, v1, b1);
    TableRateLeastFit(table, v2, b2);
    assert b1 <= b2;
  }

  lemma ProductMonotone(r1: real, r2: real, v1: real, v2: real)
    requires 0.0 <= r1 <= r2 && 0.0 <= v1 <= v2
    ensures r1 * v1 <= r2 * v2
  {
    MulLeft(r1, v1, v2);
    MulRight(r2, r1, v2);
  }

  lemma MulLeft(x: real, y: real, z: real)
    requires x >= 0.0 && y <= z
    ensures x * y <= x * z
  {
  }

  /**
   * The duty table for a car of `age` (at least 3): three to five years
   * inclusive, or older. The age is a real because a year stored as a float
   * gives a fractional age.
   */
  function BracketTable(age: real, duty: DutyRates): DutyTable {
    if 3.0 <= age <= 5.0 then duty.age3To5Years else duty.ageOlder5Years
  }

  /** The price in euro: converted to roubles, then divided by the euro rate. */
  function PriceEur(priceCny: real, rates: CurrencyRates): real
    requires rates.eurToRub != 0.0
  {
    priceCny * rates.cnyToRub / rates.eurToRub
  }

  /** The duty in euro: by price or volume under three years, by the bracket's table from three on. */
  function DutyEur(age: real, volume: real, priceEur: real, duty: DutyRates): real {
    if age < 3.0 then Max(priceEur * PriceDutyShare, MinDutyPerCc * volume)
    else TableDutyEur(BracketTable(age, duty), volume)
  }

  /** The recycling fee: the under-three fee up to and including three years. */
  function RecyclingFeeRub(age: real, recycling: RecyclingFeeRates): real {
    if age <= 3.0 then recycling.under3Years else recycling.over3Years
  }

  /** _calculate_customs_for_individual once the inputs are read; the rates must allow the division into euro. */
  function IndividualCustoms(age: real, volume: real, priceCny: real, s: Settings): (c: CustomsResult)
    requires s.rates.eurToRub != 0.0
    ensures c.dutyRub == DutyEur(age, volume, PriceEur(priceCny, s.rates), s.customs.duty) * s.rates.eurToRub
    ensures c.customsFeeRub == s.customs.baseCustomsFeeRub
    ensures c.recyclingFeeRub == RecyclingFeeRub(age, s.customs.recycling)
    ensures c.totalCustomsRub == c.dutyRub + c.customsFeeRub + c.recyclingFeeRub
  {
    var dutyRub := DutyEur(age, volume, PriceEur(priceCny, s.rates), s.customs.duty) * s.rates.eurToRub;
    var feeRub := s.customs.baseCustomsFeeRub;
    var recyclingRub := RecyclingFeeRub(age, s.customs.recycling);
    CustomsResult(dutyRub, feeRub, recyclingRub, dutyRub + feeRub + recyclingRub)
  }

  /** user_data[key]. */
  function Lookup(data: map<string, DataVal>, key: string): (r: Result<DataVal, EngineError>)
    ensures r.Ok? <==> key in data
    ensures r.Ok? ==> r.value == data[key]
    ensures r.Err? ==> r.error == KeyError(key)
  {
    if key in data then Ok(data[key]) else Err(KeyError(key))
  }

  /** A stored number used in arithmetic; text raises TypeError. */
  function AsNumber(v: DataVal): Result<real, EngineError> {
    match v
    case DInt(i) => Ok(i as real)
    case DFloat(r) => Ok(r)
    case DStr(_) => Err(TypeError)
  }

  /** current_year - user_data['year']: an int year gives a whole age, a float year a fractional one, text raises TypeError. */
  function CarAge(year: DataVal, currentYear: int): Result<real, EngineError> {
    match year
    case DInt(y) => Ok((currentYear - y) as real)
    case DFloat(y) => Ok(currentYear as real - y)
    case DStr(_) => Err(TypeError)
  }

  /**
   * Whether the duty reads the engine volume: `2.5 * engine_volume` under
   * three years, the comparison with the first bound of a non-empty table
   * from three on. An empty table is scanned without looking at the volume.
   */
  predicate DutyReadsVolume(age: real, duty: DutyRates) {
    age < 3.0 || BracketTable(age, duty) != map[]
  }

  /**
   * _calculate_customs_for_individual on the data bag: the age is computed
   * from the year, the engine volume and the price are read, in that order,
   * then the price is divided into euro. engine_power is read with a default
   * and never used. A volume stored as text raises only where the duty
   * computes with it; where it does not, it pays no duty.
   */
  function CustomsForIndividual(data: map<string, DataVal>, s: Settings, currentYear: int): (r: Result<CustomsResult, EngineError>)
    ensures "year" !in data ==> r == Err(KeyError("year"))
    ensures r.Ok? ==> "year" in data && "engine_volume" in data && "car_price_cny" in data && s.rates.eurToRub != 0.0
    ensures r.Ok? ==>
      r.value.customsFeeRub == s.customs.baseCustomsFeeRub &&
      r.value.totalCustomsRub == r.value.dutyRub + r.value.customsFeeRub + r.value.recyclingFeeRub
  {
    var year :- Lookup(data, "year");
    var age :- CarAge(year, currentYear);
    var volume :- Lookup(data, "engine_volume");
    var price :- Lookup(data, "car_price_cny");
    var p :- AsNumber(price);
    if s.rates.eurToRub == 0.0 then Err(ZeroDivisionError)
    else if volume.DStr? && DutyReadsVolume(age, s.customs.duty) then Err(TypeError)
    else
      var v := if volume.DStr? then 0.0 else AsNumber(volume).value;
      Ok(IndividualCustoms(age, v, p, s))
  }

  /**
   * calculate_total_cost: the price in roubles, the bank commission on it,
   * the two fixed fees, customs for a private buyer (none for any other
   * payer type), and their total, with nothing rounded.
   */
  function CalculateTotalCost(data: map<string, DataVal>, s: Settings, currentYear: int): (r: Result<CalculationResult, EngineError>)
    ensures r.Ok? ==> "car_price_cny" in data && AsNumber(data["car_price_cny"]).Ok?
    ensures r.Ok? ==>
      var res := r.value;
      res.carPriceRub == AsNumber(data["car_price_cny"]).value * s.rates.cnyToRub &&
      res.bankCommissionRub == res.carPriceRub * s.fees.bankCommissionPercent &&
      res.companyCommissionRub == s.fees.companyCommissionRub &&
      res.chinaExpensesRub == s.fees.chinaExpensesRub &&
      res.customs.totalCustomsRub == res.customs.dutyRub + res.customs.customsFeeRub + res.customs.recyclingFeeRub &&
      res.totalCostRub == res.carPriceRub + res.bankCommissionRub + res.companyCommissionRub + res.chinaExpensesRub + res.customs.totalCustomsRub
  {
    var price :- Lookup(data, "car_price_cny");
    var p :- AsNumber(price);
    var carRub := p * s.rates.cnyToRub;
    var bankRub := carRub * s.fees.bankCommissionPercent;
    var payer :- Lookup(data, "payer_type");
    var customs :- if payer == DStr(IndividualPayer) then CustomsForIndividual(data, s, currentYear) else Ok(NoCustoms);
    Ok(CalculationResult(carRub, bankRub, s.fees.companyCommissionRub, s.fees.chinaExpensesRub, customs,
                         carRub + bankRub + s.fees.companyCommissionRub + s.fees.chinaExpensesRub + customs.totalCustomsRub))
  }

  /** The answers a completed conversation holds. */
  function Answers(priceCny: real, year: int, fuel: string, volume: int): map<string, DataVal> {
    map[
      "payer_type" := DStr(IndividualPayer),
      "car_price_cny" := DFloat(priceCny),
      "year" := DInt(year),
      "car_body_type" := DStr("Легковой"),
      "fuel_type" := DStr(fuel),
      "engine_volume" := DInt(volume),
      "engine_power" := DInt(0)]
  }

  /**
   * A completed conversation always computes unless the euro rate is 0,
   * where the conversion of the price to euro raises ZeroDivisionError; the
   * customs are those of a private buyer of a car `currentYear - year` old.
   */
  lemma CompletedAnswersCompute(priceCny: real, year: int, fuel: string, volume: int, s: Settings, currentYear: int)
    ensures var r := CalculateTotalCost(Answers(priceCny, year, fuel, volume), s, currentYear);
      (r.Err? <==> s.rates.eurToRub == 0.0) &&
      (r.Err? ==> r.error == ZeroDivisionError) &&
      (r.Ok? ==> r.value.customs == IndividualCustoms((currentYear - year) as real, volume as real, priceCny, s))
  {
    var data := Answers(priceCny, year, fuel, volume);
    assert "year" in data && "engine_volume" in data && "car_price_cny" in data && "payer_type" in data;
    assert data["payer_type"] == DStr(IndividualPayer);
  }

  /**
   * An engine volume held as text is never read when the car is at least
   * three years old and its bracket table is empty: the customs compute,
   * with no duty. A float year is accepted like an int one.
   */
  lemma UnreadVolumeIgnored(data: map<string, DataVal>, s: Settings, currentYear: int)
    requires "year" in data && !data["year"].DStr?
    requires "engine_volume" in data && data["engine_volume"].DStr?
    requires "car_price_cny" in data && AsNumber(data["car_price_cny"]).Ok?
    requires s.rates.eurToRub != 0.0
    requires CarAge(data["year"], currentYear).Ok? && !DutyReadsVolume(CarAge(data["year"], currentYear).value, s.customs.duty)
    ensures CustomsForIndividual(data, s, currentYear).Ok?
    ensures CustomsForIndividual(data, s, currentYear).value.dutyRub == 0.0
  {
    var age := CarAge(data["year"], currentYear).value;
    TableDutyNoFit(BracketTable(age, s.customs.duty), 0.0);
  }

  /** Where the duty computes with it, an engine volume held as text raises TypeError. */
  lemma TextVolumeRaises(data: map<string, DataVal>, s: Settings, currentYear: int)
    requires "year" in data && CarAge(data["year"], currentYear).Ok?
    requires "engine_volume" in data && data["engine_volume"].DStr?
    requires "car_price_cny" in data && AsNumber(data["car_price_cny"]).Ok?
    requires s.rates.eurToRub != 0.0
    requires DutyReadsVolume(CarAge(data["year"], currentYear).value, s.customs.duty)
    ensures CustomsForIndividual(data, s, currentYear) == Err(TypeError)
  {
  }

  /**
   * Under three years the duty is at least 48 % of the price and at least
   * 2.5 € per cm³ (both in roubles), and it is one of the two.
   */
  lemma UnderThreeDuty(age: real, volume: real, priceCny: real, s: Settings)
    requires s.rates.eurToRub > 0.0 && age < 3.0
    ensures var duty := IndividualCustoms(age, volume, priceCny, s).dutyRub;
      var byPrice := priceCny * s.rates.cnyToRub * PriceDutyShare;
      var byVolume := MinDutyPerCc * volume * s.rates.eurToRub;
      duty >= byPrice && duty >= byVolume && (duty == byPrice || duty == byVolume)
  {
    var eur := s.rates.eurToRub;
    var priceEur := priceCny * s.rates.cnyToRub / eur;
    var m := Max(priceEur * PriceDutyShare, MinDutyPerCc * volume);
    assert IndividualCustoms(age, volume, priceCny, s).dutyRub == m * eur;
    assert priceEur * eur == priceCny * s.rates.cnyToRub;
    assert priceEur * PriceDutyShare * eur == priceCny * s.rates.cnyToRub * PriceDutyShare;
    MulRight(m, priceEur * PriceDutyShare, eur);
    MulRight(m, MinDutyPerCc * volume, eur);
  }

  lemma MulRight(x: real, y: real, z: real)
    requires x >= y && z >= 0.0
    ensures x * z >= y * z
  {
  }

  /**
   * From three years on the duty in euro is the rate of the least bound of
   * the age bracket's table that the volume does not exceed, times the
   * volume; a volume above every bound pays no duty.
   */
  lemma TableBracketDuty(age: real, volume: real, priceEur: real, duty: DutyRates, b: int)
    requires age >= 3.0
    ensures var table := BracketTable(age, duty);
      LeastFit(table, volume, b) ==> DutyEur(age, volume, priceEur, duty) == table[b] * volume
    ensures var table := BracketTable(age, duty);
      (forall c :: c in table ==> c as real < volume) ==> DutyEur(age, volume, priceEur, duty) == 0.0
  {
    var table := BracketTable(age, duty);
    if LeastFit(table, volume, b) {
      TableDutyLeastFit(table, volume, b);
    }
    if forall c :: c in table ==> c as real < volume {
      TableDutyNoFit(table, volume);
    }
  }

  /** For any payer other than a private buyer customs stay at zero and the total leaves them out; nothing is raised. */
  lemma OtherPayerNoCustoms(data: map<string, DataVal>, s: Settings, currentYear: int)
    requires "car_price_cny" in data && AsNumber(data["car_price_cny"]).Ok?
    requires "payer_type" in data && data["payer_type"] != DStr(IndividualPayer)
    ensures CalculateTotalCost(data, s, currentYear).Ok?
    ensures var res := CalculateTotalCost(data, s, currentYear).value;
      res.customs == NoCustoms &&
      res.totalCostRub == res.carPriceRub + res.bankCommissionRub + res.companyCommissionRub + res.chinaExpensesRub
  {
  }

  /**
   * The age brackets: two years is still priced by value and volume; three
   * is the first age on the tables (the three-to-five one) and yet pays the
   * under-three recycling fee; five is the last on that table; four pays the
   * older recycling fee; six is on the older-cars table, and so is five and
   * a half, the age a float year can give.
   */
  lemma AgeBrackets(volume: real, priceEur: real, duty: DutyRates, recycling: RecyclingFeeRates)
    ensures DutyEur(2.0, volume, priceEur, duty) == Max(priceEur * PriceDutyShare, MinDutyPerCc * volume)
    ensures DutyEur(3.0, volume, priceEur, duty) == TableDutyEur(duty.age3To5Years, volume)
    ensures DutyEur(5.0, volume, priceEur, duty) == TableDutyEur(duty.age3To5Years, volume)
    ensures DutyEur(5.5, volume, priceEur, duty) == TableDutyEur(duty.ageOlder5Years, volume)
    ensures DutyEur(6.0, volume, priceEur, duty) == TableDutyEur(duty.ageOlder5Years, volume)
    ensures RecyclingFeeRub(3.0, recycling) == recycling.under3Years
    ensures RecyclingFeeRub(4.0, recycling) == recycling.over3Years
  {
  }

  /** An electric car (volume 0) aged three or more pays no duty; under three it pays 48 % of its price. */
  lemma ElectricDuty(age: real, priceCny: real, s: Settings)
    requires s.rates.eurToRub > 0.0 && priceCny >= 0.0 && s.rates.cnyToRub >= 0.0
    ensures age >= 3.0 ==> IndividualCustoms(age, 0.0, priceCny, s).dutyRub == 0.0
    ensures age < 3.0 ==>
      IndividualCustoms(age, 0.0, priceCny, s).dutyRub == priceCny * s.rates.cnyToRub * PriceDutyShare
  {
    if age < 3.0 {
      UnderThreeDuty(age, 0.0, priceCny, s);
    }
  }

  /** The bounds of the default three-to-five table. */
  lemma DefaultAge3To5Bounds()
    ensures forall c :: c in DefaultAge3To5 ==> c == 1000 || c == 1500 || c == 1800 || c == 2300 || c == 3000 || c == 99999
  {
  }

  /** With the default tables a 1998 cm³ engine pays the 2300 cm³ rate, 2.7 € per cm³, for a car of three to five years. */
  lemma DefaultMidEngine()
    ensures TableDutyEur(DefaultAge3To5, 1998.0) == 2.7 * 1998.0
  {
    DefaultAge3To5Bounds();
    assert LeastFit(DefaultAge3To5, 1998.0, 2300);
    TableDutyLeastFit(DefaultAge3To5, 1998.0, 2300);
  }

  /** The bound is inclusive: a 3000 cm³ engine pays the 3000 cm³ rate, 3 € per cm³ ... */
  lemma DefaultBoundInclusive()
    ensures TableDutyEur(DefaultAge3To5, 3000.0) == 3.0 * 3000.0
  {
    DefaultAge3To5Bounds();
    assert LeastFit(DefaultAge3To5, 3000.0, 3000);
    TableDutyLeastFit(DefaultAge3To5, 3000.0, 3000);
  }

  /** ... and one more cm³ falls to the 99999 cm³ sentinel bound, 3.6 € per cm³. */
  lemma DefaultPastBound()
    ensures TableDutyEur(DefaultAge3To5, 3001.0) == 3.6 * 3001.0
  {
    DefaultAge3To5Bounds();
    assert LeastFit(DefaultAge3To5, 3001.0, 99999);
    TableDutyLeastFit(DefaultAge3To5, 3001.0, 99999);
  }

  /** An engine above the 99999 cm³ sentinel falls off the default table and pays no duty. */
  lemma DefaultAboveSentinel()
    ensures TableDutyEur(DefaultOlder5, 100000.0) == 0.0
  {
    forall c | c in DefaultOlder5 ensures c as real < 100000.0 {
    }
    TableDutyNoFit(DefaultOlder5, 100000.0);
  }
}
