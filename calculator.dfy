/**
 * The car-cost conversation: the handlers ask for the price in yuan, the
 * year of manufacture, the fuel and the engine volume, keep each answer in
 * the user's data bag, and hand the completed bag to the engine. Each
 * handler is a method on the shared conversation context; what it sends
 * back is a list of replies (wording and keyboards are not modelled).
 */
module Calculator {
  import opened Wrappers
  import opened Numerals
  import opened Config
  import opened SettingsTree
  import opened Fsm
  import opened CalculatorLogic

  datatype Reply =
    | AskPrice
    | AskYear
    | AskFuel
    | AskVolume(fuel: string)
    | PriceRejected
    | YearRejected
    | VolumeRejected
    | Calculating
    | Report(result: CalculationResult)
    | Apology
    | CalculationCancelled
    | BackToMainMenu

  /** The body type every calculation assumes. */
  const PassengerBody := "Легковой"
  /** The fuel for which no engine volume is asked. */
  const ElectricFuel := "Электро"
  /** The data of every fuel button starts with this. */
  const FuelPrefix := "fuel_type:"
  /** Accepted years lie strictly between these two. */
  const YearFloor := 1980
  const YearCeiling := 2026

  predicate IsFuelCallback(data: string) {
    |data| >= |FuelPrefix| && data[..|FuelPrefix|] == FuelPrefix
  }

  predicate AcceptedYear(y: int) {
    YearFloor < y < YearCeiling
  }

  /** The bag after each step of the conversation. */
  function StartData(): map<string, DataVal> {
    map["payer_type" := DStr(IndividualPayer)]
  }

  function PricedData(price: real): map<string, DataVal> {
    StartData()["car_price_cny" := DFloat(price)]
  }

  function DatedData(price: real, year: int): map<string, DataVal> {
    PricedData(price)["year" := DInt(year)]["car_body_type" := DStr(PassengerBody)]
  }

  function FueledData(price: real, year: int, fuel: string): map<string, DataVal> {
    DatedData(price, year)["fuel_type" := DStr(fuel)]
  }

  /** The last step stores the volume and an engine power of 0. */
  function WithVolume(data: map<string, DataVal>, volume: int): map<string, DataVal> {
    data["engine_volume" := DInt(volume)]["engine_power" := DInt(0)]
  }

  function PriceOf(data: map<string, DataVal>): real {
    if "car_price_cny" in data && data["car_price_cny"].DFloat? then data["car_price_cny"].r else 0.0
  }

  function YearOf(data: map<string, DataVal>): int {
    if "year" in data && data["year"].DInt? then data["year"].i else 0
  }

  function FuelOf(data: map<string, DataVal>): string {
    if "fuel_type" in data && data["fuel_type"].DStr? then data["fuel_type"].s else ""
  }

  /**
   * What the bag holds in each state of the conversation: exactly the
   * answers given so far, each one as it was accepted.
   */
  predicate Stage(state: Option<StateId>, data: map<string, DataVal>) {
    match state
    case Some(WaitingForCarPriceCny) => data == StartData()
    case Some(WaitingForYear) => PriceOf(data) > 0.0 && data == PricedData(PriceOf(data))
    case Some(WaitingForFuelType) =>
      PriceOf(data) > 0.0 && AcceptedYear(YearOf(data)) && data == DatedData(PriceOf(data), YearOf(data))
    case Some(WaitingForEngineVolume) =>
      PriceOf(data) > 0.0 && AcceptedYear(YearOf(data)) && FuelOf(data) != ElectricFuel &&
      data == FueledData(PriceOf(data), YearOf(data), FuelOf(data))
    case _ => true
  }

  /** The reply to a completed bag: the report, or an apology when the engine raises. */
  function CalculationReply(data: map<string, DataVal>, tree: Node, currentYear: int): Reply {
    match DecodeSettings(tree)
    case None => Apology
    case Some(s) =>
      match CalculateTotalCost(data, s, currentYear)
      case Ok(r) => Report(r)
      case Err(_) => Apology
  }

  /**
   * What the shared calculation step sends and raises: the main menu it
   * attaches asks whether the user is an administrator, and when that
   * question raises, it raises again in the handler of the first failure
   * and escapes.
   */
  function CalculationOutcome(data: map<string, DataVal>, tree: Node, uid: int, currentYear: int): (seq<Reply>, Option<PyError>) {
    match AdminIdsContain(tree, uid)
    case Err(e) => ([Calculating], Some(e))
    case Ok(_) => ([Calculating, CalculationReply(data, tree, currentYear)], None)
  }

  /** start_calculation: a fresh bag holding the payer type, then the price is asked for. */
  method StartCalculation(ctx: Context) returns (replies: seq<Reply>)
    modifies ctx
    ensures ctx.state == Some(WaitingForCarPriceCny) && ctx.data == StartData()
    ensures replies == [AskPrice]
  {
    ctx.Clear();
    ctx.UpdateData("payer_type", DStr(IndividualPayer));
    replies := [AskPrice];
    ctx.SetState(WaitingForCarPriceCny);
  }

  /**
   * cancel_calculation: outside any state nothing happens; otherwise the
   * context is cleared before the main menu asks for the administrator check.
   */
  method CancelCalculation(ctx: Context, obj: SettingsObject, uid: int) returns (replies: seq<Reply>, raised: Option<PyError>)
    modifies ctx
    ensures old(ctx.state) == None ==>
      ctx.state == None && ctx.data == old(ctx.data) && replies == [] && raised == None
    ensures old(ctx.state) != None ==> ctx.state == None && ctx.data == map[]
    ensures old(ctx.state) != None && AdminIdsContain(obj.tree, uid).Ok? ==>
      replies == [CalculationCancelled, BackToMainMenu] && raised == None
    ensures old(ctx.state) != None && AdminIdsContain(obj.tree, uid).Err? ==>
      replies == [] && raised == Some(AdminIdsContain(obj.tree, uid).error)
  {
    if ctx.state == None {
      return [], None;
    }
    ctx.Clear();
    match AdminIdsContain(obj.tree, uid)
    case Err(e) =>
      replies, raised := [], Some(e);
    case Ok(_) =>
      replies, raised := [CalculationCancelled, BackToMainMenu], None;
  }

  /** process_car_price: a positive number, a decimal comma allowed, is stored and the year is asked for. */
  method ProcessCarPrice(ctx: Context, text: string) returns (replies: seq<Reply>)
    modifies ctx
    ensures var p := ParseCommaDecimal(text);
      if p.Some? && p.value > 0.0 then
        ctx.data == old(ctx.data)["car_price_cny" := DFloat(p.value)] &&
        ctx.state == Some(WaitingForYear) && replies == [AskYear]
      else
        ctx.data == old(ctx.data) && ctx.state == old(ctx.state) && replies == [PriceRejected]
    ensures old(ctx.state) == Some(WaitingForCarPriceCny) && Stage(old(ctx.state), old(ctx.data)) ==>
      Stage(ctx.state, ctx.data)
  {
    var p := ParseCommaDecimal(text);
    if p.None? || p.value <= 0.0 {
      return [PriceRejected];
    }
    if ctx.state == Some(WaitingForCarPriceCny) && Stage(ctx.state, ctx.data) {
      PriceStage(ctx.data, p.value);
    }
    ctx.UpdateData("car_price_cny", DFloat(p.value));
    replies := [AskYear];
    ctx.SetState(WaitingForYear);
  }

  /** process_year: an integer strictly between 1980 and 2026 is stored with the body type, then the fuel is asked for. */
  method ProcessYear(ctx: Context, text: string) returns (replies: seq<Reply>)
    modifies ctx
    ensures var y := ParseInt(Strip(text));
      if y.Some? && AcceptedYear(y.value) then
        ctx.data == old(ctx.data)["year" := DInt(y.value)]["car_body_type" := DStr(PassengerBody)] &&
        ctx.state == Some(WaitingForFuelType) && replies == [AskFuel]
      else
        ctx.data == old(ctx.data) && ctx.state == old(ctx.state) && replies == [YearRejected]
    ensures old(ctx.state) == Some(WaitingForYear) && Stage(old(ctx.state), old(ctx.data)) ==>
      Stage(ctx.state, ctx.data)
  {
    var y := ParseInt(Strip(text));
    if y.None? || !AcceptedYear(y.value) {
      return [YearRejected];
    }
    if ctx.state == Some(WaitingForYear) && Stage(ctx.state, ctx.data) {
      YearStage(ctx.data, y.value);
    }
    ctx.UpdateData("year", DInt(y.value));
    ctx.UpdateData("car_body_type", DStr(PassengerBody));
    replies := [AskFuel];
    ctx.SetState(WaitingForFuelType);
  }

  /**
   * process_and_calculate: the bag is taken and the context cleared before
   * the engine runs, so the conversation is over whatever the engine does.
   */
  method ProcessAndCalculate(ctx: Context, obj: SettingsObject, uid: int, currentYear: int)
    returns (replies: seq<Reply>, raised: Option<PyError>)
    modifies ctx
    ensures ctx.state == None && ctx.data == map[]
    ensures (replies, raised) == CalculationOutcome(old(ctx.data), obj.tree, uid, currentYear)
  {
    var data := ctx.data;
    ctx.Clear();
    match AdminIdsContain(obj.tree, uid)
    case Err(e) =>
      replies, raised := [Calculating], Some(e);
    case Ok(_) =>
      replies, raised := [Calculating, CalculationReply(data, obj.tree, currentYear)], None;
  }

  /**
   * process_fuel_type: the fuel named after the colon of the button's data
   * is stored; an electric car has no engine volume and is calculated at
   * once, any other fuel leads to the volume question.
   */
  method ProcessFuelType(ctx: Context, obj: SettingsObject, callbackData: string, uid: int, currentYear: int)
    returns (replies: seq<Reply>, raised: Option<PyError>)
    requires |SplitOn(callbackData, ':')| >= 2
    modifies ctx
    ensures var fuel := SplitOn(callbackData, ':')[1];
      if fuel == ElectricFuel then
        ctx.state == None && ctx.data == map[] &&
        (replies, raised) == CalculationOutcome(WithVolume(old(ctx.data)["fuel_type" := DStr(fuel)], 0), obj.tree, uid, currentYear)
      else
        ctx.state == Some(WaitingForEngineVolume) && ctx.data == old(ctx.data)["fuel_type" := DStr(fuel)] &&
        replies == [AskVolume(fuel)] && raised == None
    ensures old(ctx.state) == Some(WaitingForFuelType) && Stage(old(ctx.state), old(ctx.data)) ==>
      Stage(ctx.state, ctx.data)
  {
    var fuel := SplitOn(callbackData, ':')[1];
    if fuel != ElectricFuel && ctx.state == Some(WaitingForFuelType) && Stage(ctx.state, ctx.data) {
      FuelStage(ctx.data, fuel);
    }
    ctx.UpdateData("fuel_type", DStr(fuel));
    if fuel == ElectricFuel {
      ctx.UpdateData("engine_volume", DInt(0));
      ctx.UpdateData("engine_power", DInt(0));
      replies, raised := ProcessAndCalculate(ctx, obj, uid, currentYear);
    } else {
      replies, raised := [AskVolume(fuel)], None;
      ctx.SetState(WaitingForEngineVolume);
    }
  }

  /**
   * process_engine_volume_and_calculate: a positive integer is stored and
   * the calculation runs. The handler catches TypeError around the whole
   * step, so a TypeError escaping the calculation ends in the volume
   * complaint.
   */
  method ProcessEngineVolumeAndCalculate(ctx: Context, obj: SettingsObject, text: string, uid: int, currentYear: int)
    returns (replies: seq<Reply>, raised: Option<PyError>)
    modifies ctx
    ensures var v := ParseInt(Strip(text));
      if v.Some? && v.value > 0 then
        var (sent, escaped) := CalculationOutcome(WithVolume(old(ctx.data), v.value), obj.tree, uid, currentYear);
        ctx.state == None && ctx.data == map[] &&
        (if escaped == Some(PyError.TypeError) then replies == sent + [VolumeRejected] && raised == None
         else replies == sent && raised == escaped)
      else
        ctx.data == old(ctx.data) && ctx.state == old(ctx.state) && replies == [VolumeRejected] && raised == None
  {
    var v := ParseInt(Strip(text));
    if v.None? || v.value <= 0 {
      return [VolumeRejected], None;
    }
    ctx.UpdateData("engine_volume", DInt(v.value));
    ctx.UpdateData("engine_power", DInt(0));
    replies, raised := ProcessAndCalculate(ctx, obj, uid, currentYear);
    if raised == Some(PyError.TypeError) {
      replies, raised := replies + [VolumeRejected], None;
    }
  }

  // ---- The conversation's invariant and what a completed one computes ----

  /** Starting fills the bag the price state expects. */
  lemma StartStage()
    ensures Stage(Some(WaitingForCarPriceCny), StartData())
  {
  }

  /** An accepted price moves the bag to the year state. */
  lemma PriceStage(data: map<string, DataVal>, price: real)
    requires Stage(Some(WaitingForCarPriceCny), data) && price > 0.0
    ensures Stage(Some(WaitingForYear), data["car_price_cny" := DFloat(price)])
  {
    assert PriceOf(PricedData(price)) == price;
  }

  /** An accepted year moves the bag to the fuel state, the price kept. */
  lemma YearStage(data: map<string, DataVal>, year: int)
    requires Stage(Some(WaitingForYear), data) && AcceptedYear(year)
    ensures Stage(Some(WaitingForFuelType), data["year" := DInt(year)]["car_body_type" := DStr(PassengerBody)])
  {
    var d := DatedData(PriceOf(data), year);
    assert PriceOf(d) == PriceOf(data) && YearOf(d) == year;
  }

  /** A fuel other than electric moves the bag to the volume state, price and year kept. */
  lemma FuelStage(data: map<string, DataVal>, fuel: string)
    requires Stage(Some(WaitingForFuelType), data) && fuel != ElectricFuel
    ensures Stage(Some(WaitingForEngineVolume), data["fuel_type" := DStr(fuel)])
  {
    var d := FueledData(PriceOf(data), YearOf(data), fuel);
    assert PriceOf(d) == PriceOf(data) && YearOf(d) == YearOf(data) && FuelOf(d) == fuel;
  }

  /** A bag filled by the conversation is the engine's completed input. */
  lemma CompletedBag(data: map<string, DataVal>, fuel: string, volume: int)
    requires Stage(Some(WaitingForFuelType), data)
    ensures WithVolume(data["fuel_type" := DStr(fuel)], volume) == Answers(PriceOf(data), YearOf(data), fuel, volume)
  {
  }

  /**
   * The answers of a completed conversation always produce a report on
   * decodable settings unless the euro rate is 0, and the report's customs
   * part is the individual's customs for the car's age, volume and price.
   */
  lemma CompletedConversationReports(data: map<string, DataVal>, fuel: string, volume: int, tree: Node, s: Settings, currentYear: int)
    requires Stage(Some(WaitingForFuelType), data)
    requires DecodeSettings(tree) == Some(s)
    ensures var reply := CalculationReply(WithVolume(data["fuel_type" := DStr(fuel)], volume), tree, currentYear);
      (reply == Apology <==> s.rates.eurToRub == 0.0) &&
      (reply.Report? ==>
        reply.result.customs == IndividualCustoms((currentYear - YearOf(data)) as real, volume as real, PriceOf(data), s))
  {
    var answers := Answers(PriceOf(data), YearOf(data), fuel, volume);
    CompletedBag(data, fuel, volume);
    assert WithVolume(data["fuel_type" := DStr(fuel)], volume) == answers;
    AnswersReply(PriceOf(data), YearOf(data), fuel, volume, tree, s, currentYear);
  }

  lemma AnswersReply(price: real, year: int, fuel: string, volume: int, tree: Node, s: Settings, currentYear: int)
    requires DecodeSettings(tree) == Some(s)
    ensures var reply := CalculationReply(Answers(price, year, fuel, volume), tree, currentYear);
      (reply == Apology <==> s.rates.eurToRub == 0.0) &&
      (reply.Report? ==>
        reply.result.customs == IndividualCustoms((currentYear - year) as real, volume as real, price, s))
  {
    var answers := Answers(price, year, fuel, volume);
    CompletedAnswersCompute(price, year, fuel, volume, s, currentYear);
    var r := CalculateTotalCost(answers, s, currentYear);
    assert CalculationReply(answers, tree, currentYear) == if r.Ok? then Report(r.value) else Apology;
  }

  /**
   * A fuel button's data splits into at least two parts at its colons, and
   * the fuel read from it is the text after the prefix up to the next
   * colon: all of it when there is none.
   */
  lemma FuelOfCallback(data: string)
    requires IsFuelCallback(data)
    ensures |SplitOn(data, ':')| >= 2
    ensures SplitOn(data, ':')[1] == SplitOn(data[|FuelPrefix|..], ':')[0]
    ensures ':' !in data[|FuelPrefix|..] ==> SplitOn(data, ':')[1] == data[|FuelPrefix|..]
  {
    assert data[9] == ':' && data[..9] == "fuel_type";
    SplitAt(data, ':', 9);
  }

  /** The volume step refuses a decimal such as "1.6" or "1,6": int() accepts digits only. */
  lemma DecimalVolumeRejected(text: string)
    requires '.' in text || ',' in text
    ensures ParseInt(Strip(text)) == None
  {
    var i :| 0 <= i < |text| && (text[i] == '.' || text[i] == ',');
    var j := StripKeeps(text, i);
    ForeignCharNoInt(Strip(text), j);
  }
}
