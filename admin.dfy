/**
 * The administrator's rate-setting conversation: the yuan rate is asked
 * for and kept in the data bag, then the euro rate; both are written into
 * the live settings object, which is saved. Every handler here sits behind
 * the administrator check (AdminIdsContain), applied where events are
 * dispatched.
 */
module Admin {
  import opened Wrappers
  import opened Numerals
  import opened Config
  import opened SettingsTree
  import opened SettingsManager
  import opened Fsm

  datatype Reply =
    | AskCnyRate
    | AskEurRate
    | RateRejected
    | RatesUpdated
    | ActionCancelled
    | CalculatorSettingsMenu
    | AdminMainMenu

  /**
   * The calculator settings menu reads two rates and four fee attributes;
   * the menu appears only when every one of them exists, and otherwise
   * building it raises AttributeError. The fee names it reads are not the
   * ones the fee record declares.
   */
  predicate SettingsTextRenders(tree: Node) {
    match Attr(tree, "rates")
    case None => false
    case Some(rates) =>
      match Attr(tree, "fees")
      case None => false
      case Some(fees) =>
        Attr(rates, "cny_to_rub").Some? && Attr(rates, "eur_to_rub").Some? &&
        Attr(fees, "bank_commission_rub").Some? && Attr(fees, "company_commission_rub").Some? &&
        Attr(fees, "china_expenses_cny").Some? && Attr(fees, "customs_fee_rub").Some?
  }

  /** What follows a change in the settings screen: the menu, or the AttributeError building it raises. */
  function MenuOutcome(tree: Node): (r: (seq<Reply>, Option<PyError>))
    ensures r.1.None? <==> SettingsTextRenders(tree)
    ensures r.1.None? ==> r.0 == [CalculatorSettingsMenu]
    ensures r.1.Some? ==> r.0 == [] && r.1.value == AttributeError
  {
    if SettingsTextRenders(tree) then ([CalculatorSettingsMenu], None) else ([], Some(AttributeError))
  }

  /** The settings the dataclasses build never render the menu: the fee record lacks the names it reads. */
  lemma TypedSettingsMenuRaises(s: Settings)
    ensures !SettingsTextRenders(Encode(s))
    ensures MenuOutcome(Encode(s)) == ([], Some(AttributeError))
  {
    assert Attr(Encode(s), "fees") == Some(EncodeFees(s.fees));
    assert "bank_commission_rub" !in EncodeFees(s.fees).attrs;
  }

  /** A value of the data bag as it lands in the settings object. */
  function JsonOf(v: DataVal): Json {
    match v
    case DStr(s) => JStr(s)
    case DInt(i) => JInt(i)
    case DFloat(r) => JFloat(r)
  }

  /** data.get('cny_rate'): the buffered yuan rate, or None. */
  function BufferedCny(data: map<string, DataVal>): Json {
    if "cny_rate" in data then JsonOf(data["cny_rate"]) else JNull
  }

  /** Assigning to settings.rates.x needs settings.rates to be an instance. */
  predicate RatesAssignable(tree: Node) {
    tree.Record? && "rates" in tree.attrs && tree.attrs["rates"].Record?
  }

  /** settings.rates.cny_to_rub = cny; settings.rates.eur_to_rub = eur. */
  function SetRates(tree: Node, cny: Json, eur: real): (r: Node)
    requires RatesAssignable(tree)
    ensures RatesAssignable(r)
    ensures r.attrs.Keys == tree.attrs.Keys
    ensures r.attrs["rates"].attrs.Keys == tree.attrs["rates"].attrs.Keys + {"cny_to_rub", "eur_to_rub"}
    ensures r.attrs["rates"].attrs["cny_to_rub"] == Leaf(cny)
    ensures r.attrs["rates"].attrs["eur_to_rub"] == Leaf(JFloat(eur))
  {
    var rates := tree.attrs["rates"];
    Record(tree.attrs["rates" := Record(rates.attrs["cny_to_rub" := Leaf(cny)]["eur_to_rub" := Leaf(JFloat(eur))])])
  }

  /** The rate update touches nothing but the two rates: every other attribute, at the top and inside the rates, is kept. */
  lemma SetRatesKeepsOthers(tree: Node, cny: Json, eur: real)
    requires RatesAssignable(tree)
    ensures var r := SetRates(tree, cny, eur);
      (forall k :: k in tree.attrs && k != "rates" ==> r.attrs[k] == tree.attrs[k]) &&
      (forall k :: k in tree.attrs["rates"].attrs && k != "cny_to_rub" && k != "eur_to_rub" ==>
        r.attrs["rates"].attrs[k] == tree.attrs["rates"].attrs[k])
  {
  }

  /** What the administrator's conversation keeps in the bag in its two states. */
  predicate Stage(state: Option<StateId>, data: map<string, DataVal>) {
    match state
    case Some(WaitingForCnyRate) => data == map[]
    case Some(WaitingForEurRate) =>
      "cny_rate" in data && data["cny_rate"].DFloat? && data["cny_rate"].r > 0.0 &&
      data == map["cny_rate" := data["cny_rate"]]
    case _ => true
  }

  /** cancel_admin_action: the context is cleared, the settings are not touched, then the menu is built. */
  method CancelAdminAction(ctx: Context, obj: SettingsObject) returns (replies: seq<Reply>, raised: Option<PyError>)
    modifies ctx
    ensures ctx.state == None && ctx.data == map[]
    ensures replies == [ActionCancelled] + MenuOutcome(obj.tree).0 && raised == MenuOutcome(obj.tree).1
  {
    ctx.Clear();
    var (menu, error) := MenuOutcome(obj.tree);
    replies, raised := [ActionCancelled] + menu, error;
  }

  /** start_setting_rates: a fresh context waiting for the yuan rate. */
  method StartSettingRates(ctx: Context) returns (replies: seq<Reply>)
    modifies ctx
    ensures ctx.state == Some(WaitingForCnyRate) && ctx.data == map[]
    ensures replies == [AskCnyRate]
  {
    ctx.Clear();
    replies := [AskCnyRate];
    ctx.SetState(WaitingForCnyRate);
  }

  /** process_cny_rate: a positive number, a decimal comma allowed, is kept in the bag and the euro rate asked for. */
  method ProcessCnyRate(ctx: Context, text: string) returns (replies: seq<Reply>)
    modifies ctx
    ensures var c := ParseCommaDecimal(text);
      if c.Some? && c.value > 0.0 then
        ctx.data == old(ctx.data)["cny_rate" := DFloat(c.value)] &&
        ctx.state == Some(WaitingForEurRate) && replies == [AskEurRate]
      else
        ctx.data == old(ctx.data) && ctx.state == old(ctx.state) && replies == [RateRejected]
    ensures old(ctx.state) == Some(WaitingForCnyRate) && Stage(old(ctx.state), old(ctx.data)) ==>
      Stage(ctx.state, ctx.data)
  {
    var c := ParseCommaDecimal(text);
    if c.None? || c.value <= 0.0 {
      return [RateRejected];
    }
    if ctx.state == Some(WaitingForCnyRate) && Stage(ctx.state, ctx.data) {
      CnyStage(ctx.data, c.value);
    }
    ctx.UpdateData("cny_rate", DFloat(c.value));
    replies := [AskEurRate];
    ctx.SetState(WaitingForEurRate);
  }

  /**
   * process_eur_rate_and_save: a positive euro rate writes both rates into
   * the live settings, saves them (the outcome of the save is not looked
   * at), clears the context and reports success; then the menu is built.
   * A rejected rate changes nothing; so does a settings object whose rates
   * are no instance, where the first assignment raises.
   */
  method ProcessEurRateAndSave(ctx: Context, obj: SettingsObject, file: SettingsFile, text: string, write: WriteOutcome)
    returns (replies: seq<Reply>, raised: Option<PyError>)
    modifies ctx, obj, file
    ensures var e := ParseCommaDecimal(text);
      !(e.Some? && e.value > 0.0) ==>
        ctx.state == old(ctx.state) && ctx.data == old(ctx.data) &&
        obj.tree == old(obj.tree) && file.state == old(file.state) &&
        replies == [RateRejected] && raised == None
    ensures var e := ParseCommaDecimal(text);
      e.Some? && e.value > 0.0 && !RatesAssignable(old(obj.tree)) ==>
        ctx.state == old(ctx.state) && ctx.data == old(ctx.data) &&
        obj.tree == old(obj.tree) && file.state == old(file.state) &&
        replies == [] && raised == Some(AttributeError)
    ensures var e := ParseCommaDecimal(text);
      e.Some? && e.value > 0.0 && RatesAssignable(old(obj.tree)) ==>
        obj.tree == SetRates(old(obj.tree), BufferedCny(old(ctx.data)), e.value) &&
        (write == Written ==> file.state == Holds(AsDict(obj.tree))) &&
        (write == OpenFailed ==> file.state == old(file.state)) &&
        (write == WriteFailed ==> file.state == Unreadable) &&
        (write == WriteFailedInCharacter ==> file.state == Undecodable) &&
        ctx.state == None && ctx.data == map[] &&
        replies == [RatesUpdated] + MenuOutcome(obj.tree).0 && raised == MenuOutcome(obj.tree).1
  {
    var e := ParseCommaDecimal(text);
    if e.None? || e.value <= 0.0 {
      return [RateRejected], None;
    }
    if !RatesAssignable(obj.tree) {
      return [], Some(AttributeError);
    }
    var updated := SetRates(obj.tree, BufferedCny(ctx.data), e.value);
    obj.tree := updated;
    var _ := SaveSettings(obj, file, write);
    ctx.Clear();
    var (menu, error) := MenuOutcome(updated);
    replies, raised := [RatesUpdated] + menu, error;
  }

  // ---- What the rate update does to the settings ----

  /**
   * With the yuan rate buffered, the settings read back from the updated
   * object are the old ones with exactly the two rates replaced.
   */
  lemma RatesOnlyChange(tree: Node, s: Settings, cny: real, eur: real)
    requires DecodeSettings(tree) == Some(s)
    ensures RatesAssignable(tree)
    ensures DecodeSettings(SetRates(tree, JFloat(cny), eur)) == Some(s.(rates := CurrencyRates(cny, eur)))
  {
    DecodeSettingsParts(tree);
    var t := SetRates(tree, JFloat(cny), eur);
    assert t.attrs["bot"] == tree.attrs["bot"];
    assert t.attrs["fees"] == tree.attrs["fees"];
    assert t.attrs["customs"] == tree.attrs["customs"];
    var rates := t.attrs["rates"];
    assert Attr(rates, "cny_to_rub") == Some(Leaf(JFloat(cny)));
    assert Attr(rates, "eur_to_rub") == Some(Leaf(JFloat(eur)));
  }

  /**
   * Without a buffered yuan rate the yuan rate becomes None: the object no
   * longer reads back as settings, and the next calculation fails.
   */
  lemma MissingCnyBreaksSettings(tree: Node, eur: real)
    requires RatesAssignable(tree)
    ensures DecodeSettings(SetRates(tree, JNull, eur)) == None
  {
    var t := SetRates(tree, JNull, eur);
    assert Attr(t.attrs["rates"], "cny_to_rub") == Some(Leaf(JNull));
  }

  /** The document a successful save writes carries the two new rates. */
  lemma SavedDocumentHoldsRates(tree: Node, cny: real, eur: real)
    requires RatesAssignable(tree)
    ensures var doc := AsDict(SetRates(tree, JFloat(cny), eur));
      doc.JObject? && "rates" in doc.fields && doc.fields["rates"].JObject? &&
      doc.fields["rates"].fields["cny_to_rub"] == JFloat(cny) &&
      doc.fields["rates"].fields["eur_to_rub"] == JFloat(eur)
  {
    var t := SetRates(tree, JFloat(cny), eur);
    var rates := t.attrs["rates"];
    assert AsDict(t).fields["rates"] == AsDict(rates);
    assert AsDict(rates).fields["cny_to_rub"] == AsDict(Leaf(JFloat(cny)));
    assert AsDict(rates).fields["eur_to_rub"] == AsDict(Leaf(JFloat(eur)));
  }

  /** Updating the rates leaves the administrator list, and so every administrator check, as it was. */
  lemma RatesKeepAdmins(tree: Node, cny: Json, eur: real, uid: int)
    requires RatesAssignable(tree)
    ensures Attr(SetRates(tree, cny, eur), "bot") == Attr(tree, "bot")
    ensures AdminIdsContain(SetRates(tree, cny, eur), uid) == AdminIdsContain(tree, uid)
  {
  }

  /** In the euro state the bag holds the yuan rate the previous step accepted. */
  lemma EurStageBuffersCny(data: map<string, DataVal>)
    requires Stage(Some(WaitingForEurRate), data)
    ensures BufferedCny(data).JFloat? && BufferedCny(data).r > 0.0
  {
  }

  /** An accepted yuan rate moves the bag from the yuan state to the euro state. */
  lemma CnyStage(data: map<string, DataVal>, rate: real)
    requires Stage(Some(WaitingForCnyRate), data) && rate > 0.0
    ensures Stage(Some(WaitingForEurRate), data["cny_rate" := DFloat(rate)])
  {
  }
}
