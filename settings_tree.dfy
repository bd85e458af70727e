/**
 * The shared settings object as the program holds it at run time: a tree of
 * dataclass instances whose attributes hold plain values. Loading a stored
 * snapshot may put any JSON value into any attribute, so the tree is untyped;
 * the typed records of Config are read back from it by DecodeSettings.
 */
module SettingsTree {
  import opened Wrappers
  import opened Numerals
  import opened Config

  /** A value as json.load produces it; integers and floats are kept apart, as Python does. */
  datatype Json =
    | JNull
    | JBool(b: bool)
    | JInt(i: int)
    | JFloat(r: real)
    | JStr(s: string)
    | JArray(items: seq<Json>)
    | JObject(fields: map<string, Json>)

  /**
   * An attribute value of the settings object: a dataclass instance with
   * named attributes, a plain value, or a dict keyed by int (a duty table
   * as the defaults build it).
   */
  datatype Node =
    | Record(attrs: map<string, Node>)
    | Leaf(value: Json)
    | IntTable(table: map<int, real>)

  /** The JSON form of a duty table: keys become their numerals, rates floats. */
  function TableJson(t: DutyTable): Json {
    ShowIntInjective();
    JObject(map n | n in t :: ShowInt(n) := JFloat(t[n]))
  }

  function IdsJson(ids: seq<int>): Json {
    JArray(seq(|ids|, i requires 0 <= i < |ids| => JInt(ids[i])))
  }

  function EncodeBot(b: BotConfig): Node {
    Record(map[
      "token" := Leaf(if b.token.Some? then JStr(b.token.value) else JNull),
      "admin_ids" := Leaf(IdsJson(b.adminIds)),
      "trusted_channel_id" := Leaf(JInt(b.trustedChannelId))])
  }

  function EncodeRates(r: CurrencyRates): Node {
    Record(map["cny_to_rub" := Leaf(JFloat(r.cnyToRub)), "eur_to_rub" := Leaf(JFloat(r.eurToRub))])
  }

  function EncodeFees(f: Fees): Node {
    Record(map[
      "bank_commission_percent" := Leaf(JFloat(f.bankCommissionPercent)),
      "company_commission_rub" := Leaf(JFloat(f.companyCommissionRub)),
      "china_expenses_rub" := Leaf(JFloat(f.chinaExpensesRub))])
  }

  function EncodeDuty(d: DutyRates): Node {
    Record(map[
      "age_0_3_years" := IntTable(d.age0To3Years),
      "age_3_5_years" := IntTable(d.age3To5Years),
      "age_older_5_years" := IntTable(d.ageOlder5Years)])
  }

  function EncodeRecycling(r: RecyclingFeeRates): Node {
    Record(map["under_3_years" := Leaf(JFloat(r.under3Years)), "over_3_years" := Leaf(JFloat(r.over3Years))])
  }

  function EncodeCustoms(c: CustomsFees): Node {
    Record(map[
      "base_customs_fee_rub" := Leaf(JFloat(c.baseCustomsFeeRub)),
      "duty" := EncodeDuty(c.duty),
      "recycling" := EncodeRecycling(c.recycling)])
  }

  /** The settings object the dataclass constructors build from typed values. */
  function Encode(s: Settings): (n: Node)
    ensures n.Record? && n.attrs.Keys == {"bot", "rates", "fees", "customs"}
  {
    Record(map[
      "bot" := EncodeBot(s.bot),
      "rates" := EncodeRates(s.rates),
      "fees" := EncodeFees(s.fees),
      "customs" := EncodeCustoms(s.customs)])
  }

  /** getattr(n, name) on a dataclass instance; None when n is no instance or lacks the attribute. */
  function Attr(n: Node, name: string): Option<Node> {
    if n.Record? && name in n.attrs then Some(n.attrs[name]) else None
  }

  function JsonNumber(j: Json): Option<real> {
    match j
    case JInt(i) => Some(i as real)
    case JFloat(r) => Some(r)
    case _ => None
  }

  function Number(n: Node): Option<real> {
    if n.Leaf? then JsonNumber(n.value) else None
  }

  /** A JSON key that is the numeral str() prints for some int. */
  predicate CanonicalKey(k: string) {
    ParseInt(k).Some? && ShowInt(ParseInt(k).value) == k
  }

  /** A duty table read back: an int-keyed dict, or a JSON object with numeral keys and numeric rates. */
  function Table(n: Node): Option<DutyTable> {
    if n.IntTable? then Some(n.table)
    else if n.Leaf? && n.value.JObject? then
      var m := n.value.fields;
      if forall k :: k in m ==> CanonicalKey(k) && JsonNumber(m[k]).Some? then
        Some(ObjectTable(m))
      else
        None
    else
      None
  }

  /** The int-keyed table a JSON object with numeral keys and numeric values spells. */
  function ObjectTable(m: map<string, Json>): (t: DutyTable)
    requires forall k :: k in m ==> CanonicalKey(k) && JsonNumber(m[k]).Some?
    ensures forall k :: k in m && CanonicalKey(k) ==> ParseInt(k).value in t && t[ParseInt(k).value] == JsonNumber(m[k]).value
    ensures forall n :: n in t ==> ShowInt(n) in m
  {
    assert forall k :: k in m ==> CanonicalKey(k);
    map k | k in m :: ParseInt(k).value := JsonNumber(m[k]).value
  }

  function Ids(n: Node): Option<seq<int>> {
    if n.Leaf? && n.value.JArray? && forall i :: 0 <= i < |n.value.items| ==> n.value.items[i].JInt? then
      Some(seq(|n.value.items|, i requires 0 <= i < |n.value.items| => n.value.items[i].i))
    else
      None
  }

  function Token(n: Node): Option<Option<string>> {
    match n
    case Leaf(JStr(s)) => Some(Some(s))
    case Leaf(JNull) => Some(None)
    case _ => None
  }

  function DecodeBot(n: Node): Option<BotConfig> {
    var token :- Attr(n, "token");
    var ids :- Attr(n, "admin_ids");
    var channel :- Attr(n, "trusted_channel_id");
    var t :- Token(token);
    var a :- Ids(ids);
    if channel.Leaf? && channel.value.JInt? then Some(BotConfig(t, a, channel.value.i)) else None
  }

  function DecodeRates(n: Node): Option<CurrencyRates> {
    var cny :- Attr(n, "cny_to_rub");
    var eur :- Attr(n, "eur_to_rub");
    var c :- Number(cny);
    var e :- Number(eur);
    Some(CurrencyRates(c, e))
  }

  function DecodeFees(n: Node): Option<Fees> {
    var bank :- Attr(n, "bank_commission_percent");
    var company :- Attr(n, "company_commission_rub");
    var china :- Attr(n, "china_expenses_rub");
    var b :- Number(bank);
    var c :- Number(company);
    var x :- Number(china);
    Some(Fees(b, c, x))
  }

  function DecodeDuty(n: Node): Option<DutyRates> {
    var young :- Attr(n, "age_0_3_years");
    var middle :- Attr(n, "age_3_5_years");
    var older :- Attr(n, "age_older_5_years");
    var y :- Table(young);
    var m :- Table(middle);
    var o :- Table(older);
    Some(DutyRates(y, m, o))
  }

  function DecodeRecycling(n: Node): Option<RecyclingFeeRates> {
    var under :- Attr(n, "under_3_years");
    var over :- Attr(n, "over_3_years");
    var u :- Number(under);
    var o :- Number(over);
    Some(RecyclingFeeRates(u, o))
  }

  function DecodeCustoms(n: Node): Option<CustomsFees> {
    var base :- Attr(n, "base_customs_fee_rub");
    var duty :- Attr(n, "duty");
    var recycling :- Attr(n, "recycling");
    var b :- Number(base);
    var d :- DecodeDuty(duty);
    var r :- DecodeRecycling(recycling);
    Some(CustomsFees(b, d, r))
  }

  /**
   * The typed settings the attributes spell, when every attribute the
   * records declare is present and holds a value of its declared kind.
   */
  function DecodeSettings(n: Node): Option<Settings> {
    var bot :- Attr(n, "bot");
    var rates :- Attr(n, "rates");
    var fees :- Attr(n, "fees");
    var customs :- Attr(n, "customs");
    var b :- DecodeBot(bot);
    var r :- DecodeRates(rates);
    var f :- DecodeFees(fees);
    var c :- DecodeCustoms(customs);
    Some(Settings(b, r, f, c))
  }

  /** Each key of a table's JSON form is the numeral of one of the table's bounds, carrying that bound's rate. */
  lemma TableJsonKey(t: DutyTable, k: string)
    requires k in TableJson(t).fields
    ensures CanonicalKey(k) && ParseInt(k).value in t
    ensures TableJson(t).fields[k] == JFloat(t[ParseInt(k).value])
  {
    var n :| n in t && ShowInt(n) == k;
    ParseShowInt(n);
  }

  lemma TableJsonNumeralKeyed(t: DutyTable)
    ensures forall k :: k in TableJson(t).fields ==> CanonicalKey(k) && JsonNumber(TableJson(t).fields[k]).Some?
  {
    forall k | k in TableJson(t).fields ensures CanonicalKey(k) && JsonNumber(TableJson(t).fields[k]).Some? {
      TableJsonKey(t, k);
    }
  }

  lemma ObjectTableOfJson(t: DutyTable)
    requires forall k :: k in TableJson(t).fields ==> CanonicalKey(k) && JsonNumber(TableJson(t).fields[k]).Some?
    ensures ObjectTable(TableJson(t).fields) == t
  {
    var back := ObjectTable(TableJson(t).fields);
    ObjectTableKeepsRates(t);
    ObjectTableNoExtra(t);
    assert forall n :: n in back <==> n in t;
    MapsEqual(back, t);
  }

  lemma ObjectTableKeepsRates(t: DutyTable)
    requires forall k :: k in TableJson(t).fields ==> CanonicalKey(k) && JsonNumber(TableJson(t).fields[k]).Some?
    ensures var back := ObjectTable(TableJson(t).fields);
      forall n :: n in t ==> n in back && back[n] == t[n]
  {
    var back := ObjectTable(TableJson(t).fields);
    forall n | n in t ensures n in back && back[n] == t[n] {
      ObjectTableKeepsRate(t, n);
    }
  }

  lemma ObjectTableKeepsRate(t: DutyTable, n: int)
    requires forall k :: k in TableJson(t).fields ==> CanonicalKey(k) && JsonNumber(TableJson(t).fields[k]).Some?
    requires n in t
    ensures var back := ObjectTable(TableJson(t).fields);
      n in back && back[n] == t[n]
  {
    var m := TableJson(t).fields;
    var k := ShowInt(n);
    ParseShowInt(n);
    assert k in m;
    TableJsonKey(t, k);
    assert CanonicalKey(k) && ParseInt(k).value == n;
    assert JsonNumber(m[k]) == Some(t[n]);
    var back := ObjectTable(m);
    assert back[ParseInt(k).value] == JsonNumber(m[k]).value;
  }

  lemma ObjectTableNoExtra(t: DutyTable)
    requires forall k :: k in TableJson(t).fields ==> CanonicalKey(k) && JsonNumber(TableJson(t).fields[k]).Some?
    ensures forall n :: n in ObjectTable(TableJson(t).fields) ==> n in t
  {
    var m := TableJson(t).fields;
    var back := ObjectTable(m);
    forall n | n in back ensures n in t {
      var k := ShowInt(n);
      assert k in m;
      TableJsonKey(t, k);
      ParseShowInt(n);
    }
  }

  /** Two maps with the same keys and the same value at every key are equal. */
  lemma MapsEqual<K, V>(a: map<K, V>, b: map<K, V>)
    requires forall k :: k in a <==> k in b
    requires forall k :: k in a ==> a[k] == b[k]
    ensures a == b
  {
    forall k | k in a ensures k in b { }
    forall k | k in b ensures k in a { }
    forall k | k in a ensures a[k] == b[k] { }
  }

  /** A duty table written as JSON reads back as the same table. */
  lemma TableJsonRoundTrip(t: DutyTable)
    ensures Table(Leaf(TableJson(t))) == Some(t)
  {
    TableJsonNumeralKeyed(t);
    ObjectTableOfJson(t);
    TableOfObject(TableJson(t).fields);
  }

  lemma TableOfObject(m: map<string, Json>)
    requires forall k :: k in m ==> CanonicalKey(k) && JsonNumber(m[k]).Some?
    ensures Table(Leaf(JObject(m))) == Some(ObjectTable(m))
  {
  }

  lemma IdsRoundTrip(ids: seq<int>)
    ensures Ids(Leaf(IdsJson(ids))) == Some(ids)
  {
    var items := IdsJson(ids).items;
    assert seq(|items|, i requires 0 <= i < |items| => items[i].i) == ids;
  }

  lemma DecodeEncodeBot(b: BotConfig)
    ensures DecodeBot(EncodeBot(b)) == Some(b)
  {
    IdsRoundTrip(b.adminIds);
  }

  lemma DecodeEncodeRates(r: CurrencyRates)
    ensures DecodeRates(EncodeRates(r)) == Some(r)
  {
    var n := EncodeRates(r);
    assert Attr(n, "cny_to_rub") == Some(Leaf(JFloat(r.cnyToRub)));
    assert Attr(n, "eur_to_rub") == Some(Leaf(JFloat(r.eurToRub)));
  }

  lemma DecodeEncodeFees(f: Fees)
    ensures DecodeFees(EncodeFees(f)) == Some(f)
  {
    var n := EncodeFees(f);
    assert Attr(n, "bank_commission_percent") == Some(Leaf(JFloat(f.bankCommissionPercent)));
    assert Attr(n, "company_commission_rub") == Some(Leaf(JFloat(f.companyCommissionRub)));
    assert Attr(n, "china_expenses_rub") == Some(Leaf(JFloat(f.chinaExpensesRub)));
  }

  lemma DecodeEncodeDuty(d: DutyRates)
    ensures DecodeDuty(EncodeDuty(d)) == Some(d)
  {
    var n := EncodeDuty(d);
    assert Attr(n, "age_0_3_years") == Some(IntTable(d.age0To3Years));
    assert Attr(n, "age_3_5_years") == Some(IntTable(d.age3To5Years));
    assert Attr(n, "age_older_5_years") == Some(IntTable(d.ageOlder5Years));
  }

  lemma DecodeEncodeRecycling(r: RecyclingFeeRates)
    ensures DecodeRecycling(EncodeRecycling(r)) == Some(r)
  {
    var n := EncodeRecycling(r);
    assert Attr(n, "under_3_years") == Some(Leaf(JFloat(r.under3Years)));
    assert Attr(n, "over_3_years") == Some(Leaf(JFloat(r.over3Years)));
  }

  lemma DecodeEncodeCustoms(c: CustomsFees)
    ensures DecodeCustoms(EncodeCustoms(c)) == Some(c)
  {
    var n := EncodeCustoms(c);
    assert Attr(n, "base_customs_fee_rub") == Some(Leaf(JFloat(c.baseCustomsFeeRub)));
    assert Attr(n, "duty") == Some(EncodeDuty(c.duty));
    assert Attr(n, "recycling") == Some(EncodeRecycling(c.recycling));
    DecodeEncodeDuty(c.duty);
    DecodeEncodeRecycling(c.recycling);
  }

  /** Reading back the settings object the constructors build gives the typed values they were built from. */
  lemma DecodeEncode(s: Settings)
    ensures DecodeSettings(Encode(s)) == Some(s)
  {
    var n := Encode(s);
    assert Attr(n, "bot") == Some(EncodeBot(s.bot));
    assert Attr(n, "rates") == Some(EncodeRates(s.rates));
    assert Attr(n, "fees") == Some(EncodeFees(s.fees));
    assert Attr(n, "customs") == Some(EncodeCustoms(s.customs));
    DecodeEncodeBot(s.bot);
    DecodeEncodeRates(s.rates);
    DecodeEncodeFees(s.fees);
    DecodeEncodeCustoms(s.customs);
  }

  /** The exceptions a handler raises: from the settings object, or KeyError from a missing entry of the data bag. */
  datatype PyError = AttributeError | TypeError | KeyError

  /** Python's `uid == v` for a JSON value v: numbers compare by value, a bool as 0 or 1, anything else is unequal. */
  predicate IdMatches(v: Json, uid: int) {
    match v
    case JInt(i) => i == uid
    case JFloat(r) => r == uid as real
    case JBool(b) => (if b then 1 else 0) == uid
    case _ => false
  }

  /**
   * `uid in ids`: a list is searched by equality, a dict by its keys; a
   * string, a number, null or a dataclass instance cannot be searched for
   * an int and raise TypeError.
   */
  function ContainsId(ids: Node, uid: int): (r: Result<bool, PyError>)
    ensures r.Err? ==> r.error == TypeError
  {
    match ids
    case Record(_) => Err(TypeError)
    case IntTable(t) => Ok(uid in t)
    case Leaf(JArray(items)) => Ok(exists i :: 0 <= i < |items| && IdMatches(items[i], uid))
    case Leaf(JObject(_)) => Ok(false)
    case Leaf(_) => Err(TypeError)
  }

  /** `uid in settings.bot.admin_ids`, the check the administrator filter and the main menu make. */
  function AdminIdsContain(n: Node, uid: int): Result<bool, PyError> {
    match Attr(n, "bot")
    case None => Err(AttributeError)
    case Some(bot) =>
      match Attr(bot, "admin_ids")
      case None => Err(AttributeError)
      case Some(ids) => ContainsId(ids, uid)
  }

  /** On settings built from typed values the check is list membership and never raises. */
  lemma AdminIdsOfEncode(s: Settings, uid: int)
    ensures AdminIdsContain(Encode(s), uid) == Ok(uid in s.bot.adminIds)
  {
    var items := IdsJson(s.bot.adminIds).items;
    assert Attr(Encode(s), "bot") == Some(EncodeBot(s.bot));
    assert Attr(EncodeBot(s.bot), "admin_ids") == Some(Leaf(IdsJson(s.bot.adminIds)));
    if uid in s.bot.adminIds {
      var i :| 0 <= i < |s.bot.adminIds| && s.bot.adminIds[i] == uid;
      assert IdMatches(items[i], uid);
    } else {
      forall i | 0 <= i < |items| ensures !IdMatches(items[i], uid) {
        assert items[i] == JInt(s.bot.adminIds[i]);
      }
    }
  }

  /** The live settings object (the module-level `settings` instance). */
  class SettingsObject {
    var tree: Node

    /** The root is always a dataclass instance: loads merge into it and never replace it. */
    predicate Valid()
      reads this
    {
      tree.Record?
    }

    /** Settings() at start-up, from the environment; start-up fails when ADMIN_IDS does not parse. */
    constructor (env: Environment)
      requires DefaultSettings(env).Some?
      ensures tree == Encode(DefaultSettings(env).value)
      ensures Valid() && DecodeSettings(tree) == DefaultSettings(env)
    {
      tree := Encode(DefaultSettings(env).value);
      DecodeEncode(DefaultSettings(env).value);
    }
  }
}
