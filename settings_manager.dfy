/**
 * Persistence of the shared settings object: merging a loaded JSON document
 * into it attribute by attribute, and the settings.json snapshot written
 * with asdict() and read back with json.load(). The file is modelled as a
 * state (absent, unreadable, not UTF-8, or holding a document) and the outcome of a
 * write is a parameter.
 */
module SettingsManager {
  import opened Wrappers
  import opened Config
  import opened SettingsTree

  /**
   * The value an attribute holds once `value` has been merged into it: a
   * dict aimed at a dataclass instance is merged into that instance, any
   * other value (a dict aimed at a dict-valued attribute included) replaces it.
   */
  function MergeAttr(current: Node, value: Json): Node
    decreases value, 2
  {
    if current.Record? && value.JObject? then Merge(current, value.fields) else Leaf(value)
  }

  /**
   * The instance after merging `data` into it. Only attributes it already
   * has are set, so the attribute names never change.
   */
  function Merge(n: Node, data: map<string, Json>): (r: Node)
    requires n.Record?
    ensures r.Record? && r.attrs.Keys == n.attrs.Keys
    decreases JObject(data), 1
  {
    Record(map k | k in n.attrs :: if k in data then MergeAttr(n.attrs[k], data[k]) else n.attrs[k])
  }

  /**
   * The loop of _update_dataclass_from_dict over the loaded pairs, in any
   * order: a key the instance lacks is skipped, a dict aimed at a nested
   * instance recurses, anything else is assigned.
   */
  method UpdateFromDict(n: Node, data: map<string, Json>) returns (r: Node)
    requires n.Record?
    ensures r == Merge(n, data)
    decreases JObject(data)
  {
    var attrs := n.attrs;
    var todo := data.Keys;
    while todo != {}
      invariant todo <= data.Keys
      invariant attrs.Keys == n.attrs.Keys
      invariant forall k :: k in n.attrs && k in todo ==> attrs[k] == n.attrs[k]
      invariant forall k :: k in n.attrs && k !in todo ==> attrs[k] == Merge(n, data).attrs[k]
      decreases todo
    {
      var key :| key in todo;
      var value := data[key];
      if key in attrs {
        var field := attrs[key];
        if field.Record? && value.JObject? {
          field := UpdateFromDict(field, value.fields);
        } else {
          field := Leaf(value);
        }
        attrs := attrs[key := field];
      }
      todo := todo - {key};
    }
    MapsEqual(attrs, Merge(n, data).attrs);
    r := Record(attrs);
  }

  /**
   * asdict() followed by the JSON encoding: instances become objects, plain
   * values stay, and an int-keyed table gets numeral keys.
   */
  function AsDict(n: Node): (j: Json)
    ensures n.Record? ==> j.JObject? && j.fields.Keys == n.attrs.Keys
    decreases n
  {
    match n
    case Record(attrs) => JObject(map k | k in attrs :: AsDict(attrs[k]))
    case Leaf(v) => v
    case IntTable(t) => TableJson(t)
  }

  /** Merging an empty document changes nothing. */
  lemma MergeEmpty(n: Node)
    requires n.Record?
    ensures Merge(n, map[]) == n
  {
    var r := Merge(n, map[]);
    assert r.attrs.Keys == n.attrs.Keys;
    MapsEqual(r.attrs, n.attrs);
  }

  /**
   * Attributes the document does not name keep their values, keys the
   * instance lacks are ignored, and a table the document names is replaced
   * whole: what it holds afterwards reads exactly as the document's table.
   */
  lemma MergeFieldwise(n: Node, data: map<string, Json>, k: string)
    requires n.Record?
    ensures k !in n.attrs ==> k !in Merge(n, data).attrs
    ensures k in n.attrs && k !in data ==> Merge(n, data).attrs[k] == n.attrs[k]
    ensures k in n.attrs && k in data && !n.attrs[k].Record? ==>
      Merge(n, data).attrs[k] == Leaf(data[k]) && Table(Merge(n, data).attrs[k]) == Table(Leaf(data[k]))
  {
  }

  /** Merging the same document twice gives what merging it once gives. */
  lemma {:induction false} MergeIdempotent(n: Node, data: map<string, Json>)
    requires n.Record?
    ensures Merge(Merge(n, data), data) == Merge(n, data)
    decreases JObject(data), 1
  {
    var once := Merge(n, data);
    var twice := Merge(once, data);
    forall k | k in n.attrs ensures twice.attrs[k] == once.attrs[k] {
      if k in data {
        MergeAttrIdempotent(n.attrs[k], data[k]);
      }
    }
    MapsEqual(twice.attrs, once.attrs);
  }

  lemma {:induction false} MergeAttrIdempotent(current: Node, value: Json)
    ensures MergeAttr(MergeAttr(current, value), value) == MergeAttr(current, value)
    decreases value, 2
  {
    if current.Record? && value.JObject? {
      MergeIdempotent(current, value.fields);
    }
  }

  /** Loading what was just saved leaves the snapshot as it was. */
  lemma {:induction false} MergeOwnSnapshot(n: Node)
    requires n.Record?
    ensures AsDict(Merge(n, AsDict(n).fields)) == AsDict(n)
    decreases n, 1
  {
    var d := AsDict(n).fields;
    var m := Merge(n, d);
    forall k | k in n.attrs ensures AsDict(m.attrs[k]) == AsDict(n.attrs[k]) {
      assert d[k] == AsDict(n.attrs[k]);
      MergeAttrOwnSnapshot(n.attrs[k]);
    }
    var after, before := AsDict(m).fields, AsDict(n).fields;
    forall k | k in after ensures after[k] == before[k] {
      assert after[k] == AsDict(m.attrs[k]);
    }
    MapsEqual(after, before);
  }

  lemma {:induction false} MergeAttrOwnSnapshot(current: Node)
    ensures AsDict(MergeAttr(current, AsDict(current))) == AsDict(current)
    decreases current, 2
  {
    if current.Record? {
      MergeOwnSnapshot(current);
    }
  }

  /** `live` has an instance wherever `e` has one, and a plain value or table wherever `e` has one. */
  predicate Shape(live: Node, e: Node)
    decreases e
  {
    if e.Record? then
      live.Record? && forall k :: k in e.attrs ==> k in live.attrs && Shape(live.attrs[k], e.attrs[k])
    else
      !live.Record?
  }

  /** `m` holds every attribute of `e` with the same plain value, and each table of `e` as itself or as its JSON form. */
  predicate Covers(m: Node, e: Node)
    decreases e
  {
    match e
    case Record(attrs) => m.Record? && forall k :: k in attrs ==> k in m.attrs && Covers(m.attrs[k], attrs[k])
    case Leaf(_) => m == e
    case IntTable(t) => m == e || m == Leaf(TableJson(t))
  }

  /** Merging the snapshot of `e` into an object of the same shape reproduces every attribute of `e`. */
  lemma {:induction false} MergeCovers(live: Node, e: Node)
    requires Shape(live, e)
    ensures Covers(MergeAttr(live, AsDict(e)), e)
    decreases e
  {
    if e.Record? {
      var f := AsDict(e).fields;
      var m := Merge(live, f);
      forall k | k in e.attrs ensures k in m.attrs && Covers(m.attrs[k], e.attrs[k]) {
        assert f[k] == AsDict(e.attrs[k]);
        MergeCovers(live.attrs[k], e.attrs[k]);
      }
    }
  }

  lemma CoveredTable(m: Node, t: DutyTable)
    requires Covers(m, IntTable(t))
    ensures Table(m) == Some(t)
  {
    TableJsonRoundTrip(t);
  }

  lemma CoveredBot(m: Node, b: BotConfig)
    requires Covers(m, EncodeBot(b))
    ensures DecodeBot(m) == Some(b)
  {
    var e := EncodeBot(b).attrs;
    assert "token" in e && "admin_ids" in e && "trusted_channel_id" in e;
    assert Ids(m.attrs["admin_ids"]) == Some(b.adminIds) by {
      IdsRoundTrip(b.adminIds);
    }
  }

  lemma CoveredRates(m: Node, r: CurrencyRates)
    requires Covers(m, EncodeRates(r))
    ensures DecodeRates(m) == Some(r)
  {
    var e := EncodeRates(r).attrs;
    assert "cny_to_rub" in e && "eur_to_rub" in e;
  }

  lemma CoveredFees(m: Node, f: Fees)
    requires Covers(m, EncodeFees(f))
    ensures DecodeFees(m) == Some(f)
  {
    var e := EncodeFees(f).attrs;
    assert "bank_commission_percent" in e && "company_commission_rub" in e && "china_expenses_rub" in e;
  }

  lemma CoveredDuty(m: Node, d: DutyRates)
    requires Covers(m, EncodeDuty(d))
    ensures DecodeDuty(m) == Some(d)
  {
    var e := EncodeDuty(d).attrs;
    assert "age_0_3_years" in e && "age_3_5_years" in e && "age_older_5_years" in e;
    CoveredTable(m.attrs["age_0_3_years"], d.age0To3Years);
    CoveredTable(m.attrs["age_3_5_years"], d.age3To5Years);
    CoveredTable(m.attrs["age_older_5_years"], d.ageOlder5Years);
  }

  lemma CoveredCustoms(m: Node, c: CustomsFees)
    requires Covers(m, EncodeCustoms(c))
    ensures DecodeCustoms(m) == Some(c)
  {
    var e := EncodeCustoms(c).attrs;
    assert "base_customs_fee_rub" in e && "duty" in e && "recycling" in e;
    CoveredDuty(m.attrs["duty"], c.duty);
    CoveredRecycling(m.attrs["recycling"], c.recycling);
  }

  lemma CoveredRecycling(m: Node, r: RecyclingFeeRates)
    requires Covers(m, EncodeRecycling(r))
    ensures DecodeRecycling(m) == Some(r)
  {
    var e := EncodeRecycling(r).attrs;
    assert "under_3_years" in e && "over_3_years" in e;
  }

  lemma CoveredSettings(m: Node, s: Settings)
    requires Covers(m, Encode(s))
    ensures DecodeSettings(m) == Some(s)
  {
    var e := Encode(s).attrs;
    assert "bot" in e && "rates" in e && "fees" in e && "customs" in e;
    CoveredBot(m.attrs["bot"], s.bot);
    CoveredRates(m.attrs["rates"], s.rates);
    CoveredFees(m.attrs["fees"], s.fees);
    CoveredCustoms(m.attrs["customs"], s.customs);
  }

  /** Every object the typed settings can be read from has the shape of every encoded settings value. */
  lemma DecodableShape(live: Node, s: Settings)
    requires live.Record? && "bot" in live.attrs && "rates" in live.attrs && "fees" in live.attrs && "customs" in live.attrs
    requires DecodeBot(live.attrs["bot"]).Some? && DecodeRates(live.attrs["rates"]).Some?
    requires DecodeFees(live.attrs["fees"]).Some? && DecodeCustoms(live.attrs["customs"]).Some?
    ensures Shape(live, Encode(s))
  {
    var bot, rates, fees, customs := live.attrs["bot"], live.attrs["rates"], live.attrs["fees"], live.attrs["customs"];
    DecodableBotShape(bot, s.bot);
    DecodableRatesShape(rates, s.rates);
    DecodableFeesShape(fees, s.fees);
    DecodableCustomsShape(customs, s.customs);
    ShapeOfEncode(live, s);
  }

  lemma ShapeOfEncode(live: Node, s: Settings)
    requires live.Record? && "bot" in live.attrs && "rates" in live.attrs && "fees" in live.attrs && "customs" in live.attrs
    requires Shape(live.attrs["bot"], EncodeBot(s.bot)) && Shape(live.attrs["rates"], EncodeRates(s.rates))
    requires Shape(live.attrs["fees"], EncodeFees(s.fees)) && Shape(live.attrs["customs"], EncodeCustoms(s.customs))
    ensures Shape(live, Encode(s))
  {
    var e := Encode(s).attrs;
    forall k | k in e ensures k in live.attrs && Shape(live.attrs[k], e[k]) {
      if k == "bot" {
        assert e[k] == EncodeBot(s.bot);
      } else if k == "rates" {
        assert e[k] == EncodeRates(s.rates);
      } else if k == "fees" {
        assert e[k] == EncodeFees(s.fees);
      } else {
        assert k == "customs";
        assert e[k] == EncodeCustoms(s.customs);
      }
    }
  }

  lemma DecodeSettingsParts(n: Node)
    requires DecodeSettings(n).Some?
    ensures n.Record? && "bot" in n.attrs && "rates" in n.attrs && "fees" in n.attrs && "customs" in n.attrs
    ensures DecodeBot(n.attrs["bot"]).Some? && DecodeRates(n.attrs["rates"]).Some?
    ensures DecodeFees(n.attrs["fees"]).Some? && DecodeCustoms(n.attrs["customs"]).Some?
  {
  }

  lemma DecodableBotShape(bot: Node, b: BotConfig)
    requires DecodeBot(bot).Some?
    ensures Shape(bot, EncodeBot(b))
  {
    var e := EncodeBot(b).attrs;
    forall k | k in e ensures k in bot.attrs && Shape(bot.attrs[k], e[k]) {
      assert k == "token" || k == "admin_ids" || k == "trusted_channel_id";
    }
  }

  lemma DecodableRatesShape(rates: Node, r: CurrencyRates)
    requires DecodeRates(rates).Some?
    ensures Shape(rates, EncodeRates(r))
  {
    var e := EncodeRates(r).attrs;
    forall k | k in e ensures k in rates.attrs && Shape(rates.attrs[k], e[k]) {
      assert k == "cny_to_rub" || k == "eur_to_rub";
    }
  }

  lemma DecodableFeesShape(fees: Node, f: Fees)
    requires DecodeFees(fees).Some?
    ensures Shape(fees, EncodeFees(f))
  {
    var e := EncodeFees(f).attrs;
    forall k | k in e ensures k in fees.attrs && Shape(fees.attrs[k], e[k]) {
      assert k == "bank_commission_percent" || k == "company_commission_rub" || k == "china_expenses_rub";
    }
  }

  lemma DecodableCustomsShape(customs: Node, c: CustomsFees)
    requires DecodeCustoms(customs).Some?
    ensures Shape(customs, EncodeCustoms(c))
  {
    var duty, recycling := customs.attrs["duty"], customs.attrs["recycling"];
    assert Shape(duty, EncodeDuty(c.duty)) by {
      var e := EncodeDuty(c.duty).attrs;
      forall k | k in e ensures k in duty.attrs && Shape(duty.attrs[k], e[k]) {
        assert k == "age_0_3_years" || k == "age_3_5_years" || k == "age_older_5_years";
      }
    }
    assert Shape(recycling, EncodeRecycling(c.recycling)) by {
      var e := EncodeRecycling(c.recycling).attrs;
      forall k | k in e ensures k in recycling.attrs && Shape(recycling.attrs[k], e[k]) {
        assert k == "under_3_years" || k == "over_3_years";
      }
    }
    var e := EncodeCustoms(c).attrs;
    forall k | k in e ensures k in customs.attrs && Shape(customs.attrs[k], e[k]) {
      assert k == "base_customs_fee_rub" || k == "duty" || k == "recycling";
    }
  }

  /**
   * A saved snapshot of typed settings, loaded into any object the typed
   * settings can be read from (the freshly built defaults at the next
   * start, say), gives back exactly the saved settings.
   */
  lemma SnapshotRestores(live: Node, s: Settings)
    requires live.Record? && DecodeSettings(live).Some?
    ensures DecodeSettings(Merge(live, AsDict(Encode(s)).fields)) == Some(s)
  {
    DecodeSettingsParts(live);
    DecodableShape(live, s);
    MergeCovers(live, Encode(s));
    CoveredSettings(Merge(live, AsDict(Encode(s)).fields), s);
  }

  /** At the next start, loading what the previous run saved restores its settings, whatever the environment. */
  lemma RestartRestores(env: Environment, s: Settings)
    requires DefaultSettings(env).Some?
    ensures DecodeSettings(Merge(Encode(DefaultSettings(env).value), AsDict(Encode(s)).fields)) == Some(s)
  {
    DecodeEncode(DefaultSettings(env).value);
    SnapshotRestores(Encode(DefaultSettings(env).value), s);
  }

  /**
   * Where settings.json stands: no file; a file whose opening or reading
   * raises an OSError, or whose text is no JSON (Unreadable); a file whose
   * bytes are no UTF-8, so that decoding it raises UnicodeDecodeError
   * (Undecodable); or a parsed document.
   */
  datatype FileState = Absent | Unreadable | Undecodable | Holds(doc: Json)

  /**
   * How an attempt to write settings.json ends: written; refused at open
   * (the file is left alone); failed part-way (the truncated file no longer
   * parses); or failed part-way inside a multi-byte character, since the
   * snapshot is written without escaping non-ASCII text (the truncated file
   * is no UTF-8).
   */
  datatype WriteOutcome = Written | OpenFailed | WriteFailed | WriteFailedInCharacter

  /** What load_settings did. */
  datatype LoadOutcome = Merged | DefaultsSaved(saved: bool) | DefaultsKept | Crashed

  class SettingsFile {
    var state: FileState

    constructor (state0: FileState)
      ensures state == state0
    {
      state := state0;
    }
  }

  /** save_settings(): true after a complete write of the snapshot, false when the write fails. */
  method SaveSettings(obj: SettingsObject, file: SettingsFile, write: WriteOutcome) returns (ok: bool)
    modifies file
    ensures ok <==> write == Written
    ensures write == Written ==> file.state == Holds(AsDict(obj.tree))
    ensures write == OpenFailed ==> file.state == old(file.state)
    ensures write == WriteFailed ==> file.state == Unreadable
    ensures write == WriteFailedInCharacter ==> file.state == Undecodable
  {
    match write
    case Written =>
      file.state := Holds(AsDict(obj.tree));
      ok := true;
    case OpenFailed =>
      ok := false;
    case WriteFailed =>
      file.state := Unreadable;
      ok := false;
    case WriteFailedInCharacter =>
      file.state := Undecodable;
      ok := false;
  }

  /**
   * load_settings(): a missing file is created from the settings as they
   * are; an unreadable one is ignored; a document is merged in. Only
   * OSError and JSONDecodeError are caught: a file that is no UTF-8, or a
   * document that is no JSON object (the merge raises), ends start-up.
   */
  method LoadSettings(obj: SettingsObject, file: SettingsFile, write: WriteOutcome) returns (outcome: LoadOutcome)
    requires obj.Valid()
    modifies obj, file
    ensures obj.Valid()
    ensures old(file.state).Absent? ==>
      outcome == DefaultsSaved(write == Written) && obj.tree == old(obj.tree) &&
      file.state == (match write
                     case Written => Holds(AsDict(obj.tree))
                     case OpenFailed => Absent
                     case WriteFailed => Unreadable
                     case WriteFailedInCharacter => Undecodable)
    ensures old(file.state).Unreadable? ==>
      outcome == DefaultsKept && obj.tree == old(obj.tree) && file.state == old(file.state)
    ensures old(file.state).Undecodable? ==>
      outcome == Crashed && obj.tree == old(obj.tree) && file.state == old(file.state)
    ensures old(file.state).Holds? && old(file.state).doc.JObject? ==>
      outcome == Merged && obj.tree == Merge(old(obj.tree), old(file.state).doc.fields) && file.state == old(file.state)
    ensures old(file.state).Holds? && !old(file.state).doc.JObject? ==>
      outcome == Crashed && obj.tree == old(obj.tree) && file.state == old(file.state)
  {
    match file.state
    case Absent =>
      var saved := SaveSettings(obj, file, write);
      outcome := DefaultsSaved(saved);
    case Unreadable =>
      outcome := DefaultsKept;
    case Undecodable =>
      outcome := Crashed;
    case Holds(doc) =>
      if doc.JObject? {
        obj.tree := UpdateFromDict(obj.tree, doc.fields);
        outcome := Merged;
      } else {
        outcome := Crashed;
      }
  }
}
