/**
 * The settings records of the bot (bot identity, exchange rates, fees,
 * customs tariffs) with their compiled-in defaults, and the parses of the
 * environment variables read when the settings object is first built.
 */
module Config {
  import opened Wrappers
  import opened Numerals

  /** Duty rates in euro per cm³, keyed by the largest engine volume (cm³) a rate applies to. */
  type DutyTable = map<int, real>

  datatype BotConfig = BotConfig(token: Option<string>, adminIds: seq<int>, trustedChannelId: int)

  datatype CurrencyRates = CurrencyRates(cnyToRub: real, eurToRub: real)

  /** A commission fraction of the car price, and two fixed amounts in roubles. */
  datatype Fees = Fees(bankCommissionPercent: real, companyCommissionRub: real, chinaExpensesRub: real)

  datatype DutyRates = DutyRates(age0To3Years: DutyTable, age3To5Years: DutyTable, ageOlder5Years: DutyTable)

  datatype RecyclingFeeRates = RecyclingFeeRates(under3Years: real, over3Years: real)

  datatype CustomsFees = CustomsFees(baseCustomsFeeRub: real, duty: DutyRates, recycling: RecyclingFeeRates)

  datatype Settings = Settings(bot: BotConfig, rates: CurrencyRates, fees: Fees, customs: CustomsFees)

  /** The environment variables the defaults read; None when a variable is unset. */
  datatype Environment = Environment(botToken: Option<string>, adminIds: Option<string>, trustedChannelId: Option<string>)

  /** The bound that closes each default duty table ("a conventional maximum"). */
  const SentinelBound := 99999

  const DefaultRates := CurrencyRates(10.91, 92.67)
  const DefaultFees := Fees(0.02, 50000.0, 150000.0)
  const DefaultAge3To5: DutyTable :=
    map[1000 := 1.5, 1500 := 1.7, 1800 := 2.5, 2300 := 2.7, 3000 := 3.0, 99999 := 3.6]
  const DefaultOlder5: DutyTable :=
    map[1000 := 3.0, 1500 := 3.2, 1800 := 3.5, 2300 := 4.8, 3000 := 5.0, 99999 := 5.7]
  const DefaultDuty := DutyRates(map[], DefaultAge3To5, DefaultOlder5)
  const DefaultRecycling := RecyclingFeeRates(3400.0, 5200.0)
  const DefaultCustoms := CustomsFees(4269.0, DefaultDuty, DefaultRecycling)

  /**
   * TRUSTED_CHANNEL_ID: the integer it spells when it is set, not blank and
   * a numeral; 0 otherwise. The blank test before the parse changes nothing,
   * since a blank text is no numeral.
   */
  function TrustedChannelId(env: Option<string>): (id: int)
    ensures env.Some? && ParseInt(env.value).Some? ==> id == ParseInt(env.value).value
    ensures env.None? || ParseInt(env.value).None? ==> id == 0
  {
    if env.Some? && env.value != [] && Strip(env.value) != [] then
      match ParseInt(env.value)
      case Some(n) => n
      case None => 0
    else
      0
  }

  /** [int(x) for x in segments if x]: None when some non-empty segment is no numeral (int() raises). */
  function ParseIdSegments(segments: seq<string>): Option<seq<int>>
    decreases |segments|
  {
    if segments == [] then Some([])
    else if segments[0] == [] then ParseIdSegments(segments[1..])
    else
      match ParseInt(segments[0])
      case None => None
      case Some(id) =>
        match ParseIdSegments(segments[1..])
        case None => None
        case Some(rest) => Some([id] + rest)
  }

  /** The admin_ids default: ADMIN_IDS (empty when unset) split on commas, empty segments skipped. */
  function AdminIds(env: Option<string>): Option<seq<int>> {
    ParseIdSegments(SplitOn(if env.Some? then env.value else "", ','))
  }

  /** BotConfig() as built at start-up; None when the admin list does not parse (start-up fails). */
  function DefaultBotConfig(env: Environment): Option<BotConfig> {
    match AdminIds(env.adminIds)
    case None => None
    case Some(ids) => Some(BotConfig(env.botToken, ids, TrustedChannelId(env.trustedChannelId)))
  }

  /** Settings() as built at start-up. */
  function DefaultSettings(env: Environment): Option<Settings> {
    match DefaultBotConfig(env)
    case None => None
    case Some(bot) => Some(Settings(bot, DefaultRates, DefaultFees, DefaultCustoms))
  }

  /** The numeral of each id. */
  function IdNumerals(ids: seq<int>): (parts: seq<string>)
    ensures |parts| == |ids| && forall i :: 0 <= i < |ids| ==> parts[i] == ShowInt(ids[i])
  {
    seq(|ids|, i requires 0 <= i < |ids| => ShowInt(ids[i]))
  }

  /** The comma-separated form of an id list, as ADMIN_IDS would be written. */
  function JoinIds(ids: seq<int>): string {
    Join(IdNumerals(ids), ',')
  }

  /** The table's largest bound is the sentinel. */
  predicate HasSentinel(t: DutyTable) {
    SentinelBound in t && forall b :: b in t ==> b <= SentinelBound
  }

  /** A larger bound never carries a smaller rate. */
  predicate RatesNonDecreasing(t: DutyTable) {
    forall b, c :: b in t && c in t && b <= c ==> t[b] <= t[c]
  }

  /** A numeral written for TRUSTED_CHANNEL_ID is read back; unset or blank gives 0. */
  lemma TrustedChannelIdRoundTrip(n: int, blank: string)
    requires AllSpace(blank)
    ensures TrustedChannelId(Some(ShowInt(n))) == n
    ensures TrustedChannelId(None) == 0 && TrustedChannelId(Some(blank)) == 0
  {
    ParseShowInt(n);
    assert blank + [] + [] == blank;
    StripPadded(blank, [], []);
  }

  /** The id list parses as the concatenation of the parses of its pieces. */
  lemma {:induction false} ParseIdSegmentsConcat(p: seq<string>, q: seq<string>)
    ensures ParseIdSegments(p + q) ==
      match (ParseIdSegments(p), ParseIdSegments(q))
      case (Some(x), Some(y)) => Some(x + y)
      case _ => None
    decreases |p|
  {
    if p == [] {
      assert p + q == q;
      if ParseIdSegments(q).Some? {
        assert [] + ParseIdSegments(q).value == ParseIdSegments(q).value;
      }
    } else {
      var pq := p + q;
      assert pq[0] == p[0];
      assert pq[1..] == p[1..] + q;
      var tail, tailQ, whole := ParseIdSegments(p[1..]), ParseIdSegments(p[1..] + q), ParseIdSegments(q);
      assert tailQ == (match (tail, whole) case (Some(x), Some(y)) => Some(x + y) case _ => None) by {
        ParseIdSegmentsConcat(p[1..], q);
      }
      if p[0] != [] && ParseInt(p[0]).Some? && tail.Some? && whole.Some? {
        var id := ParseInt(p[0]).value;
        assert [id] + (tail.value + whole.value) == [id] + tail.value + whole.value;
      }
    }
  }

  /** The id list fails to parse exactly when some non-empty segment is no numeral. */
  lemma {:induction false} ParseIdSegmentsFails(segments: seq<string>)
    ensures ParseIdSegments(segments).None? <==>
      exists i :: 0 <= i < |segments| && segments[i] != [] && ParseInt(segments[i]).None?
    decreases |segments|
  {
    if segments != [] {
      ParseIdSegmentsFails(segments[1..]);
      if exists i :: 0 <= i < |segments[1..]| && segments[1..][i] != [] && ParseInt(segments[1..][i]).None? {
        var i :| 0 <= i < |segments[1..]| && segments[1..][i] != [] && ParseInt(segments[1..][i]).None?;
        assert segments[i + 1] == segments[1..][i];
      }
      if exists i :: 0 <= i < |segments| && segments[i] != [] && ParseInt(segments[i]).None? {
        var i :| 0 <= i < |segments| && segments[i] != [] && ParseInt(segments[i]).None?;
        if i > 0 {
          assert segments[1..][i - 1] == segments[i];
        }
      }
    }
  }

  /** An unset ADMIN_IDS means no administrators. */
  lemma AdminIdsUnset()
    ensures AdminIds(None) == Some([])
  {
    var parts := SplitOn("", ',');
    assert parts == [""];
    assert parts[1..] == [];
  }

  /** Empty segments are skipped: a doubled comma reads like a single one. */
  lemma AdminIdsSkipsEmpty(a: string, b: string)
    ensures AdminIds(Some(a + ",," + b)) == AdminIds(Some(a + "," + b))
  {
    var ab := SplitOn(a, ',') + SplitOn(b, ',');
    assert a + ",," + b == a + [','] + ([] + [','] + b);
    SplitConcat(a, [] + [','] + b, ',');
    SplitConcat([], b, ',');
    assert [] + [','] + b == [','] + b;
    assert SplitOn([], ',') == [[]];
    var withEmpty := SplitOn(a, ',') + ([[]] + SplitOn(b, ','));
    assert SplitOn(a + ",," + b, ',') == withEmpty;
    assert a + "," + b == a + [','] + b;
    SplitConcat(a, b, ',');
    assert SplitOn(a + "," + b, ',') == ab;
    ParseIdSegmentsConcat(SplitOn(a, ','), [[]] + SplitOn(b, ','));
    ParseIdSegmentsConcat(SplitOn(a, ','), SplitOn(b, ','));
    assert ([[]] + SplitOn(b, ','))[1..] == SplitOn(b, ',');
  }

  /** A list written as comma-separated numerals is read back as the same list. */
  lemma AdminIdsRoundTrip(ids: seq<int>)
    ensures AdminIds(Some(JoinIds(ids))) == Some(ids)
  {
    var parts := IdNumerals(ids);
    if ids == [] {
      assert JoinIds(ids) == [];
      AdminIdsUnset();
    } else {
      forall i | 0 <= i < |parts| ensures ',' !in parts[i] {
        assert forall j :: 0 <= j < |parts[i]| ==> parts[i][j] == '-' || IsDigit(parts[i][j]);
      }
      SplitJoin(parts, ',');
      ShowsParse(ids);
    }
  }

  lemma {:induction false} ShowsParse(ids: seq<int>)
    ensures ParseIdSegments(IdNumerals(ids)) == Some(ids)
    decreases |ids|
  {
    if ids != [] {
      var parts := IdNumerals(ids);
      IdNumeralsTail(ids);
      ShowsParse(ids[1..]);
      ParseShowInt(ids[0]);
      ParseIdSegmentsCons(parts, ids[0], ids[1..]);
      assert [ids[0]] + ids[1..] == ids;
    }
  }

  lemma IdNumeralsTail(ids: seq<int>)
    requires ids != []
    ensures IdNumerals(ids)[0] == ShowInt(ids[0]) && IdNumerals(ids)[0] != []
    ensures IdNumerals(ids)[1..] == IdNumerals(ids[1..])
  {
    assert forall i :: 0 <= i < |ids| - 1 ==> IdNumerals(ids)[1..][i] == IdNumerals(ids[1..])[i];
  }

  /** A non-empty numeral at the head is read in front of the rest. */
  lemma ParseIdSegmentsCons(segments: seq<string>, id: int, rest: seq<int>)
    requires segments != [] && segments[0] != []
    requires ParseInt(segments[0]) == Some(id) && ParseIdSegments(segments[1..]) == Some(rest)
    ensures ParseIdSegments(segments) == Some([id] + rest)
  {
  }

  /** Both default duty tables end at the sentinel bound, and their rates never fall as the bound grows. */
  lemma DefaultTablesWellFormed()
    ensures HasSentinel(DefaultAge3To5) && HasSentinel(DefaultOlder5)
    ensures RatesNonDecreasing(DefaultAge3To5) && RatesNonDecreasing(DefaultOlder5)
    ensures DefaultAge3To5.Keys == DefaultOlder5.Keys
  {
  }

  /** At every bound a car older than five years pays a higher rate than a three-to-five-year-old one. */
  lemma DefaultOlderCarsPayMore()
    ensures forall b :: b in DefaultAge3To5 && b in DefaultOlder5 ==> DefaultAge3To5[b] < DefaultOlder5[b]
  {
  }

  /** The default scalars: positive rates and fees, a 2 % bank commission, a cheaper recycling fee for new cars, no table for cars under three. */
  lemma DefaultScalars()
    ensures DefaultRates.cnyToRub > 0.0 && DefaultRates.eurToRub > 0.0
    ensures DefaultFees.bankCommissionPercent == 0.02
    ensures 0.0 <= DefaultFees.bankCommissionPercent <= 1.0
    ensures DefaultFees.companyCommissionRub > 0.0 && DefaultFees.chinaExpensesRub > 0.0
    ensures DefaultCustoms.baseCustomsFeeRub > 0.0
    ensures 0.0 < DefaultRecycling.under3Years < DefaultRecycling.over3Years
    ensures DefaultDuty.age0To3Years == map[]
  {
  }

  /** Start-up succeeds exactly when ADMIN_IDS parses, and then carries the compiled-in tariffs. */
  lemma DefaultSettingsFromEnvironment(env: Environment)
    ensures DefaultSettings(env).Some? <==> AdminIds(env.adminIds).Some?
    ensures DefaultSettings(env).Some? ==>
      var s := DefaultSettings(env).value;
      s.bot.adminIds == AdminIds(env.adminIds).value && s.bot.token == env.botToken &&
      s.bot.trustedChannelId == TrustedChannelId(env.trustedChannelId) &&
      s.rates == DefaultRates && s.fees == DefaultFees && s.customs == DefaultCustoms
  {
  }
}
