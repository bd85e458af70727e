/**
 * How one update reaches a handler. The dispatcher's own /start handler is
 * tried first; then the administrator router, whose filter lets only the
 * users in settings.bot.admin_ids through to any of its handlers; then the
 * calculator router, the question router and the request router. Within a
 * router the handlers are tried in the order they are declared; an update
 * no handler takes is dropped.
 */
module Dispatch {
  import opened Wrappers
  import opened Numerals
  import opened SettingsTree
  import opened SettingsManager
  import opened Fsm
  import Calculator
  import Admin
  import Request

  /** A text message or a button press, with the sender's user id. */
  datatype Event = Message(uid: int, text: string) | Callback(uid: int, data: string)

  /** The handler an update ends in. */
  datatype Handler =
    | SendWelcome
    | AdminFilterRaised
    | ShowAdminMenu
    | BackToAdminMenu
    | ShowCalculatorSettings
    | CancelAdminAction
    | StartSettingRates
    | ProcessCnyRate
    | ProcessEurRateAndSave
    | StartCalculation
    | CancelCalculation
    | ProcessCarPrice
    | ProcessYear
    | ProcessFuelType
    | ProcessEngineVolumeAndCalculate
    | ShowFaq
    | StartRequest
    | ProcessPhone
    | ProcessComment
    | Unhandled

  /** The question router's replies are menus and answers over a fixed table; they are not told apart here. */
  datatype Reply = Welcome | Faq | FromAdmin(a: Admin.Reply) | FromCalculator(c: Calculator.Reply) | FromRequest(r: Request.Reply)

  const CalculatorButton := "🚗 Калькулятор"
  const CancelButton := "❌ Отмена"
  const AdminPanelButton := "🔧 Админ-панель"
  const FaqButton := "❓ FAQ"
  /** The data of every question button starts with this. */
  const FaqPrefix := "faq_"

  /** The /start command: the first word of the text, with or without a payload after it. */
  predicate IsStartCommand(text: string) {
    var t := TrimLeft(text);
    |t| >= 6 && t[..6] == "/start" && (|t| == 6 || IsSpace(t[6]))
  }

  predicate IsAdminHandler(h: Handler) {
    h.ShowAdminMenu? || h.BackToAdminMenu? || h.ShowCalculatorSettings? || h.CancelAdminAction? ||
    h.StartSettingRates? || h.ProcessCnyRate? || h.ProcessEurRateAndSave?
  }

  /** What the text filters of the handlers see in a message. */
  datatype TextKind = StartText | PanelText | CalculatorText | CancelText | FaqText | FreeText

  /** What the data filters of the handlers see in a button press. */
  datatype DataKind =
    | AdminMenuData | AdminBackData | SettingsMenuData | AdminCancelData | SetRatesData
    | CalculatorData | FuelData | FaqData | ApplicationData | OtherData

  predicate IsFaqCallback(data: string) {
    data == "main_menu:faq" || data == "back_to_faq" ||
    (|data| >= |FaqPrefix| && data[..|FaqPrefix|] == FaqPrefix)
  }

  function TextKindOf(text: string): TextKind {
    if IsStartCommand(text) then StartText
    else if text == AdminPanelButton then PanelText
    else if text == CalculatorButton then CalculatorText
    else if text == CancelButton then CancelText
    else if text == FaqButton then FaqText
    else FreeText
  }

  function DataKindOf(data: string): DataKind {
    if data == "main_menu:admin" then AdminMenuData
    else if data == "admin_main_menu" then AdminBackData
    else if data == "admin_calculator_menu" then SettingsMenuData
    else if data == "admin_cancel_action" then AdminCancelData
    else if data == "admin_set_rates" then SetRatesData
    else if data == "main_menu:calculator" then CalculatorData
    else if Calculator.IsFuelCallback(data) then FuelData
    else if IsFaqCallback(data) then FaqData
    else if data == "main_menu:application" then ApplicationData
    else OtherData
  }

  /** What the filters see in an update: the kind of its text or of its data. */
  datatype EventKind = MessageOf(text: TextKind) | CallbackOf(data: DataKind)

  function KindOf(ev: Event): EventKind {
    match ev
    case Message(_, text) => MessageOf(TextKindOf(text))
    case Callback(_, data) => CallbackOf(DataKindOf(data))
  }

  /**
   * The handler an update reaches, given what its text or data is, the
   * conversation state and the outcome of the administrator check for its
   * sender.
   */
  function Route(kind: EventKind, state: Option<StateId>, admin: Result<bool, PyError>): Handler {
    match kind
    case MessageOf(k) => RouteMessage(k, state, admin)
    case CallbackOf(k) => RouteCallback(k, state, admin)
  }

  function RouteMessage(kind: TextKind, state: Option<StateId>, admin: Result<bool, PyError>): Handler {
    if kind == StartText then SendWelcome
    else if admin.Err? then AdminFilterRaised
    else if admin.value && kind == PanelText then ShowAdminMenu
    else if admin.value && state == Some(WaitingForCnyRate) then ProcessCnyRate
    else if admin.value && state == Some(WaitingForEurRate) then ProcessEurRateAndSave
    else if kind == CalculatorText then StartCalculation
    else if kind == CancelText then CancelCalculation
    else if state == Some(WaitingForCarPriceCny) then ProcessCarPrice
    else if state == Some(WaitingForYear) then ProcessYear
    else if state == Some(WaitingForEngineVolume) then ProcessEngineVolumeAndCalculate
    else if kind == FaqText then ShowFaq
    else if state == Some(WaitingForPhone) then ProcessPhone
    else if state == Some(WaitingForComment) then ProcessComment
    else Unhandled
  }

  function RouteCallback(kind: DataKind, state: Option<StateId>, admin: Result<bool, PyError>): Handler {
    if admin.Err? then AdminFilterRaised
    else if admin.value && kind == AdminMenuData then ShowAdminMenu
    else if admin.value && kind == AdminBackData then BackToAdminMenu
    else if admin.value && kind == SettingsMenuData then ShowCalculatorSettings
    else if admin.value && kind == AdminCancelData then CancelAdminAction
    else if admin.value && kind == SetRatesData then StartSettingRates
    else if kind == CalculatorData then StartCalculation
    else if state == Some(WaitingForFuelType) && kind == FuelData then ProcessFuelType
    else if kind == FaqData then ShowFaq
    else if kind == ApplicationData then StartRequest
    else Unhandled
  }

  /** The invariant of the shared context: each conversation's bag matches its state. */
  predicate Invariant(state: Option<StateId>, data: map<string, DataVal>) {
    Calculator.Stage(state, data) && Admin.Stage(state, data) && Request.Stage(state, data)
  }

  function AsCalculator(rs: seq<Calculator.Reply>): (out: seq<Reply>)
    ensures |out| == |rs| && forall i :: 0 <= i < |rs| ==> out[i] == FromCalculator(rs[i])
  {
    seq(|rs|, i requires 0 <= i < |rs| => FromCalculator(rs[i]))
  }

  function AsAdmin(rs: seq<Admin.Reply>): (out: seq<Reply>)
    ensures |out| == |rs| && forall i :: 0 <= i < |rs| ==> out[i] == FromAdmin(rs[i])
  {
    seq(|rs|, i requires 0 <= i < |rs| => FromAdmin(rs[i]))
  }

  /** What the choice of a handler tells about the update, the state and the check. */
  lemma RouteFacts(kind: EventKind, state: Option<StateId>, admin: Result<bool, PyError>)
    ensures var h := Route(kind, state, admin);
      (IsAdminHandler(h) ==> admin == Ok(true)) &&
      (h.ProcessCnyRate? ==> state == Some(WaitingForCnyRate) && kind.MessageOf?) &&
      (h.ProcessEurRateAndSave? ==> state == Some(WaitingForEurRate) && kind.MessageOf?) &&
      (h.ProcessCarPrice? ==> state == Some(WaitingForCarPriceCny) && kind.MessageOf?) &&
      (h.ProcessYear? ==> state == Some(WaitingForYear) && kind.MessageOf?) &&
      (h.ProcessEngineVolumeAndCalculate? ==> state == Some(WaitingForEngineVolume) && kind.MessageOf?) &&
      (h.ProcessFuelType? ==> state == Some(WaitingForFuelType) && kind == CallbackOf(FuelData)) &&
      (h.CancelCalculation? ==> kind.MessageOf?) &&
      (h.ProcessPhone? ==> state == Some(WaitingForPhone) && kind.MessageOf?) &&
      (h.ProcessComment? ==> state == Some(WaitingForComment) && kind.MessageOf?)
  {
  }

  lemma FuelDataIsFuelCallback(data: string)
    requires DataKindOf(data) == FuelData
    ensures Calculator.IsFuelCallback(data)
  {
  }

  /** The handlers that only answer: nothing in the context, the settings or the file changes. */
  function AnswerOnly(handler: Handler, tree: Node, admin: Result<bool, PyError>): (seq<Reply>, Option<PyError>)
    requires handler.SendWelcome? || handler.AdminFilterRaised? || handler.ShowAdminMenu? ||
             handler.BackToAdminMenu? || handler.ShowCalculatorSettings? || handler.ShowFaq? || handler.Unhandled?
  {
    match handler
    case SendWelcome => if admin.Ok? then ([Welcome], None) else ([], Some(admin.error))
    case AdminFilterRaised => ([], if admin.Err? then Some(admin.error) else None)
    case ShowAdminMenu => ([FromAdmin(Admin.AdminMainMenu)], None)
    case BackToAdminMenu => ([FromAdmin(Admin.AdminMainMenu)], None)
    case ShowCalculatorSettings => (AsAdmin(Admin.MenuOutcome(tree).0), Admin.MenuOutcome(tree).1)
    case ShowFaq => ([Faq], None)
    case Unhandled => ([], None)
  }

  /** The administrator's conversation steps, each keeping the invariant. */
  method RunAdmin(ctx: Context, obj: SettingsObject, file: SettingsFile, handler: Handler, ev: Event, write: WriteOutcome)
    returns (replies: seq<Reply>, raised: Option<PyError>)
    requires handler.CancelAdminAction? || handler.StartSettingRates? || handler.ProcessCnyRate? || handler.ProcessEurRateAndSave?
    requires handler.ProcessCnyRate? ==> ctx.state == Some(WaitingForCnyRate) && ev.Message?
    requires handler.ProcessEurRateAndSave? ==> ctx.state == Some(WaitingForEurRate) && ev.Message?
    requires Invariant(ctx.state, ctx.data)
    modifies ctx, obj, file
    ensures !handler.ProcessEurRateAndSave? ==> obj.tree == old(obj.tree) && file.state == old(file.state)
    ensures Attr(obj.tree, "bot") == Attr(old(obj.tree), "bot")
    ensures Invariant(ctx.state, ctx.data)
  {
    match handler
    case CancelAdminAction =>
      var rs, e := Admin.CancelAdminAction(ctx, obj);
      replies, raised := AsAdmin(rs), e;
    case StartSettingRates =>
      var rs := Admin.StartSettingRates(ctx);
      replies, raised := AsAdmin(rs), None;
    case ProcessCnyRate =>
      var rs := Admin.ProcessCnyRate(ctx, ev.text);
      replies, raised := AsAdmin(rs), None;
    case ProcessEurRateAndSave =>
      var before, bag := obj.tree, ctx.data;
      var rs, e := Admin.ProcessEurRateAndSave(ctx, obj, file, ev.text, write);
      replies, raised := AsAdmin(rs), e;
      if obj.tree != before {
        Admin.RatesKeepAdmins(before, Admin.BufferedCny(bag), ParseCommaDecimal(ev.text).value, ev.uid);
      }
  }

  /** The calculator's conversation steps, each keeping the invariant; none touches the settings. */
  method RunCalculator(ctx: Context, obj: SettingsObject, handler: Handler, ev: Event, currentYear: int)
    returns (replies: seq<Reply>, raised: Option<PyError>)
    requires handler.StartCalculation? || handler.CancelCalculation? || handler.ProcessCarPrice? ||
             handler.ProcessYear? || handler.ProcessFuelType? || handler.ProcessEngineVolumeAndCalculate?
    requires handler.CancelCalculation? ==> ev.Message?
    requires handler.ProcessCarPrice? ==> ctx.state == Some(WaitingForCarPriceCny) && ev.Message?
    requires handler.ProcessYear? ==> ctx.state == Some(WaitingForYear) && ev.Message?
    requires handler.ProcessEngineVolumeAndCalculate? ==> ctx.state == Some(WaitingForEngineVolume) && ev.Message?
    requires handler.ProcessFuelType? ==> ctx.state == Some(WaitingForFuelType) && ev.Callback? && Calculator.IsFuelCallback(ev.data)
    requires Invariant(ctx.state, ctx.data)
    modifies ctx
    ensures Invariant(ctx.state, ctx.data)
  {
    match handler
    case StartCalculation =>
      var rs := Calculator.StartCalculation(ctx);
      replies, raised := AsCalculator(rs), None;
    case CancelCalculation =>
      var rs, e := Calculator.CancelCalculation(ctx, obj, ev.uid);
      replies, raised := AsCalculator(rs), e;
    case ProcessCarPrice =>
      var rs := Calculator.ProcessCarPrice(ctx, ev.text);
      replies, raised := AsCalculator(rs), None;
    case ProcessYear =>
      var rs := Calculator.ProcessYear(ctx, ev.text);
      replies, raised := AsCalculator(rs), None;
    case ProcessFuelType =>
      Calculator.FuelOfCallback(ev.data);
      var rs, e := Calculator.ProcessFuelType(ctx, obj, ev.data, ev.uid, currentYear);
      replies, raised := AsCalculator(rs), e;
    case ProcessEngineVolumeAndCalculate =>
      var rs, e := Calculator.ProcessEngineVolumeAndCalculate(ctx, obj, ev.text, ev.uid, currentYear);
      replies, raised := AsCalculator(rs), e;
  }

  function AsRequest(rs: seq<Request.Reply>): (out: seq<Reply>)
    ensures |out| == |rs| && forall i :: 0 <= i < |rs| ==> out[i] == FromRequest(rs[i])
  {
    seq(|rs|, i requires 0 <= i < |rs| => FromRequest(rs[i]))
  }

  /**
   * The request conversation's steps, each keeping the invariant; none
   * touches the settings. Entered from any state, it takes the context
   * over with the bag of the conversation it interrupted.
   */
  method RunRequest(ctx: Context, obj: SettingsObject, handler: Handler, ev: Event)
    returns (replies: seq<Reply>, raised: Option<PyError>)
    requires handler.StartRequest? || handler.ProcessPhone? || handler.ProcessComment?
    requires handler.ProcessPhone? ==> ctx.state == Some(WaitingForPhone) && ev.Message?
    requires handler.ProcessComment? ==> ctx.state == Some(WaitingForComment) && ev.Message?
    requires Invariant(ctx.state, ctx.data)
    modifies ctx
    ensures handler.StartRequest? ==> ctx.state == Some(WaitingForPhone) && ctx.data == old(ctx.data)
    ensures handler.ProcessComment? ==> raised != Some(KeyError)
    ensures Invariant(ctx.state, ctx.data)
  {
    match handler
    case StartRequest =>
      var rs := Request.StartRequest(ctx);
      replies, raised := AsRequest(rs), None;
    case ProcessPhone =>
      var rs := Request.ProcessPhone(ctx, ev.text);
      replies, raised := AsRequest(rs), None;
    case ProcessComment =>
      Request.StagedCommentHasPhone(ctx.data, obj.tree, ev.uid);
      var rs, e := Request.ProcessComment(ctx, obj, ev.uid, ev.text);
      replies, raised := AsRequest(rs), e;
  }

  /**
   * One update, handled by the handler Route picks. Only the euro-rate step
   * touches the settings or the file, so no one but an administrator ever
   * changes them; no handler changes who is an administrator; every
   * handler keeps the context's invariant.
   */
  method HandleEvent(ctx: Context, obj: SettingsObject, file: SettingsFile, ev: Event, write: WriteOutcome, currentYear: int)
    returns (handler: Handler, replies: seq<Reply>, raised: Option<PyError>)
    requires Invariant(ctx.state, ctx.data)
    modifies ctx, obj, file
    ensures handler == Route(KindOf(ev), old(ctx.state), AdminIdsContain(old(obj.tree), ev.uid))
    ensures handler != ProcessEurRateAndSave ==> obj.tree == old(obj.tree) && file.state == old(file.state)
    ensures AdminIdsContain(old(obj.tree), ev.uid) != Ok(true) ==>
      obj.tree == old(obj.tree) && file.state == old(file.state)
    ensures Attr(obj.tree, "bot") == Attr(old(obj.tree), "bot")
    ensures Invariant(ctx.state, ctx.data)
  {
    var admin := AdminIdsContain(obj.tree, ev.uid);
    var kind := KindOf(ev);
    handler := Route(kind, ctx.state, admin);
    RouteFacts(kind, ctx.state, admin);
    if handler.SendWelcome? || handler.AdminFilterRaised? || handler.ShowAdminMenu? ||
       handler.BackToAdminMenu? || handler.ShowCalculatorSettings? || handler.ShowFaq? || handler.Unhandled? {
      replies, raised := AnswerOnly(handler, obj.tree, admin).0, AnswerOnly(handler, obj.tree, admin).1;
    } else if IsAdminHandler(handler) {
      replies, raised := RunAdmin(ctx, obj, file, handler, ev, write);
    } else if handler.StartRequest? || handler.ProcessPhone? || handler.ProcessComment? {
      replies, raised := RunRequest(ctx, obj, handler, ev);
    } else {
      if handler.ProcessFuelType? {
        FuelDataIsFuelCallback(ev.data);
      }
      replies, raised := RunCalculator(ctx, obj, handler, ev, currentYear);
    }
  }

  // ---- Properties of the routing ----

  /** The administrator filter: someone the check does not confirm never reaches an administrator handler. */
  lemma OnlyAdminsReachAdminHandlers(kind: EventKind, state: Option<StateId>, admin: Result<bool, PyError>)
    requires admin != Ok(true)
    ensures !IsAdminHandler(Route(kind, state, admin))
  {
  }

  /**
   * A check that raises stops every update except /start: the
   * administrator router comes first and its filter raises before any
   * later router is tried.
   */
  lemma RaisingCheckStopsEverything(kind: EventKind, state: Option<StateId>, e: PyError)
    requires kind != MessageOf(StartText)
    ensures Route(kind, state, Err(e)) == AdminFilterRaised
  {
  }

  /**
   * While an administrator is asked for a rate, every text but /start and
   * the panel button is read as the rate, the calculator's cancel button
   * included (CancelButtonKind): it does not end the rate conversation.
   */
  lemma RateStatesTakeText(kind: TextKind, state: Option<StateId>)
    requires state == Some(WaitingForCnyRate) || state == Some(WaitingForEurRate)
    requires kind != StartText && kind != PanelText
    ensures Route(MessageOf(kind), state, Ok(true)) ==
      (if state == Some(WaitingForCnyRate) then ProcessCnyRate else ProcessEurRateAndSave)
  {
  }

  lemma CancelButtonKind()
    ensures TextKindOf(CancelButton) == CancelText
  {
    var t := CancelButton;
    assert !IsSpace(t[0]);
    assert TrimLeft(t) == t;
    assert !IsStartCommand(t) by { assert t[..6][0] != '/'; }
    assert |t| == 8 && |AdminPanelButton| == 14 && |CalculatorButton| == 13 && |FaqButton| == 5;
  }

  /** The cancel button's text is no number, so a rate step refuses it. */
  lemma CancelButtonNoNumber()
    ensures ParseCommaDecimal(CancelButton) == None
  {
    assert CancelButton[0] == '❌';
    LeadingSymbolNoNumber(CancelButton);
  }

  /**
   * A user, administrator or not, in one of the calculator's text states
   * whose text is no command or button is answered by the calculator's
   * handler for that state.
   */
  lemma CalculatorStatesTakeText(state: StateId, isAdmin: bool)
    requires state.WaitingForCarPriceCny? || state.WaitingForYear? || state.WaitingForEngineVolume?
    ensures Route(MessageOf(FreeText), Some(state), Ok(isAdmin)) ==
      match state
      case WaitingForCarPriceCny => ProcessCarPrice
      case WaitingForYear => ProcessYear
      case _ => ProcessEngineVolumeAndCalculate
  {
  }
  /**
   * The request button starts a request from any state, in the middle of a
   * calculation or a rate update too; then free text is the phone, and
   * after it the comment.
   */
  lemma RequestTakesOver(state: Option<StateId>, isAdmin: bool)
    ensures Route(CallbackOf(ApplicationData), state, Ok(isAdmin)) == StartRequest
    ensures Route(MessageOf(FreeText), Some(WaitingForPhone), Ok(isAdmin)) == ProcessPhone
    ensures Route(MessageOf(FreeText), Some(WaitingForComment), Ok(isAdmin)) == ProcessComment
  {
  }

  lemma ApplicationButtonKind()
    ensures DataKindOf("main_menu:application") == ApplicationData
  {
    var d := "main_menu:application";
    assert d[..|Calculator.FuelPrefix|][0] != Calculator.FuelPrefix[0];
    assert d[..|FaqPrefix|][0] != FaqPrefix[0];
    assert d != "main_menu:faq" by { assert d[10] != "main_menu:faq"[10]; }
  }
}
