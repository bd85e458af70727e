# Car import cost bot — a verified model of its core

The bot quotes what a car bought in China costs once it is in Russia. A user
answers four questions in a Telegram conversation: the price in yuan, the year
of manufacture, the fuel, and the engine volume. The engine then turns the
answers and the current settings into an itemised cost in roubles:

- the price converted at the yuan rate;
- the bank's commission on that price;
- the company's fixed commission and the fixed expenses in China;
- customs: the duty, the flat clearance fee and the recycling fee;
- the grand total.

An administrator can change the yuan and euro rates in a second, two-step
conversation. The new rates are written into the shared settings object and
saved to `settings.json`. At start-up the saved snapshot is merged back into
the compiled-in defaults. A third conversation takes a request: the user's
phone and a comment are collected and sent to every administrator.

This Dafny project models that core:

- `config.dfy` (module `Config`): the typed settings records and their
  defaults, the `TRUSTED_CHANNEL_ID` parser and the `ADMIN_IDS` list parser.
- `calculator_logic.dfy` (`CalculatorLogic`): the cost engine.
  - Money is `real`.
  - The current year is a parameter.
  - The duty-table scan is a recursive function over the bounds in ascending
    order.
- `settings_tree.dfy` (`SettingsTree`): the live settings object.
  - It is an untyped tree of dataclass instances (`Node`), because a loaded
    snapshot can put any JSON value into any attribute.
  - `DecodeSettings` reads the typed records back from it.
  - `AdminIdsContain` models the administrator check `uid in
    settings.bot.admin_ids`, including the cases where it raises.
- `settings_manager.dfy` (`SettingsManager`):
  - the recursive merge of a loaded document into the object, as a function
    and as the in-place loop that implements it;
  - the `asdict` snapshot;
  - `save_settings` and `load_settings` against an abstract file.
- `fsm.dfy` (`Fsm`): the per-user conversation context, a class with a
  state and a data bag.
- `calculator.dfy` (`Calculator`): one method per handler of the cost
  conversation, and the invariant that ties each state to the exact contents
  of the bag.
- `admin.dfy` (`Admin`): the handlers of the rate conversation and what the
  rate update does to the settings and to the saved snapshot.
- `request.dfy` (`Request`): the handlers of the request conversation, which
  share the same per-user context.
- `dispatch.dfy` (`Dispatch`): how an update reaches a handler.
  - The dispatcher's `/start` handler is tried first, then the
    administrator router behind its filter, then the calculator, question
    and request routers.
  - One method, `HandleEvent`, runs the chosen handler. It proves that
    only the euro-rate step of an administrator changes the settings or the
    file, and that every handler keeps the context's invariant.
- `numerals.dfy` (`Numerals`): Python's `int()`, `float()`, `str.strip()`
  and `str.split()` on text, as far as the core uses them.
- `wrappers.dfy` (`Wrappers`): `Option` and `Result`.

## Model

| member | source | states |
|---|---|---|
| `CalculatorLogic.CalculateTotalCost` | core/calculator_logic.py:78-116 | A successful calculation has a numeric `car_price_cny`. Its rouble price is that price times the yuan rate. The bank commission is that rouble price times the commission fraction. The company commission and the China expenses are the settings' fixed fees. The customs total is duty plus clearance fee plus recycling fee. The grand total is the sum of the five parts, with no rounding. |
| `CalculatorLogic.IndividualCustoms` | core/calculator_logic.py:24-76 | The duty in roubles is the euro duty times the euro rate. The clearance fee is the base fee for every car. The recycling fee is chosen by age. The customs total is the sum of the three. |
| `CalculatorLogic.CustomsForIndividual` | core/calculator_logic.py:24-56 | Without a `year` entry the calculation raises `KeyError('year')`. A successful result needs the year, the volume and the price in the bag and a non-zero euro rate; its clearance fee is the base fee and its total is duty plus clearance fee plus recycling fee. |
| `CalculatorLogic.UnreadVolumeIgnored` | core/calculator_logic.py:31-56 | A volume held as text is never read when the car is at least three years old and its bracket's table is empty: the customs compute with no duty. A float year is accepted like an int one. |
| `CalculatorLogic.TextVolumeRaises` | core/calculator_logic.py:39-56 | Where the duty computes with the volume, under three years or on a non-empty table, a volume held as text raises `TypeError`. |
| `CalculatorLogic.SortedBounds` | core/calculator_logic.py:53 | The bounds the scan visits are all keys of the table. |
| `CalculatorLogic.Lookup` | core/calculator_logic.py:31-34 | Reading a key of the data bag succeeds exactly when the key is present, and a missing key raises `KeyError` naming it. |
| `CalculatorLogic.Max` | core/calculator_logic.py:44 | `max(a, b)` is at least both arguments and equal to one of them. |
| `CalculatorLogic.SortedBoundsAscending` | core/calculator_logic.py:53 | The table's bounds are visited in strictly ascending numeric order. |
| `CalculatorLogic.SortedBoundsComplete` | core/calculator_logic.py:53 | The scan visits every bound of the table. |
| `CalculatorLogic.ScanLeastFit` | core/calculator_logic.py:53-56 | The early-exit scan over ascending bounds stops at the least bound the volume does not exceed and takes its rate. |
| `CalculatorLogic.ScanNoFit` | core/calculator_logic.py:53-56 | When the volume exceeds every bound the scan never assigns, and the rate stays 0. |
| `CalculatorLogic.TableRateLeastFit` | core/calculator_logic.py:53-56 | A table's rate for a volume is the rate of the least bound that volume does not exceed. |
| `CalculatorLogic.TableDutyLeastFit` | core/calculator_logic.py:53-56 | The table duty in euro is the rate of the least bound the volume fits under, times the volume. |
| `CalculatorLogic.TableDutyNoFit` | core/calculator_logic.py:37-56 | A volume above every bound of the table pays no table duty: the duty keeps its initial 0. |
| `CalculatorLogic.LeastFitOf` | core/calculator_logic.py:53-56 | Whenever some bound fits the volume, a least fitting bound exists, so the scan always stops at a bound. |
| `CalculatorLogic.TableDutyMonotone` | core/calculator_logic.py:53-56 | On a table whose rates never fall as the bound grows, a larger volume that still fits under a bound never pays less duty. |
| `CalculatorLogic.TableRateMonotone` | core/calculator_logic.py:53-56 | On such a table the rate is non-negative and never falls as the volume grows, while the volume fits under a bound. |
| `CalculatorLogic.UnderThreeDuty` | core/calculator_logic.py:39-44 | Under three years the duty in roubles is at least 48 % of the rouble price and at least 2.5 € per cm³ in roubles, and it equals one of the two. |
| `CalculatorLogic.TableBracketDuty` | core/calculator_logic.py:45-56 | From three years on, the duty is the rate of the least fitting bound of the age bracket's table times the volume, or 0 when no bound fits. |
| `CalculatorLogic.AgeBrackets` | core/calculator_logic.py:39-67 | At the boundaries the code as written gives: age 2 uses the price or volume rule; ages 3 and 5 use the three-to-five table; ages 5.5, which a float year gives, and 6 use the older table. The recycling fee is the under-three fee at age 3 and the over-three fee at age 4. |
| `CalculatorLogic.ElectricDuty` | core/calculator_logic.py:39-58 | An electric car, volume 0, pays no duty from three years on, and 48 % of its price under three years. |
| `CalculatorLogic.OtherPayerNoCustoms` | core/calculator_logic.py:101-114 | For any payer type other than a private buyer the calculation succeeds, customs stay all zero, and the total leaves them out. |
| `CalculatorLogic.CompletedAnswersCompute` | core/calculator_logic.py:29-114 | The bag of a completed conversation fails exactly when the euro rate is 0, with `ZeroDivisionError`. Otherwise its customs are the private buyer's customs for a car `currentYear - year` old. |
| `CalculatorLogic.DefaultAge3To5Bounds` | core/config.py:48-55 | The default three-to-five table has exactly the bounds 1000, 1500, 1800, 2300, 3000 and 99999. |
| `CalculatorLogic.DefaultMidEngine` | core/calculator_logic.py:53-56 | With the default three-to-five table a 1998 cm³ engine pays the 2300 cm³ rate of 2.7 € per cm³. |
| `CalculatorLogic.DefaultBoundInclusive` | core/calculator_logic.py:54 | Bounds are inclusive: a 3000 cm³ engine pays the 3000 cm³ rate. |
| `CalculatorLogic.DefaultPastBound` | core/calculator_logic.py:54-55 | One cm³ more, 3001 cm³, falls to the 99999 sentinel's rate. |
| `CalculatorLogic.DefaultAboveSentinel` | core/calculator_logic.py:37 | An engine above the 99999 sentinel falls off the default older-cars table and pays no duty. |
| `Config.TrustedChannelId` | core/config.py:5-13 | The channel id is the parsed integer when the variable is set and spells one. It is 0 when the variable is unset or not a numeral. |
| `Config.TrustedChannelIdRoundTrip` | core/config.py:5-13 | The numeral of any integer reads back as that integer. An unset or blank variable gives 0. |
| `Config.ParseIdSegmentsFails` | core/config.py:19 | The id list fails to parse, so start-up fails, exactly when some non-empty segment is no integer numeral. |
| `Config.ParseIdSegmentsConcat` | core/config.py:19 | The list comprehension over two runs of segments is the concatenation of the two results, and fails when either fails. |
| `Config.AdminIdsUnset` | core/config.py:19 | An unset `ADMIN_IDS` gives no administrators. |
| `Config.AdminIdsSkipsEmpty` | core/config.py:19 | Empty segments are skipped: a doubled comma reads like a single one. |
| `Config.AdminIdsRoundTrip` | core/config.py:19 | Any id list written as comma-separated numerals reads back as the same list. |
| `Config.DefaultTablesWellFormed` | core/config.py:48-63 | Both default duty tables end at the sentinel bound 99999, which is their largest. Their rates never fall as the bound grows, and they share the same bounds. |
| `Config.DefaultOlderCarsPayMore` | core/config.py:49-62 | At every bound, the older-than-five table's rate is strictly above the three-to-five table's rate. |
| `Config.DefaultScalars` | core/config.py:26-74 | The default rates and fixed fees are positive. The bank commission is the fraction 0.02, within [0, 1]. The under-three recycling fee is below the over-three fee. The under-three duty table is empty. |
| `Config.DefaultSettingsFromEnvironment` | core/config.py:15-88 | Building the settings succeeds exactly when `ADMIN_IDS` parses. Then the settings carry the parsed ids, the token and the channel id from the environment, and the compiled-in tariffs. |
| `Numerals.CommaDecimal` | bot_handlers/calculator.py:91 | A decimal written with a comma, such as `12,5`, reads as the same number written with a point. |
| `Numerals.LeadingSymbolNoNumber` | bot_handlers/calculator.py:91 | Text that starts with a character that is not a digit, a space, a sign or a decimal mark is no number. |
| `Numerals.ParseShowInt` | core/config.py:10 | `int(str(n)) == n` for every integer. |
| `Numerals.ShowIntInjective` | core/settings_manager.py:27 | Distinct integers print as distinct numerals, so a table's keys stay distinct as JSON strings. |
| `Numerals.ParseIntIsFloat` | bot_handlers/calculator.py:91 | Whatever `int()` accepts, `float()` accepts as the same number. |
| `Numerals.ParseIntCharset` | bot_handlers/calculator.py:177 | Text `int()` accepts holds only digits, whitespace and signs. |
| `Numerals.StripIdempotent` | bot_handlers/calculator.py:107 | Stripped text has no surrounding whitespace, and stripping it again changes nothing. |
| `Numerals.StripPadded` | core/config.py:8 | Stripping removes exactly the surrounding whitespace. |
| `Numerals.JoinSplit` | core/config.py:19 | Splitting at a separator and joining with it gives the text back. |
| `Numerals.SplitJoin` | core/config.py:19 | Pieces without the separator, joined and split again, are the same pieces. |
| `Numerals.SplitConcat` | core/config.py:19 | Splitting `a + sep + b` gives the pieces of `a` followed by the pieces of `b`. |
| `Numerals.SplitAt` | bot_handlers/calculator.py:125 | The first piece of a split ends at the first separator, and the rest is the split of what follows it. |
| `SettingsTree.DecodeEncode` | core/config.py:78-88 | The settings object built from typed records reads back as exactly those records. |
| `SettingsTree.TableJsonRoundTrip` | core/calculator_logic.py:52-53 | A duty table whose int keys became JSON strings reads back, through `int()` on the keys, as the same table. |
| `SettingsTree.IdsRoundTrip` | core/settings_manager.py:27 | A saved administrator list reads back as the same list. |
| `SettingsTree.ContainsId` | bot_handlers/admin.py:15 | The membership test can raise only `TypeError`. A list is searched by equality and a dict by its keys. Text, a number, null or an instance raise. |
| `SettingsTree.AdminIdsOfEncode` | bot_handlers/admin.py:12-15 | On settings built from typed records, the administrator check is list membership and never raises. |
| `SettingsTree.SettingsObject.constructor` | core/config.py:88 | The shared settings object at start-up is the tree of the default settings and reads back as them. |
| `SettingsManager.Merge` | core/settings_manager.py:10-20 | Merging a document never adds or removes an attribute of an instance. |
| `SettingsManager.UpdateFromDict` | core/settings_manager.py:10-20 | The in-place loop over the loaded pairs, in any order, ends with what `Merge` specifies. |
| `SettingsManager.AsDict` | core/settings_manager.py:27 | The snapshot of an instance is a JSON object with the same attribute names. |
| `SettingsManager.MergeEmpty` | core/settings_manager.py:11-13 | Merging an empty document leaves the settings unchanged. |
| `SettingsManager.MergeFieldwise` | core/settings_manager.py:12-20 | A key the instance lacks is ignored. An attribute the document does not name keeps its value. A named attribute that is no instance, a duty table included, is replaced wholesale and reads back exactly as the document's value. |
| `SettingsManager.MergeIdempotent` | core/settings_manager.py:10-20 | Merging the same document twice gives what merging it once gives. |
| `SettingsManager.MergeOwnSnapshot` | core/settings_manager.py:38-43 | Loading the snapshot just saved leaves the snapshot as it was. |
| `SettingsManager.MergeCovers` | core/settings_manager.py:15-20 | Merging the snapshot of a tree into an object of the same shape reproduces every attribute of that tree. |
| `SettingsManager.SnapshotRestores` | core/settings_manager.py:22-53 | Saved typed settings, merged into any object the typed settings can be read from, read back as exactly the saved settings. |
| `SettingsManager.RestartRestores` | core/settings_manager.py:38-43 | At the next start, loading what the previous run saved restores its settings over the new defaults, whatever the environment. |
| `SettingsManager.SaveSettings` | core/settings_manager.py:22-31 | The result is true exactly after a complete write, and the file then holds the snapshot of the settings. A failed open leaves the file alone. A write failing part-way leaves it unparseable, or not UTF-8 when it stops inside a multi-byte character. |
| `SettingsManager.LoadSettings` | core/settings_manager.py:33-53 | A missing file is created from the unchanged defaults. A file that cannot be opened or read, or whose text is no JSON, is ignored. A file that is no UTF-8 raises, as does any document other than a JSON object, with the settings and the file left as they are. A JSON object is merged in. |
| `Calculator.StartCalculation` | bot_handlers/calculator.py:49-67 | Any earlier session is discarded. The bag holds only the private-buyer payer type, and the state is the price question. |
| `Calculator.CancelCalculation` | bot_handlers/calculator.py:69-85 | Outside any state nothing changes. Otherwise state and bag are cleared before the administrator check. When the check raises, the error escapes with no reply sent. |
| `Calculator.ProcessCarPrice` | bot_handlers/calculator.py:87-101 | A text that reads as a number above 0, commas taken as points, is stored and the state moves to the year. Anything else leaves state and bag unchanged. The stage invariant is kept. |
| `Calculator.ProcessYear` | bot_handlers/calculator.py:103-120 | An integer strictly between 1980 and 2026 is stored with the passenger body type, and the state moves to the fuel. Anything else leaves state and bag unchanged. The stage invariant is kept. |
| `Calculator.ProcessFuelType` | bot_handlers/calculator.py:122-143 | The text between the first colon and the next one (to the end when there is none) is stored as the fuel. Electric stores volume and power 0 and calculates at once, ending cleared. Any other fuel moves to the volume state. The stage invariant is kept. |
| `Calculator.ProcessAndCalculate` | bot_handlers/calculator.py:145-170 | The bag is taken and the context cleared before the engine runs. The reply is the report, or an apology when the engine or the settings fail. An administrator check that raises escapes after the progress message. |
| `Calculator.ProcessEngineVolumeAndCalculate` | bot_handlers/calculator.py:173-187 | A positive integer is stored with power 0 and the calculation runs. A `TypeError` escaping the calculation is answered with the volume complaint. Any other text changes nothing. |
| `Calculator.StartStage` | bot_handlers/calculator.py:60-67 | Starting leaves the bag the price state expects. |
| `Calculator.PriceStage` | bot_handlers/calculator.py:94-99 | An accepted price moves the bag from the price state to the year state. |
| `Calculator.YearStage` | bot_handlers/calculator.py:111-118 | An accepted year moves the bag to the fuel state, with the price kept. |
| `Calculator.FuelStage` | bot_handlers/calculator.py:126-142 | A fuel other than electric moves the bag to the volume state, with price and year kept. |
| `Calculator.CompletedBag` | bot_handlers/calculator.py:180-181 | The bag of a finished conversation is exactly the engine's completed input: payer, price, year, body type, fuel, volume and power 0. |
| `Calculator.CompletedConversationReports` | bot_handlers/calculator.py:147-168 | On readable settings, a finished conversation gets an apology exactly when the euro rate is 0. Its report's customs are the private buyer's customs for the car's age, volume and price. |
| `Calculator.FuelOfCallback` | bot_handlers/calculator.py:122-125 | Button data with the fuel prefix always splits into at least two parts. The fuel read is the text after the prefix up to the next colon, or all of it when there is none. |
| `Calculator.DecimalVolumeRejected` | bot_handlers/calculator.py:177 | A volume written with a decimal point or comma, such as `1.6`, is refused. |
| `Admin.MenuOutcome` | bot_handlers/admin.py:58-69 | The menu is shown, with no error, exactly when the settings text renders. Otherwise nothing is sent and the error is `AttributeError`. |
| `Admin.SetRates` | bot_handlers/admin.py:158-159 | The updated object keeps its attribute names. Its rates gain or keep `cny_to_rub` and `eur_to_rub`, set to the buffered and the new value, and no other attribute name. |
| `Admin.SetRatesKeepsOthers` | bot_handlers/admin.py:158-159 | Every attribute but `rates`, and every attribute of the rates but the two assigned, keeps its value. |
| `Admin.TypedSettingsMenuRaises` | bot_handlers/admin.py:58-69 | The settings menu never renders on settings built from the records, because the fee record lacks attributes it reads. Building it raises `AttributeError`. |
| `Admin.CancelAdminAction` | bot_handlers/admin.py:101-112 | State and bag are cleared and the settings are untouched. Then the menu is shown, or its `AttributeError` raised. |
| `Admin.StartSettingRates` | bot_handlers/admin.py:116-125 | The bag is emptied and the state becomes the yuan-rate question. |
| `Admin.ProcessCnyRate` | bot_handlers/admin.py:127-144 | A positive number, comma allowed, is buffered as `cny_rate` and the state moves to the euro rate. Anything else leaves state and buffer unchanged. The stage invariant is kept. |
| `Admin.ProcessEurRateAndSave` | bot_handlers/admin.py:146-180 | An invalid rate changes nothing. A valid one sets the yuan rate to the buffered value and the euro rate to the new one. It then saves, with the file following the write outcome. The context is cleared and success is reported whatever the save returned. Rates that are no instance raise and change nothing. |
| `Admin.RatesOnlyChange` | bot_handlers/admin.py:154-159 | With a yuan rate buffered, the settings read back after the update are the old ones with exactly the two rates replaced. |
| `Admin.MissingCnyBreaksSettings` | bot_handlers/admin.py:155-158 | Without a buffered yuan rate the yuan rate becomes `None`, and the settings no longer read back. |
| `Admin.SavedDocumentHoldsRates` | bot_handlers/admin.py:158-162 | The snapshot a successful save writes carries the two new rates. |
| `Admin.RatesKeepAdmins` | bot_handlers/admin.py:158-159 | Updating the rates leaves the administrator list, and every administrator check, as it was. |
| `Admin.EurStageBuffersCny` | bot_handlers/admin.py:154-155 | In the euro-rate state the buffer holds the positive yuan rate the previous step accepted. |
| `Admin.CnyStage` | bot_handlers/admin.py:134-139 | An accepted yuan rate moves the bag from the yuan state to the euro state. |
| `Dispatch.HandleEvent` | main.py:50-56 | The handler run is the one `Route` picks. Only the euro-rate step changes the settings or the file, so only an administrator can. No handler changes the administrator list. Every handler keeps the context invariant. |
| `Dispatch.RunAdmin` | bot_handlers/admin.py:101-180 | Of the rate conversation's steps only the euro step touches settings or file, and each step keeps the invariant. |
| `Dispatch.RunCalculator` | bot_handlers/calculator.py:49-187 | Each step of the cost conversation keeps the context invariant of every conversation. |
| `Dispatch.RunRequest` | bot_handlers/request.py:16-63 | The request button keeps the bag of whatever conversation it interrupts and waits for the phone. A comment never fails on a missing phone. Each step keeps the invariant. |
| `Dispatch.RequestTakesOver` | main.py:50-53 | The request button starts a request in any state, for any user the check does not stop. Free text is then the phone, and after it the comment. |
| `Dispatch.ApplicationButtonKind` | keyboards.py:21 | The request button's data is recognised as the request button. |
| `Dispatch.RouteFacts` | bot_handlers/admin.py:17-20 | An administrator handler is chosen only when the check confirms the sender. Each state handler is chosen only in its own state, for its own kind of update. |
| `Dispatch.OnlyAdminsReachAdminHandlers` | bot_handlers/admin.py:10-20 | A sender the check does not confirm never reaches an administrator handler. |
| `Dispatch.RaisingCheckStopsEverything` | main.py:50-53 | When the administrator check raises, every update except `/start` ends in that error, because the administrator router comes first. |
| `Dispatch.RateStatesTakeText` | main.py:50-51 | While an administrator is asked for a rate, every text except `/start` and the panel button is read as the rate, the calculator's cancel button included. |
| `Dispatch.CancelButtonKind` | bot_handlers/calculator.py:69 | The cancel button's text is recognised as the cancel button. |
| `Dispatch.CancelButtonNoNumber` | bot_handlers/admin.py:131-133 | The cancel button's text is no number, so a rate step refuses it. |
| `Dispatch.CalculatorStatesTakeText` | bot_handlers/calculator.py:87-88 | In one of the calculator's text states, a plain text from any user who passes the check goes to that state's handler. |
| `Request.CommentError` | bot_handlers/request.py:37-60 | The comment step raises `KeyError` exactly when the bag has no phone. Otherwise it raises exactly when the administrator check does, with the same error. |
| `Request.StartRequest` | bot_handlers/request.py:16-23 | The state becomes the phone question and the bag is kept. |
| `Request.ProcessPhone` | bot_handlers/request.py:26-31 | Any text is stored as the phone and the state moves to the comment. The stage invariant then holds. |
| `Request.ProcessComment` | bot_handlers/request.py:34-63 | With no error the context is cleared and the request acknowledged. An error leaves state and bag as they were and sends nothing. |
| `Request.StagedCommentHasPhone` | bot_handlers/request.py:29-44 | In the comment state the bag holds the phone, so the comment step fails only when the administrator check does. |
| `Request.TypedSettingsAcceptRequest` | bot_handlers/request.py:50-60 | On settings built from the typed records a request with a phone is always accepted. |

## Left out

- Telegram transport: keyboards, message wording, `edit_text`, `edit_reply_markup`, deleting the progress message, and answering callbacks. Replies are abstract values.
- `format_result_for_user` and its float formatting: the report carries the `CalculationResult` itself.
- The text of the calculator settings menu. The model keeps only whether building it raises.
- Floating point: money and rates are exact `real`. `float()` is modelled on decimal notation only, with ASCII digits and no exponent, `inf`, `nan` or underscores. NaN passing the `<= 0` checks is therefore not modelled.
- `int()` is modelled on optionally signed ASCII decimal digits with surrounding whitespace, without underscores. Non-ASCII digits, which Python also accepts, are not modelled.
- Whitespace, for `strip()`, `int()` and `float()`, is the ASCII whitespace Python strips: space, tab, line feed, carriage return, vertical tab, form feed and the separators `\x1c`–`\x1f`. Non-ASCII whitespace such as U+00A0 is not modelled.
- Messages without text, where `message.text` is `None` and `.replace`/`.strip` raise `AttributeError`, are not modelled: every message carries text.
- `/start@botname` mentions and deep-link payload checks of `CommandStart` are not modelled. `/start` is recognised as the first word of the text.
- The question router's handlers are one abstract `Faq` reply: they never touch the context, and the questions and answers they show are not modelled.
- The request's notification to each administrator is I/O: a delivery that fails is caught and skipped, so only whether walking the list raises is modelled. The name, phone, comment and username in the notification are not.
- Currency updates from the central bank, the FAQ store, the deep-link router (never included in the dispatcher) and `keyboards.py` are not part of this model.
- The keyboard attached after a calculation asks `is_admin` for the sender of the message. On the electric path that message is the bot's own, so the answer may differ. The answer only picks a keyboard, and whether the check raises does not depend on the id, so the model uses the user's id.
- The clock: `datetime.now().year` is the `currentYear` parameter.
- The file system: `settings.json` is a `SettingsFile` whose state is absent, unreadable (an OSError, or text that is no JSON), not UTF-8, or a parsed document. The outcome of each write is a parameter.
- `CalculatorLogic.CalculateTotalCost` runs on typed settings read back with `DecodeSettings`. Settings that do not read back as a whole end in the apology. Python fails only when the calculation touches the broken field, so a broken field the calculation never reads, such as a malformed token, gives the apology here and a report in Python.
- `SettingsTree.Table` reads a JSON duty table only when its keys are the numerals `str()` prints. Keys such as `"01000"` or `" 1000"`, which Python's `int()` would accept, make the table unreadable in the model.
- `SettingsTree.IdMatches`: bool ids compare as 0 and 1, as in Python, but a saved list read as typed settings must hold integers only.
- In-place updates of the settings object are modelled on values: the object holds an immutable tree that each update replaces. Aliasing between references to sub-objects is not modelled.
- Concurrency: updates are handled one at a time.
