/** The per-symbol analysis loop of the bot (main.py): which account is monitored,
    how a signal is executed on one account or fanned out to all of them, and what
    one pass of the loop does before it pauses. The terminal state, the indicator
    data and every broker reply are inputs; the pauses are returned as durations. */
module BotLoop {
  import opened Common
  import Database
  import Strategy
  import MultiAccount

  /** `MODE` of the account configuration. */
  datatype Mode = Single | Multi

  /** Index of the first enabled account, if any. */
  function FirstEnabled(accounts: seq<MultiAccount.AccountConfig>): (r: Option<nat>)
    ensures r.Some? ==> r.value < |accounts| && accounts[r.value].enabled
    ensures r.Some? ==> forall j :: 0 <= j < r.value ==> !accounts[j].enabled
    ensures r.None? ==> forall j :: 0 <= j < |accounts| ==> !accounts[j].enabled
  {
    if |accounts| == 0 then None
    else if accounts[0].enabled then Some(0)
    else
      var rest := FirstEnabled(accounts[1..]);
      if rest.Some? then Some(rest.value + 1) else None
  }

  /** get_account_number_for_monitoring: the first enabled account in multi-account
      mode, the configured single account otherwise (or when none is enabled). */
  function AccountForMonitoring(hasManager: bool, mode: Mode, accounts: seq<MultiAccount.AccountConfig>,
                                defaultAccount: int): (n: int)
    ensures !(hasManager && mode == Multi) ==> n == defaultAccount
    ensures hasManager && mode == Multi && FirstEnabled(accounts).None? ==> n == defaultAccount
    ensures hasManager && mode == Multi && FirstEnabled(accounts).Some? ==>
              n == accounts[FirstEnabled(accounts).value].accountNumber
  {
    if hasManager && mode == Multi then
      var i := FirstEnabled(accounts);
      if i.Some? then accounts[i.value].accountNumber else defaultAccount
    else defaultAccount
  }

  /** The monitored account is always one of the configured enabled accounts, or the
      default one. */
  lemma MonitoredAccountIsEnabledOrDefault(hasManager: bool, mode: Mode, accounts: seq<MultiAccount.AccountConfig>,
                                           defaultAccount: int)
    ensures var n := AccountForMonitoring(hasManager, mode, accounts, defaultAccount);
            n == defaultAccount || exists j :: 0 <= j < |accounts| && accounts[j].enabled && accounts[j].accountNumber == n
  {
  }

  /** The order request of the strategy in the fan-out's vocabulary: a market BUY or SELL. */
  function ToTradeRequest(r: Strategy.OrderRequest): (t: MultiAccount.TradeRequest)
    ensures t.orderType == (if r.side == Buy then MultiAccount.OrderBuy else MultiAccount.OrderSell)
    ensures t.symbol == r.symbol && t.volume == r.volume && t.price == r.price
    ensures t.sl == r.sl && t.tp == r.tp && t.magic == r.magic
  {
    MultiAccount.TradeRequest(r.symbol, r.volume, if r.side == Buy then MultiAccount.OrderBuy else MultiAccount.OrderSell,
                              r.price, r.sl, r.tp, r.magic)
  }

  /** The journal side of a strategy order and of its fan-out copy agree. */
  lemma TradeTypeAgrees(r: Strategy.OrderRequest)
    ensures MultiAccount.TradeTypeName(ToTradeRequest(r).orderType) == Strategy.SideName(r.side)
  {
  }

  /** The fan-out results of a prepared request over the configured accounts. */
  function FanOutResults(accounts: seq<MultiAccount.AccountConfig>, p: Strategy.Prepared,
                         outcomes: seq<MultiAccount.TradeOutcome>): seq<MultiAccount.TradeResult>
    requires |outcomes| == |accounts|
  {
    MultiAccount.Results(MultiAccount.FanOut(accounts, ToTradeRequest(p.request), outcomes, |accounts|))
  }

  /** execute_trade_with_multi_account: with a manager in multi-account mode, the
      prepared request goes to every enabled account and the first filled order
      gives the ticket and the account; otherwise open_trade on the single account. */
  method ExecuteTradeWithMultiAccount(manager: MultiAccount.Manager?, mode: Mode, journal: Database.Journal,
                                      symbol: string, tick: Option<Strategy.Tick>, info: Option<Strategy.AccountInfo>,
                                      symbolInfo: Option<Strategy.SymbolInfo>, s: Strategy.Signal,
                                      outcomes: seq<MultiAccount.TradeOutcome>, reply: Strategy.OrderResult,
                                      defaultAccount: int, now: int)
    returns (ticket: Option<int>, lot: real, account: Option<int>)
    requires journal.Valid()
    requires symbolInfo.Some? ==> Strategy.WellFormedSymbol(symbolInfo.value)
    requires manager != null && mode == Multi ==> |outcomes| == |manager.accounts|
    modifies journal
    ensures journal.Valid()
    ensures ticket.Some? ==> account.Some?
    ensures manager != null && mode == Multi ==>
              var p := Strategy.PrepareTradeRequest(symbol, tick, info, symbolInfo, s);
              if p.None? || |FanOutResults(manager.accounts, p.value, outcomes)| == 0 then
                ticket == None && lot == 0.0 && account == None
              else
                var first := FanOutResults(manager.accounts, p.value, outcomes)[0];
                ticket == Some(first.ticket) && lot == p.value.lot && account == Some(first.account)
    ensures !(manager != null && mode == Multi) ==>
              var p := Strategy.PrepareTradeRequest(symbol, tick, info, symbolInfo, s);
              && account == Some(defaultAccount)
              && (if p.Some? && reply.done then ticket == Some(reply.order) && lot == p.value.lot
                  else ticket == None && lot == 0.0)
  {
    if manager != null && mode == Multi {
      var p := Strategy.PrepareTradeRequest(symbol, tick, info, symbolInfo, s);
      if p.None? {
        return None, 0.0, None;
      }
      var results := manager.ExecuteTradeAllAccounts(journal, ToTradeRequest(p.value.request), outcomes, now);
      if |results| > 0 {
        var first := results[0];
        return Some(first.ticket), p.value.lot, Some(first.account);
      }
      return None, 0.0, None;
    }
    ticket, lot := Strategy.OpenTrade(journal, defaultAccount, symbol, tick, info, symbolInfo, s, reply, now);
    account := Some(defaultAccount);
  }

  /** Everything one pass of the loop observes. */
  datatype Observation = Observation(
    connected: bool,
    h1Bars: nat,
    h1Atr: Option<seq<Option<real>>>,
    existing: seq<Strategy.Position>,
    market: Strategy.Market,
    tick: Option<Strategy.Tick>,
    info: Option<Strategy.AccountInfo>,
    symbolInfo: Option<Strategy.SymbolInfo>,
    outcomes: seq<MultiAccount.TradeOutcome>,
    reply: Strategy.OrderResult,
    polls: seq<Strategy.Poll>,
    history: Option<seq<Strategy.HistoryDeal>>)

  /** Why a pass ends, and the pause that follows it. */
  datatype PassEnd = NotConnected | MarketTooQuiet | PositionAlreadyOpen | Analysed

  function PauseAfter(e: PassEnd): (seconds: nat)
    ensures e == NotConnected ==> seconds == 5
    ensures e == MarketTooQuiet ==> seconds == 300
    ensures e == PositionAlreadyOpen || e == Analysed ==> seconds == 10
  {
    match e
    case NotConnected => 5
    case MarketTooQuiet => 300
    case PositionAlreadyOpen => 10
    case Analysed => 10
  }

  /** Where a pass stops: the guards of the loop body, in order. */
  function PassEndOf(o: Observation): (e: PassEnd)
    ensures e == NotConnected <==> !o.connected
    ensures e == MarketTooQuiet <==> o.connected && !Strategy.IsVolatilityGood(o.h1Bars, o.h1Atr).0
    ensures e == PositionAlreadyOpen <==>
              o.connected && Strategy.IsVolatilityGood(o.h1Bars, o.h1Atr).0 && |o.existing| > 0
    ensures e == Analysed <==>
              o.connected && Strategy.IsVolatilityGood(o.h1Bars, o.h1Atr).0 && |o.existing| == 0
  {
    if !o.connected then NotConnected
    else if !Strategy.IsVolatilityGood(o.h1Bars, o.h1Atr).0 then MarketTooQuiet
    else if |o.existing| > 0 then PositionAlreadyOpen
    else Analysed
  }

  /** The ticket execute_trade_with_multi_account returns for a signal: the first
      fan-out result's in multi-account mode, otherwise the order of a done reply. */
  function ExecutedTicket(manager: MultiAccount.Manager?, mode: Mode, symbol: string, o: Observation,
                          s: Strategy.Signal): (t: Option<int>)
    reads manager
    requires o.symbolInfo.Some? ==> Strategy.WellFormedSymbol(o.symbolInfo.value)
    requires manager != null && mode == Multi ==> |o.outcomes| == |manager.accounts|
    ensures Strategy.PrepareTradeRequest(symbol, o.tick, o.info, o.symbolInfo, s).None? ==> t.None?
    ensures !(manager != null && mode == Multi) ==> (t.Some? <==> o.tick.Some? && o.reply.done)
  {
    var p := Strategy.PrepareTradeRequest(symbol, o.tick, o.info, o.symbolInfo, s);
    if p.None? then None
    else if manager != null && mode == Multi then
      var results := FanOutResults(manager.accounts, p.value, o.outcomes);
      if |results| == 0 then None else Some(results[0].ticket)
    else if o.reply.done then Some(o.reply.order)
    else None
  }

  /** One pass of run_bot_for_symbol: the guards, the signal, the execution, and the
      monitoring of a filled order; returns the pause that ends the pass. */
  method RunPass(manager: MultiAccount.Manager?, mode: Mode, journal: Database.Journal, symbol: string,
                 o: Observation, defaultAccount: int, now: int)
    returns (pause: nat, traded: Option<int>)
    requires journal.Valid()
    requires o.symbolInfo.Some? ==> Strategy.WellFormedSymbol(o.symbolInfo.value)
    requires manager != null && mode == Multi ==> |o.outcomes| == |manager.accounts|
    modifies journal
    ensures journal.Valid()
    ensures pause == PauseAfter(PassEndOf(o))
    ensures traded.Some? ==> PassEndOf(o) == Analysed && Strategy.GetSmartSignal(o.market).Some? && traded.value != 0
    ensures PassEndOf(o) != Analysed || Strategy.GetSmartSignal(o.market).None? ==>
              traded.None? && journal.collections == old(journal.collections)
    ensures PassEndOf(o) == Analysed && Strategy.GetSmartSignal(o.market).Some? ==>
              var t := ExecutedTicket(manager, mode, symbol, o, Strategy.GetSmartSignal(o.market).value);
              traded == (if t.Some? && t.value != 0 then t else None)
  {
    var e := PassEndOf(o);
    pause := PauseAfter(e);
    traded := None;
    if e != Analysed {
      return;
    }
    var signal := Strategy.GetSmartSignal(o.market);
    if signal.Some? {
      var ticket, lot, account := ExecuteTradeWithMultiAccount(manager, mode, journal, symbol, o.tick, o.info,
                                                               o.symbolInfo, signal.value, o.outcomes, o.reply,
                                                               defaultAccount, now);
      // `if ticket:` is false for a missing ticket and for ticket 0
      if ticket.Some? && ticket.value != 0 {
        var acc := if account.Some? then account.value else defaultAccount;
        var _, _, _, _ := Strategy.MonitorActiveTrade(journal, acc, symbol, ticket.value, o.polls, o.history, now);
        traded := ticket;
      }
    }
  }
}
