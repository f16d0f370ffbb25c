/** Account fan-out (multi_account.py): a list of account configurations, a cache
    of account details written on successful connections, and one trade request
    copied to every enabled account with its volume scaled by the account's risk
    multiplier. Each broker attempt (init, login, order_send) is an input. */
module MultiAccount {
  import opened Common
  import Database

  datatype AccountConfig = AccountConfig(accountNumber: int, password: string, server: string, name: string,
                                         riskMultiplier: real, enabled: bool)

  /** The details `account_info()` reports. */
  datatype AccountSnapshot = AccountSnapshot(balance: real, equity: real, margin: real, currency: string, server: string)

  /** A cache entry: the reported details and the display name. */
  datatype CacheEntry = CacheEntry(balance: real, equity: real, margin: real, currency: string, server: string,
                                   name: string)

  /** How a connection attempt ends. */
  datatype ConnectOutcome = InitFailed | LoginFailed | NoAccountInfo | Connected(info: AccountSnapshot)

  /** `account.name or f"Compte {account_number}"`. */
  function DisplayName(a: AccountConfig): (n: string)
    ensures a.name != "" ==> n == a.name
    ensures a.name == "" ==> |n| > 7 && n[..7] == "Compte "
  {
    if a.name != "" then a.name else "Compte " + Database.IntToString(a.accountNumber)
  }

  function CacheEntryOf(a: AccountConfig, info: AccountSnapshot): CacheEntry
  {
    CacheEntry(info.balance, info.equity, info.margin, info.currency, info.server, DisplayName(a))
  }

  // ================================================================ connect_all

  function Numbers(accounts: seq<AccountConfig>): set<int>
  {
    set a | a in accounts :: a.accountNumber
  }

  /** Account numbers whose connection succeeds (enabled, and `Connected`). */
  function ConnectedNumbers(accounts: seq<AccountConfig>, outcomes: seq<ConnectOutcome>): set<int>
    requires |outcomes| == |accounts|
  {
    set i | 0 <= i < |accounts| && accounts[i].enabled && outcomes[i].Connected? :: accounts[i].accountNumber
  }

  /** The dictionary connect_all returns: the last word on each account number. */
  function ConnectResults(accounts: seq<AccountConfig>, outcomes: seq<ConnectOutcome>): map<int, bool>
    requires |outcomes| == |accounts|
  {
    if |accounts| == 0 then map[]
    else
      var n := |accounts| - 1;
      ConnectResults(accounts[..n], outcomes[..n])[accounts[n].accountNumber := accounts[n].enabled && outcomes[n].Connected?]
  }

  /** The cache after connect_all: every successful connection writes its entry;
      every other attempt, and every disabled account, leaves it as it was. */
  function CacheAfter(cache: map<int, CacheEntry>, accounts: seq<AccountConfig>, outcomes: seq<ConnectOutcome>)
    : map<int, CacheEntry>
    requires |outcomes| == |accounts|
  {
    if |accounts| == 0 then cache
    else
      var n := |accounts| - 1;
      var before := CacheAfter(cache, accounts[..n], outcomes[..n]);
      if accounts[n].enabled && outcomes[n].Connected?
      then before[accounts[n].accountNumber := CacheEntryOf(accounts[n], outcomes[n].info)]
      else before
  }

  /** connect_all answers for every configured account and for nothing else. */
  lemma {:induction false} ConnectResultsCoverAccounts(accounts: seq<AccountConfig>, outcomes: seq<ConnectOutcome>)
    requires |outcomes| == |accounts|
    ensures ConnectResults(accounts, outcomes).Keys == Numbers(accounts)
  {
    if |accounts| > 0 {
      var n := |accounts| - 1;
      ConnectResultsCoverAccounts(accounts[..n], outcomes[..n]);
      assert accounts == accounts[..n] + [accounts[n]];
      assert Numbers(accounts) == Numbers(accounts[..n]) + {accounts[n].accountNumber};
    }
  }

  /** With distinct account numbers, an account's answer is true exactly when it is
      enabled and its connection succeeds: disabled accounts answer false. */
  lemma {:induction false} ConnectResultOfAccount(accounts: seq<AccountConfig>, outcomes: seq<ConnectOutcome>, i: nat)
    requires |outcomes| == |accounts| && i < |accounts|
    requires forall j, k :: 0 <= j < k < |accounts| ==> accounts[j].accountNumber != accounts[k].accountNumber
    ensures accounts[i].accountNumber in ConnectResults(accounts, outcomes)
    ensures ConnectResults(accounts, outcomes)[accounts[i].accountNumber] == (accounts[i].enabled && outcomes[i].Connected?)
  {
    var n := |accounts| - 1;
    if i < n {
      ConnectResultOfAccount(accounts[..n], outcomes[..n], i);
    }
  }

  /** The accounts that connect, one more account at a time. */
  lemma ConnectedNumbersSnoc(accounts: seq<AccountConfig>, outcomes: seq<ConnectOutcome>)
    requires |outcomes| == |accounts| > 0
    ensures var n := |accounts| - 1;
            ConnectedNumbers(accounts, outcomes)
            == ConnectedNumbers(accounts[..n], outcomes[..n])
               + (if accounts[n].enabled && outcomes[n].Connected? then {accounts[n].accountNumber} else {})
  {
    var n := |accounts| - 1;
    var last := if accounts[n].enabled && outcomes[n].Connected? then {accounts[n].accountNumber} else {};
    forall m | m in ConnectedNumbers(accounts, outcomes)
      ensures m in ConnectedNumbers(accounts[..n], outcomes[..n]) + last
    {
      var i :| 0 <= i < |accounts| && accounts[i].enabled && outcomes[i].Connected? && accounts[i].accountNumber == m;
      if i < n {
        assert accounts[..n][i] == accounts[i] && outcomes[..n][i] == outcomes[i];
      }
    }
    forall m | m in ConnectedNumbers(accounts[..n], outcomes[..n])
      ensures m in ConnectedNumbers(accounts, outcomes)
    {
      var i :| 0 <= i < n && accounts[..n][i].enabled && outcomes[..n][i].Connected? && accounts[..n][i].accountNumber == m;
      assert accounts[i] == accounts[..n][i];
    }
  }

  /** The cache only gains the entries of successful connections; every other entry
      keeps its value. */
  lemma {:induction false} CacheOnlyOnSuccess(cache: map<int, CacheEntry>, accounts: seq<AccountConfig>,
                                              outcomes: seq<ConnectOutcome>)
    requires |outcomes| == |accounts|
    ensures CacheAfter(cache, accounts, outcomes).Keys == cache.Keys + ConnectedNumbers(accounts, outcomes)
    ensures forall m :: m in cache && m !in ConnectedNumbers(accounts, outcomes) ==>
              CacheAfter(cache, accounts, outcomes)[m] == cache[m]
  {
    if |accounts| > 0 {
      var n := |accounts| - 1;
      CacheOnlyOnSuccess(cache, accounts[..n], outcomes[..n]);
      ConnectedNumbersSnoc(accounts, outcomes);
    }
  }

  // ================================================================ one trade on one account

  /** Order types a request may carry. */
  datatype OrderType = OrderBuy | OrderSell | OrderBuyLimit | OrderSellLimit | OrderBuyStop | OrderSellStop

  /** The fields of an order request this code reads or changes. */
  datatype TradeRequest = TradeRequest(symbol: string, volume: real, orderType: OrderType, price: real,
                                       sl: real, tp: real, magic: int)

  /** How a trade attempt on one account ends. */
  datatype TradeOutcome = TradeInitFailed | TradeLoginFailed | Replied(done: bool, order: int, price: real)

  /** The result dictionary of a filled order. */
  datatype TradeResult = TradeResult(account: int, ticket: int, volume: real, price: real)

  /** The arguments of the save_open call for a filled order. */
  datatype OpenWrite = OpenWrite(account: int, symbol: string, ticket: int, tradeType: string, price: real)

  /** What one attempt produces: the result, the request sent to the broker (if it
      got that far) and the journal write. */
  datatype Attempt = Attempt(result: Option<TradeResult>, sent: Option<TradeRequest>, write: Option<OpenWrite>)

  /** `next(acc for acc in accounts if acc.account_number == n)`: the first match. */
  function FindAccount(accounts: seq<AccountConfig>, n: int): (r: Option<nat>)
    ensures r.Some? ==> r.value < |accounts| && accounts[r.value].accountNumber == n
    ensures r.Some? ==> forall j :: 0 <= j < r.value ==> accounts[j].accountNumber != n
    ensures r.None? ==> forall j :: 0 <= j < |accounts| ==> accounts[j].accountNumber != n
  {
    if |accounts| == 0 then None
    else if accounts[0].accountNumber == n then Some(0)
    else
      var rest := FindAccount(accounts[1..], n);
      if rest.Some? then Some(rest.value + 1) else None
  }

  /** The volume an account trades: scaled by its risk multiplier unless that is 1.0. */
  function AdjustVolume(volume: real, multiplier: real): (v: real)
    ensures multiplier == 1.0 ==> v == volume
    ensures v == volume * multiplier
  {
    if multiplier != 1.0 then volume * multiplier else volume
  }

  /** BUY and BUY_LIMIT are journaled as "BUY", every other type as "SELL". */
  function TradeTypeName(t: OrderType): (s: string)
    ensures s == "BUY" <==> t == OrderBuy || t == OrderBuyLimit
    ensures s == "BUY" || s == "SELL"
  {
    if t == OrderBuy || t == OrderBuyLimit then "BUY" else "SELL"
  }

  /** execute_trade_on_account: unknown or disabled accounts are refused; otherwise,
      after init and login, the request goes out with the adjusted volume, and a
      DONE reply is journaled and reported. */
  function TradeOnAccount(accounts: seq<AccountConfig>, n: int, request: TradeRequest, outcome: TradeOutcome)
    : (a: Attempt)
    ensures FindAccount(accounts, n).None? || !accounts[FindAccount(accounts, n).value].enabled ==>
              a == Attempt(None, None, None)
    ensures a.sent.Some? <==> FindAccount(accounts, n).Some? && accounts[FindAccount(accounts, n).value].enabled
                               && outcome.Replied?
    ensures a.sent.Some? ==>
              a.sent.value == request.(volume := AdjustVolume(request.volume, accounts[FindAccount(accounts, n).value].riskMultiplier))
    ensures a.result.Some? <==> a.sent.Some? && outcome.done
    ensures a.write.Some? <==> a.result.Some?
    ensures a.result.Some? ==>
              && a.result.value == TradeResult(n, outcome.order, a.sent.value.volume, outcome.price)
              && a.write.value == OpenWrite(n, request.symbol, outcome.order, TradeTypeName(request.orderType), outcome.price)
  {
    var i := FindAccount(accounts, n);
    if i.None? || !accounts[i.value].enabled then Attempt(None, None, None)
    else if !outcome.Replied? then Attempt(None, None, None)
    else
      var sent := request.(volume := AdjustVolume(request.volume, accounts[i.value].riskMultiplier));
      if outcome.done then
        Attempt(Some(TradeResult(n, outcome.order, sent.volume, outcome.price)), Some(sent),
                Some(OpenWrite(n, request.symbol, outcome.order, TradeTypeName(request.orderType), outcome.price)))
      else Attempt(None, Some(sent), None)
  }

  function ApplyWrite(store: Database.Store, w: Option<OpenWrite>, now: int): Database.Store
  {
    if w.None? then store
    else Database.SaveOpenOn(store, w.value.account, w.value.symbol, w.value.ticket, w.value.tradeType, w.value.price, now)
  }

  // ================================================================ all accounts

  /** The attempts of execute_trade_all_accounts over the first `k` accounts: each
      enabled account receives its own copy of the template. */
  function FanOut(accounts: seq<AccountConfig>, template: TradeRequest, outcomes: seq<TradeOutcome>, k: nat)
    : seq<Attempt>
    requires k <= |accounts| == |outcomes|
  {
    if k == 0 then []
    else
      FanOut(accounts, template, outcomes, k - 1)
      + (if accounts[k - 1].enabled
         then [TradeOnAccount(accounts, accounts[k - 1].accountNumber, template, outcomes[k - 1])]
         else [])
  }

  /** The successful results among some attempts, in order. */
  function Results(attempts: seq<Attempt>): seq<TradeResult>
  {
    if |attempts| == 0 then []
    else
      var last := attempts[|attempts| - 1];
      Results(attempts[..|attempts| - 1]) + (if last.result.Some? then [last.result.value] else [])
  }

  /** The journal after the writes of some attempts, in order. */
  function Writes(store: Database.Store, attempts: seq<Attempt>, now: int): Database.Store
  {
    if |attempts| == 0 then store
    else ApplyWrite(Writes(store, attempts[..|attempts| - 1], now), attempts[|attempts| - 1].write, now)
  }

  lemma ResultsSnoc(attempts: seq<Attempt>, a: Attempt)
    ensures Results(attempts + [a]) == Results(attempts) + (if a.result.Some? then [a.result.value] else [])
  {
    assert (attempts + [a])[..|attempts|] == attempts;
  }

  lemma WritesSnoc(store: Database.Store, attempts: seq<Attempt>, a: Attempt, now: int)
    ensures Writes(store, attempts + [a], now) == ApplyWrite(Writes(store, attempts, now), a.write, now)
  {
    assert (attempts + [a])[..|attempts|] == attempts;
  }

  /** Every fan-out result comes from an enabled account and carries the template's
      volume scaled once by that account's multiplier: no account sees another's
      adjustment. */
  lemma {:induction false} FanOutUsesTemplate(accounts: seq<AccountConfig>, template: TradeRequest,
                                              outcomes: seq<TradeOutcome>, k: nat)
    requires k <= |accounts| == |outcomes|
    ensures forall r :: r in Results(FanOut(accounts, template, outcomes, k)) ==>
              && FindAccount(accounts, r.account).Some?
              && accounts[FindAccount(accounts, r.account).value].enabled
              && r.volume == template.volume * accounts[FindAccount(accounts, r.account).value].riskMultiplier
  {
    if k > 0 {
      FanOutUsesTemplate(accounts, template, outcomes, k - 1);
      var before := FanOut(accounts, template, outcomes, k - 1);
      if accounts[k - 1].enabled {
        var a := TradeOnAccount(accounts, accounts[k - 1].accountNumber, template, outcomes[k - 1]);
        assert FanOut(accounts, template, outcomes, k) == before + [a];
        ResultsSnoc(before, a);
      } else {
        assert FanOut(accounts, template, outcomes, k) == before;
      }
    }
  }

  /** When every account's numbers differ and every order is filled, the results are
      one per enabled account, in configuration order. */
  lemma {:induction false} FanOutAllFilled(accounts: seq<AccountConfig>, template: TradeRequest,
                                           outcomes: seq<TradeOutcome>, k: nat)
    requires k <= |accounts| == |outcomes|
    requires forall j, m :: 0 <= j < m < |accounts| ==> accounts[j].accountNumber != accounts[m].accountNumber
    requires forall j :: 0 <= j < |outcomes| ==> outcomes[j].Replied? && outcomes[j].done
    ensures var rs := Results(FanOut(accounts, template, outcomes, k));
            var en := EnabledNumbers(accounts[..k]);
            |rs| == |en| && forall m :: 0 <= m < |rs| ==> rs[m].account == en[m]
  {
    if k > 0 {
      FanOutAllFilled(accounts, template, outcomes, k - 1);
      var before := FanOut(accounts, template, outcomes, k - 1);
      assert accounts[..k][..k - 1] == accounts[..k - 1];
      if accounts[k - 1].enabled {
        var n := accounts[k - 1].accountNumber;
        var a := TradeOnAccount(accounts, n, template, outcomes[k - 1]);
        assert FanOut(accounts, template, outcomes, k) == before + [a];
        ResultsSnoc(before, a);
        assert FindAccount(accounts, n) == Some(k - 1);
        assert EnabledNumbers(accounts[..k]) == EnabledNumbers(accounts[..k - 1]) + [n];
      } else {
        assert FanOut(accounts, template, outcomes, k) == before;
        assert EnabledNumbers(accounts[..k]) == EnabledNumbers(accounts[..k - 1]);
      }
    }
  }

  /** Numbers of the enabled accounts, in order. */
  function EnabledNumbers(accounts: seq<AccountConfig>): seq<int>
  {
    if |accounts| == 0 then []
    else
      EnabledNumbers(accounts[..|accounts| - 1])
      + (if accounts[|accounts| - 1].enabled then [accounts[|accounts| - 1].accountNumber] else [])
  }

  // ================================================================ the manager

  /** MultiAccountManager: the configured accounts and the account-details cache. */
  class Manager {
    var accounts: seq<AccountConfig>
    var accountInfoCache: map<int, CacheEntry>

    constructor (accounts: seq<AccountConfig>)
      ensures this.accounts == accounts && accountInfoCache == map[]
    {
      this.accounts := accounts;
      accountInfoCache := map[];
    }

    /** connect_account: only a fully successful connection writes the cache. */
    method ConnectAccount(account: AccountConfig, outcome: ConnectOutcome) returns (ok: bool)
      modifies this
      ensures ok <==> outcome.Connected?
      ensures accounts == old(accounts)
      ensures ok ==> accountInfoCache == old(accountInfoCache)[account.accountNumber := CacheEntryOf(account, outcome.info)]
      ensures !ok ==> accountInfoCache == old(accountInfoCache)
    {
      if !outcome.Connected? {
        return false;
      }
      accountInfoCache := accountInfoCache[account.accountNumber := CacheEntryOf(account, outcome.info)];
      return true;
    }

    /** connect_all: disabled accounts answer false without a connection attempt. */
    method ConnectAll(outcomes: seq<ConnectOutcome>) returns (results: map<int, bool>)
      requires |outcomes| == |accounts|
      modifies this
      ensures accounts == old(accounts)
      ensures results == ConnectResults(accounts, outcomes)
      ensures accountInfoCache == CacheAfter(old(accountInfoCache), accounts, outcomes)
    {
      results := map[];
      var i := 0;
      while i < |accounts|
        invariant 0 <= i <= |accounts| && accounts == old(accounts)
        invariant results == ConnectResults(accounts[..i], outcomes[..i])
        invariant accountInfoCache == CacheAfter(old(accountInfoCache), accounts[..i], outcomes[..i])
      {
        var account := accounts[i];
        assert accounts[..i + 1][..i] == accounts[..i] && outcomes[..i + 1][..i] == outcomes[..i];
        if !account.enabled {
          results := results[account.accountNumber := false];
        } else {
          var ok := ConnectAccount(account, outcomes[i]);
          results := results[account.accountNumber := ok];
        }
        i := i + 1;
      }
      assert accounts[..i] == accounts && outcomes[..i] == outcomes;
    }

    function GetAccountInfo(n: int): (r: Option<CacheEntry>)
      reads this
      ensures r.Some? <==> n in accountInfoCache
      ensures r.Some? ==> r.value == accountInfoCache[n]
    {
      if n in accountInfoCache then Some(accountInfoCache[n]) else None
    }

    /** get_all_accounts_info: a copy of the cache. */
    function GetAllAccountsInfo(): (r: map<int, CacheEntry>)
      reads this
      ensures forall n :: n in r <==> GetAccountInfo(n).Some?
      ensures forall n :: n in r ==> GetAccountInfo(n) == Some(r[n])
    {
      accountInfoCache
    }

    /** execute_trade_on_account, with the request sent returned alongside. */
    method ExecuteTradeOnAccount(journal: Database.Journal, n: int, request: TradeRequest, outcome: TradeOutcome,
                                 now: int)
      returns (result: Option<TradeResult>, sent: Option<TradeRequest>)
      requires journal.Valid()
      modifies journal
      ensures journal.Valid()
      ensures var a := TradeOnAccount(accounts, n, request, outcome);
              result == a.result && sent == a.sent
              && journal.collections == ApplyWrite(old(journal.collections), a.write, now)
    {
      var i := FindAccount(accounts, n);
      if i.None? || !accounts[i.value].enabled {
        return None, None;
      }
      if !outcome.Replied? {
        return None, None;
      }
      var config := accounts[i.value];
      var req := request;
      if config.riskMultiplier != 1.0 {
        req := req.(volume := req.volume * config.riskMultiplier);
      }
      assert req == request.(volume := AdjustVolume(request.volume, config.riskMultiplier));
      sent := Some(req);
      if outcome.done {
        journal.SaveOpen(n, req.symbol, outcome.order, TradeTypeName(req.orderType), outcome.price, now);
        result := Some(TradeResult(n, outcome.order, req.volume, outcome.price));
      } else {
        result := None;
      }
    }

    /** execute_trade_all_accounts: a copy of the template per enabled account; the
        results of the filled orders, in configuration order. */
    method ExecuteTradeAllAccounts(journal: Database.Journal, template: TradeRequest, outcomes: seq<TradeOutcome>,
                                   now: int)
      returns (results: seq<TradeResult>)
      requires journal.Valid() && |outcomes| == |accounts|
      modifies journal
      ensures journal.Valid()
      ensures results == Results(FanOut(accounts, template, outcomes, |accounts|))
      ensures journal.collections == Writes(old(journal.collections), FanOut(accounts, template, outcomes, |accounts|), now)
    {
      results := [];
      var i := 0;
      while i < |accounts|
        invariant 0 <= i <= |accounts|
        invariant journal.Valid()
        invariant results == Results(FanOut(accounts, template, outcomes, i))
        invariant journal.collections == Writes(old(journal.collections), FanOut(accounts, template, outcomes, i), now)
      {
        var account := accounts[i];
        if account.enabled {
          var copy := template;
          var result, _ := ExecuteTradeOnAccount(journal, account.accountNumber, copy, outcomes[i], now);
          var a := TradeOnAccount(accounts, account.accountNumber, template, outcomes[i]);
          assert FanOut(accounts, template, outcomes, i + 1) == FanOut(accounts, template, outcomes, i) + [a];
          ResultsSnoc(FanOut(accounts, template, outcomes, i), a);
          WritesSnoc(old(journal.collections), FanOut(accounts, template, outcomes, i), a, now);
          if result.Some? {
            results := results + [result.value];
          }
        } else {
          assert FanOut(accounts, template, outcomes, i + 1) == FanOut(accounts, template, outcomes, i);
        }
        i := i + 1;
      }
    }
  }
}
