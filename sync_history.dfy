/** The journal resynchronisation script (sync_history.py): for every enabled
    account, the broker's recent deal history is replayed into the journal; every
    closing deal of the bot (or a manual one) is written with save_close. The
    connection steps and the history download are inputs. */
module SyncHistory {
  import opened Common
  import Config
  import Database
  import MultiAccount

  /** The fields of a history deal that the script reads. */
  datatype HistDeal = HistDeal(magic: int, symbol: string, order: int, profit: real, price: real, entry: DealEntry)

  /** How the connection and the history download of one account end. */
  datatype SyncOutcome = InitFailed | LoginFailed | NoHistory | History(deals: seq<HistDeal>)

  /** A deal is kept when the magic-number filter is off, or it carries the bot's
      magic number, or it has none (a manual trade). */
  predicate Relevant(d: HistDeal)
  {
    !(Config.MAGIC_NUMBER != 0 && d.magic != Config.MAGIC_NUMBER && d.magic != 0)
  }

  /** The deals that lead to a save_close: relevant exits, in history order. */
  function Closes(deals: seq<HistDeal>): (r: seq<HistDeal>)
    ensures |r| <= |deals|
  {
    if |deals| == 0 then []
    else
      var d := deals[|deals| - 1];
      Closes(deals[..|deals| - 1]) + (if Relevant(d) && d.entry == EntryOut then [d] else [])
  }

  /** The closes are exactly the relevant exit deals: the filter drops entries,
      foreign magic numbers and nothing else. */
  lemma {:induction false} ClosesAreRelevantExits(deals: seq<HistDeal>)
    ensures forall d :: d in Closes(deals) <==> d in deals && Relevant(d) && d.entry == EntryOut
  {
    if |deals| > 0 {
      var n := |deals| - 1;
      ClosesAreRelevantExits(deals[..n]);
      assert deals == deals[..n] + [deals[n]];
    }
  }

  lemma ClosesStep(deals: seq<HistDeal>, i: nat)
    requires i < |deals|
    ensures Closes(deals[..i + 1])
            == Closes(deals[..i]) + (if Relevant(deals[i]) && deals[i].entry == EntryOut then [deals[i]] else [])
  {
    assert deals[..i + 1][..i] == deals[..i];
  }

  /** One deal of the history on the journal: a relevant exit becomes
      save_close(account, symbol, order, profit, price, "CLOSED"); entries and
      foreign deals write nothing. */
  function ReplayDeal(store: Database.Store, account: int, d: HistDeal, now: int): Database.Store
  {
    if Relevant(d) && d.entry == EntryOut
    then Database.SaveCloseOn(store, account, d.symbol, d.order, d.profit, d.price, now, "CLOSED")
    else store
  }

  /** The journal after every deal of a history, in order. */
  function ReplayDeals(store: Database.Store, account: int, deals: seq<HistDeal>, now: int): Database.Store
  {
    if |deals| == 0 then store
    else ReplayDeal(ReplayDeals(store, account, deals[..|deals| - 1], now), account, deals[|deals| - 1], now)
  }

  lemma ReplayDealsStep(store: Database.Store, account: int, deals: seq<HistDeal>, i: nat, now: int)
    requires i < |deals|
    ensures ReplayDeals(store, account, deals[..i + 1], now)
            == ReplayDeal(ReplayDeals(store, account, deals[..i], now), account, deals[i], now)
  {
    assert deals[..i + 1][..i] == deals[..i];
  }

  /** After the replay, the order of every relevant exit deal has a CLOSED document
      in the collection of its account and symbol: later deals never reopen it. */
  lemma {:induction false} ReplayMarksClose(store: Database.Store, account: int, deals: seq<HistDeal>, now: int,
                                            j: nat)
    requires j < |deals| && Relevant(deals[j]) && deals[j].entry == EntryOut
    ensures var r := ReplayDeals(store, account, deals, now);
            var key := Database.CollectionKeyOf(account, deals[j].symbol);
            key in r && deals[j].order in r[key] && r[key][deals[j].order].status == "CLOSED"
  {
    var n := |deals| - 1;
    var before: Database.Store := ReplayDeals(store, account, deals[..n], now);
    assert ReplayDeals(store, account, deals, now) == ReplayDeal(before, account, deals[n], now);
    if j < n {
      var d := deals[j];
      assert deals[..n][j] == d;
      ReplayMarksClose(store, account, deals[..n], now, j);
      ReplayDealKeepsClosed(before, account, deals[n], now, Database.CollectionKeyOf(account, d.symbol), d.order);
    } else {
      ReplayDealMarksClose(before, account, deals[n], now);
    }
  }

  /** A relevant exit deal leaves its order CLOSED. */
  lemma ReplayDealMarksClose(store: Database.Store, account: int, d: HistDeal, now: int)
    requires Relevant(d) && d.entry == EntryOut
    ensures var r := ReplayDeal(store, account, d, now);
            var key := Database.CollectionKeyOf(account, d.symbol);
            key in r && d.order in r[key] && r[key][d.order].status == "CLOSED"
  {
  }

  /** No deal reopens a CLOSED document. */
  lemma ReplayDealKeepsClosed(store: Database.Store, account: int, d: HistDeal, now: int,
                              key: Database.CollectionKey, t: int)
    requires key in store && t in store[key] && store[key][t].status == "CLOSED"
    ensures var r := ReplayDeal(store, account, d, now);
            key in r && t in r[key] && r[key][t].status == "CLOSED"
  {
    if Relevant(d) && d.entry == EntryOut {
      Database.SaveCloseKeepsStatus(store, account, d.symbol, d.order, d.profit, d.price, now, "CLOSED", key, t);
    }
  }

  /** A document that no relevant exit deal targets comes out of the replay unchanged. */
  lemma {:induction false} ReplayLeavesUntouched(store: Database.Store, account: int, deals: seq<HistDeal>, now: int,
                                                 key: Database.CollectionKey, ticket: int)
    requires key in store && ticket in store[key]
    requires forall j :: 0 <= j < |deals| && Relevant(deals[j]) && deals[j].entry == EntryOut ==>
               Database.CollectionKeyOf(account, deals[j].symbol) != key || deals[j].order != ticket
    ensures var r := ReplayDeals(store, account, deals, now);
            key in r && ticket in r[key] && r[key][ticket] == store[key][ticket]
  {
    if |deals| > 0 {
      var n := |deals| - 1;
      forall j | 0 <= j < n && Relevant(deals[..n][j]) && deals[..n][j].entry == EntryOut
        ensures Database.CollectionKeyOf(account, deals[..n][j].symbol) != key || deals[..n][j].order != ticket
      {
        assert deals[..n][j] == deals[j];
      }
      ReplayLeavesUntouched(store, account, deals[..n], now, key, ticket);
    }
  }

  /** The replay writes only into the database of its own account. */
  lemma {:induction false} ReplayStaysInAccount(store: Database.Store, account: int, deals: seq<HistDeal>, now: int,
                                                key: Database.CollectionKey)
    requires key in store && key.0 != Database.DbName(account)
    ensures var r := ReplayDeals(store, account, deals, now);
            key in r && r[key] == store[key]
  {
    if |deals| > 0 {
      ReplayStaysInAccount(store, account, deals[..|deals| - 1], now, key);
    }
  }

  /** sync_account on the journal: nothing happens unless the connection succeeds
      and a history comes back. */
  function SyncOn(store: Database.Store, account: int, outcome: SyncOutcome, now: int): Database.Store
  {
    if outcome.History? then ReplayDeals(store, account, outcome.deals, now) else store
  }

  /** The loop of main over the configured accounts: only enabled ones are synced. */
  function SyncAllOn(store: Database.Store, accounts: seq<MultiAccount.AccountConfig>, outcomes: seq<SyncOutcome>,
                     now: int): Database.Store
    requires |outcomes| == |accounts|
  {
    if |accounts| == 0 then store
    else
      var n := |accounts| - 1;
      var before := SyncAllOn(store, accounts[..n], outcomes[..n], now);
      if accounts[n].enabled then SyncOn(before, accounts[n].accountNumber, outcomes[n], now) else before
  }

  /** The update count of each enabled account, in configuration order: the relevant
      exits of its history, or 0 when it has none. Disabled accounts report nothing. */
  function SyncCounts(accounts: seq<MultiAccount.AccountConfig>, outcomes: seq<SyncOutcome>): (r: seq<nat>)
    requires |outcomes| == |accounts|
    ensures |r| <= |accounts|
    ensures (forall i :: 0 <= i < |accounts| ==> !accounts[i].enabled) ==> r == []
    ensures (forall i :: 0 <= i < |accounts| ==> accounts[i].enabled) ==>
              |r| == |accounts| &&
              forall i :: 0 <= i < |r| ==> r[i] == (if outcomes[i].History? then |Closes(outcomes[i].deals)| else 0)
  {
    if |accounts| == 0 then []
    else
      var n := |accounts| - 1;
      var before := SyncCounts(accounts[..n], outcomes[..n]);
      if accounts[n].enabled then before + [if outcomes[n].History? then |Closes(outcomes[n].deals)| else 0]
      else before
  }

  /** The operator's answer: `confirm.lower() == 'o'`. */
  predicate Confirmed(answer: string)
  {
    answer == "o" || answer == "O"
  }

  /** A disabled account's broker outcome never matters. */
  lemma {:induction false} DisabledAccountsIgnored(store: Database.Store, accounts: seq<MultiAccount.AccountConfig>,
                                                   o1: seq<SyncOutcome>, o2: seq<SyncOutcome>, now: int)
    requires |o1| == |o2| == |accounts|
    requires forall i :: 0 <= i < |accounts| && accounts[i].enabled ==> o1[i] == o2[i]
    ensures SyncAllOn(store, accounts, o1, now) == SyncAllOn(store, accounts, o2, now)
  {
    if |accounts| > 0 {
      var n := |accounts| - 1;
      DisabledAccountsIgnored(store, accounts[..n], o1[..n], o2[..n], now);
    }
  }

  /** The collections of a database that belongs to no enabled account are left as
      they were. */
  lemma {:induction false} SyncAllStaysInEnabledAccounts(store: Database.Store,
                                                         accounts: seq<MultiAccount.AccountConfig>,
                                                         outcomes: seq<SyncOutcome>, now: int,
                                                         key: Database.CollectionKey)
    requires |outcomes| == |accounts|
    requires key in store
    requires forall i :: 0 <= i < |accounts| && accounts[i].enabled ==> key.0 != Database.DbName(accounts[i].accountNumber)
    ensures var r := SyncAllOn(store, accounts, outcomes, now);
            key in r && r[key] == store[key]
  {
    if |accounts| > 0 {
      var n := |accounts| - 1;
      SyncAllStaysInEnabledAccounts(store, accounts[..n], outcomes[..n], now, key);
      var before := SyncAllOn(store, accounts[..n], outcomes[..n], now);
      if accounts[n].enabled && outcomes[n].History? {
        ReplayStaysInAccount(before, accounts[n].accountNumber, outcomes[n].deals, now, key);
      }
    }
  }

  /** sync_account: the number of documents updated and the journal writes. */
  method SyncAccount(journal: Database.Journal, account: MultiAccount.AccountConfig, outcome: SyncOutcome, now: int)
    returns (updated: nat)
    requires journal.Valid()
    modifies journal
    ensures journal.Valid()
    ensures updated == (if outcome.History? then |Closes(outcome.deals)| else 0)
    ensures journal.collections == SyncOn(old(journal.collections), account.accountNumber, outcome, now)
  {
    if !outcome.History? {
      return 0;
    }
    var deals := outcome.deals;
    ghost var start := journal.collections;
    updated := 0;
    var i := 0;
    while i < |deals|
      invariant 0 <= i <= |deals|
      invariant journal.Valid()
      invariant updated == |Closes(deals[..i])|
      invariant journal.collections == ReplayDeals(start, account.accountNumber, deals[..i], now)
    {
      var d := deals[i];
      ClosesStep(deals, i);
      ReplayDealsStep(start, account.accountNumber, deals, i, now);
      if Relevant(d) {
        if d.entry == EntryOut {
          journal.SaveClose(account.accountNumber, d.symbol, d.order, d.profit, d.price, now, "CLOSED");
          updated := updated + 1;
        } else if d.entry == EntryIn {
          // entries are left to the bot, which journals them when it opens them
        }
      }
      i := i + 1;
    }
    assert deals[..i] == deals;
  }

  /** main: asks for confirmation, then syncs every enabled account in order and
      returns the update count of each, in that order. */
  method SyncAll(journal: Database.Journal, accounts: seq<MultiAccount.AccountConfig>, answer: string,
                 outcomes: seq<SyncOutcome>, now: int)
    returns (counts: seq<nat>)
    requires journal.Valid() && |outcomes| == |accounts|
    modifies journal
    ensures journal.Valid()
    ensures !Confirmed(answer) ==> journal.collections == old(journal.collections) && counts == []
    ensures Confirmed(answer) ==> journal.collections == SyncAllOn(old(journal.collections), accounts, outcomes, now)
    ensures Confirmed(answer) ==> counts == SyncCounts(accounts, outcomes)
  {
    counts := [];
    if !Confirmed(answer) {
      return;
    }
    var i := 0;
    while i < |accounts|
      invariant 0 <= i <= |accounts|
      invariant journal.Valid()
      invariant journal.collections == SyncAllOn(old(journal.collections), accounts[..i], outcomes[..i], now)
      invariant counts == SyncCounts(accounts[..i], outcomes[..i])
    {
      assert accounts[..i + 1][..i] == accounts[..i] && outcomes[..i + 1][..i] == outcomes[..i];
      if accounts[i].enabled {
        var updated := SyncAccount(journal, accounts[i], outcomes[i], now);
        counts := counts + [updated];
      }
      i := i + 1;
    }
    assert accounts[..i] == accounts && outcomes[..i] == outcomes;
  }
}
