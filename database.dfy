/** The trade journal (database.py): one database per account, one collection per
    symbol, one document per ticket, written only through upserts. */
module Database {
  import opened Common

  /** A journal document. Fields that no write has set yet are `None`. */
  datatype Record = Record(
    ticket: int,
    symbol: Option<string>,
    tradeType: Option<string>,
    openPrice: Option<real>,
    openTime: Option<int>,
    status: string,
    account: Option<int>,
    profit: Option<real>,
    closePrice: Option<real>,
    closeTime: Option<int>)

  /** A collection: the unique index on `ticket` makes it a map from ticket to document. */
  type Collection = map<int, Record>

  /** Where a collection lives: (database name, collection name). */
  type CollectionKey = (string, string)

  // ---------------------------------------------------------------- names

  function DigitChar(d: nat): (c: char)
    requires d < 10
    ensures '0' <= c <= '9'
  {
    "0123456789"[d]
  }

  /** Decimal digits of `n`, as Python's `str(n)` writes them. */
  function NatToString(n: nat): (s: string)
    ensures |s| >= 1 && '0' <= s[0] <= '9'
    ensures n >= 10 ==> |s| >= 2
  {
    if n < 10 then [DigitChar(n)] else NatToString(n / 10) + [DigitChar(n % 10)]
  }

  lemma {:induction false} NatToStringInjective(a: nat, b: nat)
    requires NatToString(a) == NatToString(b)
    ensures a == b
  {
    var s := NatToString(a);
    if a < 10 && b < 10 {
      assert "0123456789"[a] == s[0] == "0123456789"[b];
    } else if a >= 10 && b >= 10 {
      var pa, pb := NatToString(a / 10), NatToString(b / 10);
      assert pa == s[..|s| - 1] == pb;
      assert DigitChar(a % 10) == s[|s| - 1] == DigitChar(b % 10);
      NatToStringInjective(a / 10, b / 10);
      assert "0123456789"[a % 10] == "0123456789"[b % 10];
    }
  }

  /** Python's `str(n)` for an int. */
  function IntToString(n: int): (s: string)
    ensures |s| >= 1
  {
    if n < 0 then "-" + NatToString(-n) else NatToString(n)
  }

  /** Only a negative number prints with a leading '-'. */
  lemma IntToStringSign(n: int)
    ensures IntToString(n)[0] == '-' <==> n < 0
  {
  }

  lemma IntToStringInjective(a: int, b: int)
    requires IntToString(a) == IntToString(b)
    ensures a == b
  {
    IntToStringSign(a);
    IntToStringSign(b);
    if a < 0 {
      assert b < 0;
      NegativeToStringInjective(a, b);
    } else {
      assert b >= 0;
      NatToStringInjective(a, b);
    }
  }

  lemma NegativeToStringInjective(a: int, b: int)
    requires a < 0 && b < 0 && IntToString(a) == IntToString(b)
    ensures a == b
  {
    assert NatToString(-a) == IntToString(a)[1..] == NatToString(-b);
    NatToStringInjective(-a, -b);
  }

  /** DatabaseManager.get_db: the database of an account is `trading_bot_{account}`. */
  function DbName(account: int): (name: string)
    ensures |name| > 12 && name[..12] == "trading_bot_"
  {
    "trading_bot_" + IntToString(account)
  }

  /** Two accounts never share a journal database. */
  lemma DbNameInjective(a: int, b: int)
    requires DbName(a) == DbName(b)
    ensures a == b
  {
    assert IntToString(a) == DbName(a)[12..] == DbName(b)[12..] == IntToString(b);
    IntToStringInjective(a, b);
  }

  /** Python's `str.lower()` on one character, for ASCII letters; every other
      character is kept as it is. */
  function LowerChar(c: char): (l: char)
    ensures !('A' <= l <= 'Z')
    ensures !('A' <= c <= 'Z') ==> l == c
  {
    if 'A' <= c <= 'Z' then (c as int - 'A' as int + 'a' as int) as char else c
  }

  /** The character-wise map behind `symbol.replace(" ", "_").lower()`. */
  function SafeChar(c: char): (d: char)
  {
    LowerChar(if c == ' ' then '_' else c)
  }

  /** DatabaseManager.get_collection: the collection name of a symbol. */
  function CollectionName(symbol: string): (name: string)
    ensures |name| == |symbol|
    ensures forall i :: 0 <= i < |name| ==> name[i] == SafeChar(symbol[i])
  {
    if |symbol| == 0 then "" else CollectionName(symbol[..|symbol| - 1]) + [SafeChar(symbol[|symbol| - 1])]
  }

  /** A collection name holds no space and no upper-case letter. */
  lemma CollectionNameIsSafe(symbol: string)
    ensures forall i :: 0 <= i < |CollectionName(symbol)| ==>
      CollectionName(symbol)[i] != ' ' && !('A' <= CollectionName(symbol)[i] <= 'Z')
  {
  }

  /** Applying the name transform to a collection name changes nothing. */
  lemma {:induction false} CollectionNameIdempotent(symbol: string)
    ensures CollectionName(CollectionName(symbol)) == CollectionName(symbol)
    decreases |symbol|
  {
    if |symbol| > 0 {
      var init := symbol[..|symbol| - 1];
      CollectionNameIdempotent(init);
      var n := CollectionName(symbol);
      assert n[..|n| - 1] == CollectionName(init);
      assert SafeChar(n[|n| - 1]) == n[|n| - 1];
    }
  }

  /** "Volatility 100 Index" and "volatility_100_index" share one collection. */
  lemma SymbolsShareCollection()
    ensures CollectionName("Volatility 100 Index") == "volatility_100_index"
  {
    var s := "Volatility 100 Index";
    var n := CollectionName(s);
    assert |n| == 20;
    forall i | 0 <= i < 20 ensures n[i] == "volatility_100_index"[i] {
      assert n[i] == SafeChar(s[i]);
    }
  }

  function CollectionKeyOf(account: int, symbol: string): CollectionKey
  {
    (DbName(account), CollectionName(symbol))
  }

  // ---------------------------------------------------------------- upserts

  /** Every document is stored under its own ticket (the unique index on `ticket`). */
  ghost predicate KeyedByTicket(c: Collection)
  {
    forall t :: t in c ==> c[t].ticket == t
  }

  /** The document `save_open` inserts for a ticket it does not find. */
  function OpenRecord(account: int, symbol: string, ticket: int, tradeType: string, price: real, now: int): (r: Record)
    ensures r.ticket == ticket && r.status == "OPEN" && r.profit == None
    ensures r.tradeType == Some(tradeType) && r.openPrice == Some(price)
    ensures r.closePrice == None && r.closeTime == None
  {
    Record(ticket, Some(symbol), Some(tradeType), Some(price), Some(now), "OPEN", Some(account), None, None, None)
  }

  /** `update_one({"ticket": t}, {"$setOnInsert": …}, upsert=True)` of save_open. */
  function UpsertOpen(c: Collection, account: int, symbol: string, ticket: int, tradeType: string,
                      price: real, now: int): (r: Collection)
    ensures ticket in r && r.Keys == c.Keys + {ticket}
    ensures ticket in c ==> r == c
    ensures ticket !in c ==> r[ticket] == OpenRecord(account, symbol, ticket, tradeType, price, now)
    ensures forall t :: t in c && t != ticket ==> r[t] == c[t]
    ensures KeyedByTicket(c) ==> KeyedByTicket(r)
  {
    if ticket in c then c else c[ticket := OpenRecord(account, symbol, ticket, tradeType, price, now)]
  }

  /** The document `save_close` creates when the ticket is absent: only the filter
      field and the `$set` fields exist. */
  function CloseOnlyRecord(ticket: int, profit: real, price: real, now: int, status: string): (r: Record)
    ensures r.ticket == ticket && r.status == status
    ensures r.openPrice == None && r.tradeType == None
  {
    Record(ticket, None, None, None, None, status, None, Some(Round2(profit)), Some(price), Some(now))
  }

  /** `update_one({"ticket": t}, {"$set": {close_price, close_time, profit, status}}, upsert=True)`. */
  function UpsertClose(c: Collection, ticket: int, profit: real, price: real, now: int, status: string): (r: Collection)
    ensures ticket in r && r.Keys == c.Keys + {ticket}
    ensures r[ticket].status == status && r[ticket].profit == Some(Round2(profit))
    ensures r[ticket].closePrice == Some(price) && r[ticket].closeTime == Some(now)
    ensures ticket in c ==>
              && r[ticket].ticket == c[ticket].ticket && r[ticket].symbol == c[ticket].symbol
              && r[ticket].tradeType == c[ticket].tradeType && r[ticket].openPrice == c[ticket].openPrice
              && r[ticket].openTime == c[ticket].openTime && r[ticket].account == c[ticket].account
    ensures ticket !in c ==> r[ticket] == CloseOnlyRecord(ticket, profit, price, now, status)
    ensures forall t :: t in c && t != ticket ==> r[t] == c[t]
    ensures KeyedByTicket(c) ==> KeyedByTicket(r)
  {
    if ticket in c then
      c[ticket := c[ticket].(closePrice := Some(price), closeTime := Some(now),
                             profit := Some(Round2(profit)), status := status)]
    else c[ticket := CloseOnlyRecord(ticket, profit, price, now, status)]
  }

  /** Repeating save_open with any arguments on a ticket already present changes nothing. */
  lemma SaveOpenRepeatIsNoOp(c: Collection, account: int, symbol: string, ticket: int,
                             t1: string, p1: real, n1: int, t2: string, p2: real, n2: int)
    ensures var once := UpsertOpen(c, account, symbol, ticket, t1, p1, n1);
            UpsertOpen(once, account, symbol, ticket, t2, p2, n2) == once
  {
  }

  /** After save_open and save_close on one ticket, in either order, the status,
      profit and close price are those given to save_close. The open fields differ
      by order on a new ticket: open-then-close keeps save_open's, while close-then-open
      loses them, because save_close's upsert creates the document first and
      `$setOnInsert` then writes nothing. On an existing document both orders keep its
      open price. */
  lemma OpenCloseOrder(c: Collection, account: int, symbol: string, ticket: int, tradeType: string,
                         openPrice: real, t0: int, profit: real, closePrice: real, t1: int, status: string)
    ensures var a := UpsertClose(UpsertOpen(c, account, symbol, ticket, tradeType, openPrice, t0),
                                 ticket, profit, closePrice, t1, status);
            var b := UpsertOpen(UpsertClose(c, ticket, profit, closePrice, t1, status),
                                account, symbol, ticket, tradeType, openPrice, t0);
            && a[ticket].status == status == b[ticket].status
            && a[ticket].profit == Some(Round2(profit)) == b[ticket].profit
            && a[ticket].closePrice == Some(closePrice) == b[ticket].closePrice
            && (ticket !in c ==> a[ticket].openPrice == Some(openPrice) && a[ticket].tradeType == Some(tradeType)
                                 && a[ticket].symbol == Some(symbol))
            && (ticket !in c ==> b[ticket].openPrice == None && b[ticket].tradeType == None && b[ticket].symbol == None)
            && (ticket in c ==> a[ticket].openPrice == c[ticket].openPrice == b[ticket].openPrice)
  {
  }

  // ---------------------------------------------------------------- the store

  /** Every collection of every account database, by (database, collection) name. */
  type Store = map<CollectionKey, Collection>

  /** Every collection keeps one document per ticket. */
  ghost predicate StoreKeyed(store: Store)
  {
    forall k :: k in store ==> KeyedByTicket(store[k])
  }

  /** A collection as MongoDB hands it out: empty until something is written to it. */
  function CollectionIn(store: Store, key: CollectionKey): (c: Collection)
    ensures key !in store ==> c == map[]
    ensures StoreKeyed(store) ==> KeyedByTicket(c)
  {
    if key in store then store[key] else map[]
  }

  /** save_open on the whole store: only the collection of (account, symbol) changes. */
  function SaveOpenOn(store: Store, account: int, symbol: string, ticket: int, tradeType: string,
                      price: real, now: int): (r: Store)
    ensures r.Keys == store.Keys + {CollectionKeyOf(account, symbol)}
    ensures r[CollectionKeyOf(account, symbol)]
            == UpsertOpen(CollectionIn(store, CollectionKeyOf(account, symbol)), account, symbol, ticket, tradeType, price, now)
    ensures forall k :: k in store && k != CollectionKeyOf(account, symbol) ==> r[k] == store[k]
    ensures StoreKeyed(store) ==> StoreKeyed(r)
  {
    var key := CollectionKeyOf(account, symbol);
    store[key := UpsertOpen(CollectionIn(store, key), account, symbol, ticket, tradeType, price, now)]
  }

  /** save_close on the whole store: only the collection of (account, symbol) changes. */
  function SaveCloseOn(store: Store, account: int, symbol: string, ticket: int, profit: real, price: real,
                       now: int, status: string): (r: Store)
    ensures r.Keys == store.Keys + {CollectionKeyOf(account, symbol)}
    ensures r[CollectionKeyOf(account, symbol)]
            == UpsertClose(CollectionIn(store, CollectionKeyOf(account, symbol)), ticket, profit, price, now, status)
    ensures forall k :: k in store && k != CollectionKeyOf(account, symbol) ==> r[k] == store[k]
    ensures StoreKeyed(store) ==> StoreKeyed(r)
  {
    var key := CollectionKeyOf(account, symbol);
    store[key := UpsertClose(CollectionIn(store, key), ticket, profit, price, now, status)]
  }

  /** A save_close with some status leaves every document already in that status in
      it, wherever the write lands. */
  lemma SaveCloseKeepsStatus(store: Store, account: int, symbol: string, ticket: int, profit: real, price: real,
                             now: int, status: string, key: CollectionKey, t: int)
    requires key in store && t in store[key] && store[key][t].status == status
    ensures var r := SaveCloseOn(store, account, symbol, ticket, profit, price, now, status);
            key in r && t in r[key] && r[key][t].status == status
  {
    var target := CollectionKeyOf(account, symbol);
    if key == target {
      var c := store[key];
      assert CollectionIn(store, key) == c;
    }
  }

  /** The document store (the lazily created global DatabaseManager), as the
      collections it holds. */
  class Journal {
    var collections: Store

    ghost predicate Valid()
      reads this
    {
      StoreKeyed(collections)
    }

    constructor ()
      ensures Valid() && collections == map[]
    {
      collections := map[];
    }

    /** save_open: insert the OPEN document if the ticket is new, otherwise nothing. */
    method SaveOpen(account: int, symbol: string, ticket: int, tradeType: string, price: real, now: int)
      requires Valid()
      modifies this
      ensures Valid()
      ensures collections == SaveOpenOn(old(collections), account, symbol, ticket, tradeType, price, now)
    {
      var key := CollectionKeyOf(account, symbol);
      collections := collections[key := UpsertOpen(CollectionIn(collections, key), account, symbol, ticket, tradeType, price, now)];
    }

    /** save_close: set the close fields, creating the document if needed. */
    method SaveClose(account: int, symbol: string, ticket: int, profit: real, price: real, now: int, status: string)
      requires Valid()
      modifies this
      ensures Valid()
      ensures collections == SaveCloseOn(old(collections), account, symbol, ticket, profit, price, now, status)
    {
      var key := CollectionKeyOf(account, symbol);
      collections := collections[key := UpsertClose(CollectionIn(collections, key), ticket, profit, price, now, status)];
    }
  }
}
