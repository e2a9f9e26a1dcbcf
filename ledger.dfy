/**
 * The balance ledger store the ingestion core writes into. The SQL behind
 * `add_or_get_holder`, `upsert_balance`, `update_token_last_checked_block`
 * and `add_token` is not part of this model; the store is described by the
 * value `Db` it holds, the pure operations below that say what each call
 * does to it, and the class `Store` whose methods perform them in place.
 * Every write is also appended to a journal, so that the order in which the
 * core issues its writes can be stated.
 */
module Ledger {
  import opened Chain

  type HolderId = nat
  type TokenId = nat

  /** A row of the token table. */
  datatype Token = Token(
    id: TokenId,
    contractAddr: string,
    lastCheckedBlock: int,
    symbol: string,
    decimals: int)

  /** One call into the store, as recorded in the journal. */
  datatype Write =
    | HolderWrite(holder: Address)
    | BalanceWrite(from: HolderId, to: HolderId, token: TokenId, amount: nat)
    | WatermarkWrite(token: TokenId, block: int)
    | TokenWrite(contractAddr: string)

  /** The store's content: holders by address, balances by (holder, token), tokens by id. */
  datatype Db = Db(
    holders: map<Address, HolderId>,
    nextHolder: HolderId,
    balances: map<(HolderId, TokenId), int>,
    tokens: map<TokenId, Token>,
    nextToken: TokenId,
    journal: seq<Write>)

  const Empty: Db := Db(map[], 0, map[], map[], 0, [])

  /**
   * Holder ids are allocated below `nextHolder` and are distinct, balance
   * rows only name allocated holders, and token rows are keyed by their id.
   */
  ghost predicate Consistent(db: Db)
  {
    && (forall a | a in db.holders :: db.holders[a] < db.nextHolder)
    && (forall a, b | a in db.holders && b in db.holders && a != b :: db.holders[a] != db.holders[b])
    && (forall k | k in db.balances :: k.0 < db.nextHolder)
    && (forall t | t in db.tokens :: t < db.nextToken && db.tokens[t].id == t)
  }

  /** The balance row of (holder, token); an absent row reads as zero. */
  function Balance(db: Db, h: HolderId, t: TokenId): int
  {
    if (h, t) in db.balances then db.balances[(h, t)] else 0
  }

  /** The balance of an address for a token; an unknown address holds nothing. */
  function BalanceOf(db: Db, a: Address, t: TokenId): int
  {
    if a in db.holders then Balance(db, db.holders[a], t) else 0
  }

  /** The watermark recorded for a token, if the token exists. */
  function WatermarkOf(db: Db, t: TokenId): Wrappers.Option<int>
  {
    if t in db.tokens then Wrappers.Some(db.tokens[t].lastCheckedBlock) else Wrappers.None
  }

  /** `add_or_get_holder`: the id of `addr`, inserting a fresh holder the first time. */
  function GetOrAddHolder(db: Db, addr: Address): (r: (Db, HolderId))
    ensures addr in r.0.holders && r.0.holders[addr] == r.1
    ensures addr in db.holders ==> r.1 == db.holders[addr] && r.0.holders == db.holders
    ensures addr !in db.holders ==> r.0.holders == db.holders[addr := r.1]
    ensures r.0.balances == db.balances && r.0.tokens == db.tokens
    ensures r.0.journal == db.journal + [HolderWrite(addr)]
    ensures addr !in db.holders ==> r.1 == db.nextHolder && r.0.nextHolder == db.nextHolder + 1
    ensures addr in db.holders ==> r.0.nextHolder == db.nextHolder
    ensures r.0.nextToken == db.nextToken
  {
    if addr in db.holders then
      (db.(journal := db.journal + [HolderWrite(addr)]), db.holders[addr])
    else
      var id := db.nextHolder;
      (db.(holders := db.holders[addr := id], nextHolder := id + 1,
           journal := db.journal + [HolderWrite(addr)]), id)
  }

  /**
   * `upsert_balance`: one transfer of `amount` from holder `from` to holder
   * `to`, inserting missing rows at zero; a transfer to oneself changes nothing.
   */
  function ApplyUpsert(db: Db, from: HolderId, to: HolderId, token: TokenId, amount: nat): (r: Db)
    ensures from != to ==> Balance(r, from, token) == Balance(db, from, token) - amount
    ensures from != to ==> Balance(r, to, token) == Balance(db, to, token) + amount
    ensures forall h: HolderId, t: TokenId :: (h, t) != (from, token) && (h, t) != (to, token) ==> Balance(r, h, t) == Balance(db, h, t)
    ensures from == to ==> r.balances == db.balances
    ensures r.holders == db.holders && r.nextHolder == db.nextHolder && r.tokens == db.tokens && r.nextToken == db.nextToken
    ensures r.journal == db.journal + [BalanceWrite(from, to, token, amount)]
  {
    var logged := db.(journal := db.journal + [BalanceWrite(from, to, token, amount)]);
    if from == to then logged
    else
      logged.(balances := db.balances[(from, token) := Balance(db, from, token) - amount]
                                     [(to, token) := Balance(db, to, token) + amount])
  }

  /** `update_token_last_checked_block`: sets the token's watermark; an unknown id matches no row. */
  function SetWatermark(db: Db, token: TokenId, block: int): (r: Db)
    ensures WatermarkOf(r, token) == if token in db.tokens then Wrappers.Some(block) else Wrappers.None
    ensures token in db.tokens ==> r.tokens == db.tokens[token := db.tokens[token].(lastCheckedBlock := block)]
    ensures token !in db.tokens ==> r.tokens == db.tokens
    ensures r.tokens.Keys == db.tokens.Keys && r.nextToken == db.nextToken
    ensures r.holders == db.holders && r.nextHolder == db.nextHolder && r.balances == db.balances
    ensures r.journal == db.journal + [WatermarkWrite(token, block)]
  {
    var logged := db.(journal := db.journal + [WatermarkWrite(token, block)]);
    if token in db.tokens then
      logged.(tokens := db.tokens[token := db.tokens[token].(lastCheckedBlock := block)])
    else logged
  }

  /** `add_token`: inserts a token row under a fresh id. */
  function InsertToken(db: Db, contractAddr: string, lastCheckedBlock: int, symbol: string, decimals: int): (r: (Db, TokenId))
    ensures r.0.tokens == db.tokens[r.1 := Token(r.1, contractAddr, lastCheckedBlock, symbol, decimals)]
    ensures r.1 == db.nextToken && r.0.nextToken == db.nextToken + 1
    ensures r.0.holders == db.holders && r.0.nextHolder == db.nextHolder && r.0.balances == db.balances
    ensures r.0.journal == db.journal + [TokenWrite(contractAddr)]
  {
    var id := db.nextToken;
    (db.(tokens := db.tokens[id := Token(id, contractAddr, lastCheckedBlock, symbol, decimals)],
         nextToken := id + 1, journal := db.journal + [TokenWrite(contractAddr)]), id)
  }

  /**
   * Looking up or adding a holder keeps the store consistent and changes no
   * balance: the holder's id reads the address's old balances, and every
   * other address keeps an id different from it.
   */
  lemma GetOrAddHolderConsistent(db: Db, addr: Address)
    requires Consistent(db)
    ensures var (db', id) := GetOrAddHolder(db, addr);
      && Consistent(db') && id < db'.nextHolder
      && (forall t :: Balance(db', id, t) == BalanceOf(db, addr, t))
      && (forall a | a in db.holders && a != addr :: db'.holders[a] == db.holders[a] && db.holders[a] != id)
  {
    var (db', id) := GetOrAddHolder(db, addr);
    if addr !in db.holders {
      forall t: TokenId ensures Balance(db', id, t) == 0 {
        assert (id, t) !in db.balances;
      }
    }
  }

  /** An upsert between allocated holders keeps the store consistent. */
  lemma ApplyUpsertConsistent(db: Db, from: HolderId, to: HolderId, token: TokenId, amount: nat)
    requires Consistent(db) && from < db.nextHolder && to < db.nextHolder
    ensures Consistent(ApplyUpsert(db, from, to, token, amount))
  {
  }

  /** Setting a watermark keeps the store consistent and touches no other token's watermark. */
  lemma SetWatermarkEffect(db: Db, token: TokenId, block: int)
    ensures var r := SetWatermark(db, token, block);
      && (Consistent(db) ==> Consistent(r))
      && forall t :: t != token ==> WatermarkOf(r, t) == WatermarkOf(db, t)
  {
  }

  /** A new token gets an id no token had, and the store stays consistent. */
  lemma InsertTokenFresh(db: Db, contractAddr: string, lastCheckedBlock: int, symbol: string, decimals: int)
    requires Consistent(db)
    ensures var (db', id) := InsertToken(db, contractAddr, lastCheckedBlock, symbol, decimals);
      id !in db.tokens && Consistent(db')
  {
  }

  /** The watermark values written, in journal order. */
  function Watermarks(j: seq<Write>): seq<int>
  {
    if j == [] then []
    else Watermarks(j[..|j| - 1]) + (if j[|j| - 1].WatermarkWrite? then [j[|j| - 1].block] else [])
  }

  lemma {:induction false} WatermarksAppend(a: seq<Write>, b: seq<Write>)
    ensures Watermarks(a + b) == Watermarks(a) + Watermarks(b)
  {
    if b != [] {
      var b' := b[..|b| - 1];
      assert (a + b)[..|a + b| - 1] == a + b';
      WatermarksAppend(a, b');
    } else {
      assert a + b == a;
    }
  }

  /** `after` extends `before`: the journal is only ever appended to. */
  ghost predicate Extends(before: seq<Write>, after: seq<Write>)
  {
    |before| <= |after| && after[..|before|] == before
  }

  /** The map-backed store; its methods are the store calls the core makes. */
  class Store {
    var holders: map<Address, HolderId>
    var nextHolder: HolderId
    var balances: map<(HolderId, TokenId), int>
    var tokens: map<TokenId, Token>
    var nextToken: TokenId
    ghost var journal: seq<Write>

    ghost function Value(): Db
      reads this
    {
      Db(holders, nextHolder, balances, tokens, nextToken, journal)
    }

    constructor ()
      ensures Value() == Empty
    {
      holders, nextHolder, balances := map[], 0, map[];
      tokens, nextToken := map[], 0;
      journal := [];
    }

    method AddOrGetHolder(addr: Address) returns (id: HolderId)
      modifies this
      ensures (Value(), id) == GetOrAddHolder(old(Value()), addr)
    {
      if addr in holders {
        id := holders[addr];
      } else {
        id := nextHolder;
        holders := holders[addr := id];
        nextHolder := id + 1;
      }
      journal := journal + [HolderWrite(addr)];
    }

    method UpsertBalance(from: HolderId, to: HolderId, token: TokenId, amount: nat)
      modifies this
      ensures Value() == ApplyUpsert(old(Value()), from, to, token, amount)
    {
      if from != to {
        var fromAmount := if (from, token) in balances then balances[(from, token)] else 0;
        var toAmount := if (to, token) in balances then balances[(to, token)] else 0;
        balances := balances[(from, token) := fromAmount - amount][(to, token) := toAmount + amount];
      }
      journal := journal + [BalanceWrite(from, to, token, amount)];
    }

    method UpdateTokenLastCheckedBlock(block: int, token: TokenId)
      modifies this
      ensures Value() == SetWatermark(old(Value()), token, block)
    {
      if token in tokens {
        tokens := tokens[token := tokens[token].(lastCheckedBlock := block)];
      }
      journal := journal + [WatermarkWrite(token, block)];
    }

    method AddToken(contractAddr: string, lastCheckedBlock: int, symbol: string, decimals: int) returns (id: TokenId)
      modifies this
      ensures (Value(), id) == InsertToken(old(Value()), contractAddr, lastCheckedBlock, symbol, decimals)
    {
      id := nextToken;
      tokens := tokens[id := Token(id, contractAddr, lastCheckedBlock, symbol, decimals)];
      nextToken := id + 1;
      journal := journal + [TokenWrite(contractAddr)];
    }
  }
}
