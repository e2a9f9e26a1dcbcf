/**
 * The token pipeline's imperative code: the backfill loop, the per-log
 * balance update, the live listener and token registration, each proved
 * equal to the state machine of module Scanner on the same chain answers.
 */
module Evm {
  import opened Wrappers
  import opened Text
  import opened Chain
  import opened Ledger
  import opened Scanner

  /** `upsert_balance_from_log`: get or create both holders, then one upsert; a self-transfer writes nothing. */
  method UpsertBalanceFromLog(store: Store, log: TransferLog, token: TokenId)
    modifies store
    ensures store.Value() == ApplyLog(old(store.Value()), log, token)
  {
    if log.topics[1] != log.topics[2] {
      var from := store.AddOrGetHolder(Sender(log));
      var to := store.AddOrGetHolder(Recipient(log));
      store.UpsertBalance(from, to, token, Amount(log));
    }
  }

  /**
   * `log_listener`: read the head for its start-up log line (a failed read
   * ends the listener), subscribe from the block after the token's watermark
   * and, for every delivered log that carries a block number, persist that block
   * as the watermark and then apply the log. Returns how the listener ended
   * and the block the subscription started from, if it was requested.
   */
  method LogListener(store: Store, token: Token, head: HeadReading, live: Subscription)
    returns (exit: Exit, liveFrom: Option<int>)
    modifies store
    ensures var p := Follow(old(store.Value()), token, head, live);
      store.Value() == p.db && exit == p.exit && liveFrom == p.liveFrom
  {
    if head.Unavailable? {
      return Aborted(HeadUnavailable), None;
    }
    if !ParsesAsAddress(token.contractAddr) {
      return Aborted(InvalidContract), None;
    }
    liveFrom := Some(token.lastCheckedBlock + 1);
    if live.Refused? {
      return Aborted(SubscribeFailed), liveFrom;
    }
    var logs := live.logs;
    ghost var before := store.Value();
    for k := 0 to |logs|
      invariant store.Value() == FollowLogs(before, logs[..k], token.id)
    {
      var log := logs[k];
      assert logs[..k + 1][..k] == logs[..k];
      if log.blockNumber.Some? {
        store.UpdateTokenLastCheckedBlock(log.blockNumber.value, token.id);
        UpsertBalanceFromLog(store, log, token.id);
      }
    }
    assert logs[..|logs|] == logs;
    exit := StreamEnded;
  }

  /** The inner `for` loop of a successful window: the logs in array order. */
  method ApplyWindow(store: Store, logs: seq<TransferLog>, token: TokenId)
    modifies store
    ensures store.Value() == ApplyLogs(old(store.Value()), logs, token)
  {
    ghost var before := store.Value();
    for k := 0 to |logs|
      invariant store.Value() == ApplyLogs(before, logs[..k], token)
    {
      assert logs[..k + 1][..k] == logs[..k];
      UpsertBalanceFromLog(store, logs[k], token);
    }
    assert logs[..|logs|] == logs;
  }

  /**
   * `add_balances_by_token`: backfill the token's transfers window by window
   * from its watermark to the chain head, then hand over to the listener.
   * `heads` are the successive `get_block_number` readings of the backfill,
   * `listenHead` the one the listener makes, `responses` the successive
   * `get_logs` answers and `live` the subscription.
   */
  method AddBalancesByToken(store: Store, token: Token, heads: seq<HeadReading>, responses: seq<LogsResponse>,
                            listenHead: HeadReading, live: Subscription)
    returns (exit: Exit, liveFrom: Option<int>)
    modifies store
    ensures var p := Ingest(old(store.Value()), token, heads, responses, listenHead, live);
      store.Value() == p.db && exit == p.exit && liveFrom == p.liveFrom
  {
    if heads == [] {
      return Starved, None;
    }
    if heads[0].Unavailable? {
      return Aborted(HeadUnavailable), None;
    }
    var lastBlock := heads[0].block;
    var from := token.lastCheckedBlock + 1;
    var step := DefaultStep;
    if from + step > lastBlock {
      step := lastBlock - from;
    }
    if !ParsesAsAddress(token.contractAddr) {
      return Aborted(InvalidContract), None;
    }
    var tok;
    exit, tok := Backfill(store, token, from, step, lastBlock, responses, heads[1..]);
    liveFrom := None;
    if exit == CaughtUp {
      exit, liveFrom := LogListener(store, tok, listenHead, live);
    }
  }

  /**
   * The `while from < last_block` loop of `add_balances_by_token`, from the
   * window `[from, from + step]` under the cached head `lastBlock`. Returns
   * how the loop ended and the token with its in-memory watermark.
   */
  method Backfill(store: Store, token: Token, from0: int, step0: int, lastBlock0: int,
                  responses: seq<LogsResponse>, heads: seq<HeadReading>)
    returns (exit: Exit, tok: Token)
    requires from0 == token.lastCheckedBlock + 1
    modifies store
    ensures var o := Run(Scan(from0, step0, lastBlock0, token.lastCheckedBlock), old(store.Value()), token.id, responses, heads);
      store.Value() == o.db && exit == o.exit && tok == token.(lastCheckedBlock := o.scan.lastChecked)
  {
    ghost var goal := Run(Scan(from0, step0, lastBlock0, token.lastCheckedBlock), store.Value(), token.id, responses, heads);
    var s := Scan(from0, step0, lastBlock0, token.lastCheckedBlock);
    tok := token;
    var i, h := 0, 0;
    while s.from < s.lastBlock
      invariant 0 <= i <= |responses| && 0 <= h <= |heads|
      invariant tok == token.(lastCheckedBlock := s.lastChecked)
      invariant Run(s, store.Value(), token.id, responses[i..], heads[h..]) == goal
      decreases |responses| - i
    {
      if i == |responses| {
        return Starved, tok;
      }
      ghost var db := store.Value();
      var next, stop, used := Window(store, token.id, s, responses[i], heads[h..]);
      RunStep(s, db, token.id, responses, heads, i, h);
      tok := tok.(lastCheckedBlock := next.lastChecked);
      if stop.Some? {
        return stop.value, tok;
      }
      s, i, h := next, i + 1, h + used;
    }
    exit := CaughtUp;
  }

  /**
   * One pass of the loop body on one `get_logs` answer: apply the window's
   * logs and commit its end, grow the window and, when it would pass the
   * cached head, read the head and cut the window; or back off; or give up.
   */
  method Window(store: Store, token: TokenId, s: Scan, response: LogsResponse, heads: seq<HeadReading>)
    returns (next: Scan, stop: Option<Exit>, used: nat)
    modifies store
    ensures var r := Step(s, old(store.Value()), token, response, heads);
      && store.Value() == r.db && next == r.scan
      && (r.Stop? <==> stop.Some?) && (r.Stop? ==> stop.value == r.exit)
      && (r.Next? ==> used == r.headsUsed)
  {
    used := 0;
    stop := None;
    match response {
      case Fetched(logs) =>
        ApplyWindow(store, logs, token);
        var mark := s.from + s.step;
        store.UpdateTokenLastCheckedBlock(mark, token);
        next := Scan(mark + 1, Resized(s.step, |logs|), s.lastBlock, mark);
        if next.from + next.step > next.lastBlock {
          if heads == [] {
            return next, Some(Starved), 0;
          }
          var reading := heads[0];
          if reading.Unavailable? {
            return next, Some(Aborted(HeadUnavailable)), 0;
          }
          var lastBlock := next.lastBlock;
          if reading.block - lastBlock > HeadTolerance {
            lastBlock := reading.block;
          }
          next := next.(lastBlock := lastBlock, step := lastBlock - next.from);
          used := 1;
        }
      case RateLimited =>
        var step := RustDiv(s.step, 3);
        if step == 0 {
          step := BackoffFloor;
        }
        next := s.(step := step);
      case Failed(reason) =>
        next := s;
        stop := Some(Aborted(LogsFailed(reason)));
    }
  }

  /**
   * `add_token_by_contract`: registers the contract with the placeholder
   * symbol "TEST", 6 decimals and watermark -1, so that its backfill starts
   * at block 0.
   */
  method AddTokenByContract(store: Store, contractAddr: string) returns (t: Token)
    modifies store
    ensures var (db, id) := InsertToken(old(store.Value()), contractAddr, -1, "TEST", 6);
      store.Value() == db && t == Token(id, contractAddr, -1, "TEST", 6)
  {
    var id := store.AddToken(contractAddr, -1, "TEST", 6);
    t := Token(id, contractAddr, -1, "TEST", 6);
  }

  /** One turn of the loop: `Run` takes one `Step` on the first answer and continues from where it leaves off. */
  lemma RunStep(s: Scan, db: Db, token: TokenId, responses: seq<LogsResponse>, heads: seq<HeadReading>, i: nat, h: nat)
    requires s.from < s.lastBlock && i < |responses| && h <= |heads|
    ensures var r := Step(s, db, token, responses[i], heads[h..]);
      && (r.Stop? ==> Run(s, db, token, responses[i..], heads[h..]) == Outcome(r.scan, r.db, r.exit))
      && (r.Next? ==> h + r.headsUsed <= |heads|)
      && (r.Next? ==> Run(s, db, token, responses[i..], heads[h..]) == Run(r.scan, r.db, token, responses[i + 1..], heads[h + r.headsUsed..]))
  {
    var r := Step(s, db, token, responses[i], heads[h..]);
    assert responses[i..][0] == responses[i] && responses[i..][1..] == responses[i + 1..];
    if r.Next? {
      assert heads[h..][r.headsUsed..] == heads[h + r.headsUsed..];
    }
  }

  /** A freshly registered token is registered consistently and its first window starts at block 0. */
  lemma NewTokenStartsAtGenesis(db: Db, contractAddr: string, head: nat)
    requires Consistent(db)
    ensures var (db', id) := InsertToken(db, contractAddr, -1, "TEST", 6);
      && id !in db.tokens
      && Registered(db', Token(id, contractAddr, -1, "TEST", 6))
      && WatermarkOf(db', id) == Some(-1)
      && Start(-1, head).from == 0
  {
  }
}
