/**
 * The per-token ingestion pipeline of `src/evm.rs` as pure functions: how
 * one Transfer log changes the ledger, one iteration of the adaptive
 * backfill loop (`Step`), the whole loop over the chain's answers (`Run`),
 * the live listener (`Follow`) and the pipeline that chains them (`Ingest`).
 * The methods in module Evm perform the same steps in place and are proved
 * equal to these functions; the lemmas here state what the pipeline
 * guarantees.
 */
module Scanner {
  import opened Wrappers
  import opened Text
  import opened Chain
  import opened Ledger

  /** Initial window width in blocks. */
  const DefaultStep: int := 1_000_000
  /** Width a rate-limited window falls back to when dividing by 3 reaches zero. */
  const BackoffFloor: int := 1000
  /** A fresh head reading replaces the cached head only when it is more than this far ahead. */
  const HeadTolerance: int := 10

  // ----------------------------------------------------------------------
  // Applying Transfer logs to the ledger (`upsert_balance_from_log`)
  // ----------------------------------------------------------------------

  /**
   * The store calls issued for one log: nothing when the `from` and `to`
   * topics are equal; otherwise get-or-create both holders, then one
   * balance upsert of the big-endian amount.
   */
  function ApplyLog(db: Db, log: TransferLog, token: TokenId): (r: Db)
    ensures r.tokens == db.tokens
    ensures log.topics[1] == log.topics[2] ==> r == db
    ensures log.topics[1] != log.topics[2] ==>
      && Sender(log) in r.holders && Recipient(log) in r.holders
      && r.journal == db.journal + [HolderWrite(Sender(log)), HolderWrite(Recipient(log)),
                                    BalanceWrite(r.holders[Sender(log)], r.holders[Recipient(log)], token, Amount(log))]
  {
    if log.topics[1] != log.topics[2] then
      var (db1, from) := GetOrAddHolder(db, Sender(log));
      var (db2, to) := GetOrAddHolder(db1, Recipient(log));
      ApplyUpsert(db2, from, to, token, Amount(log))
    else
      db
  }

  /** What one log moves into the account of address `a`. */
  function Flow(log: TransferLog, a: Address): int
  {
    if log.topics[1] == log.topics[2] then 0
    else (if Recipient(log) == a then Amount(log) else 0) - (if Sender(log) == a then Amount(log) else 0)
  }

  /** The logs applied one after the other, in array order. */
  function ApplyLogs(db: Db, logs: seq<TransferLog>, token: TokenId): Db
  {
    if logs == [] then db
    else ApplyLog(ApplyLogs(db, logs[..|logs| - 1], token), logs[|logs| - 1], token)
  }

  /** What a sequence of logs moves into the account of `a`, in total. */
  function NetFlow(logs: seq<TransferLog>, a: Address): int
  {
    if logs == [] then 0 else NetFlow(logs[..|logs| - 1], a) + Flow(logs[|logs| - 1], a)
  }

  lemma {:induction false} WatermarksNone(j: seq<Write>)
    requires forall k :: 0 <= k < |j| ==> !j[k].WatermarkWrite?
    ensures Watermarks(j) == []
  {
    if j != [] {
      WatermarksNone(j[..|j| - 1]);
    }
  }

  /** One log only appends holder and balance writes to the journal. */
  lemma ApplyLogJournal(db: Db, log: TransferLog, token: TokenId)
    ensures var r := ApplyLog(db, log, token);
      && Extends(db.journal, r.journal)
      && forall k :: |db.journal| <= k < |r.journal| ==> !r.journal[k].WatermarkWrite?
  {
  }

  /**
   * One log changes the balance of exactly its sender and its recipient for
   * this token, by minus and plus its amount, and keeps the store consistent.
   */
  lemma ApplyLogEffect(db: Db, log: TransferLog, token: TokenId)
    requires Consistent(db)
    ensures Consistent(ApplyLog(db, log, token))
    ensures forall a: Address, t: TokenId ::
      BalanceOf(ApplyLog(db, log, token), a, t) == BalanceOf(db, a, t) + (if t == token then Flow(log, a) else 0)
  {
    if log.topics[1] != log.topics[2] {
      var (db1, f) := GetOrAddHolder(db, Sender(log));
      var (db2, to) := GetOrAddHolder(db1, Recipient(log));
      GetOrAddHolderConsistent(db, Sender(log));
      GetOrAddHolderConsistent(db1, Recipient(log));
      ApplyUpsertConsistent(db2, f, to, token, Amount(log));
      forall a: Address, t: TokenId
        ensures BalanceOf(ApplyLog(db, log, token), a, t) == BalanceOf(db, a, t) + (if t == token then Flow(log, a) else 0)
      {
        if a == Recipient(log) {
          ApplyLogRecipient(db, log, token, a, t);
        } else if a == Sender(log) {
          ApplyLogSender(db, log, token, a, t);
        } else {
          ApplyLogBystander(db, log, token, a, t);
        }
      }
    }
  }

  /** The recipient's balance after one log that is not a self-transfer. */
  lemma ApplyLogRecipient(db: Db, log: TransferLog, token: TokenId, a: Address, t: TokenId)
    requires Consistent(db) && log.topics[1] != log.topics[2] && a == Recipient(log)
    ensures BalanceOf(ApplyLog(db, log, token), a, t) == BalanceOf(db, a, t) + (if t == token then Flow(log, a) else 0)
  {
    var (db1, f) := GetOrAddHolder(db, Sender(log));
    var (db2, to) := GetOrAddHolder(db1, Recipient(log));
    GetOrAddHolderConsistent(db, Sender(log));
    GetOrAddHolderConsistent(db1, Recipient(log));
    var r := ApplyUpsert(db2, f, to, token, Amount(log));
    assert ApplyLog(db, log, token) == r;
    var flow: int := (if Recipient(log) == a then Amount(log) as int else 0) - (if Sender(log) == a then Amount(log) as int else 0);
    assert Flow(log, a) == flow;
    assert BalanceOf(r, a, t) == Balance(r, to, t);
    assert Balance(db2, to, t) == BalanceOf(db, a, t);
  }

  /** The sender's balance after one log that is not a self-transfer, when the sender is not also the recipient. */
  lemma ApplyLogSender(db: Db, log: TransferLog, token: TokenId, a: Address, t: TokenId)
    requires Consistent(db) && log.topics[1] != log.topics[2] && a == Sender(log) && a != Recipient(log)
    ensures BalanceOf(ApplyLog(db, log, token), a, t) == BalanceOf(db, a, t) + (if t == token then Flow(log, a) else 0)
  {
    var (db1, f) := GetOrAddHolder(db, Sender(log));
    var (db2, to) := GetOrAddHolder(db1, Recipient(log));
    GetOrAddHolderConsistent(db, Sender(log));
    GetOrAddHolderConsistent(db1, Recipient(log));
    var r := ApplyUpsert(db2, f, to, token, Amount(log));
    assert ApplyLog(db, log, token) == r;
    var flow: int := (if Recipient(log) == a then Amount(log) as int else 0) - (if Sender(log) == a then Amount(log) as int else 0);
    assert Flow(log, a) == flow;
    assert db2.holders[a] == f && f != to;
    assert BalanceOf(r, a, t) == Balance(r, f, t);
    assert Balance(db1, f, t) == BalanceOf(db, a, t);
  }

  /** The balance of an address that neither sends nor receives the log. */
  lemma ApplyLogBystander(db: Db, log: TransferLog, token: TokenId, a: Address, t: TokenId)
    requires Consistent(db) && log.topics[1] != log.topics[2] && a != Sender(log) && a != Recipient(log)
    ensures BalanceOf(ApplyLog(db, log, token), a, t) == BalanceOf(db, a, t) + (if t == token then Flow(log, a) else 0)
  {
    var (db1, f) := GetOrAddHolder(db, Sender(log));
    var (db2, to) := GetOrAddHolder(db1, Recipient(log));
    var r := ApplyUpsert(db2, f, to, token, Amount(log));
    assert ApplyLog(db, log, token) == r;
    assert Flow(log, a) == 0;
    if a in db.holders {
      var h := db.holders[a];
      assert h < db.nextHolder;
      assert h != f by {
        if Sender(log) in db.holders {
          assert db.holders[Sender(log)] == f;
        }
      }
      assert db1.holders[a] == h;
      assert h != to by {
        if Recipient(log) in db1.holders && Recipient(log) != Sender(log) {
          assert db.holders[Recipient(log)] == to;
        }
      }
      assert db2.holders[a] == h;
      assert Balance(r, h, t) == Balance(db2, h, t);
    } else {
      assert a !in db1.holders;
      assert a !in r.holders;
    }
  }

  /** Applying a window's logs only appends to the journal, writes no watermark and leaves the token rows alone. */
  lemma {:induction false} ApplyLogsJournal(db: Db, logs: seq<TransferLog>, token: TokenId)
    ensures var r := ApplyLogs(db, logs, token);
      && r.tokens == db.tokens
      && Extends(db.journal, r.journal) && Watermarks(r.journal[|db.journal|..]) == []
  {
    var r := ApplyLogs(db, logs, token);
    if logs == [] {
      assert r.journal[|db.journal|..] == [];
    } else {
      var m := ApplyLogs(db, logs[..|logs| - 1], token);
      ApplyLogsJournal(db, logs[..|logs| - 1], token);
      ApplyLogJournal(m, logs[|logs| - 1], token);
      ExtendsSplit(db.journal, m.journal, r.journal);
      WatermarksAppend(m.journal[|db.journal|..], r.journal[|m.journal|..]);
      WatermarksNone(r.journal[|m.journal|..]);
    }
  }

  /** Applying a window's logs changes each balance of the token by the window's net flow, and no other balance. */
  lemma {:induction false} ApplyLogsBalances(db: Db, logs: seq<TransferLog>, token: TokenId)
    requires Consistent(db)
    ensures var r := ApplyLogs(db, logs, token);
      && Consistent(r)
      && forall a: Address, t: TokenId ::
           BalanceOf(r, a, t) == BalanceOf(db, a, t) + (if t == token then NetFlow(logs, a) else 0)
  {
    if logs != [] {
      var m := ApplyLogs(db, logs[..|logs| - 1], token);
      ApplyLogsBalances(db, logs[..|logs| - 1], token);
      ApplyLogEffect(m, logs[|logs| - 1], token);
    }
  }

  // ----------------------------------------------------------------------
  // The backfill state machine (`add_balances_by_token`)
  // ----------------------------------------------------------------------

  /**
   * The loop state: the next block to scan, the window width, the cached
   * chain head and the in-memory watermark `token.last_checked_block`.
   */
  datatype Scan = Scan(from: int, step: int, lastBlock: int, lastChecked: int)

  /** How a pipeline stops. `Starved` means the oracle inputs ran out first. */
  datatype Exit = CaughtUp | Aborted(failure: PipelineError) | Starved | StreamEnded

  /**
   * The window width after a successful window that returned `n` logs:
   * doubled when sparse, grown by a half and then a quarter as the count
   * rises, unchanged above 5000 logs.
   */
  function Resized(step: int, n: nat): (r: int)
    ensures step >= 0 ==> step <= r <= 2 * step
    ensures n > 5000 ==> r == step
  {
    if n <= 100 then step * 2
    else if n <= 1000 then step + RustDiv(step, 2)
    else if n <= 5000 then step + RustDiv(step, 4)
    else step
  }

  /** The tiers of `Resized`, on both sides of each boundary. */
  lemma ResizeBoundaries(step: nat)
    ensures Resized(step, 0) == 2 * step && Resized(step, 100) == 2 * step
    ensures Resized(step, 101) == step + step / 2 && Resized(step, 1000) == step + step / 2
    ensures Resized(step, 1001) == step + step / 4 && Resized(step, 5000) == step + step / 4
    ensures Resized(step, 5001) == step
  {
  }

  /** The window width after a rate-limited request: a third, or the floor when that is zero. */
  function BackedOff(step: int): (r: int)
    ensures step > 0 ==> r >= 1
    ensures step >= 3 ==> r == step / 3 && r < step
    ensures 0 <= step < 3 ==> r == BackoffFloor
  {
    var third := RustDiv(step, 3);
    if third == 0 then BackoffFloor else third
  }

  /** The state before the first iteration, given the watermark and the first head reading. */
  function Start(lastChecked: int, head: int): (s: Scan)
    ensures s.from == lastChecked + 1 && s.lastChecked == lastChecked && s.lastBlock == head
    ensures s.from < head ==> 1 <= s.step <= DefaultStep && s.from + s.step <= head
    ensures s.from + DefaultStep <= head ==> s.step == DefaultStep
    ensures s.from + DefaultStep > head ==> s.from + s.step == head
  {
    var from := lastChecked + 1;
    Scan(from, if from + DefaultStep > head then head - from else DefaultStep, head, lastChecked)
  }

  /**
   * The loop invariant: the next block follows the watermark; while blocks
   * remain the window is at least one block wide, and it reaches past the
   * cached head only when it has been cut to the backoff floor or below.
   */
  ghost predicate Inv(s: Scan)
  {
    && s.from == s.lastChecked + 1
    && (s.from < s.lastBlock ==> s.step >= 1)
    && (s.from < s.lastBlock ==> s.from + s.step <= s.lastBlock || s.step <= BackoffFloor)
  }

  /** The persisted watermark of the token, when its row exists, equals the in-memory one. */
  ghost predicate Synced(s: Scan, db: Db, token: TokenId)
  {
    WatermarkOf(db, token).Some? ==> WatermarkOf(db, token).value == s.lastChecked
  }

  /** What holds of the store and the watermark at every state, including the last. */
  ghost predicate Tracked(s: Scan, db: Db, token: TokenId)
  {
    s.from == s.lastChecked + 1 && Consistent(db) && Synced(s, db, token)
  }

  ghost predicate Good(s: Scan, db: Db, token: TokenId)
  {
    Inv(s) && Tracked(s, db, token)
  }

  datatype StepResult =
    | Next(scan: Scan, db: Db, headsUsed: nat)
    | Stop(scan: Scan, db: Db, exit: Exit)

  /**
   * After a successful window: when the grown window would pass the cached
   * head, read the head, take the reading only if it is more than 10 blocks
   * ahead, and cut the window to end at the head.
   */
  function Clamp(grown: Scan, db: Db, heads: seq<HeadReading>): (r: StepResult)
    ensures r.db == db
    ensures r.Next? ==> r.headsUsed <= |heads| && r.headsUsed <= 1
  {
    if grown.from + grown.step <= grown.lastBlock then Next(grown, db, 0)
    else if heads == [] then Stop(grown, db, Starved)
    else match heads[0]
      case Unavailable => Stop(grown, db, Aborted(HeadUnavailable))
      case Height(actual) =>
        var head := if actual - grown.lastBlock > HeadTolerance then actual else grown.lastBlock;
        Next(grown.(lastBlock := head, step := head - grown.from), db, 1)
  }

  /**
   * One iteration of the loop on one `get_logs` answer for the window
   * `[from, from + step]`.
   */
  function Step(s: Scan, db: Db, token: TokenId, response: LogsResponse, heads: seq<HeadReading>): (r: StepResult)
    ensures r.Next? ==> r.headsUsed <= |heads|
  {
    match response
    case Failed(reason) => Stop(s, db, Aborted(LogsFailed(reason)))
    case RateLimited => Next(s.(step := BackedOff(s.step)), db, 0)
    case Fetched(logs) =>
      var mark := s.from + s.step;
      Clamp(Scan(mark + 1, Resized(s.step, |logs|), s.lastBlock, mark),
            SetWatermark(ApplyLogs(db, logs, token), token, mark), heads)
  }

  /** A rate-limited answer retries the same window: only the width changes, nothing is written. */
  lemma StepRateLimited(s: Scan, db: Db, token: TokenId, heads: seq<HeadReading>)
    ensures var r := Step(s, db, token, RateLimited, heads);
      && r.Next? && r.db == db && r.headsUsed == 0
      && r.scan.from == s.from && r.scan.lastChecked == s.lastChecked && r.scan.lastBlock == s.lastBlock
      && r.scan.step == BackedOff(s.step)
  {
  }

  /** Any other error stops the pipeline with that error and writes nothing. */
  lemma StepFailed(s: Scan, db: Db, token: TokenId, reason: string, heads: seq<HeadReading>)
    ensures Step(s, db, token, Failed(reason), heads) == Stop(s, db, Aborted(LogsFailed(reason)))
  {
  }

  /**
   * A successful window applies its logs in order, then commits the window's
   * end as watermark; the next window starts right after it. The cached
   * head is re-read only when the grown window would pass it, is replaced
   * only by a reading more than 10 blocks ahead, and the window is then cut
   * to end at the head.
   */
  lemma StepFetched(s: Scan, db: Db, token: TokenId, logs: seq<TransferLog>, heads: seq<HeadReading>)
    ensures var r := Step(s, db, token, Fetched(logs), heads);
      && r.db == SetWatermark(ApplyLogs(db, logs, token), token, s.from + s.step)
      && r.scan.lastChecked == s.from + s.step && r.scan.from == r.scan.lastChecked + 1
      && var grown := Resized(s.step, |logs|);
      && (r.scan.from + grown <= s.lastBlock ==>
            r == Next(Scan(r.scan.from, grown, s.lastBlock, r.scan.lastChecked), r.db, 0))
      && (r.scan.from + grown > s.lastBlock ==>
            && (heads == [] ==> r.Stop? && r.exit == Starved)
            && (heads != [] && heads[0].Unavailable? ==> r.Stop? && r.exit == Aborted(HeadUnavailable))
            && (heads != [] && heads[0].Height? ==>
                  && r.Next? && r.headsUsed == 1
                  && r.scan.lastBlock == (if heads[0].block - s.lastBlock > HeadTolerance then heads[0].block else s.lastBlock)
                  && r.scan.step == r.scan.lastBlock - r.scan.from))
  {
  }

  /** The clamp keeps the scan invariant and changes neither the watermark nor the store. */
  lemma ClampKeepsInv(grown: Scan, db: Db, heads: seq<HeadReading>)
    requires grown.from == grown.lastChecked + 1 && grown.step >= 1
    ensures var r := Clamp(grown, db, heads);
      && r.scan.from == r.scan.lastChecked + 1 && r.scan.lastChecked == grown.lastChecked
      && r.scan.lastBlock >= grown.lastBlock
      && (r.Next? ==> Inv(r.scan))
      && (r.Stop? ==> r.exit.Aborted? || r.exit.Starved?)
  {
  }

  /** Appending writes after a journal suffix adds their watermarks to the suffix's. */
  lemma {:induction false} SuffixAppend(before: seq<Write>, mid: seq<Write>, tail: seq<Write>)
    requires Extends(before, mid)
    ensures Extends(before, mid + tail)
    ensures Watermarks((mid + tail)[|before|..]) == Watermarks(mid[|before|..]) + Watermarks(tail)
  {
    assert (mid + tail)[..|before|] == mid[..|before|];
    assert (mid + tail)[|before|..] == mid[|before|..] + tail;
    WatermarksAppend(mid[|before|..], tail);
  }

  /** A successful window's writes: the logs' writes, then exactly one watermark, the window's end. */
  lemma CommitJournal(s: Scan, db: Db, token: TokenId, logs: seq<TransferLog>)
    ensures var committed := SetWatermark(ApplyLogs(db, logs, token), token, s.from + s.step);
      && Extends(db.journal, committed.journal)
      && Watermarks(committed.journal[|db.journal|..]) == [s.from + s.step]
  {
    var applied := ApplyLogs(db, logs, token);
    ApplyLogsJournal(db, logs, token);
    var w := WatermarkWrite(token, s.from + s.step);
    SuffixAppend(db.journal, applied.journal, [w]);
    assert Watermarks([w]) == Watermarks([]) + [w.block];
  }

  /** A successful window keeps the store consistent and its watermark equal to the in-memory one. */
  lemma CommitKeepsTracked(s: Scan, db: Db, token: TokenId, logs: seq<TransferLog>)
    requires Consistent(db)
    ensures var committed := SetWatermark(ApplyLogs(db, logs, token), token, s.from + s.step);
      && Consistent(committed)
      && Synced(Scan(s.from + s.step + 1, Resized(s.step, |logs|), s.lastBlock, s.from + s.step), committed, token)
  {
    ApplyLogsBalances(db, logs, token);
    ApplyLogsJournal(db, logs, token);
  }

  /**
   * Every iteration taken while blocks remain keeps the invariants, never
   * lowers the cached head, and moves the watermark forward exactly when
   * the window succeeded.
   */
  lemma StepKeepsGood(s: Scan, db: Db, token: TokenId, response: LogsResponse, heads: seq<HeadReading>)
    requires Good(s, db, token) && s.from < s.lastBlock
    ensures var r := Step(s, db, token, response, heads);
      && Tracked(r.scan, r.db, token)
      && (r.Next? ==> Inv(r.scan))
      && r.scan.lastBlock >= s.lastBlock
      && (response.Fetched? ==> r.scan.lastChecked == s.from + s.step > s.lastChecked)
      && (!response.Fetched? ==> r.scan.lastChecked == s.lastChecked)
      && (r.Stop? ==> r.exit.Aborted? || r.exit.Starved?)
  {
    if response.Fetched? {
      var logs := response.logs;
      var mark := s.from + s.step;
      var grown := Scan(mark + 1, Resized(s.step, |logs|), s.lastBlock, mark);
      var committed := SetWatermark(ApplyLogs(db, logs, token), token, mark);
      CommitKeepsTracked(s, db, token, logs);
      ClampKeepsInv(grown, committed, heads);
    }
  }

  /** What one iteration writes as watermarks: the window's end when it succeeds, nothing otherwise. */
  lemma StepWatermarks(s: Scan, db: Db, token: TokenId, response: LogsResponse, heads: seq<HeadReading>)
    ensures var r := Step(s, db, token, response, heads);
      && Extends(db.journal, r.db.journal)
      && Watermarks(r.db.journal[|db.journal|..]) == (if response.Fetched? then [s.from + s.step] else [])
      && r.scan.lastChecked == (if response.Fetched? then s.from + s.step else s.lastChecked)
  {
    if response.Fetched? {
      CommitJournal(s, db, token, response.logs);
    } else {
      assert db.journal[|db.journal|..] == [];
    }
  }

  datatype Outcome = Outcome(scan: Scan, db: Db, exit: Exit)

  /** `while from < last_block { ... }` over the chain's successive answers. */
  function Run(s: Scan, db: Db, token: TokenId, responses: seq<LogsResponse>, heads: seq<HeadReading>): Outcome
    decreases |responses|
  {
    if s.from >= s.lastBlock then Outcome(s, db, CaughtUp)
    else if responses == [] then Outcome(s, db, Starved)
    else match Step(s, db, token, responses[0], heads)
      case Stop(s', db', exit) => Outcome(s', db', exit)
      case Next(s', db', used) => Run(s', db', token, responses[1..], heads[used..])
  }

  ghost predicate Increasing(ms: seq<int>)
  {
    forall i, j :: 0 <= i < j < |ms| ==> ms[i] < ms[j]
  }

  ghost predicate Above(ms: seq<int>, lo: int)
  {
    forall i :: 0 <= i < |ms| ==> lo < ms[i]
  }

  function LastOr(ms: seq<int>, default: int): int
  {
    if ms == [] then default else ms[|ms| - 1]
  }

  /** A strictly rising run above `lo` extended by a first element above `lo` and below the run. */
  lemma MarksPrepend(first: seq<int>, rest: seq<int>, lo: int, mid: int)
    requires (first == [] && mid == lo) || (first == [mid] && lo < mid)
    requires Increasing(rest) && Above(rest, mid)
    ensures Increasing(first + rest) && Above(first + rest, lo)
    ensures LastOr(first + rest, lo) == LastOr(rest, mid)
  {
    if first == [] {
      assert first + rest == rest;
    }
  }

  lemma ExtendsSplit(a: seq<Write>, b: seq<Write>, c: seq<Write>)
    requires Extends(a, b) && Extends(b, c)
    ensures Extends(a, c) && c[|a|..] == b[|a|..] + c[|b|..]
  {
  }

  /**
   * The whole backfill loop keeps the invariants, never lowers the cached
   * head or the watermark, and ends caught up only once `from >= last_block`.
   */
  lemma {:induction false} RunKeepsGood(s: Scan, db: Db, token: TokenId, responses: seq<LogsResponse>, heads: seq<HeadReading>)
    requires Good(s, db, token)
    decreases |responses|
    ensures var o := Run(s, db, token, responses, heads);
      && Tracked(o.scan, o.db, token)
      && o.scan.lastBlock >= s.lastBlock && o.scan.lastChecked >= s.lastChecked
      && (o.exit == CaughtUp ==> Inv(o.scan) && o.scan.from >= o.scan.lastBlock)
      && !o.exit.StreamEnded?
  {
    if s.from < s.lastBlock && responses != [] {
      var r := Step(s, db, token, responses[0], heads);
      StepKeepsGood(s, db, token, responses[0], heads);
      if r.Next? {
        RunKeepsGood(r.scan, r.db, token, responses[1..], heads[r.headsUsed..]);
      }
    }
  }

  /**
   * The watermarks the backfill loop writes rise strictly, all lie above the
   * starting watermark, and the last one is the final in-memory watermark.
   */
  lemma {:induction false} RunWatermarks(s: Scan, db: Db, token: TokenId, responses: seq<LogsResponse>, heads: seq<HeadReading>)
    requires Inv(s)
    decreases |responses|
    ensures var o := Run(s, db, token, responses, heads);
      && Extends(db.journal, o.db.journal)
      && var marks := Watermarks(o.db.journal[|db.journal|..]);
      && Increasing(marks) && Above(marks, s.lastChecked)
      && o.scan.lastChecked == LastOr(marks, s.lastChecked)
  {
    var o := Run(s, db, token, responses, heads);
    if s.from >= s.lastBlock || responses == [] {
      assert o.db.journal[|db.journal|..] == [];
    } else {
      var r := Step(s, db, token, responses[0], heads);
      StepWatermarks(s, db, token, responses[0], heads);
      var first := Watermarks(r.db.journal[|db.journal|..]);
      if r.Stop? {
        assert o == Outcome(r.scan, r.db, r.exit);
        MarksPrepend(first, [], s.lastChecked, r.scan.lastChecked);
        assert first + [] == first;
      } else {
        ClampOrBackoffKeepsInv(s, db, token, responses[0], heads);
        var rest := responses[1..];
        assert o == Run(r.scan, r.db, token, rest, heads[r.headsUsed..]);
        RunWatermarks(r.scan, r.db, token, rest, heads[r.headsUsed..]);
        ExtendsSplit(db.journal, r.db.journal, o.db.journal);
        WatermarksAppend(r.db.journal[|db.journal|..], o.db.journal[|r.db.journal|..]);
        MarksPrepend(first, Watermarks(o.db.journal[|r.db.journal|..]), s.lastChecked, r.scan.lastChecked);
      }
    }
  }

  /** The scan part of `StepKeepsGood`, without the store: a continuing iteration keeps `Inv`. */
  lemma ClampOrBackoffKeepsInv(s: Scan, db: Db, token: TokenId, response: LogsResponse, heads: seq<HeadReading>)
    requires Inv(s) && s.from < s.lastBlock
    ensures var r := Step(s, db, token, response, heads);
      && (r.Next? ==> Inv(r.scan))
      && (response.Fetched? ==> s.from + s.step > s.lastChecked)
  {
    if response.Fetched? {
      var logs := response.logs;
      var mark := s.from + s.step;
      var grown := Scan(mark + 1, Resized(s.step, |logs|), s.lastBlock, mark);
      ClampKeepsInv(grown, SetWatermark(ApplyLogs(db, logs, token), token, mark), heads);
    }
  }

  /**
   * The overrun the backoff floor allows: two blocks before the head, a
   * rate-limited answer widens the window to 1000 blocks past the cached head.
   */
  lemma BackoffPassesHead(db: Db, token: TokenId)
    ensures var s := Scan(0, 2, 2, -1);
      && Inv(s)
      && var r := Step(s, db, token, RateLimited, []);
      && r.Next? && r.scan.from < r.scan.lastBlock && r.scan.from + r.scan.step > r.scan.lastBlock
  {
  }

  // ----------------------------------------------------------------------
  // The live listener (`log_listener`)
  // ----------------------------------------------------------------------

  /** One delivered log: with a block number, the watermark write, then the log; otherwise nothing. */
  function FollowLog(db: Db, log: TransferLog, token: TokenId): (r: Db)
    ensures log.blockNumber.None? ==> r == db
    ensures log.blockNumber.Some? ==>
      && |r.journal| > |db.journal|
      && r.journal[..|db.journal| + 1] == db.journal + [WatermarkWrite(token, log.blockNumber.value)]
  {
    match log.blockNumber
    case None => db
    case Some(block) =>
      var marked := SetWatermark(db, token, block);
      var r := ApplyLog(marked, log, token);
      assert r.journal[..|db.journal| + 1] == r.journal[..|marked.journal|];
      r
  }

  function FollowLogs(db: Db, logs: seq<TransferLog>, token: TokenId): Db
  {
    if logs == [] then db
    else FollowLog(FollowLogs(db, logs[..|logs| - 1], token), logs[|logs| - 1], token)
  }

  /** The block numbers the delivered logs carry, in delivery order. */
  function BlockNumbers(logs: seq<TransferLog>): seq<int>
  {
    if logs == [] then []
    else
      var last := logs[|logs| - 1];
      BlockNumbers(logs[..|logs| - 1]) + (if last.blockNumber.Some? then [last.blockNumber.value] else [])
  }

  /** The delivered logs that carry a block number. */
  function Numbered(logs: seq<TransferLog>): seq<TransferLog>
  {
    if logs == [] then []
    else
      var last := logs[|logs| - 1];
      Numbered(logs[..|logs| - 1]) + (if last.blockNumber.Some? then [last] else [])
  }

  lemma NetFlowSnoc(logs: seq<TransferLog>, log: TransferLog, a: Address)
    ensures NetFlow(logs + [log], a) == NetFlow(logs, a) + Flow(log, a)
  {
    assert (logs + [log])[..|logs|] == logs;
  }

  /**
   * Following a stream writes one watermark per numbered log, its block
   * number, in delivery order, and leaves the token's watermark at the last
   * block number delivered.
   */
  lemma {:induction false} FollowLogsJournal(db: Db, logs: seq<TransferLog>, token: TokenId)
    ensures var r := FollowLogs(db, logs, token);
      && Extends(db.journal, r.journal)
      && Watermarks(r.journal[|db.journal|..]) == BlockNumbers(logs)
      && r.tokens.Keys == db.tokens.Keys
      && WatermarkOf(r, token) == (if token in db.tokens && BlockNumbers(logs) != []
                                   then Some(LastOr(BlockNumbers(logs), 0)) else WatermarkOf(db, token))
  {
    if logs == [] {
      assert db.journal[|db.journal|..] == [];
    } else {
      var init := logs[..|logs| - 1];
      var last := logs[|logs| - 1];
      var m := FollowLogs(db, init, token);
      FollowLogsJournal(db, init, token);
      FollowLogJournal(db.journal, m, last, token);
    }
  }

  /**
   * A journal that grows by one watermark write and then by writes of other
   * kinds records exactly one more watermark.
   */
  lemma WatermarksMarked(before: seq<Write>, mid: seq<Write>, w: Write, after: seq<Write>)
    requires Extends(before, mid) && w.WatermarkWrite? && Extends(mid + [w], after)
    requires forall k :: |mid| + 1 <= k < |after| ==> !after[k].WatermarkWrite?
    ensures Extends(before, after)
    ensures Watermarks(after[|before|..]) == Watermarks(mid[|before|..]) + [w.block]
  {
    var tail := after[|mid| + 1..];
    assert after == mid + [w] + tail;
    assert after[|before|..] == mid[|before|..] + ([w] + tail);
    WatermarksNone(tail);
    WatermarksAppend([w], tail);
    WatermarksAppend(mid[|before|..], [w] + tail);
    assert Watermarks([w]) == Watermarks([]) + [w.block];
  }

  /** The step of `FollowLogsJournal` for one more delivered log. */
  lemma FollowLogJournal(before: seq<Write>, m: Db, last: TransferLog, token: TokenId)
    requires Extends(before, m.journal)
    ensures var r := FollowLog(m, last, token);
      && Extends(before, r.journal)
      && Watermarks(r.journal[|before|..]) == Watermarks(m.journal[|before|..])
           + (if last.blockNumber.Some? then [last.blockNumber.value] else [])
      && r.tokens.Keys == m.tokens.Keys
      && WatermarkOf(r, token) == (if token in m.tokens && last.blockNumber.Some?
                                   then Some(last.blockNumber.value) else WatermarkOf(m, token))
  {
    if last.blockNumber.Some? {
      var w := WatermarkWrite(token, last.blockNumber.value);
      var marked := SetWatermark(m, token, last.blockNumber.value);
      var r := ApplyLog(marked, last, token);
      ApplyLogJournal(marked, last, token);
      WatermarksMarked(before, m.journal, w, r.journal);
    } else {
      assert m.journal + [] == m.journal;
      SuffixAppend(before, m.journal, []);
    }
  }

  /** Following a stream changes each balance of the token by the net flow of the numbered logs. */
  lemma {:induction false} FollowLogsBalances(db: Db, logs: seq<TransferLog>, token: TokenId)
    requires Consistent(db)
    ensures var r := FollowLogs(db, logs, token);
      && Consistent(r)
      && forall a: Address, t: TokenId ::
           BalanceOf(r, a, t) == BalanceOf(db, a, t) + (if t == token then NetFlow(Numbered(logs), a) else 0)
  {
    if logs != [] {
      var init := logs[..|logs| - 1];
      var last := logs[|logs| - 1];
      FollowLogsBalances(db, init, token);
      FollowLogEffect(FollowLogs(db, init, token), last, token);
      if last.blockNumber.None? {
        assert Numbered(logs) == Numbered(init) + [];
        assert Numbered(init) + [] == Numbered(init);
      } else {
        forall a: Address
          ensures NetFlow(Numbered(logs), a) == NetFlow(Numbered(init), a) + Flow(last, a)
        {
          NetFlowSnoc(Numbered(init), last, a);
        }
      }
    }
  }

  /** One delivered log moves the balances by its flow exactly when it carries a block number. */
  lemma FollowLogEffect(db: Db, log: TransferLog, token: TokenId)
    requires Consistent(db)
    ensures var r := FollowLog(db, log, token);
      && Consistent(r)
      && forall a: Address, t: TokenId ::
           BalanceOf(r, a, t) == BalanceOf(db, a, t) + (if t == token && log.blockNumber.Some? then Flow(log, a) else 0)
  {
    if log.blockNumber.Some? {
      var marked := SetWatermark(db, token, log.blockNumber.value);
      SetWatermarkEffect(db, token, log.blockNumber.value);
      ApplyLogEffect(marked, log, token);
    }
  }

  /** The outcome of a pipeline: the store, the exit, the final in-memory watermark and the subscription start. */
  datatype Pipeline = Pipeline(db: Db, exit: Exit, watermark: int, liveFrom: Option<int>)

  /**
   * `log_listener`: read the head for the start-up log line, which the
   * program's `token_holders=debug` filter always enables, and stop there if
   * that read fails; then subscribe from the block after the token's
   * watermark and follow the stream.
   */
  function Follow(db: Db, token: Token, head: HeadReading, live: Subscription): Pipeline
  {
    if head.Unavailable? then
      Pipeline(db, Aborted(HeadUnavailable), token.lastCheckedBlock, None)
    else if !ParsesAsAddress(token.contractAddr) then
      Pipeline(db, Aborted(InvalidContract), token.lastCheckedBlock, None)
    else match live
      case Refused => Pipeline(db, Aborted(SubscribeFailed), token.lastCheckedBlock, Some(token.lastCheckedBlock + 1))
      case Stream(logs) => Pipeline(FollowLogs(db, logs, token.id), StreamEnded, token.lastCheckedBlock, Some(token.lastCheckedBlock + 1))
  }

  /**
   * `add_balances_by_token`: read the head, set up the first window, parse
   * the contract address, run the backfill loop, and hand over to the
   * listener once caught up.
   */
  function Ingest(db: Db, token: Token, heads: seq<HeadReading>, responses: seq<LogsResponse>,
                  listenHead: HeadReading, live: Subscription): Pipeline
  {
    if heads == [] then Pipeline(db, Starved, token.lastCheckedBlock, None)
    else match heads[0]
      case Unavailable => Pipeline(db, Aborted(HeadUnavailable), token.lastCheckedBlock, None)
      case Height(head) =>
        if !ParsesAsAddress(token.contractAddr) then
          Pipeline(db, Aborted(InvalidContract), token.lastCheckedBlock, None)
        else
          var o := Run(Start(token.lastCheckedBlock, head), db, token.id, responses, heads[1..]);
          if o.exit != CaughtUp then Pipeline(o.db, o.exit, o.scan.lastChecked, None)
          else
            var f := Follow(o.db, token.(lastCheckedBlock := o.scan.lastChecked), listenHead, live);
            Pipeline(f.db, f.exit, o.scan.lastChecked, f.liveFrom)
  }

  /** The stored watermark of the token matches the token value the pipeline starts from. */
  ghost predicate Registered(db: Db, token: Token)
  {
    Consistent(db) && (token.id in db.tokens ==> db.tokens[token.id].lastCheckedBlock == token.lastCheckedBlock)
  }

  /**
   * The hand-over: the subscription starts at the block right after the
   * committed watermark, at or past the head first read, and the backfill's
   * final watermark never lies below the one the pipeline started from.
   * That watermark can lie past the head (`OverrunCommitsPastHead`).
   */
  lemma IngestHandoff(db: Db, token: Token, heads: seq<HeadReading>, responses: seq<LogsResponse>,
                      listenHead: HeadReading, live: Subscription)
    requires Registered(db, token)
    ensures var p := Ingest(db, token, heads, responses, listenHead, live);
      && p.watermark >= token.lastCheckedBlock
      && p.exit != CaughtUp
      && (p.liveFrom.Some? ==>
            && heads != [] && heads[0].Height? && listenHead.Height?
            && p.liveFrom.value == p.watermark + 1
            && p.liveFrom.value >= heads[0].block)
  {
    if heads != [] && heads[0].Height? && ParsesAsAddress(token.contractAddr) {
      var s := Start(token.lastCheckedBlock, heads[0].block);
      RunKeepsGood(s, db, token.id, responses, heads[1..]);
    }
  }

  /**
   * A contract address that does not parse ends the pipeline once the first
   * head is read, before any window is asked for: nothing is written and no
   * subscription is made.
   */
  lemma InvalidContractWritesNothing(db: Db, token: Token, heads: seq<HeadReading>, responses: seq<LogsResponse>,
                                     listenHead: HeadReading, live: Subscription)
    requires !ParsesAsAddress(token.contractAddr)
    ensures var p := Ingest(db, token, heads, responses, listenHead, live);
      && p.db == db && p.liveFrom == None && p.watermark == token.lastCheckedBlock
      && (heads != [] && heads[0].Height? ==> p.exit == Aborted(InvalidContract))
  {
  }

  /**
   * A token registered with watermark -1 and a chain at height 50: the first
   * window is cut to the head, its one log is applied, the watermark becomes
   * 50, a second head reading that is not more than 10 blocks ahead keeps the
   * cached head, and the listener reads the head and subscribes from block 51.
   */
  lemma FirstBackfill(db: Db, token: Token, log: TransferLog)
    requires Registered(db, token) && token.id in db.tokens
    requires token.lastCheckedBlock == -1 && ParsesAsAddress(token.contractAddr)
    ensures var p := Ingest(db, token, [Height(50), Height(55)], [Fetched([log])], Height(56), Stream([]));
      && p.exit == StreamEnded && p.watermark == 50 && p.liveFrom == Some(51)
      && WatermarkOf(p.db, token.id) == Some(50)
      && forall a: Address, t: TokenId ::
           BalanceOf(p.db, a, t) == BalanceOf(db, a, t) + (if t == token.id then Flow(log, a) else 0)
  {
    var s := Start(-1, 50);
    assert s == Scan(0, 50, 50, -1);
    var committed := SetWatermark(ApplyLogs(db, [log], token.id), token.id, 50);
    assert Step(s, db, token.id, Fetched([log]), [Height(55)]) == Next(Scan(51, -1, 50, 50), committed, 1);
    assert Run(s, db, token.id, [Fetched([log])], [Height(55)]) == Outcome(Scan(51, -1, 50, 50), committed, CaughtUp);
    ApplyLogsBalances(db, [log], token.id);
    forall a: Address
      ensures NetFlow([log], a) == Flow(log, a)
    {
      assert [log][..0] == [];
    }
  }

  /**
   * The backoff floor can carry the watermark past the chain head: with the
   * head at 2, a rate-limited answer widens the window 0..2 to 1000 blocks,
   * the next answer succeeds, and `from + step` = 1000 is committed. The
   * listener then subscribes from block 1001, so blocks 3..1000 count as
   * applied although they were asked for while the head was at 2.
   */
  lemma OverrunCommitsPastHead(db: Db, token: Token)
    requires Registered(db, token) && token.id in db.tokens
    requires token.lastCheckedBlock == -1 && ParsesAsAddress(token.contractAddr)
    ensures var p := Ingest(db, token, [Height(2), Height(2)], [RateLimited, Fetched([])], Height(2), Stream([]));
      && p.exit == StreamEnded && p.watermark == 1000 && p.liveFrom == Some(1001)
      && WatermarkOf(p.db, token.id) == Some(1000)
  {
    var s := Start(-1, 2);
    assert s == Scan(0, 2, 2, -1);
    var backed := Scan(0, BackoffFloor, 2, -1);
    assert Step(s, db, token.id, RateLimited, [Height(2)]) == Next(backed, db, 0);
    var committed := SetWatermark(ApplyLogs(db, [], token.id), token.id, 1000);
    assert Step(backed, db, token.id, Fetched([]), [Height(2)]) == Next(Scan(1001, -999, 2, 1000), committed, 1);
    assert Run(backed, db, token.id, [Fetched([])], [Height(2)]) == Outcome(Scan(1001, -999, 2, 1000), committed, CaughtUp);
    assert [RateLimited, Fetched([])][1..] == [Fetched([])];
    assert Run(s, db, token.id, [RateLimited, Fetched([])], [Height(2)]) == Outcome(Scan(1001, -999, 2, 1000), committed, CaughtUp);
  }

  /** Two sequential transfers, 50 from `a` to `b` and 20 back, leave `a` at -30 and `b` at +30. */
  lemma TwoTransfers(db: Db, token: TokenId, first: TransferLog, second: TransferLog, a: Address, b: Address)
    requires Consistent(db) && a != b
    requires Sender(first) == a && Recipient(first) == b && Amount(first) == 50
    requires Sender(second) == b && Recipient(second) == a && Amount(second) == 20
    ensures var r := ApplyLogs(db, [first, second], token);
      && BalanceOf(r, a, token) == BalanceOf(db, a, token) - 30
      && BalanceOf(r, b, token) == BalanceOf(db, b, token) + 30
  {
    assert first.topics[1] != first.topics[2] && second.topics[1] != second.topics[2];
    assert Flow(first, a) == -50 && Flow(first, b) == 50;
    assert Flow(second, a) == 20 && Flow(second, b) == -20;
    assert [first, second][..1] == [first] && [first][..0] == [];
    var m := ApplyLog(db, first, token);
    assert ApplyLogs(db, [first], token) == m;
    assert ApplyLogs(db, [first, second], token) == ApplyLog(m, second, token);
    ApplyLogEffect(db, first, token);
    ApplyLogEffect(m, second, token);
  }
}
