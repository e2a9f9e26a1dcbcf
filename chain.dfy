/**
 * What the ingestion core sees of the chain: Transfer logs, and the
 * answers of the chain client, which the model takes as oracle inputs
 * instead of performing any I/O.
 */
module Chain {
  import opened Wrappers

  type Byte = b: int | 0 <= b < 256

  /** A 32-byte log topic. */
  type Word = w: seq<Byte> | |w| == 32 witness seq(32, i => 0)

  /** A 20-byte account address. */
  type Address = a: seq<Byte> | |a| == 20 witness seq(20, i => 0)

  /**
   * A log as the provider returns it: topics (signature, from, to),
   * the data payload, and the block number, absent for a pending log.
   */
  datatype Log = Log(topics: seq<Word>, data: seq<Byte>, blockNumber: Option<nat>)

  /**
   * The logs the core can process: the event filter fixes only topic 0 (the
   * `Transfer(address,address,uint256)` signature), and the code indexes
   * topics 1 and 2 unchecked, so only logs with at least three topics are
   * modelled; a log with fewer makes the code panic.
   */
  predicate IsTransfer(log: Log)
  {
    |log.topics| >= 3
  }

  type TransferLog = log: Log | IsTransfer(log)
    witness Log([seq(32, i => 0), seq(32, i => 0), seq(32, i => 0)], [], None)

  /** `Address::from(H256)`: the low 20 bytes of a topic. */
  function TopicAddress(w: Word): (a: Address)
  {
    w[12..]
  }

  function Sender(log: TransferLog): Address
  {
    TopicAddress(log.topics[1])
  }

  function Recipient(log: TransferLog): Address
  {
    TopicAddress(log.topics[2])
  }

  /** `U256::from_big_endian(&log.data)`. */
  function Amount(log: TransferLog): nat
  {
    BigEndian(log.data)
  }

  function Pow256(n: nat): (p: nat)
    ensures p >= 1
  {
    if n == 0 then 1 else 256 * Pow256(n - 1)
  }

  /** The unsigned integer whose big-endian bytes are `bs`. */
  function BigEndian(bs: seq<Byte>): nat
  {
    if bs == [] then 0 else BigEndian(bs[..|bs| - 1]) * 256 + bs[|bs| - 1]
  }

  /** The `len` low-order bytes of `n`, most significant first. */
  function ToBigEndian(n: nat, len: nat): (bs: seq<Byte>)
    ensures |bs| == len
  {
    if len == 0 then [] else ToBigEndian(n / 256, len - 1) + [n % 256]
  }

  lemma {:induction false} BigEndianBound(bs: seq<Byte>)
    ensures BigEndian(bs) < Pow256(|bs|)
  {
    if bs != [] {
      var init := bs[..|bs| - 1];
      BigEndianBound(init);
      assert BigEndian(init) + 1 <= Pow256(|init|);
      assert (BigEndian(init) + 1) * 256 <= Pow256(|init|) * 256;
    }
  }

  /** Encoding a value that fits and decoding it gives the value back. */
  lemma {:induction false} DecodeEncode(n: nat, len: nat)
    requires n < Pow256(len)
    ensures BigEndian(ToBigEndian(n, len)) == n
  {
    if len > 0 {
      var bs := ToBigEndian(n, len);
      assert bs[..len - 1] == ToBigEndian(n / 256, len - 1);
      assert n / 256 < Pow256(len - 1);
      DecodeEncode(n / 256, len - 1);
    }
  }

  /** Decoding and re-encoding at the same width gives the bytes back. */
  lemma {:induction false} EncodeDecode(bs: seq<Byte>)
    ensures ToBigEndian(BigEndian(bs), |bs|) == bs
  {
    if bs != [] {
      var init := bs[..|bs| - 1];
      var n := BigEndian(bs);
      assert n / 256 == BigEndian(init) && n % 256 == bs[|bs| - 1];
      EncodeDecode(init);
      assert bs == init + [bs[|bs| - 1]];
    }
  }

  /**
   * The outcome of one `get_logs` call, already classified: a JSON-RPC
   * client error whose text carries `code: -32005` is `RateLimited`;
   * every other error is `Failed` with its text.
   */
  datatype LogsResponse =
    | Fetched(logs: seq<TransferLog>)
    | RateLimited
    | Failed(reason: string)

  /** The outcome of one `get_block_number` call. */
  datatype HeadReading = Height(block: nat) | Unavailable

  /** The outcome of `subscribe_logs`: the logs the stream delivers until it ends. */
  datatype Subscription = Stream(logs: seq<TransferLog>) | Refused

  /** Why an ingestion pipeline stops with an error. */
  datatype PipelineError =
    | HeadUnavailable
    | InvalidContract
    | LogsFailed(reason: string)
    | SubscribeFailed

  predicate IsHexDigit(c: char)
  {
    '0' <= c <= '9' || 'a' <= c <= 'f' || 'A' <= c <= 'F'
  }

  /** Whether `contract_addr.parse::<Address>()` succeeds: 40 hex digits, optionally after `0x`. */
  predicate ParsesAsAddress(s: string)
  {
    var digits := if |s| >= 2 && s[..2] == "0x" then s[2..] else s;
    |digits| == 40 && forall k :: 0 <= k < |digits| ==> IsHexDigit(digits[k])
  }
}
