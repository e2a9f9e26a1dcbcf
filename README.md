# token_holders — a Dafny model of the ERC-20 holder indexer core

The indexer keeps, for every registered ERC-20 token, the balance of every
holder. For each token a pipeline first backfills every `Transfer` event from
the token's watermark (the last block committed as scanned) to the chain head,
with a window of blocks that grows while the provider's answers are small, is
cut to a third when the provider rate-limits, and is cut to end at the head;
after each window it commits the window's end as the new watermark. Once
caught up the pipeline subscribes to new logs from the block after the
watermark and applies each one, persisting its block number as the watermark
first. A REST layer serves the tokens and balances as JSON:API documents; the
model covers its query-parameter validator, the mapping of store errors to
HTTP responses, the pagination links and `meta` of list documents, the
de-duplication of included resources, and the reading of a request body.

Modules, in dependency order:

- `Wrappers` — `Option` and `Result`.
- `Text` — what the code uses from Rust's standard library: `str::find` and
  `str::rfind` of a character, `{}` formatting of integers and its inverse,
  and `i64` division, which truncates toward zero.
- `Chain` — Transfer logs (32-byte topics, big-endian data, optional block
  number), the sender and recipient (the low 20 bytes of topics 1 and 2), the
  amount, and the provider's answers: head readings, `get_logs` answers
  (logs, rate-limited, any other error) and the subscription.
- `Ledger` — the store: holders, `(holder, token)` balances, tokens with their
  watermark, and a ghost journal of every store call in order. `Db` is its
  value, each store call a function on `Db`; `Ledger.Store` is the class whose
  methods are those calls on mutable fields.
- `Scanner` — the backfill state machine as functions: `Step` is one loop
  iteration on one `get_logs` answer, `Run` the loop, `Follow` the listener,
  `Ingest` the whole pipeline of one token; the lemmas are its invariants.
- `Evm` — the imperative code of `src/evm.rs`, each method proved equal to the
  `Scanner` function on the same answers and the same store.
- `JsonApi` — the document shapes the REST layer reads and writes.
- `Validators` — `src/validators.rs`: name splitting, the error accumulator
  class `QueryParamsValidator`, store error classification.
- `Utils` — `src/utils.rs`: links, meta, included de-duplication,
  `get_data_from_doc`.

The chain is an input: `heads` lists the successive answers of
`get_block_number` during the backfill, `listenHead` the one answer the
listener gets when it reads the head for its start-up log line (the
program's `token_holders=debug` filter, `src/main.rs:26`, always enables
that line), `responses` the answers of `get_logs`, and `live` is the
subscription (refused, or the logs it delivers until it ends). When the model
runs out of answers the pipeline stops with exit `Starved`, which stands for
a pipeline still waiting on the provider.

Behaviour of the code that the model keeps as written:

- The first window is cut to the head (`src/evm.rs:90-92`): with watermark
  -1 and head 50 the only window is blocks 0 to 50 and the watermark becomes
  50 (`Scanner.FirstBackfill`).
- The listener persists a live log's block number as the watermark before
  applying the log (`src/evm.rs:217-225`); `Scanner.FollowLog` states that
  order.
- The backfill re-reads the head only when a grown window would pass the
  cached head, and keeps the new reading only when it is more than 10 blocks
  ahead (`src/evm.rs:129-135`).
- The listener writes each delivered log's block number as the watermark
  without comparing it with the previous one (`src/evm.rs:217-223`), so the
  watermark is the last block number delivered, not necessarily the largest
  (`Scanner.FollowLogsJournal`).
- After a rate-limited answer the window can reach past the cached head: a
  window narrower than 3 blocks becomes 1000 blocks wide
  (`src/evm.rs:140-144`). So the loop keeps the weaker invariant "from +
  step <= head, or step <= 1000" (`Scanner.Inv`), and
  `Scanner.BackoffPassesHead` exhibits the overrun. It is kept as written.
  When such a window succeeds, its end is committed as the watermark, up to
  about 1000 blocks past the head, and the listener subscribes from the block
  after it; blocks in that range that `get_logs` did not return, such as
  blocks not yet mined when it was asked, are never scanned
  (`Scanner.OverrunCommitsPastHead`).
- `topics[1] != topics[2]` compares whole 32-byte words, not the addresses
  taken from them.
- `get_data_from_doc` answers "Too Many Resources" for every primary data
  that is not a single resource, including the empty `PrimaryData::None`.
  All its failures send the same 400 body; the reason only reaches the
  error log (`src/error.rs:8-13`, `Utils.BadRequest`).

## Model

| member | source | states |
|---|---|---|
| Text.FirstIndex | src/validators.rs:36 | the index found holds the character and no earlier position does; none exactly when the character is absent |
| Text.LastIndex | src/validators.rs:37 | the index found holds the character and no later position does; none exactly when the character is absent |
| Text.ParseIntToString | src/utils.rs:12-15 | the decimal rendering of an integer reads back to the same integer |
| Text.IntToString | src/utils.rs:12-15 | the `{}` rendering of an `i64`: at least one character, all digits except a leading `-`; read back by `Text.ParseIntToString`, injective by `Text.IntToStringInjective` |
| Text.IntToStringInjective | src/utils.rs:12-15 | different integers render to different strings |
| Text.RustDiv | src/evm.rs:140 | `i64` division by a positive divisor: the Euclidean quotient for a non-negative dividend, and for a negative one the negated quotient of its magnitude, so it truncates toward zero |
| Chain.BigEndianBound | src/evm.rs:175 | the big-endian value of n bytes is below 256^n |
| Chain.Sender | src/evm.rs:163-166 | reference definition: the address in the low 20 bytes of topic 1; its effect on balances is stated by `Scanner.ApplyLogSender` and `Scanner.ApplyLogEffect` |
| Chain.Recipient | src/evm.rs:169-172 | reference definition: the address in the low 20 bytes of topic 2; its effect on balances is stated by `Scanner.ApplyLogRecipient` and `Scanner.ApplyLogEffect` |
| Chain.Amount | src/evm.rs:175 | reference definition: the big-endian value of the log's data; its properties are stated by `Chain.BigEndianBound`, `Chain.DecodeEncode` and `Chain.EncodeDecode` |
| Chain.BigEndian | src/evm.rs:175 | reference definition of `U256::from_big_endian`; its properties are stated by `Chain.BigEndianBound`, `Chain.DecodeEncode` and `Chain.EncodeDecode` |
| Chain.ParsesAsAddress | src/evm.rs:95 | reference definition of `parse::<Address>()`: 40 hex digits, with or without `0x`; a failure is stated by `Scanner.InvalidContractWritesNothing` |
| Chain.DecodeEncode | src/evm.rs:175 | encoding a value that fits in n bytes and decoding it gives the value |
| Chain.EncodeDecode | src/evm.rs:175 | decoding bytes and re-encoding at the same width gives the bytes |
| Ledger.GetOrAddHolder | src/evm.rs:163-173 | a known address keeps its id, an unknown one gets the next free id; no balance or token row and no token id allocation changes; one holder call is journaled |
| Ledger.GetOrAddHolderConsistent | src/evm.rs:163-173 | on a consistent store the lookup keeps it consistent, the id reads the address's old balances, and every other address keeps an id different from it |
| Ledger.ApplyUpsert | src/evm.rs:177-184 | the sender loses and the recipient gains the amount on this token, every other balance is unchanged, a self-transfer changes nothing; holders and tokens are untouched |
| Ledger.ApplyUpsertConsistent | src/evm.rs:177-184 | an upsert between allocated holders keeps the store consistent |
| Ledger.SetWatermark | src/evm.rs:118 | only the watermark field of the token's row changes, to the block; every other row and field, holders and balances are unchanged; an unknown token id matches nothing |
| Ledger.SetWatermarkEffect | src/evm.rs:118 | other tokens' watermarks are unchanged and consistency is kept |
| Ledger.InsertToken | src/evm.rs:69 | the new token gets the next id with the given fields; the other token rows, holders, the holder allocator and balances are unchanged |
| Ledger.InsertTokenFresh | src/evm.rs:69 | on a consistent store the new id was no token's id, and the store stays consistent |
| Ledger.Store.AddOrGetHolder | src/evm.rs:163-173 | the store call's new state and id are those of `GetOrAddHolder` |
| Ledger.Store.UpsertBalance | src/evm.rs:177-184 | the store call's new state is that of `ApplyUpsert` |
| Ledger.Store.UpdateTokenLastCheckedBlock | src/evm.rs:118 | the store call's new state is that of `SetWatermark` |
| Ledger.Store.AddToken | src/evm.rs:69 | the store call's new state and id are those of `InsertToken` |
| Scanner.ApplyLog | src/evm.rs:162-185 | equal topics write nothing; otherwise holder lookups for sender then recipient, then exactly one balance write of the big-endian amount |
| Scanner.ApplyLogs | src/evm.rs:105-107 | reference definition: the window's logs applied one after another in order; its properties are stated by `Scanner.ApplyLogsJournal` and `Scanner.ApplyLogsBalances` |
| Scanner.ApplyLogJournal | src/evm.rs:162-185 | one log only appends to the journal, and never a watermark write |
| Scanner.ApplyLogEffect | src/evm.rs:162-185 | one log changes exactly its sender's and recipient's balance of this token, by minus and plus its amount, and keeps the store consistent |
| Scanner.ApplyLogRecipient | src/evm.rs:162-185 | the recipient of a transfer between different topics gains the amount on this token (nothing when it is also the sender) |
| Scanner.ApplyLogSender | src/evm.rs:162-185 | a sender that is not the recipient loses the amount on this token |
| Scanner.ApplyLogBystander | src/evm.rs:162-185 | an address that neither sends nor receives keeps every balance |
| Scanner.ApplyLogsJournal | src/evm.rs:105-107 | applying a window's logs only appends store writes, none of them a watermark |
| Scanner.ApplyLogsBalances | src/evm.rs:105-107 | applying a window's logs in order changes each balance of the token by the window's net flow to that address, and no other balance |
| Scanner.TwoTransfers | src/evm.rs:105-107 | 50 from A to B and then 20 back leave A at -30 and B at +30 |
| Scanner.Resized | src/evm.rs:122-127 | a non-negative step never shrinks and at most doubles, and stays unchanged for more than 5000 logs |
| Scanner.ResizeBoundaries | src/evm.rs:122-127 | at 0, 100, 101, 1000, 1001, 5000 and 5001 logs the step becomes 2x, 2x, 1.5x, 1.5x, 1.25x, 1.25x and 1x |
| Scanner.BackedOff | src/evm.rs:140-144 | after a rate limit a step of 3 or more becomes its third, smaller than before; a smaller step becomes 1000; a positive step stays positive |
| Scanner.Start | src/evm.rs:87-92 | the first window starts after the watermark, is 1,000,000 wide when that fits below the head, else ends exactly at the head |
| Scanner.Clamp | src/evm.rs:129-135 | the clamp never touches the store and uses at most one head reading |
| Scanner.StepRateLimited | src/evm.rs:137-145 | a rate-limited answer keeps `from`, the watermark, the head and the store and only backs off the step |
| Scanner.Step | src/evm.rs:99-149 | one loop iteration: at most the head readings it is given are used; its cases are stated by `Scanner.StepRateLimited`, `Scanner.StepFailed` and `Scanner.StepFetched`, its invariant by `Scanner.StepKeepsGood` |
| Scanner.StepFailed | src/evm.rs:146-148 | any other error stops the pipeline with that error and writes nothing |
| Scanner.StepFetched | src/evm.rs:104-135 | a successful window applies its logs, then commits `from + step`; the next `from` is one past it; the head is re-read only when the grown window passes it, replaced only by a reading more than 10 ahead, and the window then ends at the head |
| Scanner.ClampKeepsInv | src/evm.rs:129-135 | after the clamp the head never decreased, the watermark is unchanged, and a continuing scan satisfies the loop invariant |
| Scanner.CommitJournal | src/evm.rs:105-120 | a successful window's writes hold exactly one watermark, the window's end, written after all its log writes |
| Scanner.CommitKeepsTracked | src/evm.rs:109-120 | after the commit the store is consistent and its watermark equals the in-memory one |
| Scanner.StepKeepsGood | src/evm.rs:98-150 | every iteration keeps the store consistent and in step with the in-memory watermark, keeps the loop invariant when it continues, never lowers the head, moves the watermark strictly forward exactly on success, and stops only with an error or for lack of answers |
| Scanner.StepWatermarks | src/evm.rs:103-149 | an iteration writes the watermark `from + step` when the window succeeds and no watermark otherwise |
| Scanner.ClampOrBackoffKeepsInv | src/evm.rs:122-145 | a continuing iteration keeps the loop invariant (window at least one block wide while blocks remain) |
| Scanner.RunKeepsGood | src/evm.rs:98-150 | the whole loop keeps the store consistent and in step, never lowers head or watermark, and ends caught up only once `from >= last_block` |
| Scanner.Run | src/evm.rs:98-150 | reference definition of the whole loop on the given answers; its properties are stated by `Scanner.RunKeepsGood` and `Scanner.RunWatermarks` |
| Scanner.RunWatermarks | src/evm.rs:98-150 | the watermarks the loop writes rise strictly, all lie above the starting watermark, and the last one is the final in-memory watermark |
| Scanner.BackoffPassesHead | src/evm.rs:140-144 | two blocks before the head, a rate-limited answer widens the window past the head |
| Scanner.OverrunCommitsPastHead | src/evm.rs:98-144 | with the head at 2, a rate-limited answer then an empty success commit watermark 1000 and the listener subscribes from 1001 |
| Scanner.FollowLog | src/evm.rs:217-226 | a log without a block number writes nothing; otherwise the watermark write comes first, before the log's holder and balance writes |
| Scanner.FollowLogs | src/evm.rs:209-227 | reference definition: the delivered logs followed in order; its properties are stated by `Scanner.FollowLogsJournal` and `Scanner.FollowLogsBalances` |
| Scanner.Follow | src/evm.rs:190-230 | reference definition of `log_listener`: a failed head read or an unparsable address aborts without subscribing, a refused subscription aborts, a stream is followed; its properties are stated by `Evm.LogListener` and `Scanner.IngestHandoff` |
| Scanner.FollowLogsJournal | src/evm.rs:209-227 | the listener writes one watermark per numbered log, its block number, in delivery order, and leaves the token's watermark at the last one |
| Scanner.FollowLogEffect | src/evm.rs:217-226 | one delivered log keeps the store consistent and changes each balance of the token by the log's flow when it carries a block number, and no balance otherwise |
| Scanner.FollowLogsBalances | src/evm.rs:209-227 | the listener changes each balance of the token by the net flow of the numbered logs and keeps the store consistent |
| Scanner.IngestHandoff | src/evm.rs:80-155 | the backfill never lowers the in-memory watermark; the subscription, when requested, follows a successful listener head read and starts right after the final backfill watermark, at or past the head first read |
| Scanner.Ingest | src/evm.rs:80-155 | reference definition of `add_balances_by_token`; its properties are stated by `Scanner.IngestHandoff`, `Scanner.InvalidContractWritesNothing`, `Scanner.FirstBackfill` and `Scanner.OverrunCommitsPastHead` |
| Scanner.InvalidContractWritesNothing | src/evm.rs:94-96 | an unparsable contract address writes nothing, subscribes to nothing and keeps the watermark, and aborts with `InvalidContract` once the first head is read |
| Scanner.FirstBackfill | src/evm.rs:85-135 | watermark -1 and head 50: one window 0..50, watermark 50, a reading 5 ahead leaves the head, the subscription starts at 51, and the balances move by the log's flow |
| Evm.UpsertBalanceFromLog | src/evm.rs:157-188 | the store afterwards is `ApplyLog` of the store before |
| Evm.ApplyWindow | src/evm.rs:105-107 | the inner loop leaves the store at `ApplyLogs` of the window's logs, in array order |
| Evm.Backfill | src/evm.rs:98-150 | the `while` loop leaves the store and returns the exit and watermark that `Run` gives for the same answers |
| Evm.Window | src/evm.rs:99-149 | one pass of the loop body leaves the store, the next window and the head readings used as `Step` gives, and stops exactly when `Step` stops, with its exit |
| Evm.RunStep | src/evm.rs:98-150 | the loop on a further answer is one `Step` followed by the rest of the loop |
| Evm.AddBalancesByToken | src/evm.rs:80-155 | the store, the exit and the subscription start are those `Ingest` gives for the same answers |
| Evm.LogListener | src/evm.rs:190-230 | the store, the exit and the subscription start are those `Follow` gives for the same head reading and subscription; a failed head read aborts before subscribing |
| Evm.AddTokenByContract | src/evm.rs:65-77 | inserts the token with symbol "TEST", 6 decimals and watermark -1 and returns it with its new id |
| Evm.NewTokenStartsAtGenesis | src/evm.rs:65-77 | a newly added token has a fresh id, watermark -1, is registered consistently, and its first window starts at block 0 |
| Validators.Unbracket | src/validators.rs:35-47 | a result splits the name as prefix, `[`, inner, `]`, rest with no `[` in the prefix and no `]` in the rest |
| Validators.UnbracketSome | src/validators.rs:35-47 | a name splits exactly when some `[` precedes some `]` |
| Validators.UnbracketCompose | src/validators.rs:35-47 | splitting `a[b]rest` (no `[` in a, no `]` in rest) gives back a and b |
| Validators.NameToPointer | src/validators.rs:49-54 | every pointer starts with `/data/attributes/` |
| Validators.NameToPointerNested | src/validators.rs:49-54 | `a[b]rest` points at `/data/attributes/a/b` |
| Validators.NameToPointerFlat | src/validators.rs:49-54 | a name with no `[` before a `]` points at `/data/attributes/` followed by the name |
| Validators.Pagination | src/validators.rs:113-135 | a page with no negative field gives `(number*size, size)` and no error; otherwise nothing and one Invalid error per negative field, number first; no page gives nothing and no error |
| Validators.QueryParamsValidator.constructor | src/validators.rs:31-33 | a new validator holds no errors |
| Validators.QueryParamsValidator.AddError | src/validators.rs:56-67 | appends exactly one error with status "400", the kind's title, the detail, the pointer and the parameter name |
| Validators.Title | src/validators.rs:18-23 | reference definition of `get_title`: one fixed title per error kind; used by `Validators.ErrorFor` |
| Validators.ErrorFor | src/validators.rs:57-66 | reference definition of the error `add_error` pushes; its use is stated by `Validators.QueryParamsValidator.AddError` and `Validators.QueryParamsValidator.AddErrorIf` |
| Validators.QueryParamsValidator.AddErrorIf | src/validators.rs:69-79 | appends that error exactly when the condition holds |
| Validators.QueryParamsValidator.VerifyExistence | src/validators.rs:81-97 | a present value is returned with no error; an absent one gives the default and one Missing error exactly when required |
| Validators.QueryParamsValidator.CheckForErrors | src/validators.rs:99-111 | passes exactly when no error was collected, otherwise rejects with 400 and all collected errors; the list is empty afterwards, so a second check passes |
| Validators.QueryParamsValidator.PaginationParse | src/validators.rs:113-135 | returns and appends what `Pagination` gives |
| Validators.QueryParamsValidator.VecStoresParam | src/validators.rs:137-153 | for `attribute[param]` returns param with no error when the vector holds it, otherwise nothing and one Missing error naming both |
| Validators.QueryParamsValidator.HashmapStoresParam | src/validators.rs:155-176 | for `attribute[param]` returns the map's vector with no error when the key is present, otherwise nothing and one Missing error |
| Validators.SqlxErrorParse | src/validators.rs:191-284 | 404 exactly for row-not-found, 422 exactly for the type, column and decode kinds, 503 exactly for pool timeout or closed, 500 exactly for database and all other kinds; always one error whose status text matches |
| Validators.ErrorDocument | src/validators.rs:179-189 | reference definition of `create_error_doc`: one error with the status, title and detail; used by `Validators.SqlxErrorParse` |
| Validators.ValidateSqlxResponse | src/validators.rs:286-291 | a value passes through unchanged; an error becomes exactly the response `SqlxErrorParse` classifies it as, so of one of those four statuses |
| Utils.ParseCreateLink | src/utils.rs:11-16 | a page link reads back to the page number and size it was made from |
| Utils.CreateLink | src/utils.rs:11-16 | reference definition of `create_link`; read back by `Utils.ParseCreateLink`, injective by `Utils.CreateLinkInjective` |
| Utils.CreateLinkInjective | src/utils.rs:11-16 | different pages of one listing get different links |
| Utils.LastPage | src/utils.rs:25-29 | `total_count / size - 1` for a positive size and non-negative count, bracketing the count between pages; 0 for size 0 |
| Utils.PageLinks | src/utils.rs:18-48 | "first" (page 0) and "prev" (number-1) exactly when number > 0; "next" (number+1) and "last" exactly when number < last; no other key; none exactly when no key applies |
| Utils.CreateLinksHashmap | src/utils.rs:18-48 | the conditional inserts build exactly `PageLinks` |
| Utils.Meta | src/utils.rs:80-83 | exactly the keys `total_count`, `page_number`, `page_size`, holding the given values |
| Utils.UniqueFirstOccurrences | src/utils.rs:59-69 | the de-duplicated list is the input at increasing positions, each the first occurrence of its (id, type), and it has every (id, type) of the input |
| Utils.Unique | src/utils.rs:59-69 | reference definition of the de-duplication; its properties are stated by `Utils.UniqueFirstOccurrences` and `Utils.UniqueDistinct`, and `Utils.DedupIncluded` is proved equal to it |
| Utils.UniqueDistinct | src/utils.rs:59-69 | no two kept resources share an (id, type) |
| Utils.DedupIncluded | src/utils.rs:59-69 | the filter with the `seen` set returns exactly `Unique` of the input |
| Utils.VecToJsonApiDocument | src/utils.rs:51-92 | a data document with the resources, the de-duplicated included list, the meta and the links |
| Utils.GetDataFromDoc | src/utils.rs:94-124 | succeeds exactly for a valid data document with a single resource and returns it; otherwise a 400 whose reason is "Included Without Data", "Missing Content", "Contains Error Data", "Too Many Resources" or "Missing Data" by case |
| Utils.BadRequest | src/error.rs:8-37 | reference definition of `app_err_response!(400, reason)`: one error with status "400", title "Bad Request" and no detail or source, the reason going only to the error log; used by `Utils.GetDataFromDoc` |

## Left out

- `update_db` and `add_start_tokens` (`src/evm.rs:13-63`): spawning one task per token and selecting between task completion and the registration channel is concurrency. A failing task's error ends the supervisor loop (`res??`); the model does not claim isolation between pipelines.
- Provider I/O (`create_provider`, `get_block_number`, `get_logs`, `subscribe_logs` and the WebSocket stream): replaced by the `heads`, `responses` and `live` inputs. The rate-limit test on the error text `code: -32005` is the `RateLimited` answer, not string matching.
- The `tracing` output itself, including the start-up line of `log_listener` (`src/evm.rs:195-200`); the head read that line makes is modelled.
- Store failures: `src/db.rs` does not define the store calls the core makes, so the store never fails in the model and an error of a store call (which would abort the pipeline through `?`) is not modelled. The holder, balance and token rows live in maps.
- Scanner.ApplyLog, Evm.UpsertBalanceFromLog: logs are `TransferLog`s, with at least three topics. The filter (`src/evm.rs:96, 204`) fixes only the signature topic, so a contract that emits the same signature with unindexed arguments delivers a log with fewer topics; on it `log.topics[1]` (`src/evm.rs:162`) panics. That panic is not modelled.
- Evm.AddTokenByContract: a registration the database would reject (a duplicate contract) is not modelled; the model always inserts.
- Machine widths: block numbers, steps and amounts are unbounded integers. The `as_u32` conversions of block numbers (`src/evm.rs:85, 130, 220`), `i64` overflow, and the panic of `U256::from_big_endian` on data longer than 32 bytes are not modelled.
- Upper-case hex encoding of holder addresses (`src/evm.rs:165, 171`): holders are keyed by their 20 bytes. Contract address parsing is the predicate `ParsesAsAddress` (optional `0x`, then 40 hex digits).
- `src/rest.rs` (HTTP handlers and routing), `src/error.rs` apart from the 400 body used by `get_data_from_doc`, and `src/main.rs` (configuration, server start).
- The service URL built from `SERVICE_IP` and `SERVICE_PORT` (`src/utils.rs:71-78`) and its failure: the URL is a parameter of `Utils.VecToJsonApiDocument`. The library's `vec_to_jsonapi_resources` is replaced by its two results as parameters, and `doc.validate()` by its result as a parameter of `Utils.GetDataFromDoc`.
- Validators.SqlxErrorParse, Validators.ValidateSqlxResponse: the library's display text of an error is the parameter `display`, not computed; a database error without a code, on which the code panics, is excluded by its precondition.
- Validators.QueryParamsValidator.VecStoresParam, Validators.QueryParamsValidator.HashmapStoresParam: a name without brackets, on which the code panics, is excluded by their precondition.
