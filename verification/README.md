# Resumable token assignment for the `ticket` management command

This project models the Django management command `ticket` in Dafny. The command
does two jobs:

- `init` resets the sample data: it empties both tables, saves one progress-ledger
  row in state INIT with cursor 0, and inserts blank tickets `BULK_SIZE` (50) at a time.
- `process_token` gives every ticket above the ledger's cursor a token. It works in
  chunks of 50 in primary-key order and checkpoints the last processed id in the
  ledger after each chunk. A later run starts from the saved cursor, which the model
  shows for a run that ended in ERROR (`ResumeAfterCrash`).

The ticket table is a sequence of `Ticket(id, token)` rows in primary-key order
(`Ordered`: ids strictly increase). The ledger is one
`BatchProgress(batchKey, lastValue, state, error)` row, whose state is one of INIT,
RUNNING, FINISHED or ERROR. Each ORM query becomes a pure function on the sequence:

- `filter(pk__gt=pk)` is `Above`, the reference filter.
- `filter(pk__gt=pk).count()` is `CountAfter`.
- `order_by("pk")[:50]` is `ScanAfter`, a slice at the split point `Position`.
- `bulk_update` is `BulkUpdate` and `bulk_create` is `BulkCreate`.

Three things the command depends on are parameters:

- `generate_token` is the function `gen: int -> Uuid`. The model gives a row the token
  `gen(id)`.
- What happens to the `k`-th chunk is `fate(k)`:
  - `BulkWriteOk`: the write is accepted.
  - `BulkWriteFails`: the write raises inside the `try`, and the bare `except` absorbs it.
  - `Raises(message)`: an exception escapes `batch_process` before anything is written.
    For instance it could come from `generate_token`, which the `Ticket` model in
    `models.py` does not declare.
- `Init` takes the auto-increment counter `nextId`, because deleting rows does not
  reset it.

`update_batch_state` is the pure function `UpdateBatchState`:

- It keeps the state when `state` is `None`.
- It writes `last_value` only when the dict is given.
- It writes `error` only together with ERROR.
- It returns `None` when the save would put `None` into a non-null column.

The last rule matters for an empty chunk. Its `last_pk` stays `None`, so the checkpoint
save at line 84 raises, and the rollback at lines 86-88 saves `pk` instead.

How the code behaves:

- A chunk whose bulk write raises is absorbed. The call leaves the cursor where it was,
  so the next pass retries the same rows. Because `offset` still grows by 50, a run with
  failed writes can end FINISHED with rows above its cursor still untokened: the cursor
  moves 50 rows per accepted write, not per call (`FailedWritesFinish`,
  `PartialWritesDrift`). In the model, the only way a
  run ends in ERROR is an exception escaping `batch_process`. In the code, any
  `Exception` inside the `try` does the same; see "## Left out".
- `init(size)` inserts whole batches of 50, so it creates `size` rounded up to a
  multiple of 50 tickets. For example, `size = 120` gives 150 tickets.
- The loop makes `ceil(total / 50)` calls of `batch_process`, where `total` is the count
  taken once at line 103. `offset` grows by 50 whatever a chunk did.

Modules:

- `wrappers.dfy`: `Option` and `Result`.
- `models.dfy`: the two entities.
- `queries.dfy`: the ORM queries and their relation to the reference filter.
- `ticket_command.dfy`: the command.
- `scenarios.dfy`: whole-command runs.

## Model

| member | source | states |
|---|---|---|
| `TicketCommand.UpdateBatchState` | src/app/management/commands/ticket.py:50-60 | The save fails exactly when `last_value` would become `None`, or when ERROR is set with no error text. Otherwise the state is the given one or the old one, `last_value` is set only from a given dict, `error` is set only together with ERROR, and the key never changes. |
| `TicketCommand.UpdateIsIdempotent` | src/app/management/commands/ticket.py:50-60 | Repeating an update that succeeded leaves the row as the first update left it. |
| `TicketCommand.StaleErrorSurvives` | src/app/management/commands/ticket.py:52-58 | After ERROR, a later RUNNING and FINISHED keep the old error text, because only an ERROR update writes `error`. |
| `Queries.Above` | src/app/management/commands/ticket.py:72 | The filter `pk__gt=pk` keeps only rows of the table whose id exceeds `pk`, and is no longer than the table. |
| `Queries.PositionFrom` | src/app/management/commands/ticket.py:72 | The search from index `i` returns a split point: every id before it is at most `pk`, and every id from it on is above `pk`. |
| `Queries.Position` | src/app/management/commands/ticket.py:72 | On an ordered table, the rows before the split point are exactly the rows the filter drops. |
| `Queries.AboveIsSuffix` | src/app/management/commands/ticket.py:72 | On an ordered table, the filter's result is the suffix of the table from the split point. |
| `Queries.PositionIgnoresTokens` | src/app/management/commands/ticket.py:72 | The split point, and the table's order, depend only on the ids, not on the tokens. |
| `Queries.ScanIsFilteredPrefix` | src/app/management/commands/ticket.py:72 | The count is the size of the filter's result, and the sliced scan is the first `limit` rows of that result. |
| `Queries.Find` | src/app/management/commands/ticket.py:83 | Looking up an id in the bulk returns an object of the bulk with that id, or none when no object has it. |
| `Queries.BulkUpdate` | src/app/management/commands/ticket.py:83 | `bulk_update` keeps the table's rows and ids. |
| `Queries.BulkCreate` | src/app/management/commands/ticket.py:44-45 | `bulk_create` appends `n` blank tickets, numbered on from the counter, and keeps the existing rows. When the counter is above every existing id, the table stays in primary-key order. |
| `TicketCommand.ChunkIsSmallestAfter` | src/app/management/commands/ticket.py:72 | The chunk holds at most 50 rows, all from the table and above `pk`, in ascending order, with no row of the table skipped. When fewer than 50 come back, every row above `pk` is in the chunk. |
| `TicketCommand.StampChunk` | src/app/management/commands/ticket.py:74-80 | The bulk is the chunk with each row tokened, in order, and `last_pk` is the chunk's last id, or `None` for an empty chunk. |
| `TicketCommand.WriteChunk` | src/app/management/commands/ticket.py:83 | Writing back the tokened chunk tokens exactly the rows with ids above `pk` and at most the chunk's last id. Every other row is unchanged. |
| `TicketCommand.RollbackCommitted` | src/app/management/commands/ticket.py:86-88 | When the write was not accepted, or the chunk was empty, checkpointing `pk` and leaving the table unchanged is the chunk's outcome. |
| `TicketCommand.WriteCommitted` | src/app/management/commands/ticket.py:83-84 | An accepted write of a non-empty chunk moves the cursor forward to the chunk's last id, tokens exactly the rows in between, and saves that cursor. |
| `TicketCommand.BatchProcess` | src/app/management/commands/ticket.py:71-90 | It fails exactly when an exception escapes, with that exception's text. Otherwise the ledger holds the returned cursor, which never moves back. The cursor moves forward exactly when the write is accepted and rows remain, and then lands on the chunk's last id. The rows between the old and new cursor are tokened, and no other row changes. |
| `TicketCommand.ChunkStep` | src/app/management/commands/ticket.py:108-115 | While rows are owed, the chunk is never empty, so `last_pk` is an id when it is checkpointed. An accepted chunk moves the cursor to a real id, 50 rows further on or at the end of the table. At least `owed - 50` rows remain above the new cursor. Any other outcome keeps both the cursor and the table. |
| `TicketCommand.CoverStep` | src/app/management/commands/ticket.py:114 | One call extends the run's tokened range from the old cursor to the new one. |
| `TicketCommand.AcceptedCounts` | src/app/management/commands/ticket.py:82-88 | The count of accepted writes among the first `n` calls is `n` exactly when every write was accepted, and 0 exactly when none was. |
| `TicketCommand.LoopStep` | src/app/management/commands/ticket.py:108-115 | One pass keeps the loop invariant: the offset counts the calls, the ledger is RUNNING at the cursor, the cursor is monotone, the tokened range ends at the cursor, and the count of remaining rows is accounted for. The cursor lies 50 rows past the start for each accepted write so far, or at the end of the table. |
| `TicketCommand.DriftRemainder` | src/app/management/commands/ticket.py:103-115 | When the cursor lies 50 rows past the start per accepted write, exactly `max(0, total - 50 * accepted)` rows remain above it. |
| `TicketCommand.LoopPass` | src/app/management/commands/ticket.py:114-115 | One call of `batch_process` in the loop either raises with the chunk's message, or keeps the loop invariant one pass on, counting one more accepted write exactly when this one was accepted. |
| `TicketCommand.LoopExit` | src/app/management/commands/ticket.py:108-117 | At loop exit, `total <= 50 * chunks`, and `total == 0` means nothing happened. When every write was accepted, no row remains above the cursor, every row above the start is tokened, and the cursor is the largest id. |
| `TicketCommand.ChunkLoop` | src/app/management/commands/ticket.py:107-115 | The loop ends with the invariant holding. Either `total` is used up, or the next chunk raised before `total` was reached, with that chunk's message. |
| `TicketCommand.RunBatch` | src/app/management/commands/ticket.py:98-123 | The run ends FINISHED exactly when no exception escaped, keeping the old error text. Otherwise it ends ERROR with the text of the first exception. It makes `ceil(total/50)` calls unless cut short. The cursor only grows, and lands on start or a real id. Exactly the rows between start and the final cursor are tokened. The final cursor lies 50 rows past the start for each accepted write, or at the end of the table, so `max(0, total - 50 * accepted)` counted rows stay above it. `total == 0` moves RUNNING to FINISHED with everything else unchanged. No accepted write means no change. All writes accepted means every row above start is tokened and the cursor is the largest id. |
| `TicketCommand.ProcessToken` | src/app/management/commands/ticket.py:92-123 | A missing ledger row raises before the `try` and nothing changes. Otherwise the run keeps the key and the ids, tokens exactly the rows between the saved and the final cursor, moves the cursor 50 rows per accepted write, and ends FINISHED, or ERROR with the exception's text. |
| `TicketCommand.Init` | src/app/management/commands/ticket.py:35-48 | The ledger is `{key, 0, INIT, ""}`. The table holds `size` rounded up to a multiple of 50 blank tickets (none when `size <= 0`), numbered consecutively from the counter, which advances by that count. |
| `TicketScenarios.CoverCompose` | src/app/management/commands/ticket.py:101-103 | A run that resumes from the cursor an earlier run left tokens the rows that follow on from the earlier run's rows. |
| `TicketScenarios.SeedAndProcess` | src/app/management/commands/ticket.py:40-117 | `init(size)` followed by a run whose writes are all accepted makes `ceil(size/50)` calls. It tokens every inserted ticket with its own token and finishes at the largest id. |
| `TicketScenarios.RerunAfterFinish` | src/app/management/commands/ticket.py:101-117 | After a run that finished with every write accepted, a second run makes no call, changes no ticket, and leaves the ledger as it was. |
| `TicketScenarios.ResumeAfterCrash` | src/app/management/commands/ticket.py:98-123 | Across a crashed run and its rerun, exactly the rows between the first start and the final cursor are tokened, and the crash text stays on the FINISHED row. A fully accepted rerun tokens everything above the first start. |
| `TicketScenarios.FailedWritesFinish` | src/app/management/commands/ticket.py:82-88 | With 50 seeded tickets and a write that always raises, the run still ends FINISHED after one call, at cursor 0, with no token written. |
| `TicketScenarios.PartialWritesDrift` | src/app/management/commands/ticket.py:82-115 | With 100 seeded tickets, an accepted first write and a failing second one, the run ends FINISHED after two calls at id 50. Tickets 1 to 50 are tokened and 51 to 100 are not. |
| `TicketScenarios.GenerateTokenRaises` | src/app/management/commands/ticket.py:76-77 | When the first chunk raises, a run with rows to do makes one call and ends ERROR with that text, keeping the cursor and writing nothing. With no rows to do, it finishes without a call. |

## Left out

- The ORM, the raw `delete` statements and the database are replaced by sequences: the table is a sequence of rows in primary-key order, and the ledger is a single value.
- Exceptions raised inside the `try` of `process_token` but outside `batch_process` are not modelled. The code catches each of them at line 122 and ends the run in ERROR. They are:
  - a failing RUNNING save (line 99);
  - a failing count query (line 103);
  - a failing `stdout` write (lines 109-112 and 119-120);
  - a failing FINISHED save (line 117).
- A `stdout` failure at line 120 comes after the FINISHED save, so the code overwrites FINISHED with ERROR. The model never does.
- A failing ERROR save (line 123) would raise out of the command. It is not modelled.
- `BaseException`s that are not an `Exception`, such as `KeyboardInterrupt` and `SystemExit`, are not modelled. The same goes for the process being killed. `except Exception` at line 122 does not catch them, so the ledger stays RUNNING at the last checkpoint. The scan (line 72), `generate_token` (line 77) or a kill between statements can cause this. The model has no end in which the ledger is left RUNNING. Its `RunEnd` covers a missing ledger, FINISHED and ERROR.
- A rollback save at line 87 that raises is not modelled. It escapes `batch_process` after a bulk write that may already have been accepted, and line 122 then ends the run in ERROR with the tokens of that chunk written.
- `BatchProcess`: a checkpoint save at line 84 that fails for a database reason after an accepted bulk write is not a `ChunkFate`. In that case the tokens are written but the cursor stays at `pk`. The only save failure modelled is the non-null refusal of an empty chunk's `None`.
- The 64-bit range of `last_value` and of the auto-increment ids is not modelled: ids are unbounded integers.
- `generate_token` is the parameter `gen`. Tokens are not random, and the UUID is a 128-bit integer.
- `get_progress_info`, `time.time()` and all `stdout` writes are left out: they only report progress.
- `handle` and argument parsing are left out. These are the `--init` / `--process-token` dispatch and the default size of 1000 when `--size` does not parse.
- Concurrency is left out. This includes two runs at once, and the commented-out RUNNING guard at lines 94-96.
