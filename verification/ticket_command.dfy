/** The `ticket` management command: the ledger update, one chunk of token assignment,
    the resumable driver loop and the sample-data reset. */
module TicketCommand {
  import opened Wrappers
  import opened Models
  import opened Queries

  /** Tickets fetched, tokened and written per chunk; also the insert batch size of `init`. */
  const BULK_SIZE: nat := 50

  /** The job key of the one ledger row the command reads and writes. */
  const TICKET_BATCH_PROGRESS_KEY: string := "TICKET_BATCH_PROGRESS_KEY"

  /** `update_batch_state(data, state, error)` applied to the ledger row `b`.
      `data` is the optional dict `{'last_value': v}`, whose `v` may itself be `None`;
      a `None` state keeps the row's state (Python's `state or batch.state`).
      The result is `None` when the save raises because a non-null column
      (`last_value` or `error`) would be set to `None`. */
  function UpdateBatchState(b: BatchProgress, data: Option<Option<int>>, state: Option<BatchState>,
                            error: Option<string>): (r: Option<BatchProgress>)
    ensures r.None? <==> data == Some(None) || (state == Some(Error) && error.None?)
    ensures r.Some? ==> r.value.batchKey == b.batchKey
    ensures r.Some? && state.None? ==> r.value.state == b.state
    ensures r.Some? && state.Some? ==> r.value.state == state.value
    ensures r.Some? && data.None? ==> r.value.lastValue == b.lastValue
    ensures r.Some? && data.Some? ==> r.value.lastValue == data.value.value
    ensures r.Some? && state != Some(Error) ==> r.value.error == b.error
    ensures r.Some? && state == Some(Error) ==> r.value.error == error.value
  {
    var newState := if state.Some? then state.value else b.state;
    var newLast := if data.Some? then data.value else Some(b.lastValue);
    var newError := if state == Some(Error) then error else Some(b.error);
    if newLast.None? || newError.None? then None
    else Some(b.(state := newState, lastValue := newLast.value, error := newError.value))
  }

  /** Repeating a ledger update that succeeded changes nothing more. */
  lemma UpdateIsIdempotent(b: BatchProgress, data: Option<Option<int>>, state: Option<BatchState>,
                           error: Option<string>)
    requires UpdateBatchState(b, data, state, error).Some?
    ensures var once := UpdateBatchState(b, data, state, error).value;
            UpdateBatchState(once, data, state, error) == Some(once)
  {
  }

  /** The error text is written only together with the ERROR state, so a failed run's
      message is still on the row after a later run moves it to RUNNING and FINISHED. */
  lemma StaleErrorSurvives(b: BatchProgress, message: string, cursor: int)
    ensures var failed := UpdateBatchState(b, None, Some(Error), Some(message)).value;
            var rerun := UpdateBatchState(failed, None, Some(Running), None).value;
            var done := UpdateBatchState(rerun, Some(Some(cursor)), Some(Finished), None).value;
            done == b.(state := Finished, lastValue := cursor, error := message)
  {
  }


  /** The chunk `batch_process(pk)` fetches with its ordered, sliced scan. */
  function Chunk(t: seq<Ticket>, pk: int): seq<Ticket>
    requires Ordered(t)
  {
    ScanAfter(t, pk, BULK_SIZE)
  }

  /** The `j`-th row of the chunk is the `j`-th row after the split point of `pk`. */
  lemma ChunkAt(t: seq<Ticket>, pk: int, j: nat)
    requires Ordered(t) && j < |Chunk(t, pk)|
    ensures Position(t, pk) + j < |t|
    ensures Chunk(t, pk)[j] == t[Position(t, pk) + j]
  {
    var k := Position(t, pk);
    var c := Chunk(t, pk);
    assert c == t[k..k + |c|];
  }

  /** A row of the table between `pk` and some chunk row is itself in the chunk. */
  lemma ChunkHasNoGap(t: seq<Ticket>, pk: int, i: nat, j: nat)
    requires Ordered(t) && i < |t| && j < |Chunk(t, pk)|
    requires pk < t[i].id <= Chunk(t, pk)[j].id
    ensures Position(t, pk) <= i <= Position(t, pk) + j
    ensures Chunk(t, pk)[i - Position(t, pk)] == t[i]
  {
    ChunkAt(t, pk, j);
    ChunkAt(t, pk, i - Position(t, pk));
  }

  /** When the chunk is short, it reaches the end of the table. */
  lemma ShortChunkHasAll(t: seq<Ticket>, pk: int, i: nat)
    requires Ordered(t) && i < |t| && pk < t[i].id && |Chunk(t, pk)| < BULK_SIZE
    ensures Position(t, pk) <= i < Position(t, pk) + |Chunk(t, pk)|
    ensures Chunk(t, pk)[i - Position(t, pk)] == t[i]
  {
    ChunkAt(t, pk, i - Position(t, pk));
  }

  /** The chunk holds exactly the smallest ids above `pk`, in ascending order: at most
      `BULK_SIZE` of them, every one of them when fewer remain, and no row is skipped. */
  lemma ChunkIsSmallestAfter(t: seq<Ticket>, pk: int)
    requires Ordered(t)
    ensures var c := Chunk(t, pk);
            && |c| <= BULK_SIZE
            && |c| == Min(BULK_SIZE, CountAfter(t, pk))
            && Ordered(c)
            && (forall j :: 0 <= j < |c| ==> c[j] in t && pk < c[j].id)
            && (forall i, j :: 0 <= i < |t| && 0 <= j < |c| && pk < t[i].id <= c[j].id ==> t[i] in c)
            && (|c| < BULK_SIZE ==> forall i :: 0 <= i < |t| && pk < t[i].id ==> t[i] in c)
  {
    var c := Chunk(t, pk);
    forall j | 0 <= j < |c|
      ensures c[j] in t && pk < c[j].id
    {
      ChunkAt(t, pk, j);
    }
    forall i, j | 0 <= i < j < |c|
      ensures c[i].id < c[j].id
    {
      ChunkAt(t, pk, i);
      ChunkAt(t, pk, j);
    }
    forall i, j | 0 <= i < |t| && 0 <= j < |c| && pk < t[i].id <= c[j].id
      ensures t[i] in c
    {
      ChunkHasNoGap(t, pk, i, j);
    }
    if |c| < BULK_SIZE {
      forall i | 0 <= i < |t| && pk < t[i].id
        ensures t[i] in c
      {
        ShortChunkHasAll(t, pk, i);
      }
    }
  }

  /** `last_pk` after the stamping loop of `batch_process`, `None` when the chunk was empty. */
  function LastId(bulk: seq<Ticket>): Option<int> {
    if |bulk| == 0 then None else Some(bulk[|bulk| - 1].id)
  }

  /** The objects `bulk` are the rows `t[k..]` with `gen`'s tokens, in order. */
  predicate StampedFrom(t: seq<Ticket>, bulk: seq<Ticket>, gen: int -> Uuid, k: nat) {
    k + |bulk| <= |t| && forall j :: 0 <= j < |bulk| ==> bulk[j] == Tokened(t[k + j], gen)
  }

  /** A row inside the chunk is found in the tokened bulk, so the write gives it its token. */
  lemma WriteHitsRow(t: seq<Ticket>, bulk: seq<Ticket>, gen: int -> Uuid, k: nat, i: nat)
    requires StampedFrom(t, bulk, gen, k) && k <= i < k + |bulk|
    ensures BulkUpdate(t, bulk)[i] == Tokened(t[i], gen)
  {
    assert bulk[i - k].id == t[i].id;
    var f := Find(bulk, t[i].id);
    assert f.Some?;
    var j :| 0 <= j < |bulk| && bulk[j] == f.value;
  }

  /** A row outside the chunk shares its id with no object of the bulk, so the write skips it. */
  lemma WriteMissesRow(t: seq<Ticket>, bulk: seq<Ticket>, gen: int -> Uuid, k: nat, i: nat)
    requires Ordered(t) && StampedFrom(t, bulk, gen, k) && i < |t| && !(k <= i < k + |bulk|)
    ensures BulkUpdate(t, bulk)[i] == t[i]
  {
    forall j | 0 <= j < |bulk|
      ensures bulk[j].id != t[i].id
    {
      assert bulk[j].id == t[k + j].id;
    }
    assert Find(bulk, t[i].id).None?;
  }

  /** On an ordered table, the rows at indices `k..k+m` are the rows whose id lies above
      `pk` and at most the id at index `k+m-1`, when `k` is the split point of `pk`. */
  lemma SliceIsIdRange(t: seq<Ticket>, pk: int, m: nat, i: nat)
    requires Ordered(t) && 0 < m && Position(t, pk) + m <= |t| && i < |t|
    ensures var k := Position(t, pk);
            k <= i < k + m <==> pk < t[i].id <= t[k + m - 1].id
  {
  }

  /** One row of the table after the tokened chunk is written back. */
  lemma WriteRow(t: seq<Ticket>, pk: int, bulk: seq<Ticket>, gen: int -> Uuid, i: nat)
    requires Ordered(t) && 0 < |bulk| && StampedFrom(t, bulk, gen, Position(t, pk)) && i < |t|
    ensures BulkUpdate(t, bulk)[i] ==
              (if pk < t[i].id <= bulk[|bulk| - 1].id then Tokened(t[i], gen) else t[i])
  {
    var k, m := Position(t, pk), |bulk|;
    var last := bulk[m - 1].id;
    assert last == t[k + m - 1].id;
    SliceIsIdRange(t, pk, m, i);
    if k <= i < k + m {
      assert pk < t[i].id <= last;
      WriteHitsRow(t, bulk, gen, k, i);
    } else {
      assert !(pk < t[i].id <= last);
      WriteMissesRow(t, bulk, gen, k, i);
    }
  }

  /** The rows of `t`, compared with the table `tickets`: the same ids, the rows whose id
      lies above `start` and at most `cursor` tokened with `gen`, every other row as it was. */
  predicate Covered(tickets: seq<Ticket>, t: seq<Ticket>, start: int, cursor: int, gen: int -> Uuid) {
    && SameIds(t, tickets)
    && forall i :: 0 <= i < |tickets| ==>
         t[i] == (if start < tickets[i].id <= cursor then Tokened(tickets[i], gen) else tickets[i])
  }

  /** The `bulk_update` of `batch_process`: writing back objects stamped from the
      rows after `pk` tokens exactly the rows whose id lies above `pk` and at most the
      last object's id. */
  lemma WriteChunk(t: seq<Ticket>, pk: int, bulk: seq<Ticket>, gen: int -> Uuid)
    requires Ordered(t) && 0 < |bulk| && StampedFrom(t, bulk, gen, Position(t, pk))
    ensures Covered(t, BulkUpdate(t, bulk), pk, bulk[|bulk| - 1].id, gen)
  {
    forall i | 0 <= i < |t| {
      WriteRow(t, pk, bulk, gen, i);
    }
  }

  /** What the bulk write of one chunk does: it is accepted, it raises (and the exception
      is absorbed by the bare `except`), or an exception escapes `batch_process` before
      anything is written (for instance from the scan or from `generate_token`). */
  datatype ChunkFate = BulkWriteOk | BulkWriteFails | Raises(message: string)

  /** The table, the ledger row and the returned cursor after one `batch_process` call. */
  datatype Checkpoint = Checkpoint(tickets: seq<Ticket>, progress: BatchProgress, cursor: int)

  /** What a `batch_process(pk)` call that returns leaves behind, from the table `t` and
      the ledger row `b`: the ledger holds the returned cursor, which never moves back;
      it moves forward exactly when the write was accepted and the chunk was not empty,
      and then to the chunk's last id; the rows between the two cursors are tokened and
      no other row changes. */
  predicate Committed(t: seq<Ticket>, b: BatchProgress, pk: int, gen: int -> Uuid, fate: ChunkFate,
                      r: Checkpoint)
    requires Ordered(t)
  {
    && r.progress == b.(lastValue := r.cursor)
    && pk <= r.cursor
    && (pk < r.cursor <==> fate.BulkWriteOk? && CountAfter(t, pk) > 0)
    && (pk < r.cursor ==> var c := Chunk(t, pk); r.cursor == c[|c| - 1].id)
    && Covered(t, r.tickets, pk, r.cursor, gen)
    && (r.cursor == pk ==> r.tickets == t)
  }

  /** The stamping loop of `batch_process`: give each fetched ticket `gen`'s
      token, collecting the objects in scan order and remembering the id of
      the last one. */
  method StampChunk(chunk: seq<Ticket>, gen: int -> Uuid) returns (bulk: seq<Ticket>, lastPk: Option<int>)
    ensures |bulk| == |chunk|
    ensures forall j :: 0 <= j < |bulk| ==> bulk[j] == Tokened(chunk[j], gen)
    ensures lastPk == LastId(chunk)
  {
    lastPk := None;
    bulk := [];
    for j := 0 to |chunk|
      invariant |bulk| == j
      invariant forall i :: 0 <= i < j ==> bulk[i] == Tokened(chunk[i], gen)
      invariant lastPk == LastId(chunk[..j])
    {
      bulk := bulk + [Tokened(chunk[j], gen)];
      lastPk := Some(chunk[j].id);
    }
  }

  /** The tokened chunk is stamped from the rows after the split point of `pk`. */
  lemma StampedChunk(t: seq<Ticket>, pk: int, bulk: seq<Ticket>, gen: int -> Uuid)
    requires Ordered(t) && |bulk| == |Chunk(t, pk)|
    requires forall j :: 0 <= j < |bulk| ==> bulk[j] == Tokened(Chunk(t, pk)[j], gen)
    ensures StampedFrom(t, bulk, gen, Position(t, pk))
  {
    forall j | 0 <= j < |bulk|
      ensures bulk[j] == Tokened(t[Position(t, pk) + j], gen)
    {
      ChunkAt(t, pk, j);
    }
  }

  /** The bare `except` of `batch_process`: checkpointing `pk` again and leaving the table as it
      was is what a chunk leaves behind when its write did not take effect. */
  lemma RollbackCommitted(t: seq<Ticket>, b: BatchProgress, pk: int, gen: int -> Uuid, fate: ChunkFate)
    requires Ordered(t) && (!fate.BulkWriteOk? || CountAfter(t, pk) == 0)
    ensures Committed(t, b, pk, gen, fate, Checkpoint(t, b.(lastValue := pk), pk))
  {
  }

  /** The `try` of `batch_process` when the write and the checkpoint both succeed:
      the table with the tokened chunk written back and the ledger holding the chunk's last id. */
  lemma WriteCommitted(t: seq<Ticket>, b: BatchProgress, pk: int, gen: int -> Uuid, bulk: seq<Ticket>)
    requires Ordered(t) && 0 < |bulk| == |Chunk(t, pk)|
    requires forall j :: 0 <= j < |bulk| ==> bulk[j] == Tokened(Chunk(t, pk)[j], gen)
    ensures var last := bulk[|bulk| - 1].id;
            Committed(t, b, pk, gen, BulkWriteOk,
                      Checkpoint(BulkUpdate(t, bulk), b.(lastValue := last), last))
  {
    var c := Chunk(t, pk);
    StampedChunk(t, pk, bulk, gen);
    WriteChunk(t, pk, bulk, gen);
    ChunkAt(t, pk, |c| - 1);
    assert bulk[|bulk| - 1].id == c[|c| - 1].id > pk;
  }

  /** `batch_process(pk)`: fetch the chunk above `pk`, give each ticket `gen`'s token,
      write the chunk, checkpoint the last id in the ledger and return it; when the write
      or the checkpoint raises, checkpoint `pk` instead and return it. */
  method BatchProcess(t: seq<Ticket>, b: BatchProgress, pk: int, gen: int -> Uuid, fate: ChunkFate)
    returns (r: Result<Checkpoint, string>)
    requires Ordered(t)
    ensures r.Failure? <==> fate.Raises?
    ensures r.Failure? ==> r.error == fate.message
    ensures r.Success? ==> Committed(t, b, pk, gen, fate, r.value)
  {
    if fate.Raises? {
      return Failure(fate.message);
    }
    var chunk := Chunk(t, pk);
    var bulk, lastPk := StampChunk(chunk, gen);
    // the checkpoint in the `try` and the rollback in the `except`, as ledger rows
    var saved := UpdateBatchState(b, Some(lastPk), None, None);
    var rollback := Checkpoint(t, UpdateBatchState(b, Some(Some(pk)), None, None).value, pk);
    if fate.BulkWriteFails? || saved.None? {
      // the write raised, or the checkpoint did: `saved` is `None` only for an empty
      // chunk, whose `last_pk` stayed `None`, which the non-null column refuses
      RollbackCommitted(t, b, pk, gen, fate);
      r := Success(rollback);
    } else {
      var written := BulkUpdate(t, bulk);
      WriteCommitted(t, b, pk, gen, bulk);
      r := Success(Checkpoint(written, saved.value, lastPk.value));
    }
  }

  /** One pass of the loop of `process_token` while `owed > 0` tickets are still counted
      as remaining. At least `owed` rows lie above the cursor, so the chunk is not empty
      and `last_pk` is an id when `batch_process` checkpoints it. An accepted write moves
      the cursor to a real id `BULK_SIZE` rows on (or to the end of the table), leaving
      at least `owed - BULK_SIZE` rows above it. Any other outcome keeps the cursor and
      the table. `t` is `tickets` with some tokens already set. */
  lemma ChunkStep(tickets: seq<Ticket>, t: seq<Ticket>, b: BatchProgress, pk: int, gen: int -> Uuid,
                  fate: ChunkFate, owed: int, r: Checkpoint)
    requires Ordered(tickets) && Ordered(t) && SameIds(t, tickets)
    requires Committed(t, b, pk, gen, fate, r)
    requires 0 < owed <= CountAfter(tickets, pk)
    ensures 0 < |Chunk(t, pk)|
    ensures CountAfter(tickets, r.cursor) >= owed - BULK_SIZE
    ensures fate.BulkWriteOk? ==> HasId(tickets, r.cursor)
    ensures fate.BulkWriteOk? ==>
              Position(tickets, r.cursor) == Min(Position(tickets, pk) + BULK_SIZE, |tickets|)
    ensures !fate.BulkWriteOk? ==> r.cursor == pk && r.tickets == t
  {
    PositionIgnoresTokens(tickets, t, pk);
    if fate.BulkWriteOk? {
      var c := Chunk(t, pk);
      var k := Position(t, pk);
      var m := |c|;
      assert 0 < m == Min(BULK_SIZE, |t| - k);
      ChunkAt(t, pk, m - 1);
      assert r.cursor == c[m - 1].id == tickets[k + m - 1].id;
      PositionOfId(tickets, k + m - 1);
      assert k + m == Min(k + BULK_SIZE, |tickets|);
    }
  }

  /** `batch_process` moves the tokened range of a run that started at `start` from the
      old cursor to the new one. */
  lemma CoverStep(tickets: seq<Ticket>, t: seq<Ticket>, start: int, pk: int, b: BatchProgress,
                  gen: int -> Uuid, fate: ChunkFate, r: Checkpoint)
    requires Ordered(t) && Covered(tickets, t, start, pk, gen) && start <= pk
    requires Committed(t, b, pk, gen, fate, r)
    ensures Covered(tickets, r.tickets, start, r.cursor, gen)
  {
    forall i | 0 <= i < |tickets|
      ensures r.tickets[i] ==
                (if start < tickets[i].id <= r.cursor then Tokened(tickets[i], gen) else tickets[i])
    {
      assert t[i].id == tickets[i].id;
    }
  }

  /** How a run ended: the ledger lookup raised before anything was written, the loop
      ran to its end, or an exception escaped a chunk and was recorded as ERROR. */
  datatype RunEnd = LedgerMissing | Completed | Crashed(message: string)

  /** No exception escaped any of the first `n` chunks. */
  predicate NoneRaise(fate: nat -> ChunkFate, n: nat) {
    forall k :: 0 <= k < n ==> !fate(k).Raises?
  }

  /** The bulk write of each of the first `n` chunks was accepted. */
  predicate AllWritten(fate: nat -> ChunkFate, n: nat) {
    forall k :: 0 <= k < n ==> fate(k).BulkWriteOk?
  }

  /** The bulk write of none of the first `n` chunks was accepted. */
  predicate NoneWritten(fate: nat -> ChunkFate, n: nat) {
    forall k :: 0 <= k < n ==> !fate(k).BulkWriteOk?
  }

  /** How many of the first `n` chunks had their bulk write accepted. The loop's `offset`
      grows on every call, but the cursor moves only on these. */
  function Accepted(fate: nat -> ChunkFate, n: nat): (a: nat)
    ensures a <= n
  {
    if n == 0 then 0 else Accepted(fate, n - 1) + (if fate(n - 1).BulkWriteOk? then 1 else 0)
  }

  /** Each of these counts over the first `n + 1` chunks splits into the first `n` and the last. */
  lemma FateSplit(fate: nat -> ChunkFate, n: nat)
    ensures NoneRaise(fate, n + 1) <==> NoneRaise(fate, n) && !fate(n).Raises?
    ensures AllWritten(fate, n + 1) <==> AllWritten(fate, n) && fate(n).BulkWriteOk?
    ensures NoneWritten(fate, n + 1) <==> NoneWritten(fate, n) && !fate(n).BulkWriteOk?
  {
  }

  /** The count of accepted writes is `n` exactly when all of the first `n` were
      accepted, and 0 exactly when none was. */
  lemma {:induction false} AcceptedCounts(fate: nat -> ChunkFate, n: nat)
    ensures Accepted(fate, n) == n <==> AllWritten(fate, n)
    ensures Accepted(fate, n) == 0 <==> NoneWritten(fate, n)
  {
    if n > 0 {
      AcceptedCounts(fate, n - 1);
      FateSplit(fate, n - 1);
    }
  }

  /** The cursor lies `BULK_SIZE` rows past the run's start `start` for each of `a`
      accepted writes, or at the end of the table. */
  predicate Drift(tickets: seq<Ticket>, start: int, cursor: int, a: nat)
    requires Ordered(tickets)
  {
    Position(tickets, cursor) == Min(Position(tickets, start) + BULK_SIZE * a, |tickets|)
  }

  /** One more accepted chunk, moving the cursor `BULK_SIZE` rows on, adds one to `a`. */
  lemma WrittenStep(tickets: seq<Ticket>, start: int, a: nat, pk: int, next: int)
    requires Ordered(tickets) && Drift(tickets, start, pk, a)
    requires Position(tickets, next) == Min(Position(tickets, pk) + BULK_SIZE, |tickets|)
    ensures Drift(tickets, start, next, a + 1)
  {
  }

  /** Of the rows above the start, those the accepted writes did not reach lie above
      the cursor. */
  lemma DriftRemainder(tickets: seq<Ticket>, start: int, cursor: int, a: nat)
    requires Ordered(tickets) && Drift(tickets, start, cursor, a)
    ensures var owed := CountAfter(tickets, start) - BULK_SIZE * a;
            CountAfter(tickets, cursor) == if owed < 0 then 0 else owed
  {
  }

  /** The loop invariant of `RunBatch`: the state after `chunks` passes of the loop of
      `process_token` in a run that started from the row `batch` over the table `tickets`,
      where `total` is the count taken before the loop and `accepted` of the `chunks` writes
      were accepted. */
  predicate InLoop(tickets: seq<Ticket>, batch: BatchProgress, gen: int -> Uuid, fate: nat -> ChunkFate,
                   total: int, t: seq<Ticket>, ledger: BatchProgress, lastPk: int, offset: int, chunks: nat,
                   accepted: nat)
  {
    var start := batch.lastValue;
    && Ordered(tickets)
    && Ordered(t)
    && total == CountAfter(tickets, start)
    // `offset` has grown by BULK_SIZE per pass, and every pass began with `offset < total`
    && offset == BULK_SIZE * chunks
    && (chunks == 0 || BULK_SIZE * (chunks - 1) < total)
    && NoneRaise(fate, chunks)
    // the ledger row holds the cursor, and the run is RUNNING
    && ledger == batch.(state := Running, lastValue := lastPk)
    && start <= lastPk
    && (lastPk == start || HasId(tickets, lastPk))
    // at least `total - offset` rows remain above the cursor
    && CountAfter(tickets, lastPk) >= total - offset
    && Covered(tickets, t, start, lastPk, gen)
    // the cursor lies BULK_SIZE rows on for each accepted write, however many calls failed
    && accepted == Accepted(fate, chunks)
    && Drift(tickets, start, lastPk, accepted)
    && (NoneWritten(fate, chunks) ==> t == tickets && lastPk == start)
  }

  /** One pass of the loop keeps the invariant when no exception escapes the chunk. */
  lemma LoopStep(tickets: seq<Ticket>, batch: BatchProgress, gen: int -> Uuid, fate: nat -> ChunkFate,
                 total: int, t: seq<Ticket>, ledger: BatchProgress, lastPk: int, offset: int,
                 chunks: nat, accepted: nat, r: Checkpoint)
    requires InLoop(tickets, batch, gen, fate, total, t, ledger, lastPk, offset, chunks, accepted)
    requires offset < total && !fate(chunks).Raises?
    requires Committed(t, ledger, lastPk, gen, fate(chunks), r)
    ensures InLoop(tickets, batch, gen, fate, total, r.tickets, r.progress, r.cursor,
                   offset + BULK_SIZE, chunks + 1, Accepted(fate, chunks + 1))
  {
    var start := batch.lastValue;
    FateSplit(fate, chunks);
    ChunkStep(tickets, t, ledger, lastPk, gen, fate(chunks), total - offset, r);
    CoverStep(tickets, t, start, lastPk, ledger, gen, fate(chunks), r);
    PositionIgnoresTokens(tickets, r.tickets, start);
    if fate(chunks).BulkWriteOk? {
      WrittenStep(tickets, start, accepted, lastPk, r.cursor);
    }
  }

  /** When the loop ends, `ceil(total / BULK_SIZE)` chunks have been processed; if every
      write was accepted, no row remains above the cursor, every row above the start is
      tokened and the cursor is the largest id. */
  lemma LoopExit(tickets: seq<Ticket>, batch: BatchProgress, gen: int -> Uuid, fate: nat -> ChunkFate,
                 total: int, t: seq<Ticket>, ledger: BatchProgress, lastPk: int, offset: int, chunks: nat)
    requires InLoop(tickets, batch, gen, fate, total, t, ledger, lastPk, offset, chunks,
                    Accepted(fate, chunks))
    requires total <= offset
    ensures total <= BULK_SIZE * chunks
    ensures total == 0 ==> chunks == 0 && t == tickets && lastPk == batch.lastValue
    ensures AllWritten(fate, chunks) ==> CountAfter(tickets, lastPk) == 0
    ensures AllWritten(fate, chunks) ==>
              forall i :: 0 <= i < |tickets| && batch.lastValue < tickets[i].id ==>
                t[i] == Tokened(tickets[i], gen)
    ensures AllWritten(fate, chunks) && total > 0 ==> lastPk == tickets[|tickets| - 1].id
  {
    AcceptedCounts(fate, chunks);
    if AllWritten(fate, chunks) {
      assert Position(tickets, lastPk) == |tickets|;
      if total > 0 {
        var j :| 0 <= j < |tickets| && tickets[j].id == lastPk;
        PositionOfId(tickets, j);
      }
    }
  }

  /** One pass of the loop of `process_token`: `batch_process` at the cursor either raises
      with the chunk's message or leaves the loop invariant holding one pass further on. */
  method LoopPass(tickets: seq<Ticket>, batch: BatchProgress, gen: int -> Uuid, fate: nat -> ChunkFate,
                  total: int, t: seq<Ticket>, ledger: BatchProgress, lastPk: int, offset: int,
                  chunks: nat, ghost accepted: nat)
    returns (r: Result<Checkpoint, string>)
    requires InLoop(tickets, batch, gen, fate, total, t, ledger, lastPk, offset, chunks, accepted)
    requires offset < total
    ensures r.Failure? ==> fate(chunks) == Raises(r.error)
    ensures r.Success? ==>
              InLoop(tickets, batch, gen, fate, total, r.value.tickets, r.value.progress, r.value.cursor,
                     offset + BULK_SIZE, chunks + 1, Accepted(fate, chunks + 1))
  {
    r := BatchProcess(t, ledger, lastPk, gen, fate(chunks));
    if r.Success? {
      LoopStep(tickets, batch, gen, fate, total, t, ledger, lastPk, offset, chunks, accepted, r.value);
    }
  }

  /** The loop of `process_token`: starting from the ledger row `running` saved as the
      `try` opens, call
      `batch_process` while `offset < total`, adding `BULK_SIZE` to `offset` whatever the
      chunk did. `steps` counts the calls that returned and `accepted` those whose write was
      accepted; `failure` holds the message of an exception that escaped the next call and
      ended the loop. */
  method ChunkLoop(tickets: seq<Ticket>, batch: BatchProgress, running: BatchProgress, gen: int -> Uuid,
                   fate: nat -> ChunkFate, total: int)
    returns (t: seq<Ticket>, ledger: BatchProgress, lastPk: int, steps: nat, accepted: nat,
             failure: Option<string>)
    requires Ordered(tickets) && total == CountAfter(tickets, batch.lastValue)
    requires running == batch.(state := Running)
    ensures InLoop(tickets, batch, gen, fate, total, t, ledger, lastPk, BULK_SIZE * steps, steps, accepted)
    ensures failure.None? ==> total <= BULK_SIZE * steps
    ensures failure.Some? ==> BULK_SIZE * steps < total && fate(steps) == Raises(failure.value)
  {
    t, ledger, lastPk := tickets, running, batch.lastValue;
    steps := 0;
    accepted := 0;
    var offset := 0;
    while offset < total
      invariant offset == BULK_SIZE * steps
      invariant InLoop(tickets, batch, gen, fate, total, t, ledger, lastPk, offset, steps, accepted)
    {
      var r := LoopPass(tickets, batch, gen, fate, total, t, ledger, lastPk, offset, steps, accepted);
      if r.Failure? {
        return t, ledger, lastPk, steps, accepted, Some(r.error);
      }
      accepted := accepted + if fate(steps).BulkWriteOk? then 1 else 0;
      t, ledger, lastPk := r.value.tickets, r.value.progress, r.value.cursor;
      steps := steps + 1;
      offset := offset + BULK_SIZE;
    }
    failure := None;
  }

  /** The `try` of `process_token` and its `except`, from the ledger row `batch` read before:
      mark the row RUNNING, snapshot `total`, run the chunk loop, then mark the row
      FINISHED; an exception escaping a chunk marks it ERROR instead. `fate(k)` decides
      the `k`-th chunk and `chunks` counts the calls of `batch_process`. */
  method RunBatch(tickets: seq<Ticket>, batch: BatchProgress, gen: int -> Uuid, fate: nat -> ChunkFate)
    returns (end: RunEnd, tickets': seq<Ticket>, progress: BatchProgress, chunks: nat)
    requires Ordered(tickets)
    ensures !end.LedgerMissing?
    ensures progress.batchKey == batch.batchKey
    // how the run ends
    ensures end.Completed? <==> NoneRaise(fate, chunks)
    ensures end.Completed? ==> progress.state == Finished && progress.error == batch.error
    ensures end.Crashed? ==>
              chunks > 0 && NoneRaise(fate, chunks - 1) && fate(chunks - 1) == Raises(end.message)
    ensures end.Crashed? ==> progress.state == Error && progress.error == end.message
    // the number of chunks: ceil(total / BULK_SIZE), unless an exception cuts the loop short
    ensures chunks == 0 || BULK_SIZE * (chunks - 1) < CountAfter(tickets, batch.lastValue)
    ensures end.Completed? ==> CountAfter(tickets, batch.lastValue) <= BULK_SIZE * chunks
    // the final cursor and the rows it covers
    ensures batch.lastValue <= progress.lastValue
    ensures progress.lastValue == batch.lastValue || HasId(tickets, progress.lastValue)
    ensures Covered(tickets, tickets', batch.lastValue, progress.lastValue, gen)
    // the cursor moves BULK_SIZE rows per accepted write, so after failed writes the rows
    // above it that `total` counted but the calls did not reach stay untokened
    ensures Drift(tickets, batch.lastValue, progress.lastValue, Accepted(fate, chunks))
    ensures var owed := CountAfter(tickets, batch.lastValue) - BULK_SIZE * Accepted(fate, chunks);
            CountAfter(tickets, progress.lastValue) == if owed < 0 then 0 else owed
    // special cases
    ensures CountAfter(tickets, batch.lastValue) == 0 ==>
              end.Completed? && chunks == 0 && tickets' == tickets && progress == batch.(state := Finished)
    ensures NoneWritten(fate, chunks) ==> tickets' == tickets && progress.lastValue == batch.lastValue
    ensures end.Completed? && AllWritten(fate, chunks) ==> CountAfter(tickets, progress.lastValue) == 0
    ensures end.Completed? && AllWritten(fate, chunks) ==>
              forall i :: 0 <= i < |tickets| && batch.lastValue < tickets[i].id ==>
                tickets'[i] == Tokened(tickets[i], gen)
    ensures end.Completed? && AllWritten(fate, chunks) && CountAfter(tickets, batch.lastValue) > 0 ==>
              progress.lastValue == tickets[|tickets| - 1].id
  {
    var running := UpdateBatchState(batch, None, Some(Running), None).value;
    var total := CountAfter(tickets, batch.lastValue);
    var t, ledger, lastPk, steps, accepted, failure := ChunkLoop(tickets, batch, running, gen, fate, total);
    DriftRemainder(tickets, batch.lastValue, lastPk, accepted);
    if failure.Some? {
      FateSplit(fate, steps);
      assert Accepted(fate, steps + 1) == Accepted(fate, steps);
      progress := UpdateBatchState(ledger, None, Some(Error), Some(failure.value)).value;
      return Crashed(failure.value), t, progress, steps + 1;
    }
    LoopExit(tickets, batch, gen, fate, total, t, ledger, lastPk, BULK_SIZE * steps, steps);
    progress := UpdateBatchState(ledger, Some(Some(lastPk)), Some(Finished), None).value;
    end, tickets', chunks := Completed, t, steps;
  }

  /** `process_token`: the ledger row is looked up with `.get` before the `try`,
      so a missing row raises out of the command and nothing is written; otherwise the
      run proceeds as in `RunBatch`. */
  method ProcessToken(tickets: seq<Ticket>, ledger: Option<BatchProgress>, gen: int -> Uuid,
                      fate: nat -> ChunkFate)
    returns (end: RunEnd, tickets': seq<Ticket>, ledger': Option<BatchProgress>, chunks: nat)
    requires Ordered(tickets)
    ensures end.LedgerMissing? <==> ledger.None?
    ensures ledger.None? ==> tickets' == tickets && ledger' == None && chunks == 0
    ensures ledger.Some? ==> ledger'.Some? && ledger'.value.batchKey == ledger.value.batchKey
    ensures SameIds(tickets', tickets)
    ensures ledger.Some? ==>
              Covered(tickets, tickets', ledger.value.lastValue, ledger'.value.lastValue, gen)
    ensures ledger.Some? ==>
              Drift(tickets, ledger.value.lastValue, ledger'.value.lastValue, Accepted(fate, chunks))
    ensures end.Completed? ==> ledger'.Some? && ledger'.value.state == Finished
    ensures end.Crashed? ==>
              ledger'.Some? && ledger'.value.state == Error && ledger'.value.error == end.message
  {
    if ledger.None? {
      return LedgerMissing, tickets, None, 0;
    }
    var row;
    end, tickets', row, chunks := RunBatch(tickets, ledger.value, gen, fate);
    ledger' := Some(row);
  }

  /** `init(size)`: both tables are emptied, the ledger row is saved as INIT with cursor 0,
      and blank tickets are inserted `BULK_SIZE` at a time while fewer than `size` have been
      inserted, so the table ends with `size` rounded up to a multiple of `BULK_SIZE`.
      `nextId` is the ticket table's auto-increment counter, which the deletes do not reset. */
  method Init(nextId: int, size: int) returns (tickets: seq<Ticket>, ledger: BatchProgress, nextId': int)
    ensures ledger == BatchProgress(TICKET_BATCH_PROGRESS_KEY, 0, BatchState.Init, "")
    ensures size <= 0 ==> |tickets| == 0
    ensures size > 0 ==> |tickets| % BULK_SIZE == 0 && size <= |tickets| < size + BULK_SIZE
    ensures forall i :: 0 <= i < |tickets| ==> tickets[i] == Ticket(nextId + i, None)
    ensures Ordered(tickets)
    ensures nextId' == nextId + |tickets|
  {
    tickets := [];
    ledger := BatchProgress(TICKET_BATCH_PROGRESS_KEY, 0, BatchState.Init, "");
    nextId' := nextId;
    var inserted := 0;
    while inserted < size
      invariant inserted == |tickets| && inserted % BULK_SIZE == 0
      invariant inserted == 0 || inserted < size + BULK_SIZE
      invariant forall i :: 0 <= i < |tickets| ==> tickets[i] == Ticket(nextId + i, None)
      invariant nextId' == nextId + |tickets|
    {
      tickets := BulkCreate(tickets, nextId', BULK_SIZE);
      nextId' := nextId' + BULK_SIZE;
      inserted := inserted + BULK_SIZE;
    }
  }
}
