/** Whole-command runs: `init` followed by `process_token`, a second run after a finished
    one, a run resumed after a crash, a run whose writes all fail, and one whose writes
    fail after the first. */
module TicketScenarios {
  import opened Wrappers
  import opened Models
  import opened Queries
  import opened TicketCommand

  /** Every chunk's write is accepted. */
  function AlwaysOk(k: nat): ChunkFate {
    BulkWriteOk
  }

  /** Every chunk's write raises inside the `try`. */
  function AlwaysFails(k: nat): ChunkFate {
    BulkWriteFails
  }

  /** A table whose ids are all positive lies entirely above cursor 0. */
  lemma AllAboveZero(tickets: seq<Ticket>)
    requires Ordered(tickets) && forall i :: 0 <= i < |tickets| ==> tickets[i].id > 0
    ensures CountAfter(tickets, 0) == |tickets|
  {
    PositionUnique(tickets, 0, 0);
  }

  /** Two runs in a row, the second resuming from the cursor the first left: the rows
      the first run tokened and the rows the second one tokened add up. */
  lemma {:induction false} CoverCompose(a: seq<Ticket>, b: seq<Ticket>, d: seq<Ticket>,
                                        s: int, c1: int, c2: int, gen: int -> Uuid)
    requires Covered(a, b, s, c1, gen) && Covered(b, d, c1, c2, gen) && s <= c1 <= c2
    ensures Covered(a, d, s, c2, gen)
  {
    forall i | 0 <= i < |a|
      ensures d[i] == (if s < a[i].id <= c2 then Tokened(a[i], gen) else a[i])
    {
      assert b[i].id == a[i].id;
      assert d[i] == (if c1 < b[i].id <= c2 then Tokened(b[i], gen) else b[i]);
      assert b[i] == (if s < a[i].id <= c1 then Tokened(a[i], gen) else a[i]);
    }
  }

  /** `ticket --init --size N` then `ticket --process-token` with every write accepted:
      `ceil(N / BULK_SIZE)` chunks, every inserted ticket tokened, the ledger FINISHED
      at the largest id. */
  method SeedAndProcess(nextId: int, size: int, gen: int -> Uuid)
    returns (end: RunEnd, tickets: seq<Ticket>, progress: BatchProgress, chunks: nat)
    requires nextId >= 1
    ensures end == Completed
    ensures progress.state == Finished && progress.batchKey == TICKET_BATCH_PROGRESS_KEY
    ensures size <= 0 ==> tickets == [] && chunks == 0 && progress.lastValue == 0
    ensures size > 0 ==> BULK_SIZE * (chunks - 1) < size <= BULK_SIZE * chunks
    ensures size > 0 ==> |tickets| == BULK_SIZE * chunks && progress.lastValue == nextId + |tickets| - 1
    ensures forall i :: 0 <= i < |tickets| ==> tickets[i] == Ticket(nextId + i, Some(gen(nextId + i)))
  {
    var seeded, ledger, _ := TicketCommand.Init(nextId, size);
    AllAboveZero(seeded);
    end, tickets, progress, chunks := RunBatch(seeded, ledger, gen, AlwaysOk);
    assert AllWritten(AlwaysOk, chunks);
  }

  /** Running `process_token` again after a run that finished with every write accepted
      scans nothing, writes nothing and leaves the ledger as it was. */
  method RerunAfterFinish(tickets: seq<Ticket>, batch: BatchProgress, gen: int -> Uuid,
                          fate: nat -> ChunkFate, again: nat -> ChunkFate)
    returns (first: RunEnd, second: RunEnd, tickets': seq<Ticket>, tickets'': seq<Ticket>,
             progress': BatchProgress, progress'': BatchProgress, chunks': nat, chunks'': nat)
    requires Ordered(tickets)
    ensures first.Completed? && AllWritten(fate, chunks') ==>
              second == Completed && chunks'' == 0 && tickets'' == tickets' && progress'' == progress'
  {
    first, tickets', progress', chunks' := RunBatch(tickets, batch, gen, fate);
    PositionIgnoresTokens(tickets, tickets', progress'.lastValue);
    second, tickets'', progress'', chunks'' := RunBatch(tickets', progress', gen, again);
  }

  /** A run that crashed leaves ERROR and its cursor on the ledger; running
      `process_token` again resumes from that cursor, so across both runs the tokened rows
      are exactly those between the first run's start and the second run's end. The
      crash message stays on the row even when the second run finishes. */
  method ResumeAfterCrash(tickets: seq<Ticket>, batch: BatchProgress, gen: int -> Uuid,
                          fate: nat -> ChunkFate, again: nat -> ChunkFate)
    returns (first: RunEnd, second: RunEnd, tickets'': seq<Ticket>, progress'': BatchProgress, chunks'': nat)
    requires Ordered(tickets)
    ensures batch.lastValue <= progress''.lastValue
    ensures Covered(tickets, tickets'', batch.lastValue, progress''.lastValue, gen)
    ensures first.Crashed? && second.Completed? ==>
              progress''.state == Finished && progress''.error == first.message
    ensures second.Completed? && AllWritten(again, chunks'') ==>
              forall i :: 0 <= i < |tickets| && batch.lastValue < tickets[i].id ==>
                tickets''[i] == Tokened(tickets[i], gen)
  {
    var tickets', progress', chunks';
    first, tickets', progress', chunks' := RunBatch(tickets, batch, gen, fate);
    PositionIgnoresTokens(tickets, tickets', progress'.lastValue);
    second, tickets'', progress'', chunks'' := RunBatch(tickets', progress', gen, again);
    CoverCompose(tickets, tickets', tickets'', batch.lastValue, progress'.lastValue,
                 progress''.lastValue, gen);
    PositionIgnoresTokens(tickets, tickets', progress''.lastValue);
  }

  /** `init` of one chunk, then a run whose every bulk write raises: the bare `except`
      absorbs each failure, so the run still ends FINISHED, with the cursor where it
      started and no ticket tokened. */
  method FailedWritesFinish(gen: int -> Uuid)
    returns (end: RunEnd, tickets: seq<Ticket>, progress: BatchProgress, chunks: nat)
    ensures end == Completed && progress.state == Finished && progress.lastValue == 0
    ensures chunks == 1 && |tickets| == BULK_SIZE
    ensures forall i :: 0 <= i < |tickets| ==> tickets[i].token == None
  {
    var seeded, ledger, _ := TicketCommand.Init(1, BULK_SIZE);
    AllAboveZero(seeded);
    end, tickets, progress, chunks := RunBatch(seeded, ledger, gen, AlwaysFails);
    assert NoneWritten(AlwaysFails, chunks);
  }

  /** The first chunk's write is accepted; every later one raises inside the `try`. */
  function FirstWriteOnly(k: nat): ChunkFate {
    if k == 0 then BulkWriteOk else BulkWriteFails
  }

  /** `init` of 100 tickets numbered from 1, then a run whose first write is accepted and
      whose second raises inside the `try`. The second call rescans tickets 51 to 100 and
      returns the old cursor, but `offset` still reaches `total`, so the run ends FINISHED
      after two calls at id 50, with tickets 51 to 100 never tokened. */
  method PartialWritesDrift(gen: int -> Uuid)
    returns (end: RunEnd, tickets: seq<Ticket>, progress: BatchProgress, chunks: nat)
    ensures end == Completed && progress.state == Finished
    ensures chunks == 2 && progress.lastValue == 50 && |tickets| == 100
    ensures forall i :: 0 <= i < |tickets| ==>
              tickets[i] == Ticket(i + 1, if i < 50 then Some(gen(i + 1)) else None)
  {
    var seeded, ledger, _ := TicketCommand.Init(1, 2 * BULK_SIZE);
    AllAboveZero(seeded);
    end, tickets, progress, chunks := RunBatch(seeded, ledger, gen, FirstWriteOnly);
    assert chunks == 2;
    assert Accepted(FirstWriteOnly, 2) == 1;
    assert Position(seeded, progress.lastValue) == 50;
    var j :| 0 <= j < |seeded| && seeded[j].id == progress.lastValue;
    PositionOfId(seeded, j);
  }

  /** An exception escaping the first chunk, for instance from `generate_token`, which the
      `Ticket` model in `models.py` does not declare: when any ticket lies above the cursor
      the run makes one `batch_process` call, ends ERROR with the exception's text and
      writes no token; the cursor stays where it was, so the next run starts over. */
  method GenerateTokenRaises(tickets: seq<Ticket>, batch: BatchProgress, gen: int -> Uuid, message: string)
    returns (end: RunEnd, tickets': seq<Ticket>, progress: BatchProgress, chunks: nat)
    requires Ordered(tickets)
    ensures CountAfter(tickets, batch.lastValue) == 0 ==> end == Completed && chunks == 0
    ensures CountAfter(tickets, batch.lastValue) > 0 ==>
              && end == Crashed(message) && chunks == 1
              && progress == batch.(state := Error, error := message)
    ensures tickets' == tickets
  {
    var raises := (k: nat) => Raises(message);
    end, tickets', progress, chunks := RunBatch(tickets, batch, gen, raises);
    assert NoneWritten(raises, chunks);
    if chunks > 0 {
      assert !NoneRaise(raises, chunks) by {
        assert raises(0).Raises?;
      }
    }
  }
}
