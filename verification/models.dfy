/** The two persisted entities: the progress ledger row and the ticket row. */
module Models {
  import opened Wrappers

  /** The four values a ledger's `state` column takes. */
  datatype BatchState = Init | Running | Finished | Error

  /** Exclusive upper bound of a 128-bit UUID. */
  const UUID_SPACE: int := 0x1_0000_0000_0000_0000_0000_0000_0000_0000

  /** The value stored in a ticket's UUID column. */
  type Uuid = x: int | 0 <= x < UUID_SPACE

  /** One progress-ledger row. `lastValue` is the resume cursor: the id of the last
      ticket confirmed processed. `error` is a non-null text column whose default is "". */
  datatype BatchProgress = BatchProgress(batchKey: string, lastValue: int, state: BatchState, error: string)

  /** One ticket row: an auto-increment primary key and a nullable token. */
  datatype Ticket = Ticket(id: int, token: Option<Uuid>)

  /** The ticket table in primary-key order: ids strictly increase along the sequence. */
  predicate Ordered(t: seq<Ticket>) {
    forall i, j :: 0 <= i < j < |t| ==> t[i].id < t[j].id
  }

  /** Two tables with the same rows, up to the token column. */
  predicate SameIds(t: seq<Ticket>, u: seq<Ticket>) {
    |t| == |u| && forall i :: 0 <= i < |t| ==> t[i].id == u[i].id
  }

  /** Some row of `t` has primary key `id`. */
  predicate HasId(t: seq<Ticket>, id: int) {
    exists i :: 0 <= i < |t| && t[i].id == id
  }

  /** The row as it is once `generate_token` has given it `gen`'s token. */
  function Tokened(x: Ticket, gen: int -> Uuid): Ticket {
    x.(token := Some(gen(x.id)))
  }
}
