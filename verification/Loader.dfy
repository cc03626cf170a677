/** The ClickHouse loader: bounded buffers per table, a flush loop that takes one batch per
    table at a time, retried inserts, and a dead-letter queue for failed batches. Rows may
    arrive between any two of its steps. */
module Loader {
  import opened Options

  type Row = string

  datatype Item = Item(table: string, row: Row)

  datatype Batch = Batch(table: string, rows: seq<Row>)

  datatype Offer = Offer(table: string, row: Row, delivered: bool)

  datatype Config = Config(batchSize: nat, maxBuffer: nat, publisher: bool)

  /** `order`: the tables as first met, which is the order of the dictionary. */
  datatype Buffers = Buffers(order: seq<string>, rows: map<string, seq<Row>>)

  /** How the tries of one insert end, of those that are made. */
  datatype Attempts = Attempts(first: bool, second: bool, third: bool)

  datatype Fate = Inserted | Failed

  /** AtHead covers every check of the loop head; Draining is the last flush. */
  datatype Phase = AtHead | Waiting | Inserting | Draining | Stopped | Cancelled

  datatype State = State(buffers: Buffers, phase: Phase, closed: bool, log: Log, inserted: nat, failures: nat)

  /** What happened: rows accepted, batches extracted, the fates of those processed so far,
      the rows offered to the dead-letter queue, and, if the loop was cancelled while it
      offered a failed batch, how many of its rows it had offered. */
  datatype Log = Log(accepted: seq<Item>, extracted: seq<Batch>, fates: seq<Fate>, offered: seq<Offer>,
                     cutAt: Option<nat>)

  datatype Event =
    | Add(item: Item)
    | Close
    | Check                                                  // the loop head
    | Extract                                                // the wait is over
    | Process(attempts: Attempts, delivered: seq<bool>)     // the next extracted batch
    | Cancel                                                 // the stop times out
    | CancelOffering(delivered: seq<bool>, n: nat)           // and finds `n` rows of a failed batch offered

  // ---------- Buffers ----------

  function BufferOf(b: Buffers, table: string): seq<Row> {
    if table in b.rows then b.rows[table] else []
  }

  predicate Accepts(c: Config, b: Buffers, table: string) {
    |BufferOf(b, table)| < c.maxBuffer
  }

  /** Looking a table up creates its buffer, even when the row is then refused. */
  function Touch(b: Buffers, table: string): Buffers {
    if table in b.rows then b else Buffers(b.order + [table], b.rows[table := []])
  }

  function Append(b: Buffers, item: Item): Buffers {
    var t := Touch(b, item.table);
    t.(rows := t.rows[item.table := BufferOf(b, item.table) + [item.row]])
  }

  function Head(rows: seq<Row>, n: nat): seq<Row> {
    if |rows| <= n then rows else rows[..n]
  }

  function Tail(rows: seq<Row>, n: nat): seq<Row> {
    if |rows| <= n then [] else rows[n..]
  }

  /** One batch of each table that has rows. */
  function Batches(b: Buffers, order: seq<string>, size: nat): seq<Batch> {
    if order == [] then []
    else
      var n := |order| - 1;
      var rows := BufferOf(b, order[n]);
      Batches(b, order[..n], size) + (if rows == [] then [] else [Batch(order[n], Head(rows, size))])
  }

  function Rest(b: Buffers, size: nat): Buffers {
    b.(rows := map table <- b.rows :: Tail(b.rows[table], size))
  }

  // ---------- Inserting ----------

  const MAX_ATTEMPTS: nat := 3

  function Outcome(attempts: Attempts, k: nat): bool {
    if k == 0 then attempts.first else if k == 1 then attempts.second else attempts.third
  }

  /** An insert is tried up to three times. */
  predicate Succeeds(attempts: Attempts) {
    exists k :: 0 <= k < MAX_ATTEMPTS && Outcome(attempts, k)
  }

  function Offers(batch: Batch, delivered: seq<bool>, n: nat): seq<Offer>
    requires n <= |batch.rows|
  {
    if n == 0 then []
    else
      var last := Offer(batch.table, batch.rows[n - 1], n - 1 < |delivered| && delivered[n - 1]);
      Offers(batch, delivered, n - 1) + [last]
  }

  function ProcessNext(c: Config, s: State, attempts: Attempts, delivered: seq<bool>): State
    requires |s.log.fates| < |s.log.extracted|
  {
    var batch := s.log.extracted[|s.log.fates|];
    if Succeeds(attempts) then
      s.(inserted := s.inserted + |batch.rows|, log := s.log.(fates := s.log.fates + [Inserted]))
    else
      s.(failures := s.failures + 1,
         log := s.log.(fates := s.log.fates + [Failed],
                       offered := s.log.offered + (if c.publisher then Offers(batch, delivered, |batch.rows|) else [])))
  }

  function TakeBatches(c: Config, s: State): State {
    s.(buffers := Rest(s.buffers, c.batchSize),
       log := s.log.(extracted := s.log.extracted + Batches(s.buffers, s.buffers.order, c.batchSize)))
  }

  // ---------- Steps ----------

  predicate Idle(s: State) {
    |s.log.fates| == |s.log.extracted|
  }

  predicate CutsOffering(s: State, n: nat) {
    && s.closed && (s.phase.Inserting? || s.phase.Draining?)
    && |s.log.fates| < |s.log.extracted| && n <= |s.log.extracted[|s.log.fates|].rows|
  }

  function Next(c: Config, s: State, e: Event): State {
    match e
    case Add(item) =>
      if !Accepts(c, s.buffers, item.table) then s.(buffers := Touch(s.buffers, item.table))
      else s.(buffers := Append(s.buffers, item), log := s.log.(accepted := s.log.accepted + [item]))
    case Close => s.(closed := true)
    case Check =>
      if s.phase.AtHead? then (if s.closed then TakeBatches(c, s).(phase := Draining) else s.(phase := Waiting)) else s
    case Extract => if s.phase.Waiting? then TakeBatches(c, s).(phase := Inserting) else s
    case Process(attempts, delivered) =>
      if !s.phase.Inserting? && !s.phase.Draining? then s
      else if |s.log.fates| < |s.log.extracted| then ProcessNext(c, s, attempts, delivered)
      else s.(phase := if s.phase.Inserting? then AtHead else Stopped)
    case Cancel => if s.closed && !s.phase.Stopped? then s.(phase := Cancelled) else s
    case CancelOffering(delivered, n) =>
      if !CutsOffering(s, n) then s
      else
        var batch := s.log.extracted[|s.log.fates|];
        s.(phase := Cancelled, failures := s.failures + 1,
           log := s.log.(cutAt := Some(n),
                         offered := s.log.offered + (if c.publisher then Offers(batch, delivered, n) else [])))
  }

  const Start := State(Buffers([], map[]), AtHead, false, Log([], [], [], [], None), 0, 0)

  function Run(c: Config, s: State, es: seq<Event>): State {
    if es == [] then s else Next(c, Run(c, s, es[..|es| - 1]), es[|es| - 1])
  }

  // ---------- What the log says about one table ----------

  function AcceptedFor(items: seq<Item>, table: string): seq<Row> {
    if items == [] then []
    else
      var n := |items| - 1;
      AcceptedFor(items[..n], table) + (if items[n].table == table then [items[n].row] else [])
  }

  function RowsOf(batches: seq<Batch>, table: string): seq<Row> {
    if batches == [] then []
    else
      var n := |batches| - 1;
      RowsOf(batches[..n], table) + (if batches[n].table == table then batches[n].rows else [])
  }

  function InsertedRows(batches: seq<Batch>, fates: seq<Fate>): nat
    requires |fates| <= |batches|
  {
    if fates == [] then 0
    else
      var n := |fates| - 1;
      InsertedRows(batches, fates[..n]) + (if fates[n].Inserted? then |batches[n].rows| else 0)
  }

  function FailedBatches(fates: seq<Fate>): nat {
    if fates == [] then 0 else FailedBatches(fates[..|fates| - 1]) + (if fates[|fates| - 1].Failed? then 1 else 0)
  }

  /** The rows of failed batches, each once, in order. */
  function FailedRows(batches: seq<Batch>, fates: seq<Fate>): seq<Item>
    requires |fates| <= |batches|
  {
    if fates == [] then []
    else
      var n := |fates| - 1;
      FailedRows(batches, fates[..n]) + (if fates[n].Failed? then Items(batches[n], |batches[n].rows|) else [])
  }

  function Items(batch: Batch, n: nat): seq<Item>
    requires n <= |batch.rows|
  {
    if n == 0 then [] else Items(batch, n - 1) + [Item(batch.table, batch.rows[n - 1])]
  }

  function OfferedItems(offers: seq<Offer>): (items: seq<Item>)
    ensures |items| == |offers|
  {
    if offers == [] then []
    else OfferedItems(offers[..|offers| - 1]) + [Item(offers[|offers| - 1].table, offers[|offers| - 1].row)]
  }
}
