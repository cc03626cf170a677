/** No row is lost, duplicated or reordered by the loader, in any interleaving. */
module LoaderProofs {
  import opened Options
  import opened Loader

  ghost predicate OrderSound(b: Buffers) {
    && Distinct(b.order)
    && (forall table :: table in b.order <==> table in b.rows)
  }

  ghost predicate Conserved(s: State, table: string) {
    AcceptedFor(s.log.accepted, table) == RowsOf(s.log.extracted, table) + BufferOf(s.buffers, table)
  }

  ghost predicate Inv(c: Config, s: State) {
    && OrderSound(s.buffers)
    && (forall table :: Conserved(s, table))
    && (forall table :: |BufferOf(s.buffers, table)| <= c.maxBuffer)
    && (forall batch <- s.log.extracted :: batch.rows != [] && |batch.rows| <= c.batchSize)
    && |s.log.fates| <= |s.log.extracted|
    && (s.phase.AtHead? || s.phase.Waiting? || s.phase.Stopped? ==> Idle(s))
    && (s.log.cutAt.Some? ==> s.phase.Cancelled? && |s.log.fates| < |s.log.extracted|
                              && s.log.cutAt.value <= |s.log.extracted[|s.log.fates|].rows|)
  }

  /** The rows offered of a batch that was cut while it was being offered. */
  function CutRows(log: Log): seq<Item> {
    if log.cutAt.Some? && |log.fates| < |log.extracted| && log.cutAt.value <= |log.extracted[|log.fates|].rows|
    then Items(log.extracted[|log.fates|], log.cutAt.value) else []
  }

  /** The counters and the dead-letter queue tell what became of each processed batch. */
  ghost predicate Books(c: Config, log: Log, inserted: nat, failures: nat)
    requires |log.fates| <= |log.extracted|
  {
    && inserted == InsertedRows(log.extracted, log.fates)
    && failures == FailedBatches(log.fates) + (if log.cutAt.Some? then 1 else 0)
    && OfferedItems(log.offered) == if c.publisher then FailedRows(log.extracted, log.fates) + CutRows(log) else []
  }

  ghost predicate Accounted(c: Config, s: State)
    requires |s.log.fates| <= |s.log.extracted|
  {
    Books(c, s.log, s.inserted, s.failures)
  }

  // ---------- Extraction ----------

  lemma {:induction false} RowsOfAppend(xs: seq<Batch>, ys: seq<Batch>, table: string)
    ensures RowsOf(xs + ys, table) == RowsOf(xs, table) + RowsOf(ys, table)
  {
    if ys == [] {
      assert xs + ys == xs;
    } else {
      assert (xs + ys)[..|xs + ys| - 1] == xs + ys[..|ys| - 1];
      RowsOfAppend(xs, ys[..|ys| - 1], table);
    }
  }

  lemma LastTable(b: Buffers, order: seq<string>, size: nat, table: string)
    requires order != []
    ensures var n := |order| - 1;
            var before, all := RowsOf(Batches(b, order[..n], size), table), RowsOf(Batches(b, order, size), table);
            all == if order[n] == table then before + Head(BufferOf(b, table), size) else before
  {
    var n := |order| - 1;
    var rows := BufferOf(b, order[n]);
    var last := if rows == [] then [] else [Batch(order[n], Head(rows, size))];
    RowsOfAppend(Batches(b, order[..n], size), last, table);
    OneBatch(order[n], rows, size, table);
  }

  predicate Distinct(order: seq<string>) {
    forall i, j :: 0 <= i < j < |order| ==> order[i] != order[j]
  }

  lemma {:induction false} NoneTaken(b: Buffers, order: seq<string>, size: nat, table: string)
    requires table !in order
    ensures RowsOf(Batches(b, order, size), table) == []
  {
    if order != [] {
      NoneTaken(b, order[..|order| - 1], size, table);
      LastTable(b, order, size, table);
    }
  }

  lemma {:induction false} HeadTaken(b: Buffers, order: seq<string>, size: nat, table: string)
    requires Distinct(order) && table in order
    ensures RowsOf(Batches(b, order, size), table) == Head(BufferOf(b, table), size)
  {
    var n := |order| - 1;
    OnceInOrder(order, table);
    LastTable(b, order, size, table);
    if order[n] == table { NoneTaken(b, order[..n], size, table); } else { HeadTaken(b, order[..n], size, table); }
  }

  /** A round takes the front of every buffer, once. */
  lemma {:induction false} BatchesTakeHeads(b: Buffers, order: seq<string>, size: nat, table: string)
    requires Distinct(order)
    ensures RowsOf(Batches(b, order, size), table) == if table in order then Head(BufferOf(b, table), size) else []
  {
    if table in order { HeadTaken(b, order, size, table); } else { NoneTaken(b, order, size, table); }
  }

  lemma OnceInOrder(order: seq<string>, table: string)
    requires order != [] && Distinct(order)
    ensures var n := |order| - 1;
            && Distinct(order[..n]) && order[n] !in order[..n]
            && (table in order <==> table in order[..n] || table == order[n])
  {
  }

  lemma OneBatch(owner: string, rows: seq<Row>, size: nat, table: string)
    ensures RowsOf(if rows == [] then [] else [Batch(owner, Head(rows, size))], table) ==
            if owner == table then Head(rows, size) else []
  {
  }

  lemma {:induction false} BatchesSized(b: Buffers, order: seq<string>, size: nat)
    requires 0 < size
    ensures forall batch <- Batches(b, order, size) :: batch.rows != [] && |batch.rows| <= size
  {
    if order != [] { BatchesSized(b, order[..|order| - 1], size); }
  }

  lemma TakeConserves(c: Config, s: State, table: string)
    requires OrderSound(s.buffers) && Conserved(s, table)
    ensures Conserved(TakeBatches(c, s), table)
    ensures BufferOf(TakeBatches(c, s).buffers, table) == Tail(BufferOf(s.buffers, table), c.batchSize)
  {
    var rows := BufferOf(s.buffers, table);
    var batches := Batches(s.buffers, s.buffers.order, c.batchSize);
    RestOf(s.buffers, c.batchSize, table);
    BatchesTakeHeads(s.buffers, s.buffers.order, c.batchSize, table);
    RowsOfAppend(s.log.extracted, batches, table);
    HeadTail(rows, c.batchSize);
    Regroup(RowsOf(s.log.extracted, table), Head(rows, c.batchSize), Tail(rows, c.batchSize));
  }

  lemma Regroup(xs: seq<Row>, ys: seq<Row>, zs: seq<Row>)
    ensures xs + (ys + zs) == xs + ys + zs
  {
  }

  lemma RestOf(b: Buffers, size: nat, table: string)
    requires OrderSound(b)
    ensures BufferOf(Rest(b, size), table) == Tail(BufferOf(b, table), size)
    ensures table !in b.order ==> BufferOf(b, table) == []
  {
  }

  lemma HeadTail(rows: seq<Row>, size: nat)
    ensures rows == Head(rows, size) + Tail(rows, size)
  {
  }

  lemma TakeKeeps(c: Config, s: State)
    requires Inv(c, s) && 0 < c.batchSize
    ensures var s' := TakeBatches(c, s);
            && OrderSound(s'.buffers)
            && (forall table :: Conserved(s', table))
            && (forall table :: BufferOf(s'.buffers, table) == Tail(BufferOf(s.buffers, table), c.batchSize))
            && (forall batch <- s'.log.extracted :: batch.rows != [] && |batch.rows| <= c.batchSize)
  {
    BatchesSized(s.buffers, s.buffers.order, c.batchSize);
    forall table ensures Conserved(TakeBatches(c, s), table) { assert Conserved(s, table); TakeConserves(c, s, table); }
    forall table ensures BufferOf(TakeBatches(c, s).buffers, table) == Tail(BufferOf(s.buffers, table), c.batchSize) {
      assert Conserved(s, table); TakeConserves(c, s, table);
    }
  }

  lemma SameRows(s: State, s': State)
    requires s'.buffers == s.buffers && s'.log.accepted == s.log.accepted && s'.log.extracted == s.log.extracted
    requires forall table :: Conserved(s, table)
    ensures forall table :: Conserved(s', table)
  {
    forall table ensures Conserved(s', table) { assert Conserved(s, table); }
  }

  // ---------- Steps ----------

  lemma AddKeeps(c: Config, s: State, item: Item)
    requires Inv(c, s)
    ensures Inv(c, Next(c, s, Add(item)))
  {
    var s' := Next(c, s, Add(item));
    assert OrderSound(s'.buffers);
    forall table ensures Conserved(s', table) && |BufferOf(s'.buffers, table)| <= c.maxBuffer {
      assert Conserved(s, table);
      if Accepts(c, s.buffers, item.table) {
        assert s'.log.accepted[..|s.log.accepted|] == s.log.accepted;
      }
    }
  }

  lemma StepKeeps(c: Config, s: State, e: Event)
    requires Inv(c, s) && 0 < c.batchSize
    ensures Inv(c, Next(c, s, e))
  {
    match e {
      case Add(item) => AddKeeps(c, s, item);
      case Check => if s.phase.AtHead? && s.closed { TakeKeeps(c, s); SameRows(TakeBatches(c, s), Next(c, s, e)); }
          else { SameRows(s, Next(c, s, e)); }
      case Extract => if s.phase.Waiting? { TakeKeeps(c, s); SameRows(TakeBatches(c, s), Next(c, s, e)); }
      case _ => SameRows(s, Next(c, s, e));
    }
  }

  // ---------- Accounts ----------

  lemma {:induction false} InsertedStable(xs: seq<Batch>, ys: seq<Batch>, fates: seq<Fate>)
    requires |fates| <= |xs|
    ensures InsertedRows(xs + ys, fates) == InsertedRows(xs, fates)
    ensures FailedRows(xs + ys, fates) == FailedRows(xs, fates)
  {
    if fates != [] { InsertedStable(xs, ys, fates[..|fates| - 1]); }
  }

  lemma {:induction false} OffersAppend(xs: seq<Offer>, ys: seq<Offer>)
    ensures OfferedItems(xs + ys) == OfferedItems(xs) + OfferedItems(ys)
  {
    if ys == [] {
      assert xs + ys == xs;
    } else {
      assert (xs + ys)[..|xs + ys| - 1] == xs + ys[..|ys| - 1];
      OffersAppend(xs, ys[..|ys| - 1]);
    }
  }

  lemma {:induction false} EveryRowOffered(batch: Batch, delivered: seq<bool>, n: nat)
    requires n <= |batch.rows|
    ensures OfferedItems(Offers(batch, delivered, n)) == Items(batch, n)
  {
    if n > 0 {
      EveryRowOffered(batch, delivered, n - 1);
      OffersAppend(Offers(batch, delivered, n - 1),
                   [Offer(batch.table, batch.rows[n - 1], n - 1 < |delivered| && delivered[n - 1])]);
    }
  }

  /** Each offer is of its row, and says whether that one was delivered. */
  lemma {:induction false} EachOffer(batch: Batch, delivered: seq<bool>, n: nat)
    requires n <= |batch.rows|
    ensures |Offers(batch, delivered, n)| == n
    ensures forall i | 0 <= i < n ::
              Offers(batch, delivered, n)[i] == Offer(batch.table, batch.rows[i], i < |delivered| && delivered[i])
  {
    if n > 0 { EachOffer(batch, delivered, n - 1); }
  }

  lemma ProcessAccounts(c: Config, s: State, attempts: Attempts, delivered: seq<bool>)
    requires |s.log.fates| < |s.log.extracted| && Accounted(c, s) && s.log.cutAt.None?
    ensures Accounted(c, ProcessNext(c, s, attempts, delivered))
  {
    if Succeeds(attempts) {
      FateAdded(s.log.extracted, s.log.fates, Inserted);
    } else {
      FailureAccounts(c, s, attempts, delivered);
    }
  }

  lemma FailureAccounts(c: Config, s: State, attempts: Attempts, delivered: seq<bool>)
    requires |s.log.fates| < |s.log.extracted| && Accounted(c, s) && s.log.cutAt.None? && !Succeeds(attempts)
    ensures Accounted(c, ProcessNext(c, s, attempts, delivered))
  {
    FateAdded(s.log.extracted, s.log.fates, Failed);
    if c.publisher { FailureOffered(s.log, delivered); }
  }

  lemma FailureOffered(log: Log, delivered: seq<bool>)
    requires |log.fates| < |log.extracted| && OfferedItems(log.offered) == FailedRows(log.extracted, log.fates)
    ensures var batch := log.extracted[|log.fates|];
            OfferedItems(log.offered + Offers(batch, delivered, |batch.rows|)) ==
            FailedRows(log.extracted, log.fates + [Failed])
  {
    var batch := log.extracted[|log.fates|];
    FateAdded(log.extracted, log.fates, Failed);
    EveryRowOffered(batch, delivered, |batch.rows|);
    OffersAppend(log.offered, Offers(batch, delivered, |batch.rows|));
  }

  lemma CutBooks(c: Config, log: Log, inserted: nat, failures: nat, delivered: seq<bool>, n: nat)
    requires |log.fates| < |log.extracted| && n <= |log.extracted[|log.fates|].rows| && log.cutAt.None?
    requires Books(c, log, inserted, failures)
    ensures var offers := if c.publisher then Offers(log.extracted[|log.fates|], delivered, n) else [];
            Books(c, log.(cutAt := Some(n), offered := log.offered + offers), inserted, failures + 1)
  {
    var failed := FailedRows(log.extracted, log.fates);
    assert CutRows(log) == [] && failed + [] == failed && log.offered + [] == log.offered;
    if c.publisher { CutOffered(log, delivered, n); }
  }

  lemma CutOffered(log: Log, delivered: seq<bool>, n: nat)
    requires |log.fates| < |log.extracted| && n <= |log.extracted[|log.fates|].rows|
    ensures OfferedItems(log.offered + Offers(log.extracted[|log.fates|], delivered, n)) ==
            OfferedItems(log.offered) + Items(log.extracted[|log.fates|], n)
  {
    EveryRowOffered(log.extracted[|log.fates|], delivered, n);
    OffersAppend(log.offered, Offers(log.extracted[|log.fates|], delivered, n));
  }

  lemma FateAdded(batches: seq<Batch>, fates: seq<Fate>, fate: Fate)
    requires |fates| < |batches|
    ensures var batch := batches[|fates|];
            && InsertedRows(batches, fates + [fate]) ==
                InsertedRows(batches, fates) + (if fate.Inserted? then |batch.rows| else 0)
            && FailedBatches(fates + [fate]) == FailedBatches(fates) + (if fate.Failed? then 1 else 0)
            && FailedRows(batches, fates + [fate]) ==
                 FailedRows(batches, fates) + (if fate.Failed? then Items(batch, |batch.rows|) else [])
  {
  }

  /** What is extracted later leaves the books alone. */
  lemma ExtractBooks(c: Config, log: Log, inserted: nat, failures: nat, more: seq<Batch>, accepted: seq<Item>)
    requires |log.fates| <= |log.extracted| && log.cutAt.None? && Books(c, log, inserted, failures)
    ensures Books(c, log.(extracted := log.extracted + more, accepted := accepted), inserted, failures)
  {
    InsertedStable(log.extracted, more, log.fates);
  }

  lemma AcceptBooks(c: Config, log: Log, inserted: nat, failures: nat, accepted: seq<Item>)
    requires |log.fates| <= |log.extracted| && Books(c, log, inserted, failures)
    ensures Books(c, log.(accepted := accepted), inserted, failures)
  {
  }

  lemma StepAccounts(c: Config, s: State, e: Event)
    requires Inv(c, s) && Accounted(c, s) && 0 < c.batchSize
    requires |Next(c, s, e).log.fates| <= |Next(c, s, e).log.extracted|
    ensures Accounted(c, Next(c, s, e))
  {
    match e {
      case Process(attempts, delivered) =>
        if (s.phase.Inserting? || s.phase.Draining?) && |s.log.fates| < |s.log.extracted| {
          ProcessAccounts(c, s, attempts, delivered);
        }
      case CancelOffering(delivered, n) =>
        if CutsOffering(s, n) { CutBooks(c, s.log, s.inserted, s.failures, delivered, n); }
      case Add(item) => AcceptBooks(c, s.log, s.inserted, s.failures, s.log.accepted + [item]);
      case Close =>
      case Cancel =>
      case _ =>
        if s.log.cutAt.None? {
          var batches := Batches(s.buffers, s.buffers.order, c.batchSize);
          ExtractBooks(c, s.log, s.inserted, s.failures, batches, s.log.accepted);
        }
    }
  }

  lemma {:induction false} RunKeeps(c: Config, s: State, es: seq<Event>)
    requires 0 < c.batchSize && Inv(c, s) && Accounted(c, s)
    ensures Inv(c, Run(c, s, es)) && Accounted(c, Run(c, s, es))
  {
    if es != [] {
      var before := es[..|es| - 1];
      RunKeeps(c, s, before);
      StepKeeps(c, Run(c, s, before), es[|es| - 1]);
      StepAccounts(c, Run(c, s, before), es[|es| - 1]);
    }
  }

  // ---------- The laws ----------

  /** In every reachable state and for every table: the accepted rows, in order, are those of
      the processed batches, then of the extracted ones still to process, then the buffer. */
  lemma NothingLost(c: Config, es: seq<Event>, table: string)
    requires 0 < c.batchSize
    ensures var s := Run(c, Start, es);
            && |s.log.fates| <= |s.log.extracted|
            && AcceptedFor(s.log.accepted, table) ==
                 RowsOf(s.log.extracted[..|s.log.fates|], table) + RowsOf(s.log.extracted[|s.log.fates|..], table) +
                     BufferOf(s.buffers, table)
            && |BufferOf(s.buffers, table)| <= c.maxBuffer
            && (forall batch <- s.log.extracted :: 0 < |batch.rows| <= c.batchSize)
            && Accounted(c, s)
  {
    RunKeeps(c, Start, es);
    var s := Run(c, Start, es);
    assert Conserved(s, table);
    RowsOfSplit(s.log.extracted, |s.log.fates|, table);
  }

  lemma RowsOfSplit(batches: seq<Batch>, n: nat, table: string)
    requires n <= |batches|
    ensures RowsOf(batches, table) == RowsOf(batches[..n], table) + RowsOf(batches[n..], table)
  {
    RowsOfAppend(batches[..n], batches[n..], table);
    assert batches == batches[..n] + batches[n..];
  }

  // ---------- Shutting down ----------

  predicate Closing(s: State) {
    s.phase.Draining? || s.phase.Stopped? || s.phase.Cancelled?
  }

  lemma {:induction false} LastFlushStands(c: Config, s: State, es: seq<Event>)
    requires Closing(s)
    ensures Closing(Run(c, s, es)) && Run(c, s, es).log.extracted == s.log.extracted
    ensures s.log.accepted <= Run(c, s, es).log.accepted
  {
    if es != [] { LastFlushStands(c, s, es[..|es| - 1]); }
  }

  lemma {:induction false} AcceptedAppend(xs: seq<Item>, ys: seq<Item>, table: string)
    ensures AcceptedFor(xs + ys, table) == AcceptedFor(xs, table) + AcceptedFor(ys, table)
  {
    if ys == [] {
      assert xs + ys == xs;
    } else {
      assert (xs + ys)[..|xs + ys| - 1] == xs + ys[..|ys| - 1];
      AcceptedAppend(xs, ys[..|ys| - 1], table);
    }
  }

  /** The rows accepted between two states. */
  function AcceptedSince(s: State, t: State): seq<Item>
    requires s.log.accepted <= t.log.accepted
  {
    t.log.accepted[|s.log.accepted|..]
  }

  lemma BufferGrows(s: State, t: State, table: string)
    requires Conserved(s, table) && Conserved(t, table)
    requires t.log.extracted == s.log.extracted && s.log.accepted <= t.log.accepted
    ensures BufferOf(t.buffers, table) == BufferOf(s.buffers, table) + AcceptedFor(AcceptedSince(s, t), table)
  {
    assert t.log.accepted == s.log.accepted + AcceptedSince(s, t);
    AcceptedAppend(s.log.accepted, AcceptedSince(s, t), table);
    Balance(AcceptedFor(s.log.accepted, table), AcceptedFor(t.log.accepted, table), RowsOf(s.log.extracted, table),
            BufferOf(s.buffers, table), BufferOf(t.buffers, table), AcceptedFor(AcceptedSince(s, t), table));
  }

  lemma Balance(all: seq<Row>, all': seq<Row>, taken: seq<Row>, left: seq<Row>, left': seq<Row>, since: seq<Row>)
    requires all == taken + left && all' == taken + left' && all' == all + since
    ensures left' == left + since
  {
    assert left' == all'[|taken|..];
    assert left + since == (taken + left + since)[|taken|..];
  }

  /** From the last check of the loop on, rows arriving or not, if the stop is not cut short:
      every extracted batch is processed, and what stays behind of a table is exactly what
      exceeded one batch at the check, followed by the rows accepted since. */
  lemma StopLeavesExactly(c: Config, before: seq<Event>, es: seq<Event>, table: string)
    requires 0 < c.batchSize
    requires var s := Run(c, Start, before);
             s.phase.AtHead? && s.closed && Run(c, Next(c, s, Check), es).phase.Stopped?
    ensures var s := Run(c, Start, before);
            var end := Run(c, Next(c, s, Check), es);
            && Idle(end) && s.log.accepted <= end.log.accepted
            && var left := Tail(BufferOf(s.buffers, table), c.batchSize) + AcceptedFor(AcceptedSince(s, end), table);
            && BufferOf(end.buffers, table) == left
            && AcceptedFor(end.log.accepted, table) == RowsOf(end.log.extracted, table) + left
            && (AcceptedFor(end.log.accepted, table) == RowsOf(end.log.extracted, table) <==>
                |BufferOf(s.buffers, table)| <= c.batchSize && AcceptedFor(AcceptedSince(s, end), table) == [])
  {
    var s := Run(c, Start, before);
    RunKeeps(c, Start, before);
    LastFlushLeaves(c, s, es, table);
    var end := Run(c, Next(c, s, Check), es);
    NothingLeft(RowsOf(end.log.extracted, table), BufferOf(end.buffers, table));
  }

  lemma NothingLeft(taken: seq<Row>, left: seq<Row>)
    ensures taken + left == taken <==> left == []
  {
  }

  lemma LastFlushLeaves(c: Config, s: State, es: seq<Event>, table: string)
    requires 0 < c.batchSize && Inv(c, s) && Accounted(c, s) && s.phase.AtHead? && s.closed
    ensures var end := Run(c, Next(c, s, Check), es);
            && Inv(c, end) && Conserved(end, table) && s.log.accepted <= end.log.accepted
            && BufferOf(end.buffers, table) ==
                Tail(BufferOf(s.buffers, table), c.batchSize) + AcceptedFor(AcceptedSince(s, end), table)
  {
    var first := Next(c, s, Check);
    StepKeeps(c, s, Check);
    StepAccounts(c, s, Check);
    RunKeeps(c, first, es);
    LastFlushStands(c, first, es);
    TakeKeeps(c, s);
    var end := Run(c, first, es);
    assert Conserved(first, table) && Conserved(end, table);
    BufferGrows(first, end, table);
  }

  lemma {:induction false} CancelStands(c: Config, s: State, es: seq<Event>)
    requires s.phase.Cancelled?
    ensures Run(c, s, es).phase.Cancelled? && Run(c, s, es).log.fates == s.log.fates
        && Run(c, s, es).log.extracted == s.log.extracted
    ensures Run(c, s, es).log.offered == s.log.offered && Run(c, s, es).inserted == s.inserted
  {
    if es != [] { CancelStands(c, s, es[..|es| - 1]); }
  }

  /** When the stop times out, the extracted batches not yet processed are lost for good:
      neither counted as inserted nor offered, whatever follows. */
  lemma CancelLoses(c: Config, s: State, es: seq<Event>)
    requires s.closed && !s.phase.Stopped? && |s.log.fates| <= |s.log.extracted|
    ensures var end := Run(c, Next(c, s, Cancel), es);
            && |end.log.fates| <= |end.log.extracted|
            && end.log.extracted[|end.log.fates|..] == s.log.extracted[|s.log.fates|..]
            && end.inserted == s.inserted && end.log.offered == s.log.offered
  {
    CancelStands(c, Next(c, s, Cancel), es);
  }

  /** When it does so while a failed batch is being offered, only the rows offered by then
      are in the dead-letter queue; the others, and the batches after them, are lost. */
  lemma CancelLosesRest(c: Config, s: State, delivered: seq<bool>, n: nat, es: seq<Event>)
    requires CutsOffering(s, n)
    ensures var end := Run(c, Next(c, s, CancelOffering(delivered, n)), es);
            var batch := s.log.extracted[|s.log.fates|];
            && end.inserted == s.inserted && end.log.fates == s.log.fates && end.log.extracted == s.log.extracted
            && OfferedItems(end.log.offered) ==
                 OfferedItems(s.log.offered) + (if c.publisher then Items(batch, n) else [])
  {
    CancelStands(c, Next(c, s, CancelOffering(delivered, n)), es);
    var batch := s.log.extracted[|s.log.fates|];
    EveryRowOffered(batch, delivered, n);
    OffersAppend(s.log.offered, Offers(batch, delivered, n));
    assert s.log.offered + [] == s.log.offered;
  }
}
