/** The loader as an object: buffers are appended to and cut in place. Its ghost fields keep
    the phase of the flush loop and the log, so that its view is a state of the machine. */
module LoaderService {
  import opened Options
  import opened Loader
  import opened LoaderProofs

  ghost predicate NoAdds(es: seq<Event>) {
    forall e <- es :: !e.Add?
  }

  ghost function Cut(rows: map<string, seq<Row>>, order: seq<string>, size: nat): map<string, seq<Row>> {
    map table <- rows :: if table in order then Tail(rows[table], size) else rows[table]
  }

  lemma CutMore(b: Buffers, n: nat, size: nat)
    requires OrderSound(b) && n < |b.order|
    ensures Cut(b.rows, b.order[..n + 1], size) ==
        Cut(b.rows, b.order[..n], size)[b.order[n] := Tail(b.rows[b.order[n]], size)]
    ensures Cut(b.rows, b.order[..n], size)[b.order[n]] == BufferOf(b, b.order[n])
    ensures BufferOf(b, b.order[n]) == [] ==> Cut(b.rows, b.order[..n + 1], size) == Cut(b.rows, b.order[..n], size)
    ensures b.order[n] in Cut(b.rows, b.order[..n], size)
  {
    assert b.order[n] !in b.order[..n];
    assert forall table :: table in b.order[..n + 1] <==> table in b.order[..n] || table == b.order[n];
  }

  lemma CutAll(b: Buffers, size: nat)
    requires OrderSound(b)
    ensures Cut(b.rows, b.order[..|b.order|], size) == Rest(b, size).rows
    ensures b.order[..|b.order|] == b.order && Cut(b.rows, b.order[..0], size) == b.rows
  {
  }

  lemma BatchesMore(b: Buffers, n: nat, size: nat)
    requires n < |b.order|
    ensures var rows := BufferOf(b, b.order[n]);
            Batches(b, b.order[..n + 1], size) ==
            Batches(b, b.order[..n], size) + (if rows == [] then [] else [Batch(b.order[n], Head(rows, size))])
  {
    assert b.order[..n + 1][..n] == b.order[..n];
  }

  lemma RunMore(c: Config, s: State, es: seq<Event>, e: Event)
    ensures Run(c, s, es + [e]) == Next(c, Run(c, s, es), e)
  {
    assert (es + [e])[..|es|] == es;
  }

  /** Each of these batches, in order, was inserted exactly if one of its tries succeeded. */
  ghost predicate FatesFollow(before: seq<Fate>, after: seq<Fate>, attempts: seq<Attempts>, n: nat)
    requires n <= |attempts|
  {
    && before <= after && |after| == |before| + n
    && forall i | 0 <= i < n ::
        var a := attempts[i]; after[|before| + i] == if a.first || a.second || a.third then Inserted else Failed
  }

  lemma FatesMore(before: seq<Fate>, after: seq<Fate>, attempts: seq<Attempts>, n: nat)
    requires n < |attempts| && FatesFollow(before, after, attempts, n)
    ensures FatesFollow(before, after + [if Succeeds(attempts[n]) then Inserted else Failed], attempts, n + 1)
  {
    assert Outcome(attempts[n], 0) == attempts[n].first && Outcome(attempts[n], 1) == attempts[n].second;
    assert Outcome(attempts[n], 2) == attempts[n].third;
  }

  class ClickHouseLoader {
    const config: Config
    var buffers: Buffers
    var closed: bool
    var insertedRows: nat
    var failedInserts: nat
    ghost var phase: Phase
    ghost var log: Log

    ghost function View(): State
      reads this
    {
      State(buffers, phase, closed, log, insertedRows, failedInserts)
    }

    /** One batch of every table that had rows was extracted and processed, and what exceeded
        it stays. */
    ghost predicate Flushed(was: Buffers, before: Log, attempts: seq<Attempts>)
      reads this
    {
      var batches := Batches(was, was.order, config.batchSize);
      && buffers == Rest(was, config.batchSize)
      && log.extracted == before.extracted + batches && |log.fates| == |log.extracted|
      && |attempts| == |batches| && FatesFollow(before.fates, log.fates, attempts, |batches|)
    }

    constructor (config: Config)
      ensures this.config == config && View() == Start
    {
      this.config := config;
      buffers := Buffers([], map[]);
      closed, insertedRows, failedInserts := false, 0, 0;
      phase, log := AtHead, Log([], [], [], [], None);
    }

    /** Refuses a row when the buffer of its table is full. */
    method Add(item: Item) returns (ok: bool)
      modifies this
      ensures ok <==> |BufferOf(old(buffers), item.table)| < config.maxBuffer
      ensures BufferOf(buffers, item.table) == BufferOf(old(buffers), item.table) + if ok then [item.row] else []
      ensures forall table | table != item.table :: BufferOf(buffers, table) == BufferOf(old(buffers), table)
      ensures View() == Next(config, old(View()), Loader.Add(item))
    {
      buffers := Touch(buffers, item.table);
      var buffer := buffers.rows[item.table];
      if |buffer| >= config.maxBuffer {
        return false;
      }
      buffers := buffers.(rows := buffers.rows[item.table := buffer + [item.row]]);
      log := log.(accepted := log.accepted + [item]);
      return true;
    }

    method Stop()
      modifies this`closed
      ensures View() == Next(config, old(View()), Close)
    {
      closed := true;
    }

    /** Cuts the front off every buffer that has rows. */
    method CutBuffers() returns (batches: seq<Batch>)
      requires OrderSound(buffers)
      modifies this`buffers
      ensures batches == Batches(old(buffers), old(buffers).order, config.batchSize)
      ensures buffers == Rest(old(buffers), config.batchSize)
    {
      var before := buffers;
      batches := [];
      CutAll(before, config.batchSize);
      for n := 0 to |before.order|
        invariant batches == Batches(before, before.order[..n], config.batchSize)
        invariant buffers.order == before.order && buffers.rows == Cut(before.rows, before.order[..n], config.batchSize)
      {
        var table := before.order[n];
        CutMore(before, n, config.batchSize);
        BatchesMore(before, n, config.batchSize);
        var buffer := buffers.rows[table];
        if buffer != [] {
          batches := batches + [Batch(table, Head(buffer, config.batchSize))];
          buffers := buffers.(rows := buffers.rows[table := Tail(buffer, config.batchSize)]);
        }
      }
    }

    method GetBatches() returns (batches: seq<Batch>)
      requires OrderSound(buffers)
      modifies this`buffers, this`log
      ensures batches == Batches(old(buffers), old(buffers).order, config.batchSize)
      ensures View() == TakeBatches(config, old(View()))
    {
      batches := CutBuffers();
      log := log.(extracted := log.extracted + batches);
    }

    /** One insert, retried. */
    method Insert(attempts: Attempts) returns (ok: bool, tries: nat)
      ensures ok == Succeeds(attempts)
      ensures 0 < tries <= MAX_ATTEMPTS && (!ok ==> tries == MAX_ATTEMPTS)
      ensures forall k :: 0 <= k < tries - 1 ==> !Outcome(attempts, k)
      ensures ok ==> Outcome(attempts, tries - 1)
    {
      tries := 0;
      ok := false;
      while !ok && tries < MAX_ATTEMPTS
        invariant tries <= MAX_ATTEMPTS && (ok ==> 0 < tries && Outcome(attempts, tries - 1))
        invariant forall k :: 0 <= k < (if ok then tries - 1 else tries) ==> !Outcome(attempts, k)
        decreases MAX_ATTEMPTS - tries, !ok
      {
        ok := Outcome(attempts, tries);
        tries := tries + 1;
      }
    }

    /** Offers every row of a batch; a failed delivery does not stop the others. */
    method SendToDlq(batch: Batch, delivered: seq<bool>) returns (offers: seq<Offer>)
      ensures offers == if config.publisher then Offers(batch, delivered, |batch.rows|) else []
    {
      offers := [];
      if !config.publisher {
        return;
      }
      for n := 0 to |batch.rows|
        invariant offers == Offers(batch, delivered, n)
      {
        offers := offers + [Offer(batch.table, batch.rows[n], n < |delivered| && delivered[n])];
      }
    }

    method InsertWithRetry(batch: Batch, attempts: Attempts, delivered: seq<bool>)
      requires |log.fates| < |log.extracted| && log.extracted[|log.fates|] == batch
      modifies this`insertedRows, this`failedInserts, this`log
      ensures View() == ProcessNext(config, old(View()), attempts, delivered)
      ensures log.fates == old(log).fates + [if Succeeds(attempts) then Inserted else Failed]
    {
      var ok, _ := Insert(attempts);
      if ok {
        insertedRows := insertedRows + |batch.rows|;
        log := log.(fates := log.fates + [Inserted]);
      } else {
        failedInserts := failedInserts + 1;
        var offers := SendToDlq(batch, delivered);
        log := log.(fates := log.fates + [Failed], offered := log.offered + offers);
      }
    }

    /** One round of the loop, when no row arrives after the wait: one batch of each table. */
    method FlushRound(attempts: seq<Attempts>, delivered: seq<seq<bool>>) returns (ghost es: seq<Event>)
      requires Inv(config, View()) && phase.AtHead? && !closed && 0 < config.batchSize
      requires |attempts| == |delivered| == |Batches(buffers, buffers.order, config.batchSize)|
      modifies this
      ensures NoAdds(es) && View() == Run(config, Next(config, Next(config, old(View()), Check), Extract), es)
      ensures phase.AtHead? && !closed && Flushed(old(buffers), old(log), attempts)
    {
      ghost var before := Next(config, Next(config, View(), Check), Extract);
      var batches := GetBatches();
      phase := Inserting;
      es := Drain(batches, attempts, delivered, before);
      assert log.extracted == old(log).extracted + batches && before.log.fates == old(log).fates;
    }

    /** The last flush, when no row arrives during it: one batch of each table. */
    method FlushRemaining(attempts: seq<Attempts>, delivered: seq<seq<bool>>) returns (ghost es: seq<Event>)
      requires Inv(config, View()) && phase.AtHead? && closed && 0 < config.batchSize
      requires |attempts| == |delivered| == |Batches(buffers, buffers.order, config.batchSize)|
      modifies this
      ensures NoAdds(es) && View() == Run(config, Next(config, old(View()), Check), es)
      ensures phase.Stopped? && closed && Flushed(old(buffers), old(log), attempts)
    {
      ghost var before := Next(config, View(), Check);
      var batches := GetBatches();
      phase := Draining;
      es := Drain(batches, attempts, delivered, before);
      assert log.extracted == old(log).extracted + batches && before.log.fates == old(log).fates;
    }

    /** Process the batches of a round or of the last flush. */
    method Drain(batches: seq<Batch>, attempts: seq<Attempts>, delivered: seq<seq<bool>>, ghost before: State)
      returns (ghost es: seq<Event>)
      requires View() == before && (phase.Draining? || phase.Inserting?) && |attempts| == |delivered| == |batches|
      requires |log.extracted| == |log.fates| + |batches| && log.extracted[|log.fates|..] == batches
      modifies this`insertedRows, this`failedInserts, this`log, this`phase
      ensures NoAdds(es) && View() == Run(config, before, es)
      ensures phase == if before.phase.Draining? then Stopped else AtHead
      ensures log.extracted == before.log.extracted
      ensures FatesFollow(before.log.fates, log.fates, attempts, |batches|)
    {
      es := [];
      for n := 0 to |batches|
        invariant View() == Run(config, before, es) && NoAdds(es) && phase == before.phase
        invariant |log.fates| == |before.log.fates| + n && log.extracted == before.log.extracted
        invariant FatesFollow(before.log.fates, log.fates, attempts, n)
      {
        FatesMore(before.log.fates, log.fates, attempts, n);
        InsertOne(batches[n], attempts[n], delivered[n], before, es);
        es := es + [Process(attempts[n], delivered[n])];
      }
      ghost var last := Process(Attempts(true, true, true), []);
      RunMore(config, before, es, last);
      es := es + [last];
      phase := if phase.Draining? then Stopped else AtHead;
    }

    /** The next batch of the last flush. */
    method InsertOne(batch: Batch, attempts: Attempts, delivered: seq<bool>, ghost before: State, ghost es: seq<Event>)
      requires View() == Run(config, before, es) && (phase.Draining? || phase.Inserting?)
      requires |log.fates| < |log.extracted| && log.extracted[|log.fates|] == batch
      modifies this`insertedRows, this`failedInserts, this`log
      ensures View() == Run(config, before, es + [Process(attempts, delivered)])
      ensures log.fates == old(log).fates + [if Succeeds(attempts) then Inserted else Failed]
      ensures log.extracted == old(log).extracted
    {
      RunMore(config, before, es, Process(attempts, delivered));
      InsertWithRetry(batch, attempts, delivered);
    }

    /** Stopping between two rounds of the loop, when no row arrives any more. */
    method Shutdown(attempts: seq<Attempts>, delivered: seq<seq<bool>>) returns (ghost es: seq<Event>)
      requires Inv(config, View()) && phase.AtHead? && 0 < config.batchSize
      requires |attempts| == |delivered| == |Batches(buffers, buffers.order, config.batchSize)|
      modifies this
      ensures NoAdds(es) && phase.Stopped? && closed && Flushed(old(buffers), old(log), attempts)
      ensures View() == Run(config, Next(config, Next(config, old(View()), Close), Check), es)
    {
      StepKeeps(config, View(), Close);
      Stop();
      es := FlushRemaining(attempts, delivered);
    }
  }
}
