/** The orchestrator's cycle in its own order of queries, batches and checkpoint, proved to
    be a run of the ETL system with a transaction before each of its steps. */
module Orchestrator {
  import opened Options
  import opened Keyset
  import opened Etl
  import opened EtlCycles
  import EtlConvergence

  lemma LeastIsUnique(rows: set<Stamp>, x: Stamp)
    requires x in rows && forall y <- rows :: AtMost(x, y)
    ensures x == Least(rows)
  {
  }

  method FindLeast(rows: set<Stamp>) returns (x: Stamp)
    requires rows != {}
    ensures x == Least(rows)
  {
    x :| x in rows;
    var rest := rows - {x};
    while rest != {}
      invariant x in rows && rest <= rows
      invariant forall y <- rows :: y !in rest ==> AtMost(x, y)
    {
      var y :| y in rest;
      if Less(y, x) {
        x := y;
      }
      rest := rest - {y};
    }
    LeastIsUnique(rows, x);
  }

  /** The first `limit` rows in keyset order. */
  method FetchFirst(rows: set<Stamp>, limit: nat) returns (chunk: seq<Stamp>)
    ensures chunk == Chunk(rows, limit)
  {
    chunk := [];
    var rest := rows;
    while |chunk| < limit && rest != {}
      invariant |chunk| <= limit
      invariant Chunk(rows, limit) == chunk + Chunk(rest, limit - |chunk|)
    {
      var x := FindLeast(rest);
      chunk := chunk + [x];
      rest := rest - {x};
    }
  }

  /** The keys of the documents, in some order, each once. */
  method InSomeOrder(docs: map<nat, Doc>) returns (order: seq<nat>)
    ensures forall f :: f in order <==> f in docs
    ensures forall i, j | 0 <= i < j < |order| :: order[i] != order[j]
    ensures |order| == |docs.Keys|
  {
    order := [];
    var rest := docs.Keys;
    while rest != {}
      invariant rest <= docs.Keys
      invariant forall f :: f in order <==> f in docs && f !in rest
      invariant |order| + |rest| == |docs.Keys|
      invariant forall i, j | 0 <= i < j < |order| :: order[i] != order[j]
    {
      var f :| f in rest;
      order := order + [f];
      rest := rest - {f};
    }
  }

  function Members(xs: seq<nat>): set<nat> {
    set x | x in xs
  }

  lemma {:induction false} MembersCount(xs: seq<nat>)
    ensures |Members(xs)| <= |xs|
  {
    if xs != [] {
      MembersCount(xs[1..]);
      assert Members(xs) == {xs[0]} + Members(xs[1..]);
    }
  }

  class EtlOrchestrator {
    const limit: nat
    var db: Database
    var clock: nat
    var index: map<nat, Doc>
    var cursors: Cursors
    /** What the running pipeline holds in memory. */
    var cycle: Cycle

    ghost function View(): State
      reads this
    {
      State(db, clock, index, cursors, cycle)
    }

    constructor (chunkSize: nat)
      ensures View() == INIT && limit == chunkSize
    {
      limit := chunkSize;
      db, clock, index := Database(map[], map[], map[]), 0, map[];
      cursors, cycle := Cursors(ORIGIN, ORIGIN, ORIGIN), Resting;
    }

    /** Another client's transaction. */
    method Commit(c: Changes)
      modifies this`db, this`clock
      ensures View() == Next(limit, old(View()), Write(c))
    {
      clock := clock + 1;
      db := Apply(db, c, clock);
    }

    /** The changed rows after the cursor. */
    method FetchChangedEntities(k: Kind)
      requires cycle == Resting
      modifies this`cycle
      ensures View() == Next(limit, old(View()), Select(k))
    {
      var chunk := FetchFirst(After(Stamps(db, k), Cursor(cursors, k)), limit);
      if chunk != [] {
        cycle := Selected(k, chunk[|chunk| - 1], clock, set x | x in chunk :: x.id);
      }
    }

    /** One bulk request: idempotent by document id. */
    method BulkSave(batch: set<nat>)
      requires cycle.Saving?
      modifies this`index, this`cycle
      ensures View() == Next(limit, old(View()), Save(batch))
      ensures index == SaveDocs(old(index), old(cycle).docs, batch) == SaveDocs(index, old(cycle).docs, batch)
    {
      index := SaveDocs(index, cycle.docs, batch);
      cycle := cycle.(docs := cycle.docs - batch);
    }

    /** A transaction, then the query for the changed rows. */
    method QueryChanged(k: Kind, writes: seq<Changes>, steps: seq<Event>, ghost start: State)
      requires |steps| < |writes| && View() == Run(limit, start, Woven(writes, steps)) && cycle == Resting
      modifies this`db, this`clock, this`cycle
      ensures View() == Run(limit, start, Woven(writes, steps + [Select(k)]))
      ensures var chunk := EtlConvergence.ChunkAt(limit, db, k, Cursor(cursors, k));
              if chunk == [] then cycle == Resting
              else && cycle.Selected? && cycle.kind == k && cycle.next == chunk[|chunk| - 1]
                   && cycle.ids == EtlConvergence.IdsOf(chunk)
    {
      OneStep(limit, start, writes, steps, Select(k));
      Commit(writes[|steps|]);
      FetchChangedEntities(k);
    }

    /** A transaction, then the query for the films that they touch. */
    method QueryTargets(writes: seq<Changes>, steps: seq<Event>, ghost start: State)
      requires |steps| < |writes| && View() == Run(limit, start, Woven(writes, steps)) && cycle.Selected?
      modifies this`db, this`clock, this`cycle
      ensures View() == Run(limit, start, Woven(writes, steps + [Target]))
      ensures cycle.Targeted? && cycle.kind == old(cycle).kind && cycle.next == old(cycle).next
      ensures cycle.films == Targets(db, old(cycle).kind, old(cycle).ids)
    {
      OneStep(limit, start, writes, steps, Target);
      Commit(writes[|steps|]);
      cycle := Targeted(cycle.kind, cycle.next, cycle.since, Targets(db, cycle.kind, cycle.ids));
    }

    /** A transaction, then the query for the films' own columns. */
    method QueryFilms(writes: seq<Changes>, steps: seq<Event>, ghost start: State)
      requires |steps| < |writes| && View() == Run(limit, start, Woven(writes, steps)) && cycle.Targeted?
      modifies this`db, this`clock, this`cycle
      ensures View() == Run(limit, start, Woven(writes, steps + [ReadFilms]))
      ensures cycle.FilmsRead? && cycle.kind == old(cycle).kind && cycle.next == old(cycle).next
      ensures cycle.films == old(cycle).films && cycle.attrs == Etl.ReadAttrs(db, cycle.films)
    {
      OneStep(limit, start, writes, steps, ReadFilms);
      Commit(writes[|steps|]);
      cycle := FilmsRead(cycle.kind, cycle.next, cycle.since, cycle.films, Etl.ReadAttrs(db, cycle.films));
    }

    /** A transaction, then the query for their genres. */
    method QueryGenres(writes: seq<Changes>, steps: seq<Event>, ghost start: State)
      requires |steps| < |writes| && View() == Run(limit, start, Woven(writes, steps)) && cycle.FilmsRead?
      modifies this`db, this`clock, this`cycle
      ensures View() == Run(limit, start, Woven(writes, steps + [ReadGenreRows]))
      ensures cycle.GenresRead? && cycle.kind == old(cycle).kind && cycle.next == old(cycle).next
      ensures cycle.films == old(cycle).films && cycle.attrs == old(cycle).attrs
      ensures cycle.genres == Etl.ReadGenres(db, cycle.films)
    {
      OneStep(limit, start, writes, steps, ReadGenreRows);
      Commit(writes[|steps|]);
      cycle := GenresRead(cycle.kind, cycle.next, cycle.since, cycle.films, cycle.attrs,
                          Etl.ReadGenres(db, cycle.films));
    }

    /** A transaction, then the query for their persons, which completes the documents. */
    method QueryPersons(writes: seq<Changes>, steps: seq<Event>, ghost start: State)
      requires |steps| < |writes| && View() == Run(limit, start, Woven(writes, steps)) && cycle.GenresRead?
      modifies this`db, this`clock, this`cycle
      ensures View() == Run(limit, start, Woven(writes, steps + [ReadPersonRows]))
      ensures var docs := BuildDocs(db, old(cycle).attrs, old(cycle).genres);
              if docs == map[] then cycle.Resting?
              else && cycle.Saving? && cycle.docs == docs
                   && cycle.kind == old(cycle).kind && cycle.next == old(cycle).next
    {
      OneStep(limit, start, writes, steps, ReadPersonRows);
      Commit(writes[|steps|]);
      var c := cycle;
      var docs := BuildDocs(db, c.attrs, c.genres);
      cycle := if docs == map[] then Resting else Saving(c.kind, c.next, c.since, c.films, docs);
    }

    /** The three queries behind the documents of the films, each on a database of its own:
        a document has its columns from the first, its genres from the second and its cast
        from the third. */
    method FetchFilmWorks(k: Kind, writes: seq<Changes>, targeted: seq<Event>, ghost start: State)
      returns (steps: seq<Event>, cut: bool)
      requires cycle.Targeted? && targeted == [Select(k), Target] && |targeted| <= |writes|
      requires View() == Run(limit, start, Woven(writes, targeted))
      modifies this`db, this`clock, this`cycle
      ensures |steps| <= |writes| && steps <= Steps(k, [])
      ensures View() == Run(limit, start, Woven(writes, steps))
      ensures cut ==> |steps| == |writes| <= 4
      ensures !cut ==> steps == Steps(k, [])
      ensures !cut ==>
                var docs := DocsRead(start, writes, old(cycle).films);
                if docs == map[] then cycle == Resting
                else && cycle.Saving? && cycle.docs == docs
                     && cycle.kind == old(cycle).kind && cycle.next == old(cycle).next
    {
      steps, cut := targeted, true;
      if |steps| == |writes| {
        return;
      }
      QueryFilms(writes, steps, start);
      DbOfRun(limit, start, writes, steps + [ReadFilms]);
      steps, cut := FetchLinks(k, writes, steps + [ReadFilms], start, db);
    }

    /** The genres and the persons of the films read. */
    method FetchLinks(k: Kind, writes: seq<Changes>, filmsRead: seq<Event>, ghost start: State, ghost first: Database)
      returns (steps: seq<Event>, cut: bool)
      requires cycle.FilmsRead? && cycle.attrs == Etl.ReadAttrs(first, cycle.films)
      requires filmsRead == [Select(k), Target, ReadFilms] && |filmsRead| <= |writes|
      requires first == DbAfter(start.db, start.clock, writes, 3)
      requires View() == Run(limit, start, Woven(writes, filmsRead))
      modifies this`db, this`clock, this`cycle
      ensures |steps| <= |writes| && steps <= Steps(k, [])
      ensures View() == Run(limit, start, Woven(writes, steps))
      ensures cut ==> |steps| == |writes| <= 4
      ensures !cut ==> steps == Steps(k, [])
      ensures !cut ==>
                var docs := DocsRead(start, writes, old(cycle).films);
                if docs == map[] then cycle == Resting
                else && cycle.Saving? && cycle.docs == docs
                     && cycle.kind == old(cycle).kind && cycle.next == old(cycle).next
    {
      steps, cut := filmsRead, true;
      if |steps| == |writes| {
        return;
      }
      QueryGenres(writes, steps, start);
      steps := steps + [ReadGenreRows];
      DbOfRun(limit, start, writes, steps);
      ghost var second := db;
      if |steps| == |writes| {
        return;
      }
      assert steps == [Select(k), Target, ReadFilms, ReadGenreRows];
      FetchCast(k, writes, start, first, second);
      steps, cut := Steps(k, []), false;
    }

    /** The persons of the films complete the documents. */
    method FetchCast(k: Kind, writes: seq<Changes>, ghost start: State, ghost first: Database, ghost second: Database)
      requires cycle.GenresRead? && cycle.attrs == Etl.ReadAttrs(first, cycle.films)
      requires cycle.genres == Etl.ReadGenres(second, cycle.films) && |writes| >= 5
      requires first == DbAfter(start.db, start.clock, writes, 3) && second == DbAfter(start.db, start.clock, writes, 4)
      requires View() == Run(limit, start, Woven(writes, [Select(k), Target, ReadFilms, ReadGenreRows]))
      modifies this`db, this`clock, this`cycle
      ensures View() == Run(limit, start, Woven(writes, Steps(k, [])))
      ensures var docs := DocsRead(start, writes, old(cycle).films);
              if docs == map[] then cycle == Resting
              else && cycle.Saving? && cycle.docs == docs
                   && cycle.kind == old(cycle).kind && cycle.next == old(cycle).next
    {
      var steps := [Select(k), Target, ReadFilms, ReadGenreRows];
      QueryPersons(writes, steps, start);
      assert steps + [ReadPersonRows] == Steps(k, []);
      CastRead(limit, k, start, writes, old(cycle).films, first, second, View());
    }

    /** A transaction, then one bulk request. */
    method SaveBatch(batch: set<nat>, writes: seq<Changes>, steps: seq<Event>, ghost start: State)
      requires cycle.Saving?
      requires |steps| < |writes| && View() == Run(limit, start, Woven(writes, steps))
      modifies this`db, this`clock, this`index, this`cycle
      ensures View() == Run(limit, start, Woven(writes, steps + [Save(batch)]))
      ensures cycle == old(cycle).(docs := old(cycle).docs - batch)
      ensures index == SaveDocs(old(index), old(cycle).docs, batch)
    {
      OneStep(limit, start, writes, steps, Save(batch));
      Commit(writes[|steps|]);
      BulkSave(batch);
    }

    /** A transaction, then the checkpoint. */
    method SetState(writes: seq<Changes>, steps: seq<Event>, ghost start: State)
      requires cycle.Saving? && cycle.docs == map[]
      requires |steps| < |writes| && View() == Run(limit, start, Woven(writes, steps))
      modifies this`db, this`clock, this`cursors, this`cycle
      ensures View() == Run(limit, start, Woven(writes, steps + [Checkpoint]))
      ensures cycle == Resting && cursors == Move(old(cursors), old(cycle).kind, old(cycle).next)
    {
      OneStep(limit, start, writes, steps, Checkpoint);
      Commit(writes[|steps|]);
      cursors := Move(cursors, cycle.kind, cycle.next);
      cycle := Resting;
    }

    /** One cycle of pipeline `k`. A transaction of `writes` precedes every step, and the
        process is cut when they run out. */
    method RunPipeline(k: Kind, writes: seq<Changes>) returns (steps: seq<Event>, batches: seq<set<nat>>, cut: bool)
      requires cycle == Resting && limit > 0
      modifies this
      ensures |steps| <= |writes| && steps <= Steps(k, batches) + [Checkpoint]
      ensures View() == Run(limit, old(View()), Woven(writes, steps) + if cut then [Crash] else [])
      ensures cycle == Resting
      ensures cut ==> |steps| == |writes| <= 5 + |db.films.Keys| && cursors == old(cursors)
      ensures !cut ==> CycleDone(limit, k, writes, steps, batches, old(View()), View())
      ensures Still(old(View()), writes) && |writes| > 5 + |old(db).films.Keys| ==>
                !cut && FilmsIndexed(old(db), k, EtlConvergence.ChunkAt(limit, old(db), k, Cursor(old(cursors), k)),
                                     old(View()), View())
    {
      ghost var start := View();
      steps, batches, cut := ExtractAndLoad(k, writes, start);
      NoWritesIn(steps, k, batches);
      DbOfRun(limit, start, writes, steps);
      Finish(writes, steps, cut, start);
      StillEnough(limit, k, writes, steps, batches, cut, start, View());
    }

    method ExtractAndLoad(k: Kind, writes: seq<Changes>, ghost start: State)
      returns (steps: seq<Event>, batches: seq<set<nat>>, cut: bool)
      requires cycle == Resting && start == View() && limit > 0
      modifies this
      ensures |steps| <= |writes| && steps <= Steps(k, batches) + [Checkpoint]
      ensures View() == Run(limit, start, Woven(writes, steps))
      ensures cut ==> |steps| == |writes| <= 5 + |db.films.Keys| && cursors == old(cursors)
      ensures !cut ==> cycle == Resting && CycleDone(limit, k, writes, steps, batches, start, View())
    {
      batches := [];
      steps, cut := Extract(k, writes, start);
      if !cut && steps != [Select(k)] {
        steps, batches, cut := Load(k, writes, start);
      }
    }

    /** What the queries found, if anything, is saved. */
    method Load(k: Kind, writes: seq<Changes>, ghost start: State)
      returns (steps: seq<Event>, batches: seq<set<nat>>, cut: bool)
      requires limit > 0 && |writes| >= 5 && View() == Run(limit, start, Woven(writes, Steps(k, [])))
      requires Found(limit, k, writes, start, cycle) && index == start.index && cursors == start.cursors
      modifies this
      ensures |steps| <= |writes| && steps <= Steps(k, batches) + [Checkpoint]
      ensures View() == Run(limit, start, Woven(writes, steps))
      ensures cut ==> |steps| == |writes| <= 5 + |db.films.Keys| && cursors == old(cursors)
      ensures !cut ==> cycle == Resting && CycleDone(limit, k, writes, steps, batches, start, View())
    {
      ghost var found := cycle;
      if cycle == Resting {
        steps, batches, cut := Steps(k, []), [], false;
        CycleEmpty(limit, k, writes, found, start, View());
        return;
      }
      steps, batches, cut := SaveAll(k, writes, Steps(k, []), start);
      if cut {
        NoWritesIn(steps, k, batches);
        DbOfRun(limit, start, writes, steps);
        FilmsFound(limit, k, writes, found, start, |writes|);
      } else {
        CycleSaved(limit, k, writes, batches, found, start, View());
      }
    }

    /** A cut process forgets its cycle. */
    method Finish(writes: seq<Changes>, steps: seq<Event>, cut: bool, ghost start: State)
      requires |steps| <= |writes| && View() == Run(limit, start, Woven(writes, steps)) && (cut || cycle == Resting)
      modifies this`cycle
      ensures View() == Run(limit, start, Woven(writes, steps) + if cut then [Crash] else [])
      ensures cycle == Resting && (!cut ==> View() == old(View()))
      ensures db == old(db) && clock == old(clock) && index == old(index) && cursors == old(cursors)
    {
      ghost var events := Woven(writes, steps);
      if cut {
        LastEvent(limit, start, events, Crash);
        cycle := Resting;
      } else {
        assert events + [] == events;
      }
    }

    /** The queries; the cycle ends here when no row changed or no film is touched. */
    method Extract(k: Kind, writes: seq<Changes>, ghost start: State) returns (steps: seq<Event>, cut: bool)
      requires cycle == Resting && start == View() && limit > 0
      modifies this`db, this`clock, this`cycle
      ensures |steps| <= |writes| && steps <= Steps(k, [])
      ensures View() == Run(limit, start, Woven(writes, steps))
      ensures cut ==> |steps| == |writes| <= 4
      ensures !cut ==> || (NothingToDo(k, writes, steps, start, View()) && cycle == Resting)
                       || (steps == Steps(k, []) && Found(limit, k, writes, start, cycle))
    {
      steps, cut := [], true;
      if |steps| == |writes| {
        return;
      }
      SelectRows(k, writes, start);
      steps := [Select(k)];
      if cycle == Resting {
        cut := false;
        return;
      }
      steps, cut := ExtractFilms(k, writes, start);
    }

    /** The first query, on the database after the first transaction. */
    method SelectRows(k: Kind, writes: seq<Changes>, ghost start: State)
      requires cycle == Resting && start == View() && limit > 0 && |writes| >= 1
      modifies this`db, this`clock, this`cycle
      ensures View() == Run(limit, start, Woven(writes, [Select(k)]))
      ensures var chunk := ChunkOf(limit, k, start, writes);
              if chunk == [] then cycle == Resting && NothingToDo(k, writes, [Select(k)], start, View())
              else && cycle.Selected? && cycle.kind == k && cycle.next == chunk[|chunk| - 1]
                   && cycle.ids == EtlConvergence.IdsOf(chunk)
    {
      assert Woven(writes, []) == [];
      QueryChanged(k, writes, [], start);
      assert [] + [Select(k)] == [Select(k)];
      DbOfRun(limit, start, writes, [Select(k)]);
      if cycle == Resting { NoChunk(limit, After(Stamps(db, k), Cursor(cursors, k))); }
    }

    /** The second query. */
    method FindFilms(k: Kind, writes: seq<Changes>, ghost start: State)
      requires |writes| >= 2 && View() == Run(limit, start, Woven(writes, [Select(k)])) && cycle.Selected?
      requires cycle.kind == k && cycle.ids == EtlConvergence.IdsOf(ChunkOf(limit, k, start, writes))
      modifies this`db, this`clock, this`cycle
      ensures View() == Run(limit, start, Woven(writes, [Select(k), Target]))
      ensures cycle.Targeted? && cycle.kind == k && cycle.next == old(cycle).next
      ensures cycle.films == FilmsOf(limit, k, start, writes)
    {
      QueryTargets(writes, [Select(k)], start);
      assert [Select(k)] + [Target] == [Select(k), Target];
      DbOfRun(limit, start, writes, [Select(k), Target]);
    }

    /** The rows are known; their films and the documents follow. */
    method ExtractFilms(k: Kind, writes: seq<Changes>, ghost start: State) returns (steps: seq<Event>, cut: bool)
      requires |writes| >= 1 && View() == Run(limit, start, Woven(writes, [Select(k)])) && cycle.Selected?
      requires var chunk := ChunkOf(limit, k, start, writes);
               && chunk != [] && cycle.kind == k && cycle.next == chunk[|chunk| - 1]
               && cycle.ids == EtlConvergence.IdsOf(chunk)
      modifies this`db, this`clock, this`cycle
      ensures |steps| <= |writes| && steps <= Steps(k, [])
      ensures View() == Run(limit, start, Woven(writes, steps))
      ensures cut ==> |steps| == |writes| <= 4
      ensures !cut ==> steps == Steps(k, []) && Found(limit, k, writes, start, cycle)
    {
      steps, cut := [Select(k)], true;
      if |steps| == |writes| {
        return;
      }
      FindFilms(k, writes, start);
      steps, cut := FetchFound(k, writes, start);
    }

    /** The films are known too. */
    method FetchFound(k: Kind, writes: seq<Changes>, ghost start: State) returns (steps: seq<Event>, cut: bool)
      requires |writes| >= 2 && View() == Run(limit, start, Woven(writes, [Select(k), Target])) && cycle.Targeted?
      requires var chunk := ChunkOf(limit, k, start, writes);
               chunk != [] && cycle.kind == k && cycle.next == chunk[|chunk| - 1]
      requires cycle.films == FilmsOf(limit, k, start, writes)
      modifies this`db, this`clock, this`cycle
      ensures |steps| <= |writes| && steps <= Steps(k, [])
      ensures View() == Run(limit, start, Woven(writes, steps))
      ensures cut ==> |steps| == |writes| <= 4
      ensures !cut ==> steps == Steps(k, []) && Found(limit, k, writes, start, cycle)
    {
      steps, cut := FetchFilmWorks(k, writes, [Select(k), Target], start);
      if !cut { DocsFound(limit, k, start, writes, cycle); }
    }

    /** Save the documents in batches and only then move the cursor. */
    method SaveAll(k: Kind, writes: seq<Changes>, queries: seq<Event>, ghost start: State)
      returns (steps: seq<Event>, batches: seq<set<nat>>, cut: bool)
      requires limit > 0 && cycle.Saving? && queries == Steps(k, []) && |queries| <= |writes|
      requires View() == Run(limit, start, Woven(writes, queries))
      modifies this
      ensures |steps| <= |writes| && steps <= Steps(k, batches) + [Checkpoint]
      ensures View() == Run(limit, start, Woven(writes, steps))
      ensures cut ==> |steps| == |writes| <= 5 + |old(cycle).docs.Keys| && cursors == old(cursors)
      ensures !cut ==> cycle == Resting && steps == Steps(k, batches) + [Checkpoint]
      ensures !cut ==>
        && Covers(limit, batches, old(cycle).docs.Keys) && Indexed(old(index), index, old(cycle).docs)
        && cursors == Move(old(cursors), old(cycle).kind, old(cycle).next)
    {
      ghost var found, before := cycle, index;
      steps, batches := SaveBatches(k, writes, queries, start);
      cut := true;
      if |steps| == |writes| {
        return;
      }
      AllSaved(limit, found.docs, cycle.docs, batches, before, index);
      SetState(writes, steps, start);
      steps, cut := steps + [Checkpoint], false;
    }

    /** The bulk requests, until the documents or the transactions run out. */
    method SaveBatches(k: Kind, writes: seq<Changes>, queries: seq<Event>, ghost start: State)
      returns (steps: seq<Event>, batches: seq<set<nat>>)
      requires limit > 0 && cycle.Saving? && queries == Steps(k, []) && |queries| <= |writes|
      requires View() == Run(limit, start, Woven(writes, queries))
      modifies this`db, this`clock, this`index, this`cycle
      ensures |steps| <= |writes| && steps == Steps(k, batches) && |steps| <= 5 + |old(cycle).docs.Keys|
      ensures View() == Run(limit, start, Woven(writes, steps))
      ensures cycle.Saving? && cycle == old(cycle).(docs := cycle.docs)
      ensures |steps| < |writes| ==> cycle.docs == map[]
      ensures Saved(limit, old(cycle).docs, cycle.docs, batches, old(index), index)
    {
      ghost var docs, before := cycle.docs, index;
      steps, batches := queries, [];
      NothingSaved(limit, docs, index);
      var order := InSomeOrder(cycle.docs);
      var i := 0;
      while i < |order| && |steps| < |writes|
        invariant 0 <= i <= |order| && |batches| <= i
        invariant cycle.Saving? && cycle == old(cycle).(docs := cycle.docs)
        invariant Saved(limit, docs, cycle.docs, batches, before, index)
        invariant cycle.docs.Keys == Members(order[i..])
        invariant steps == Steps(k, batches) && |steps| <= |writes| && |steps| == 5 + |batches|
        invariant View() == Run(limit, start, Woven(writes, steps))
      {
        var batch;
        i, batch := SaveNext(order, i, writes, steps, batches, docs, before, start);
        StepsMore(k, batches, batch);
        steps, batches := steps + [Save(batch)], batches + [batch];
      }
    }

    /** The next bulk request, of at most `limit` documents. */
    method SaveNext(order: seq<nat>, i: nat, writes: seq<Changes>, steps: seq<Event>, ghost batches: seq<set<nat>>,
                    ghost docs: map<nat, Doc>, ghost before: map<nat, Doc>, ghost start: State)
      returns (end: nat, batch: set<nat>)
      requires limit > 0 && cycle.Saving? && i < |order| && |steps| < |writes|
      requires forall i, j | 0 <= i < j < |order| :: order[i] != order[j]
      requires cycle.docs.Keys == Members(order[i..]) && Saved(limit, docs, cycle.docs, batches, before, index)
      requires View() == Run(limit, start, Woven(writes, steps))
      modifies this`db, this`clock, this`index, this`cycle
      ensures i < end <= |order| && cycle.Saving? && cycle == old(cycle).(docs := cycle.docs)
      ensures cycle.docs.Keys == Members(order[end..])
      ensures Saved(limit, docs, cycle.docs, batches + [batch], before, index)
      ensures View() == Run(limit, start, Woven(writes, steps + [Save(batch)]))
    {
      end := if i + limit < |order| then i + limit else |order|;
      batch := Members(order[i..end]);
      MembersCount(order[i..end]);
      BatchTaken(order, i, end);
      BatchSaved(limit, docs, cycle.docs, batches, before, index, batch);
      SaveBatch(batch, writes, steps, start);
    }

    lemma BatchTaken(order: seq<nat>, i: nat, end: nat)
      requires i < end <= |order|
      requires forall i, j | 0 <= i < j < |order| :: order[i] != order[j]
      ensures Members(order[i..]) - Members(order[i..end]) == Members(order[end..])
      ensures Members(order[i..end]) <= Members(order[i..]) && Members(order[i..end]) != {}
    {
      assert order[i] in order[i..end] && order[i] in Members(order[i..end]);
    }
  }
}
