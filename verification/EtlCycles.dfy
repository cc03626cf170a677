/** One cycle of a film pipeline: its steps, the databases that its queries see, and what it
    leaves in the index, in terms of those databases. */
module EtlCycles {
  import opened Options
  import opened Keyset
  import opened Etl
  import EtlConvergence

  /** The steps of one cycle that saves these batches. */
  function Steps(k: Kind, batches: seq<set<nat>>): seq<Event> {
    [Select(k), Target, ReadFilms, ReadGenreRows, ReadPersonRows] + Saves(batches)
  }

  function Saves(batches: seq<set<nat>>): seq<Event> {
    if batches == [] then [] else Saves(batches[..|batches| - 1]) + [Save(batches[|batches| - 1])]
  }

  /** A transaction goes before every step. */
  function Woven(writes: seq<Changes>, steps: seq<Event>): seq<Event>
    requires |steps| <= |writes|
  {
    if steps == [] then []
    else var n := |steps| - 1; Woven(writes, steps[..n]) + [Write(writes[n]), steps[n]]
  }

  lemma OneStep(limit: nat, s: State, writes: seq<Changes>, steps: seq<Event>, e: Event)
    requires |steps| < |writes|
    ensures Run(limit, s, Woven(writes, steps + [e]))
         == Next(limit, Next(limit, Run(limit, s, Woven(writes, steps)), Write(writes[|steps|])), e)
  {
    var all := steps + [e];
    assert all[..|steps|] == steps;
    var events := Woven(writes, all);
    assert events[..|events| - 1] == Woven(writes, steps) + [Write(writes[|steps|])];
    var before := events[..|events| - 1];
    assert before[..|before| - 1] == Woven(writes, steps);
  }

  lemma LastEvent(limit: nat, s: State, events: seq<Event>, e: Event)
    ensures Run(limit, s, events + [e]) == Next(limit, Run(limit, s, events), e)
  {
  }

  /** A document for each film of the first database: its columns from there, its genres from
      the second, its cast from the third. */
  function DocsOf(first: Database, second: Database, third: Database, films: set<nat>): map<nat, Doc> {
    map f | f in films && f in first.films :: Doc(first.films[f].attrs, GenresOf(second, f), CastOf(third, f))
  }

  lemma DocsFrom(first: Database, second: Database, third: Database, films: set<nat>)
    ensures BuildDocs(third, Etl.ReadAttrs(first, films), Etl.ReadGenres(second, films)) ==
        DocsOf(first, second, third, films)
    ensures DocsOf(first, second, third, films) == map[] ==> films !! first.films.Keys
  {
    assert forall f :: f in films && f in first.films ==> f in DocsOf(first, second, third, films);
  }

  /** The documents that the queries of a cycle build. */
  lemma DocsReadFrom(s: State, writes: seq<Changes>, films: set<nat>, first: Database, second: Database,
                     third: Database)
    requires |writes| >= 5
    requires first == DbAfter(s.db, s.clock, writes, 3) && second == DbAfter(s.db, s.clock, writes, 4)
    requires third == DbAfter(s.db, s.clock, writes, 5)
    ensures BuildDocs(third, Etl.ReadAttrs(first, films), Etl.ReadGenres(second, films)) == DocsRead(s, writes, films)
  {
    DocsFrom(first, second, third, films);
  }

  /** The same, at the end of the queries. */
  lemma CastRead(limit: nat, k: Kind, s: State, writes: seq<Changes>, films: set<nat>, first: Database,
                 second: Database, t: State)
    requires |writes| >= 5 && t == Run(limit, s, Woven(writes, Steps(k, [])))
    requires first == DbAfter(s.db, s.clock, writes, 3) && second == DbAfter(s.db, s.clock, writes, 4)
    ensures BuildDocs(t.db, Etl.ReadAttrs(first, films), Etl.ReadGenres(second, films)) == DocsRead(s, writes, films)
  {
    DbOfRun(limit, s, writes, Steps(k, []));
    DocsReadFrom(s, writes, films, first, second, t.db);
  }

  /** If nothing changes between the readings, the documents are those of the database. */
  lemma DocsOfOne(db: Database, films: set<nat>)
    ensures forall f <- DocsOf(db, db, db, films) :: DocsOf(db, db, db, films)[f] == Build(db, f)
    ensures DocsOf(db, db, db, films).Keys == films * db.films.Keys
  {
  }

  // ---------- The databases that the queries see ----------

  /** The database after these transactions. */
  function Applied(db: Database, clock: nat, writes: seq<Changes>): Database {
    if writes == [] then db
    else Apply(Applied(db, clock, writes[..|writes| - 1]), writes[|writes| - 1], clock + |writes|)
  }

  function DbAfter(db: Database, clock: nat, writes: seq<Changes>, n: nat): Database
    requires n <= |writes|
  {
    Applied(db, clock, writes[..n])
  }

  lemma OneApplied(db: Database, clock: nat, writes: seq<Changes>, n: nat)
    requires n < |writes|
    ensures DbAfter(db, clock, writes, n + 1) == Apply(DbAfter(db, clock, writes, n), writes[n], clock + n + 1)
  {
    assert writes[..n + 1][..n] == writes[..n];
  }

  ghost predicate NoWrites(steps: seq<Event>) {
    forall e <- steps :: !e.Write?
  }

  ghost predicate SeesDb(s: State, writes: seq<Changes>, n: nat, t: State) {
    n <= |writes| && t.db == DbAfter(s.db, s.clock, writes, n) && t.clock == s.clock + n
  }

  lemma SeesNext(limit: nat, s: State, writes: seq<Changes>, n: nat, t: State, e: Event)
    requires n < |writes| && !e.Write? && SeesDb(s, writes, n, t)
    ensures SeesDb(s, writes, n + 1, Next(limit, Next(limit, t, Write(writes[n])), e))
  {
    OneApplied(s.db, s.clock, writes, n);
    StepDb(limit, t, writes[n], e);
  }

  lemma StepDb(limit: nat, s: State, w: Changes, e: Event)
    requires !e.Write?
    ensures var t := Next(limit, Next(limit, s, Write(w)), e);
            t.db == Apply(s.db, w, s.clock + 1) && t.clock == s.clock + 1
  {
  }

  lemma {:induction false} DbOfRun(limit: nat, s: State, writes: seq<Changes>, steps: seq<Event>)
    requires |steps| <= |writes| && NoWrites(steps)
    ensures SeesDb(s, writes, |steps|, Run(limit, s, Woven(writes, steps)))
  {
    if steps != [] {
      var n := |steps| - 1;
      var e := steps[n];
      DbOfRun(limit, s, writes, steps[..n]);
      SeesNext(limit, s, writes, n, Run(limit, s, Woven(writes, steps[..n])), e);
      OneStep(limit, s, writes, steps[..n], e);
      assert steps[..n] + [e] == steps;
    }
  }

  lemma ApplyKeepsFilms(db: Database, c: Changes, now: nat)
    ensures db.films.Keys <= Apply(db, c, now).films.Keys
  {
  }

  lemma FilmsGrow(db: Database, clock: nat, writes: seq<Changes>, n: nat)
    requires n < |writes|
    ensures DbAfter(db, clock, writes, n).films.Keys <= DbAfter(db, clock, writes, n + 1).films.Keys
  {
    OneApplied(db, clock, writes, n);
    ApplyKeepsFilms(DbAfter(db, clock, writes, n), writes[n], clock + n + 1);
  }

  lemma {:induction false} Chain(films: nat -> set<nat>, m: nat, n: nat)
    requires m <= n && forall i | m <= i < n :: films(i) <= films(i + 1)
    ensures films(m) <= films(n)
    decreases n
  {
    if m < n { Chain(films, m, n - 1); }
  }

  lemma FilmsStay(db: Database, clock: nat, writes: seq<Changes>, m: nat, n: nat)
    requires m <= n <= |writes|
    ensures DbAfter(db, clock, writes, m).films.Keys <= DbAfter(db, clock, writes, n).films.Keys
  {
    var films := (i: nat) => if i <= |writes| then DbAfter(db, clock, writes, i).films.Keys else {};
    forall i | m <= i < n ensures films(i) <= films(i + 1) { FilmsGrow(db, clock, writes, i); }
    Chain(films, m, n);
  }

  /** Other clients' transactions change nothing. */
  ghost predicate Still(s: State, writes: seq<Changes>) {
    forall n | 0 <= n <= |writes| :: DbAfter(s.db, s.clock, writes, n) == s.db
  }

  // ---------- What a cycle leaves behind ----------

  /** The chunk of the first query, and the films that the second finds for it. */
  ghost function ChunkOf(limit: nat, k: Kind, s: State, writes: seq<Changes>): seq<Stamp>
    requires |writes| >= 1
  {
    EtlConvergence.ChunkAt(limit, DbAfter(s.db, s.clock, writes, 1), k, Cursor(s.cursors, k))
  }

  ghost function FilmsOf(limit: nat, k: Kind, s: State, writes: seq<Changes>): set<nat>
    requires |writes| >= 2
  {
    Targets(DbAfter(s.db, s.clock, writes, 2), k, EtlConvergence.IdsOf(ChunkOf(limit, k, s, writes)))
  }

  /** Each film's document, from the databases of the last three queries. */
  ghost function DocsRead(s: State, writes: seq<Changes>, films: set<nat>): map<nat, Doc>
    requires |writes| >= 5
  {
    DocsOf(DbAfter(s.db, s.clock, writes, 3), DbAfter(s.db, s.clock, writes, 4), DbAfter(s.db, s.clock, writes, 5),
           films)
  }

  ghost predicate InBatch(batches: seq<set<nat>>, f: nat) {
    exists i | 0 <= i < |batches| :: f in batches[i]
  }

  ghost predicate Disjoint(batches: seq<set<nat>>) {
    forall i, j | 0 <= i < j < |batches| :: batches[i] !! batches[j]
  }

  /** Every document is in one batch, and no batch is empty or too long. */
  ghost predicate Covers(limit: nat, batches: seq<set<nat>>, films: set<nat>) {
    && (forall b <- batches :: b != {} && |b| <= limit)
    && Disjoint(batches)
    && (forall f :: f in films <==> InBatch(batches, f))
  }

  /** The index has these documents, and is otherwise as it was. */
  ghost predicate Indexed(before: map<nat, Doc>, after: map<nat, Doc>, docs: map<nat, Doc>) {
    && after.Keys == before.Keys + docs.Keys
    && forall f <- after :: after[f] == if f in docs then docs[f] else before[f]
  }

  /** No row lies beyond the cursor: one query, and nothing else. */
  ghost predicate NothingToDo(k: Kind, writes: seq<Changes>, steps: seq<Event>, before: State, after: State) {
    && steps == [Select(k)] && |writes| >= 1
    && After(Stamps(DbAfter(before.db, before.clock, writes, 1), k), Cursor(before.cursors, k)) == {}
    && after.index == before.index && after.cursors == before.cursors
  }

  /** Rows, but no film of theirs: five queries, and nothing else. */
  ghost predicate NothingTouched(limit: nat, k: Kind, writes: seq<Changes>, steps: seq<Event>, before: State,
                                 after: State)
  {
    && steps == Steps(k, []) && |writes| >= 5
    && ChunkOf(limit, k, before, writes) != [] && FilmsOf(limit, k, before, writes) == {}
    && after.index == before.index && after.cursors == before.cursors
  }

  /** Every film touched has the document that the queries read, and the cursor is the last
      stamp of the chunk. */
  ghost predicate ChunkSaved(limit: nat, k: Kind, writes: seq<Changes>, steps: seq<Event>, batches: seq<set<nat>>,
                             before: State, after: State)
  {
    && steps == Steps(k, batches) + [Checkpoint] && |writes| >= 5
    && var chunk, films := ChunkOf(limit, k, before, writes), FilmsOf(limit, k, before, writes);
    && chunk != [] && films != {} && Covers(limit, batches, films)
    && Indexed(before.index, after.index, DocsRead(before, writes, films))
    && DocsRead(before, writes, films).Keys == films
    && Cursor(after.cursors, k) == chunk[|chunk| - 1]
    && forall other :: other != k ==> Cursor(after.cursors, other) == Cursor(before.cursors, other)
  }

  /** What the five queries of a cycle found. */
  ghost predicate Found(limit: nat, k: Kind, writes: seq<Changes>, start: State, cycle: Cycle) {
    && |writes| >= 5
    && var chunk, films := ChunkOf(limit, k, start, writes), FilmsOf(limit, k, start, writes);
    && chunk != []
    && if films == {} then cycle == Resting
       else && cycle.Saving? && cycle.kind == k && cycle.next == chunk[|chunk| - 1]
            && cycle.docs == DocsRead(start, writes, films) && cycle.docs.Keys == films
  }

  lemma NoChunk(limit: nat, rows: set<Stamp>)
    requires limit > 0 && Chunk(rows, limit) == []
    ensures rows == {}
  {
    ChunkIsPrefix(rows, limit);
  }

  /** Films are never deleted: a film found by the second query is found by the third. */
  lemma DocsComplete(limit: nat, k: Kind, s: State, writes: seq<Changes>)
    requires |writes| >= 5
    ensures DocsRead(s, writes, FilmsOf(limit, k, s, writes)).Keys == FilmsOf(limit, k, s, writes)
  {
    FilmsStay(s.db, s.clock, writes, 2, 3);
  }

  lemma EmptyDocs(docs: map<nat, Doc>, films: set<nat>)
    requires docs.Keys == films
    ensures docs == map[] <==> films == {}
  {
    if films == {} { assert forall f :: f !in docs; }
    if docs == map[] { assert forall f :: f !in films; }
  }

  lemma DocsFound(limit: nat, k: Kind, start: State, writes: seq<Changes>, cycle: Cycle)
    requires |writes| >= 5 && ChunkOf(limit, k, start, writes) != []
    requires var chunk := ChunkOf(limit, k, start, writes);
             var docs := DocsRead(start, writes, FilmsOf(limit, k, start, writes));
             if docs == map[] then cycle == Resting
             else cycle.Saving? && cycle.kind == k && cycle.next == chunk[|chunk| - 1] && cycle.docs == docs
    ensures Found(limit, k, writes, start, cycle)
  {
    DocsComplete(limit, k, start, writes);
    EmptyDocs(DocsRead(start, writes, FilmsOf(limit, k, start, writes)), FilmsOf(limit, k, start, writes));
  }

  /** After some batches: `left` are the documents still to save. */
  ghost predicate Saved(limit: nat, docs: map<nat, Doc>, left: map<nat, Doc>, batches: seq<set<nat>>,
                        before: map<nat, Doc>, after: map<nat, Doc>)
  {
    && left.Keys <= docs.Keys && (forall f <- left :: left[f] == docs[f])
    && Covers(limit, batches, docs.Keys - left.Keys)
    && Indexed(before, after, docs - left.Keys)
  }

  lemma NothingSaved(limit: nat, docs: map<nat, Doc>, index: map<nat, Doc>)
    ensures Saved(limit, docs, docs, [], index, index)
  {
  }

  lemma BatchSaved(limit: nat, docs: map<nat, Doc>, left: map<nat, Doc>, batches: seq<set<nat>>,
                   before: map<nat, Doc>, after: map<nat, Doc>, batch: set<nat>)
    requires Saved(limit, docs, left, batches, before, after)
    requires batch != {} && |batch| <= limit && batch <= left.Keys
    ensures Saved(limit, docs, left - batch, batches + [batch], before, SaveDocs(after, left, batch))
  {
    BatchCovers(limit, batches, docs.Keys - left.Keys, batch);
    StillLeft(docs, left, batch);
    BatchIndexed(docs, left, before, after, batch);
  }

  lemma StillLeft(docs: map<nat, Doc>, left: map<nat, Doc>, batch: set<nat>)
    requires left.Keys <= docs.Keys && batch <= left.Keys && forall f <- left :: left[f] == docs[f]
    ensures (left - batch).Keys <= docs.Keys && forall f <- left - batch :: (left - batch)[f] == docs[f]
    ensures docs.Keys - (left - batch).Keys == (docs.Keys - left.Keys) + batch
  {
  }

  lemma BatchIndexed(docs: map<nat, Doc>, left: map<nat, Doc>, before: map<nat, Doc>, after: map<nat, Doc>,
                     batch: set<nat>)
    requires left.Keys <= docs.Keys && (forall f <- left :: left[f] == docs[f]) && batch <= left.Keys
    requires Indexed(before, after, docs - left.Keys)
    ensures Indexed(before, SaveDocs(after, left, batch), docs - (left - batch).Keys)
  {
  }

  lemma BatchCovers(limit: nat, batches: seq<set<nat>>, films: set<nat>, batch: set<nat>)
    requires Covers(limit, batches, films) && batch != {} && |batch| <= limit && batch !! films
    ensures Covers(limit, batches + [batch], films + batch)
  {
    BatchDisjoint(batches, films, batch);
    forall f ensures f in films + batch <==> InBatch(batches + [batch], f) { BatchIn(batches, f, batch); }
  }

  lemma BatchIn(batches: seq<set<nat>>, f: nat, batch: set<nat>)
    ensures InBatch(batches + [batch], f) <==> InBatch(batches, f) || f in batch
  {
    var all := batches + [batch];
    assert all[|batches|] == batch;
    if InBatch(batches, f) {
      var i :| 0 <= i < |batches| && f in batches[i];
      assert all[i] == batches[i];
    }
  }

  lemma BatchDisjoint(batches: seq<set<nat>>, films: set<nat>, batch: set<nat>)
    requires Disjoint(batches) && batch !! films && forall f :: InBatch(batches, f) ==> f in films
    ensures Disjoint(batches + [batch])
  {
    forall i | 0 <= i < |batches| ensures batches[i] !! batch {
      forall f <- batches[i] ensures f !in batch { assert InBatch(batches, f); }
    }
  }

  lemma AllSaved(limit: nat, docs: map<nat, Doc>, left: map<nat, Doc>, batches: seq<set<nat>>,
                 before: map<nat, Doc>, after: map<nat, Doc>)
    requires Saved(limit, docs, left, batches, before, after) && left == map[]
    ensures Covers(limit, batches, docs.Keys) && Indexed(before, after, docs)
  {
    assert docs.Keys - left.Keys == docs.Keys && docs - left.Keys == docs;
  }

  /** How a cycle ends that is not cut. */
  ghost predicate CycleDone(limit: nat, k: Kind, writes: seq<Changes>, steps: seq<Event>, batches: seq<set<nat>>,
                            before: State, after: State)
  {
    || NothingToDo(k, writes, steps, before, after)
    || NothingTouched(limit, k, writes, steps, before, after)
    || ChunkSaved(limit, k, writes, steps, batches, before, after)
  }

  /** A cycle that found documents and saved them all. */
  lemma CycleSaved(limit: nat, k: Kind, writes: seq<Changes>, batches: seq<set<nat>>, found: Cycle, before: State,
                   after: State)
    requires Found(limit, k, writes, before, found) && found.Saving?
    requires Covers(limit, batches, found.docs.Keys) && Indexed(before.index, after.index, found.docs)
    requires after.cursors == Move(before.cursors, found.kind, found.next)
    ensures CycleDone(limit, k, writes, Steps(k, batches) + [Checkpoint], batches, before, after)
  {
    Moved(before.cursors, found.kind, found.next);
    assert ChunkSaved(limit, k, writes, Steps(k, batches) + [Checkpoint], batches, before, after);
  }

  lemma Moved(c: Cursors, k: Kind, to: Stamp)
    ensures Cursor(Move(c, k, to), k) == to
    ensures forall other :: other != k ==> Cursor(Move(c, k, to), other) == Cursor(c, other)
  {
  }

  /** A cycle that found no document. */
  lemma CycleEmpty(limit: nat, k: Kind, writes: seq<Changes>, found: Cycle, before: State, after: State)
    requires Found(limit, k, writes, before, found) && !found.Saving?
    requires after.index == before.index && after.cursors == before.cursors
    ensures CycleDone(limit, k, writes, Steps(k, []), [], before, after)
  {
    assert NothingTouched(limit, k, writes, Steps(k, []), before, after);
  }

  lemma {:induction false} SavesOnly(batches: seq<set<nat>>)
    ensures NoWrites(Saves(batches))
  {
    if batches != [] { SavesOnly(batches[..|batches| - 1]); }
  }

  lemma StepsMore(k: Kind, batches: seq<set<nat>>, batch: set<nat>)
    ensures Steps(k, batches + [batch]) == Steps(k, batches) + [Save(batch)]
  {
  }

  lemma NoWritesIn(steps: seq<Event>, k: Kind, batches: seq<set<nat>>)
    requires steps <= Steps(k, batches) + [Checkpoint]
    ensures NoWrites(steps)
  {
    SavesOnly(batches);
  }

  /** Fewer steps than those of the queries and one bulk request for each document. */
  lemma FilmsFound(limit: nat, k: Kind, writes: seq<Changes>, found: Cycle, before: State, n: nat)
    requires Found(limit, k, writes, before, found) && found.Saving? && 2 <= n <= |writes|
    ensures |found.docs.Keys| <= |DbAfter(before.db, before.clock, writes, n).films.Keys|
  {
    var films := DbAfter(before.db, before.clock, writes, n).films.Keys;
    FilmsStay(before.db, before.clock, writes, 2, n);
    TargetsAreFilms(DbAfter(before.db, before.clock, writes, 2), k,
                    EtlConvergence.IdsOf(ChunkOf(limit, k, before, writes)));
    Fewer(found.docs.Keys, films);
  }

  lemma TargetsAreFilms(db: Database, k: Kind, ids: set<nat>)
    ensures Targets(db, k, ids) <= db.films.Keys
  {
  }

  lemma {:induction false} Fewer(xs: set<nat>, ys: set<nat>)
    requires xs <= ys
    ensures |xs| <= |ys|
  {
    assert ys == xs + (ys - xs);
  }

  /** What one cycle makes of index and cursor on a database that stands still: every film
      that its chunk touches has the document of the database, all others are as before, and
      the cursor is past the chunk if it touches any. */
  ghost predicate FilmsIndexed(db: Database, k: Kind, chunk: seq<Stamp>, before: State, after: State) {
    var films := Targets(db, k, EtlConvergence.IdsOf(chunk));
    && after.index.Keys == before.index.Keys + films
    && (forall f <- after.index :: after.index[f] == if f in films then Build(db, f) else before.index[f])
    && (forall other :: Cursor(after.cursors, other) ==
                        if other == k && films != {} && chunk != [] then chunk[|chunk| - 1]
                        else Cursor(before.cursors, other))
  }

  lemma StillCycle(limit: nat, k: Kind, writes: seq<Changes>, steps: seq<Event>, batches: seq<set<nat>>,
                   before: State, after: State)
    requires CycleDone(limit, k, writes, steps, batches, before, after) && Still(before, writes)
    ensures FilmsIndexed(before.db, k, EtlConvergence.ChunkAt(limit, before.db, k, Cursor(before.cursors, k)), before,
                         after)
  {
    if NothingToDo(k, writes, steps, before, after) {
      StillNothing(limit, k, writes, steps, before, after);
    } else if NothingTouched(limit, k, writes, steps, before, after) {
      StillDb(limit, k, before, writes);
      SameIndex(before.db, k, ChunkOf(limit, k, before, writes), before, after);
    } else {
      StillDb(limit, k, before, writes);
      StillSaved(limit, k, writes, steps, batches, before, after);
    }
  }

  lemma StillDb(limit: nat, k: Kind, s: State, writes: seq<Changes>)
    requires |writes| >= 5 && Still(s, writes)
    ensures var chunk := EtlConvergence.ChunkAt(limit, s.db, k, Cursor(s.cursors, k));
            && ChunkOf(limit, k, s, writes) == chunk
            && FilmsOf(limit, k, s, writes) == Targets(s.db, k, EtlConvergence.IdsOf(chunk))
  {
    assert DbAfter(s.db, s.clock, writes, 1) == s.db;
    assert DbAfter(s.db, s.clock, writes, 2) == s.db;
  }

  lemma StillNothing(limit: nat, k: Kind, writes: seq<Changes>, steps: seq<Event>, before: State, after: State)
    requires NothingToDo(k, writes, steps, before, after) && Still(before, writes)
    ensures FilmsIndexed(before.db, k, EtlConvergence.ChunkAt(limit, before.db, k, Cursor(before.cursors, k)), before,
                         after)
  {
    assert DbAfter(before.db, before.clock, writes, 1) == before.db;
    assert EtlConvergence.ChunkAt(limit, before.db, k, Cursor(before.cursors, k)) == [];
    SameIndex(before.db, k, [], before, after);
  }

  lemma StillSaved(limit: nat, k: Kind, writes: seq<Changes>, steps: seq<Event>, batches: seq<set<nat>>,
                   before: State, after: State)
    requires ChunkSaved(limit, k, writes, steps, batches, before, after) && Still(before, writes)
    requires FilmsOf(limit, k, before, writes) ==
             Targets(before.db, k, EtlConvergence.IdsOf(ChunkOf(limit, k, before, writes)))
    ensures FilmsIndexed(before.db, k, ChunkOf(limit, k, before, writes), before, after)
  {
    StillDocs(before, writes, FilmsOf(limit, k, before, writes));
  }

  lemma SameIndex(db: Database, k: Kind, chunk: seq<Stamp>, before: State, after: State)
    requires Targets(db, k, EtlConvergence.IdsOf(chunk)) == {}
    requires after.index == before.index && after.cursors == before.cursors
    ensures FilmsIndexed(db, k, chunk, before, after)
  {
  }

  lemma StillDocs(s: State, writes: seq<Changes>, films: set<nat>)
    requires |writes| >= 5 && Still(s, writes)
    ensures forall f <- DocsRead(s, writes, films) :: f in s.db.films && DocsRead(s, writes, films)[f] == Build(s.db, f)
  {
    assert DbAfter(s.db, s.clock, writes, 3) == s.db;
    assert DbAfter(s.db, s.clock, writes, 4) == s.db;
    assert DbAfter(s.db, s.clock, writes, 5) == s.db;
    DocsOfOne(s.db, films);
  }

  /** If nothing changes and the steps suffice, the cycle is not cut. */
  lemma StillEnough(limit: nat, k: Kind, writes: seq<Changes>, steps: seq<Event>, batches: seq<set<nat>>, cut: bool,
                    before: State, after: State)
    requires cut ==> |steps| == |writes| <= 5 + |after.db.films.Keys| && after.db == DbAfter(before.db, before.clock,
                                                                                           writes, |writes|)
    requires !cut ==> CycleDone(limit, k, writes, steps, batches, before, after)
    ensures Still(before, writes) && |writes| > 5 + |before.db.films.Keys| ==>
              !cut && FilmsIndexed(before.db, k, EtlConvergence.ChunkAt(limit, before.db, k, Cursor(before.cursors, k)),
                                   before, after)
  {
    if Still(before, writes) {
      assert DbAfter(before.db, before.clock, writes, |writes|) == before.db;
      if !cut { StillCycle(limit, k, writes, steps, batches, before, after); }
    }
  }
}
