/** On a database that stands still a pipeline catches up in the least number of cycles,
    exactly when no chunk it meets is left without a film. */
module EtlConvergence {
  import opened Options
  import opened Keyset
  import opened Etl
  import opened EtlProofs

  ghost function ChunkAt(limit: nat, db: Database, k: Kind, cp: Stamp): seq<Stamp> {
    Chunk(After(Stamps(db, k), cp), limit)
  }

  function IdsOf(chunk: seq<Stamp>): set<nat> {
    set x | x in chunk :: x.id
  }

  /** One uninterrupted cycle of pipeline `k`: its queries, its writes and its checkpoint. */
  function CycleEvents(k: Kind, films: set<nat>): seq<Event> {
    [Select(k), Target, ReadFilms, ReadGenreRows, ReadPersonRows, Save(films), Checkpoint]
  }

  ghost function OneCycle(limit: nat, s: State, k: Kind): State {
    Run(limit, s, CycleEvents(k, s.db.films.Keys))
  }

  lemma RunStep(limit: nat, s: State, events: seq<Event>, e: Event)
    ensures Run(limit, s, events + [e]) == Next(limit, Run(limit, s, events), e)
  {
  }

  lemma TwoSteps(limit: nat, s: State, before: seq<Event>, a: Event, b: Event)
    ensures Run(limit, s, before + [a, b]) == Next(limit, Next(limit, Run(limit, s, before), a), b)
  {
    var mid := before + [a];
    assert mid + [b] == before + [a, b];
    RunStep(limit, s, before, a);
    RunStep(limit, s, mid, b);
  }

  lemma SevenSteps(limit: nat, s: State, a: Event, b: Event, c: Event, d: Event, e: Event, f: Event, g: Event)
    ensures Run(limit, s, [a, b, c, d, e, f, g])
         == Next(limit,
                 Next(limit, Next(limit, Next(limit, Next(limit, Next(limit, Next(limit, s, a), b), c), d), e), f), g)
  {
    TwoSteps(limit, s, [], a, b);
    assert [] + [a, b] == [a, b] && [a, b] + [c, d] == [a, b, c, d];
    TwoSteps(limit, s, [a, b], c, d);
    assert [a, b, c, d] + [e, f] == [a, b, c, d, e, f] && [a, b, c, d, e, f] + [g] == [a, b, c, d, e, f, g];
    TwoSteps(limit, s, [a, b, c, d], e, f);
    RunStep(limit, s, [a, b, c, d, e, f], g);
  }

  /** The five queries of a cycle on a database that stands still. */
  lemma QueriesGive(limit: nat, s: State, k: Kind)
    requires s.cycle == Resting && ChunkAt(limit, s.db, k, Cursor(s.cursors, k)) != []
    ensures var chunk := ChunkAt(limit, s.db, k, Cursor(s.cursors, k));
            var films := Targets(s.db, k, IdsOf(chunk));
            var docs := map f | f in films :: Build(s.db, f);
            Next(limit, Next(limit, Next(limit, Next(limit, Next(limit, s, Select(k)), Target), ReadFilms),
                             ReadGenreRows), ReadPersonRows)
              == s.(cycle := if docs == map[] then Resting
                             else Saving(k, chunk[|chunk| - 1], s.clock, films, docs))
  {
    var chunk := ChunkAt(limit, s.db, k, Cursor(s.cursors, k));
    var films := Targets(s.db, k, IdsOf(chunk));
    var s1 := Next(limit, s, Select(k));
    assert s1 == s.(cycle := Selected(k, chunk[|chunk| - 1], s.clock, IdsOf(chunk)));
    var s2 := Next(limit, s1, Target);
    assert s2 == s.(cycle := Targeted(k, chunk[|chunk| - 1], s.clock, films));
    ReadingsGive(limit, s2, k, chunk[|chunk| - 1], films);
  }

  /** The three readings of one database build its documents. */
  lemma ReadingsGive(limit: nat, s: State, k: Kind, next: Stamp, films: set<nat>)
    requires s.cycle == Targeted(k, next, s.clock, films) && films <= s.db.films.Keys
    ensures var docs := map f | f in films :: Build(s.db, f);
            Next(limit, Next(limit, Next(limit, s, ReadFilms), ReadGenreRows), ReadPersonRows)
              == s.(cycle := if docs == map[] then Resting else Saving(k, next, s.clock, films, docs))
  {
    assert BuildDocs(s.db, ReadAttrs(s.db, films), ReadGenres(s.db, films)) == map f | f in films :: Build(s.db, f);
  }

  /** Its writes. */
  lemma WritesGive(limit: nat, s: State, k: Kind, next: Stamp, films: set<nat>, docs: map<nat, Doc>)
    requires s.cycle == Saving(k, next, s.clock, films, docs) && docs.Keys <= s.db.films.Keys
    ensures Next(limit, Next(limit, s, Save(s.db.films.Keys)), Checkpoint)
         == s.(index := s.index + docs, cursors := Move(s.cursors, k, next), cycle := Resting)
  {
  }

  /** A cycle with nothing to do, or whose chunk touches no film, changes nothing; any other
      indexes exactly the films its chunk touches and moves its cursor past the chunk. */
  lemma CycleOutcome(limit: nat, s: State, k: Kind)
    requires s.cycle == Resting
    ensures var chunk := ChunkAt(limit, s.db, k, Cursor(s.cursors, k));
            var films := Targets(s.db, k, IdsOf(chunk));
            OneCycle(limit, s, k) ==
              if films == {} then s
              else s.(index := s.index + map f | f in films :: Build(s.db, f),
                      cursors := Move(s.cursors, k, chunk[|chunk| - 1]))
  {
    var chunk := ChunkAt(limit, s.db, k, Cursor(s.cursors, k));
    var films := Targets(s.db, k, IdsOf(chunk));
    var docs := map f | f in films :: Build(s.db, f);
    SevenSteps(limit, s, Select(k), Target, ReadFilms, ReadGenreRows, ReadPersonRows, Save(s.db.films.Keys),
               Checkpoint);
    if chunk == [] {
      assert films == {};
      RestStays(limit, s, k);
    } else {
      QueriesGive(limit, s, k);
      if films == {} {
        assert docs == map[];
        SavesNothing(limit, s, s.db.films.Keys);
      } else {
        var f :| f in films;
        assert f in docs;
        var next := chunk[|chunk| - 1];
        WritesGive(limit, s.(cycle := Saving(k, next, s.clock, films, docs)), k, next, films, docs);
      }
    }
  }

  lemma SavesNothing(limit: nat, s: State, all: set<nat>)
    requires s.cycle == Resting
    ensures Next(limit, Next(limit, s, Save(all)), Checkpoint) == s
  {
  }

  lemma RestStays(limit: nat, s: State, k: Kind)
    requires s.cycle == Resting && ChunkAt(limit, s.db, k, Cursor(s.cursors, k)) == []
    ensures Next(limit, Next(limit, Next(limit, Next(limit, Next(limit, s, Select(k)), Target), ReadFilms),
                             ReadGenreRows), ReadPersonRows) == s
    ensures Next(limit, Next(limit, s, Save(s.db.films.Keys)), Checkpoint) == s
  {
  }

  /** The rows still beyond the cursor. */
  ghost function Remaining(s: State, k: Kind): nat {
    |After(Stamps(s.db, k), Cursor(s.cursors, k))|
  }

  ghost function Cycles(limit: nat, s: State, k: Kind, n: nat): State {
    if n == 0 then s else OneCycle(limit, Cycles(limit, s, k, n - 1), k)
  }

  /** Every chunk the cursor would meet from `cp` touches some film. */
  ghost predicate AllTouch(limit: nat, db: Database, k: Kind, cp: Stamp)
    decreases |After(Stamps(db, k), cp)|
  {
    var chunk := ChunkAt(limit, db, k, cp);
    chunk == [] ||
    (&& Targets(db, k, IdsOf(chunk)) != {}
     && (ChunkAdvances(Stamps(db, k), cp, limit);
         AllTouch(limit, db, k, chunk[|chunk| - 1])))
  }

  /** What is left of `n` rows after `cycles` chunks of `limit`. */
  function Left(n: nat, limit: nat, cycles: nat): nat {
    if cycles == 0 then n
    else var left := Left(n, limit, cycles - 1); if left < limit then 0 else left - limit
  }

  lemma {:induction false} CyclesKeep(limit: nat, s: State, k: Kind, n: nat)
    requires s.cycle == Resting
    ensures Cycles(limit, s, k, n).cycle == Resting && Cycles(limit, s, k, n).db == s.db
  {
    if n > 0 {
      CyclesKeep(limit, s, k, n - 1);
      CycleOutcome(limit, Cycles(limit, s, k, n - 1), k);
    }
  }

  /** Moving the cursor past a chunk takes the whole chunk off what remains. */
  lemma ChunkCounts(limit: nat, rows: set<Stamp>, cp: Stamp)
    requires limit > 0 && Chunk(After(rows, cp), limit) != []
    ensures var chunk := Chunk(After(rows, cp), limit);
            |After(rows, chunk[|chunk| - 1])| == Left(|After(rows, cp)|, limit, 1)
  {
    ChunkIsPrefix(After(rows, cp), limit);
    ChunkAdvances(rows, cp, limit);
    LeftOne(|After(rows, cp)|, limit);
  }

  lemma NothingLeft(limit: nat, rows: set<Stamp>)
    requires limit > 0 && Chunk(rows, limit) == []
    ensures rows == {} && Left(|rows|, limit, 1) == 0
  {
    ChunkIsPrefix(rows, limit);
    LeftOne(|rows|, limit);
  }

  /** A cycle whose chunk touches a film passes it. */
  lemma CycleCounts(limit: nat, s: State, k: Kind)
    requires limit > 0 && s.cycle == Resting && AllTouch(limit, s.db, k, Cursor(s.cursors, k))
    ensures var t := OneCycle(limit, s, k);
            && AllTouch(limit, s.db, k, Cursor(t.cursors, k))
            && Remaining(t, k) == Left(Remaining(s, k), limit, 1)
            && t.db == s.db && t.cycle == Resting
  {
    var cp := Cursor(s.cursors, k);
    var chunk := ChunkAt(limit, s.db, k, cp);
    CycleOutcome(limit, s, k);
    if chunk == [] {
      NothingTouched(s.db, k);
      NothingLeft(limit, After(Stamps(s.db, k), cp));
    } else {
      MovedCursor(s.cursors, k, chunk[|chunk| - 1]);
      ChunkCounts(limit, Stamps(s.db, k), cp);
    }
  }

  lemma MovedCursor(c: Cursors, k: Kind, to: Stamp)
    ensures Cursor(Move(c, k, to), k) == to
  {
  }

  lemma LeftOne(n: nat, limit: nat)
    ensures Left(n, limit, 1) == if n < limit then 0 else n - limit
  {
  }

  /** While chunks touch films every cycle takes one full chunk, or all that is left. */
  lemma {:induction false} EveryCycleCounts(limit: nat, s: State, k: Kind, n: nat)
    requires limit > 0 && s.cycle == Resting && AllTouch(limit, s.db, k, Cursor(s.cursors, k))
    ensures var t := Cycles(limit, s, k, n);
            && AllTouch(limit, s.db, k, Cursor(t.cursors, k))
            && Remaining(t, k) == Left(Remaining(s, k), limit, n)
  {
    if n > 0 {
      EveryCycleCounts(limit, s, k, n - 1);
      CyclesKeep(limit, s, k, n - 1);
      var t := Cycles(limit, s, k, n - 1);
      CycleCounts(limit, t, k);
      assert Left(Remaining(t, k), limit, 0) == Remaining(t, k);
    }
  }

  lemma NothingTouched(db: Database, k: Kind)
    ensures Targets(db, k, IdsOf([])) == {}
  {
  }

  lemma {:induction false} LeftIs(n: nat, limit: nat, cycles: nat)
    ensures Left(n, limit, cycles) == if n <= cycles * limit then 0 else n - cycles * limit
  {
    if cycles > 0 {
      LeftIs(n, limit, cycles - 1);
      assert cycles * limit == (cycles - 1) * limit + limit;
    }
  }

  /** Convergence: with `n` rows beyond the cursor, and chunks that touch films, the cursor
      has passed every row after exactly the least number of cycles that covers `n`. */
  lemma CatchesUp(limit: nat, s: State, k: Kind, cycles: nat)
    requires limit > 0 && s.cycle == Resting && AllTouch(limit, s.db, k, Cursor(s.cursors, k))
    ensures Remaining(Cycles(limit, s, k, cycles), k) == 0 <==> Remaining(s, k) <= cycles * limit
  {
    EveryCycleCounts(limit, s, k, cycles);
    LeftIs(Remaining(s, k), limit, cycles);
  }

  /** A chunk that touches no film stops its pipeline for good. */
  lemma {:induction false} StuckForever(limit: nat, s: State, k: Kind, n: nat)
    requires s.cycle == Resting
    requires Targets(s.db, k, IdsOf(ChunkAt(limit, s.db, k, Cursor(s.cursors, k)))) == {}
    ensures Cycles(limit, s, k, n) == s
  {
    if n > 0 {
      StuckForever(limit, s, k, n - 1);
      CycleOutcome(limit, s, k);
    }
  }

  lemma {:induction false} CyclesCompose(limit: nat, s: State, k: Kind, n: nat)
    requires n > 0
    ensures Cycles(limit, s, k, n) == Cycles(limit, OneCycle(limit, s, k), k, n - 1)
  {
    if n > 1 {
      CyclesCompose(limit, s, k, n - 1);
    }
  }

  /** Otherwise: a pipeline that ever catches up met only chunks that touch films. */
  lemma {:induction false} CaughtUpMeansTouched(limit: nat, s: State, k: Kind, n: nat)
    requires limit > 0 && s.cycle == Resting && Remaining(Cycles(limit, s, k, n), k) == 0
    ensures AllTouch(limit, s.db, k, Cursor(s.cursors, k))
    decreases n
  {
    var cp := Cursor(s.cursors, k);
    var chunk := ChunkAt(limit, s.db, k, cp);
    ChunkIsPrefix(After(Stamps(s.db, k), cp), limit);
    if chunk != [] {
      if Targets(s.db, k, IdsOf(chunk)) == {} {
        StuckForever(limit, s, k, n);
      } else {
        assert n > 0;
        CyclesCompose(limit, s, k, n);
        CycleOutcome(limit, s, k);
        CaughtUpMeansTouched(limit, OneCycle(limit, s, k), k, n - 1);
      }
    }
  }

  /** The exact condition: a pipeline catches up if and only if every chunk it would meet
      touches a film. */
  lemma CatchesUpExactlyWhen(limit: nat, s: State, k: Kind)
    requires limit > 0 && s.cycle == Resting
    ensures (exists n :: Remaining(Cycles(limit, s, k, n), k) == 0) <==> AllTouch(limit, s.db, k, Cursor(s.cursors, k))
  {
    if AllTouch(limit, s.db, k, Cursor(s.cursors, k)) {
      var n := Remaining(s, k);
      assert n <= n * limit;
      CatchesUp(limit, s, k, n);
      assert Remaining(Cycles(limit, s, k, n), k) == 0;
    }
    if exists n :: Remaining(Cycles(limit, s, k, n), k) == 0 {
      var n :| Remaining(Cycles(limit, s, k, n), k) == 0;
      CaughtUpMeansTouched(limit, s, k, n);
    }
  }

  /** A film touches itself: the film pipeline always catches up. */
  lemma {:induction false} FilmsAlwaysTouch(limit: nat, db: Database, cp: Stamp)
    ensures AllTouch(limit, db, FilmKind, cp)
    decreases |After(Stamps(db, FilmKind), cp)|
  {
    var chunk := ChunkAt(limit, db, FilmKind, cp);
    if chunk != [] {
      ChunkIsPrefix(After(Stamps(db, FilmKind), cp), limit);
      ChunkAdvances(Stamps(db, FilmKind), cp, limit);
      assert chunk[0] in Stamps(db, FilmKind);
      assert chunk[0].id in IdsOf(chunk);
      assert chunk[0].id in Targets(db, FilmKind, IdsOf(chunk));
      FilmsAlwaysTouch(limit, db, chunk[|chunk| - 1]);
    }
  }

  // ---------- A genre that blocks ----------

  /** Genres 1 to `n`, and their rows if written at moment 1. */
  function Genres(n: nat): (genres: map<nat, Named>)
    ensures forall g :: g in genres <==> 1 <= g <= n
  {
    if n == 0 then map[] else Genres(n - 1)[n := Named(0, "genre")]
  }

  function FirstRows(n: nat): (rows: set<Stamp>)
    ensures forall x :: x in rows <==> x.modified == 1 && 1 <= x.id <= n
  {
    if n == 0 then {} else FirstRows(n - 1) + {Stamp(1, n)}
  }

  lemma {:induction false} RowsCount(n: nat)
    ensures |FirstRows(n)| == n
  {
    if n > 0 { RowsCount(n - 1); }
  }

  /** `limit` genres that no film has, and one more, of film 7. */
  function Orphans(limit: nat): Changes {
    Changes(map[7 := Film(0, Attrs("film", None, None, 0), {limit + 1}, {})], Genres(limit + 1), map[])
  }

  lemma OrphansReached(limit: nat)
    ensures var s := Run(limit, INIT, [Write(Orphans(limit))]);
            && s.cycle == Resting && s.cursors.genre == ORIGIN
            && Stamps(s.db, GenreKind) == FirstRows(limit + 1)
            && s.db.films.Keys == {7} && s.db.films[7].genres == {limit + 1}
  {
    var c := Orphans(limit);
    RunStep(limit, INIT, [], Write(c));
    assert [] + [Write(c)] == [Write(c)];
    var s := Run(limit, INIT, [Write(c)]);
    assert s.db == Apply(INIT.db, c, 1);
    assert forall g :: g in s.db.genres <==> 1 <= g <= limit + 1;
    forall x ensures x in Stamps(s.db, GenreKind) <==> x in FirstRows(limit + 1) {
      if x in FirstRows(limit + 1) { assert x == Stamp(s.db.genres[x.id].modified, x.id); }
    }
  }

  /** A chunk of `limit` rows out of one more leaves out the last. */
  lemma LastLeftOut(limit: nat)
    ensures var rows := FirstRows(limit + 1);
            After(rows, ORIGIN) == rows && |rows| == limit + 1 && Stamp(1, limit + 1) !in Chunk(rows, limit)
  {
    var rows := FirstRows(limit + 1);
    var chunk := Chunk(rows, limit);
    RowsCount(limit + 1);
    ChunkIsPrefix(rows, limit);
    DistinctCount(chunk);
    var taken := set x | x in chunk;
    SubsetCount(rows, taken);
    assert |rows - taken| == 1;
    var y :| y in rows - taken;
    assert !Less(Stamp(1, limit + 1), y);
  }

  /** As many orphan genres as a chunk has rows: from this reachable state the genre pipeline
      does nothing for ever and never comes to the genre after them, which has a film. */
  lemma OrphanGenreBlocks(limit: nat, n: nat)
    requires 0 < limit
    ensures var s := Run(limit, INIT, [Write(Orphans(limit))]);
            && 7 in s.db.films && s.db.films[7].genres == {limit + 1}
            && Cycles(limit, s, GenreKind, n) == s
            && Remaining(s, GenreKind) == limit + 1 && !AllTouch(limit, s.db, GenreKind, Cursor(s.cursors, GenreKind))
  {
    var s := Run(limit, INIT, [Write(Orphans(limit))]);
    OrphansReached(limit);
    LastLeftOut(limit);
    var chunk := ChunkAt(limit, s.db, GenreKind, ORIGIN);
    ChunkIsPrefix(FirstRows(limit + 1), limit);
    assert limit + 1 !in IdsOf(chunk);
    StuckForever(limit, s, GenreKind, n);
  }

  /** When all three cursors have passed every row the whole index is right. */
  lemma CaughtUpIndexIsComplete(limit: nat, events: seq<Event>)
    requires var s := Run(limit, INIT, events);
             Remaining(s, FilmKind) == 0 && Remaining(s, GenreKind) == 0 && Remaining(s, PersonKind) == 0
    ensures var s := Run(limit, INIT, events); forall f <- s.db.films :: UpToDate(s.db, s.index, f)
  {
    RunKeeps(limit, events);
    var s := Run(limit, INIT, events);
    forall f <- s.db.films ensures !Dirty(s.db, s.cursors, f) {
      forall k ensures !Beyond(s.db, s.cursors, k, f) {
        assert Remaining(s, k) == 0 by {
          match k
          case FilmKind =>
          case GenreKind =>
          case PersonKind =>
        }
        NothingBeyond(s, k, f);
      }
    }
  }

  lemma NothingBeyond(s: State, k: Kind, f: nat)
    requires f in s.db.films && Remaining(s, k) == 0
    ensures !Beyond(s.db, s.cursors, k, f)
  {
    var todo := After(Stamps(s.db, k), Cursor(s.cursors, k));
    assert todo == {};
    SourcesAreRows(s.db, k, f);
    forall x <- Sources(s.db, k, f) ensures !Less(Cursor(s.cursors, k), x) {
      assert x !in todo && x in Stamps(s.db, k);
    }
  }

  lemma SourcesAreRows(db: Database, k: Kind, f: nat)
    requires f in db.films
    ensures forall x <- Sources(db, k, f) :: x in Stamps(db, k)
  {
  }
}
