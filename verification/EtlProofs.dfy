/** The index agrees with the database, whatever the database and the pipelines do. */
module EtlProofs {
  import opened Options
  import opened Keyset
  import opened Etl

  // ---------- A transaction ----------

  /** What a document depends on and did not change is as it was before the transaction. */
  lemma WriteFrame(db: Database, c: Changes, now: nat, f: nat, since: nat)
    requires since < now && f in Apply(db, c, now).films && Unchanged(Apply(db, c, now), f, since)
    ensures var db' := Apply(db, c, now);
            && f in db.films && db'.films[f] == db.films[f]
            && (forall k :: Sources(db', k, f) == Sources(db, k, f))
            && GenresOf(db', f) == GenresOf(db, f) && CastOf(db', f) == CastOf(db, f)
            && Unchanged(db, f, since)
  {
    var db' := Apply(db, c, now);
    assert forall x <- Sources(db', FilmKind, f) :: x.modified <= since;
    assert Stamp(db'.films[f].modified, f) in Sources(db', FilmKind, f);
    assert db'.films[f] == db.films[f];
    forall g | g in db.films[f].genres && g in db'.genres ensures g in db.genres && db'.genres[g] == db.genres[g] {
      assert Stamp(db'.genres[g].modified, g) in Sources(db', GenreKind, f);
    }
    forall cr | cr in db.films[f].cast && cr.person in db'.persons
      ensures cr.person in db.persons && db'.persons[cr.person] == db.persons[cr.person]
    {
      assert Stamp(db'.persons[cr.person].modified, cr.person) in Sources(db', PersonKind, f);
    }
    assert Sources(db', GenreKind, f) == Sources(db, GenreKind, f);
    assert Sources(db', PersonKind, f) == Sources(db, PersonKind, f);
    forall k ensures Sources(db', k, f) == Sources(db, k, f) {
      match k
      case FilmKind =>
      case GenreKind =>
      case PersonKind =>
    }
  }

  lemma WriteKeepsTimes(s: State, c: Changes)
    requires TimesOk(s)
    ensures TimesOk(Next(0, s, Write(c)))
  {
    var s' := Next(0, s, Write(c));
    forall k ensures forall x <- Stamps(s'.db, k) :: 0 < x.modified <= s'.clock {
      forall x <- Stamps(s'.db, k) ensures 0 < x.modified <= s'.clock {
        assert x.modified == s'.clock || x in Stamps(s.db, k);
      }
    }
  }

  lemma WriteKeepsAgreement(s: State, c: Changes)
    requires Agrees(s) && TimesOk(s)
    ensures Agrees(Next(0, s, Write(c)))
  {
    var s' := Next(0, s, Write(c));
    forall f <- s'.db.films ensures Dirty(s'.db, s'.cursors, f) || UpToDate(s'.db, s'.index, f) {
      if Unchanged(s'.db, f, s.clock) {
        WriteFrame(s.db, c, s'.clock, f, s.clock);
        if Dirty(s.db, s.cursors, f) {
          var k :| Beyond(s.db, s.cursors, k, f);
          assert Beyond(s'.db, s'.cursors, k, f);
        }
      } else {
        var k, x :| x in Sources(s'.db, k, f) && x.modified > s.clock;
        assert Less(Cursor(s'.cursors, k), x);
        assert Beyond(s'.db, s'.cursors, k, f);
      }
    }
  }

  lemma WriteKeepsFilms(db: Database, c: Changes, now: nat, cs: Cursors, k: Kind, next: Stamp, since: nat,
                        films: set<nat>)
    requires FilmsOk(db, cs, k, next, since, films) && since < now && next.modified <= since
    ensures FilmsOk(Apply(db, c, now), cs, k, next, since, films)
  {
  }

  lemma WriteKeepsReads(db: Database, c: Changes, now: nat, since: nat, films: set<nat>,
                        attrs: map<nat, Attrs>, genres: map<nat, set<(nat, string)>>)
    requires since < now
    ensures AttrsOk(db, since, films, attrs) ==> AttrsOk(Apply(db, c, now), since, films, attrs)
    ensures GenresOk(db, since, films, genres) ==> GenresOk(Apply(db, c, now), since, films, genres)
  {
    var db' := Apply(db, c, now);
    if GenresOk(db, since, films, genres) {
      forall f <- db'.films | f in films && Unchanged(db', f, since)
          ensures f in genres && genres[f] == GenresOf(db', f) {
        WriteFrame(db, c, now, f, since);
      }
    }
  }

  lemma WriteKeepsDocs(db: Database, c: Changes, now: nat, since: nat, films: set<nat>,
                       docs: map<nat, Doc>, index: map<nat, Doc>)
    requires since < now && DocsOk(db, since, films, docs, index)
    ensures DocsOk(Apply(db, c, now), since, films, docs, index)
  {
    var db' := Apply(db, c, now);
    forall f <- db'.films | Unchanged(db', f, since)
      ensures f in db.films && Unchanged(db, f, since) && Build(db', f) == Build(db, f)
    {
      WriteFrame(db, c, now, f, since);
    }
  }

  lemma WriteKeepsSelected(db: Database, c: Changes, now: nat, cs: Cursors, k: Kind, next: Stamp, ids: set<nat>)
    requires forall x <- Stamps(db, k) :: Less(Cursor(cs, k), x) && AtMost(x, next) ==> x.id in ids
    requires next.modified < now
    ensures forall x <- Stamps(Apply(db, c, now), k) :: Less(Cursor(cs, k), x) && AtMost(x, next) ==> x.id in ids
  {
  }

  lemma WriteKeepsCycle(s: State, s': State, c: Changes)
    requires CycleOk(s) && TimesOk(s)
    requires s' == s.(db := Apply(s.db, c, s.clock + 1), clock := s.clock + 1)
    ensures CycleOk(s')
  {
    match s.cycle
    case Resting =>
    case Selected(k, next, since, ids) =>
      WriteKeepsSelected(s.db, c, s'.clock, s.cursors, k, next, ids);
    case Targeted(k, next, since, films) =>
      WriteKeepsFilms(s.db, c, s'.clock, s.cursors, k, next, since, films);
    case FilmsRead(k, next, since, films, attrs) =>
      WriteKeepsFilms(s.db, c, s'.clock, s.cursors, k, next, since, films);
      WriteKeepsReads(s.db, c, s'.clock, since, films, attrs, map[]);
    case GenresRead(k, next, since, films, attrs, genres) =>
      WriteKeepsFilms(s.db, c, s'.clock, s.cursors, k, next, since, films);
      WriteKeepsReads(s.db, c, s'.clock, since, films, attrs, genres);
    case Saving(k, next, since, films, docs) =>
      WriteKeepsFilms(s.db, c, s'.clock, s.cursors, k, next, since, films);
      WriteKeepsDocs(s.db, c, s'.clock, since, films, docs, s.index);
  }

  lemma WriteKeeps(s: State, c: Changes)
    requires Inv(s)
    ensures Inv(Next(0, s, Write(c)))
  {
    WriteKeepsTimes(s, c);
    WriteKeepsAgreement(s, c);
    WriteKeepsCycle(s, Next(0, s, Write(c)), c);
  }

  // ---------- The pipeline's own steps ----------

  lemma SelectKeeps(limit: nat, s: State, k: Kind)
    requires Inv(s)
    ensures Inv(Next(limit, s, Select(k)))
  {
    var rows := After(Stamps(s.db, k), Cursor(s.cursors, k));
    var chunk := Chunk(rows, limit);
    if s.cycle == Resting && chunk != [] {
      ChunkIsPrefix(rows, limit);
      ChunkCovers(rows, limit);
      var next := chunk[|chunk| - 1];
      assert next in Stamps(s.db, k);
      forall x <- Stamps(s.db, k) | Less(Cursor(s.cursors, k), x) && AtMost(x, next)
        ensures x.id in (set x | x in chunk :: x.id)
      {
        assert x in rows;
      }
    }
  }

  lemma TargetKeeps(limit: nat, s: State)
    requires Inv(s)
    ensures Inv(Next(limit, s, Target))
  {
  }

  lemma ReadFilmsKeeps(limit: nat, s: State)
    requires Inv(s)
    ensures Inv(Next(limit, s, ReadFilms))
  {
  }

  lemma ReadGenreRowsKeeps(limit: nat, s: State)
    requires Inv(s)
    ensures Inv(Next(limit, s, ReadGenreRows))
  {
  }

  lemma UnchangedFilm(db: Database, f: nat, since: nat)
    requires f in db.films && Unchanged(db, f, since)
    ensures db.films[f].modified <= since
  {
    assert Stamp(db.films[f].modified, f) in Sources(db, FilmKind, f);
    assert forall x <- Sources(db, FilmKind, f) :: x.modified <= since;
  }

  lemma ReadPersonRowsKeeps(limit: nat, s: State)
    requires Inv(s)
    ensures Inv(Next(limit, s, ReadPersonRows))
  {
    if s.cycle.GenresRead? {
      var c := s.cycle;
      var docs := BuildDocs(s.db, c.attrs, c.genres);
      forall f <- s.db.films | f in c.films && Unchanged(s.db, f, c.since)
          ensures f in docs && docs[f] == Build(s.db, f) {
        UnchangedFilm(s.db, f, c.since);
      }
      forall f <- docs ensures f in s.db.films && (Unchanged(s.db, f, c.since) ==> docs[f] == Build(s.db, f)) {
        if Unchanged(s.db, f, c.since) {
          UnchangedFilm(s.db, f, c.since);
          assert f in c.films;
        }
      }
      assert DocsOk(s.db, c.since, c.films, docs, s.index);
    }
  }

  /** A film that is clean under some cursors did not change after the time they cover. */
  lemma CleanIsUnchanged(db: Database, cs: Cursors, f: nat, since: nat)
    requires f in db.films && CursorsOk(cs, since) && !Dirty(db, cs, f)
    ensures Unchanged(db, f, since)
  {
    forall k, x | x in Sources(db, k, f) ensures x.modified <= since {
      assert !Beyond(db, cs, k, f);
      assert !Less(Cursor(cs, k), x);
    }
  }

  lemma SaveKeeps(limit: nat, s: State, batch: set<nat>)
    requires Inv(s)
    ensures Inv(Next(limit, s, Save(batch)))
  {
    if s.cycle.Saving? {
      var s' := Next(limit, s, Save(batch));
      var c := s.cycle;
      forall f <- s'.db.films ensures Dirty(s'.db, s'.cursors, f) || UpToDate(s'.db, s'.index, f) {
        if !Dirty(s.db, s.cursors, f) && f in c.docs && f in batch {
          CleanIsUnchanged(s.db, s.cursors, f, c.since);
        }
      }
      assert DocsOk(s'.db, c.since, c.films, s'.cycle.docs, s'.index);
    }
  }

  lemma CheckpointKeeps(limit: nat, s: State)
    requires Inv(s)
    ensures Inv(Next(limit, s, Checkpoint))
  {
    if s.cycle.Saving? && s.cycle.docs == map[] {
      var s' := Next(limit, s, Checkpoint);
      var c := s.cycle;
      forall k ensures Cursor(s'.cursors, k).modified <= c.since {
        assert Cursor(s'.cursors, k) == if k == c.kind then c.next else Cursor(s.cursors, k);
      }
      forall f <- s'.db.films | !Dirty(s'.db, s'.cursors, f) ensures UpToDate(s'.db, s'.index, f) {
        CleanIsUnchanged(s'.db, s'.cursors, f, c.since);
        if Dirty(s.db, s.cursors, f) {
          var k :| Beyond(s.db, s.cursors, k, f);
          assert !Beyond(s'.db, s'.cursors, k, f);
          var x :| x in Sources(s.db, k, f) && Less(Cursor(s.cursors, k), x);
          UnchangedFilm(s.db, f, c.since);
          assert !Less(Cursor(s'.cursors, k), x);
          assert k == c.kind && AtMost(x, c.next);
          assert f in c.films;
        }
      }
    }
  }

  lemma StepKeeps(limit: nat, s: State, e: Event)
    requires Inv(s)
    ensures Inv(Next(limit, s, e))
  {
    match e
    case Write(c) => WriteKeeps(s, c);
    case Select(k) => SelectKeeps(limit, s, k);
    case Target => TargetKeeps(limit, s);
    case ReadFilms => ReadFilmsKeeps(limit, s);
    case ReadGenreRows => ReadGenreRowsKeeps(limit, s);
    case ReadPersonRows => ReadPersonRowsKeeps(limit, s);
    case Save(batch) => SaveKeeps(limit, s, batch);
    case Checkpoint => CheckpointKeeps(limit, s);
    case Crash =>
  }

  // ---------- Theorems over every run ----------

  lemma {:induction false} RunKeeps(limit: nat, events: seq<Event>)
    ensures Inv(Run(limit, INIT, events))
  {
    if events != [] {
      RunKeeps(limit, events[..|events| - 1]);
      StepKeeps(limit, Run(limit, INIT, events[..|events| - 1]), events[|events| - 1]);
    }
  }

  /** Index agreement: in every reachable state, with transactions between any two steps and
      crashes anywhere, a film none of whose rows lies beyond its cursor has the document
      built from the database as it is now. */
  lemma IndexAgrees(limit: nat, events: seq<Event>, f: nat)
    requires var s := Run(limit, INIT, events);
             && f in s.db.films
             && AtMost(Stamp(s.db.films[f].modified, f), s.cursors.film)
             && (forall g <- s.db.films[f].genres :: g in s.db.genres ==>
                   AtMost(Stamp(s.db.genres[g].modified, g), s.cursors.genre))
             && (forall c <- s.db.films[f].cast :: c.person in s.db.persons ==>
                   AtMost(Stamp(s.db.persons[c.person].modified, c.person), s.cursors.person))
    ensures var s := Run(limit, INIT, events); f in s.index && s.index[f] == Build(s.db, f)
  {
    RunKeeps(limit, events);
    var s := Run(limit, INIT, events);
    forall k ensures !Beyond(s.db, s.cursors, k, f) {
      match k
      case FilmKind =>
      case GenreKind =>
      case PersonKind =>
    }
  }
}
