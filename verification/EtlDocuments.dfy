/** The lists the transformer builds hold what the index is said to agree with. */
module EtlDocuments {
  import opened Options
  import Etl
  import opened Transformer

  /** The rows of the film-persons query for these films, in any order. */
  ghost predicate PersonRows(db: Etl.Database, films: set<nat>, rows: seq<CastRow>) {
    && (forall row <- rows :: row.film in films && row.film in db.films
          && Etl.Credit(row.role, row.person) in db.films[row.film].cast
          && row.person in db.persons && row.name == db.persons[row.person].name)
    && (forall f <- films :: f in db.films ==>
          forall c <- db.films[f].cast :: c.person in db.persons ==>
            CastRow(f, c.role, c.person, db.persons[c.person].name) in rows)
  }

  /** The list of a role holds exactly the credits of that role in the film's document. */
  lemma ListsEncodeCast(db: Etl.Database, films: set<nat>, rows: seq<CastRow>, f: nat, role: string, p: FilmPerson)
    requires PersonRows(db, films, rows) && f in films && f in db.films
    requires role in {DIRECTOR, ACTOR, WRITER} && forall c <- db.films[f].cast :: c.role in {DIRECTOR, ACTOR, WRITER}
    ensures p in ListFor(CastIn(GroupPersons(rows), f), role)
            <==> (Etl.Credit(role, p.id), p.name) in Etl.CastOf(db, f)
  {
    var list := ListFor(CastIn(GroupPersons(rows), f), role);
    FilmSide(rows, f, role, p.id);
    if p in list {
      assert Lists(list, p.id);
      FilmSideNames(rows, f, role, p);
    }
    if (Etl.Credit(role, p.id), p.name) in Etl.CastOf(db, f) {
      var row := CastRow(f, role, p.id, p.name);
      assert row in rows;
      var q :| q in list && q.id == p.id;
      FilmSideNames(rows, f, role, q);
      assert q == p;
    }
  }

  /** The rows of the film-genres query for these films, in any order. */
  ghost predicate GenreRows(db: Etl.Database, films: set<nat>, rows: seq<GenreRow>) {
    && (forall row <- rows :: row.film in films && row.film in db.films && row.genre in db.films[row.film].genres
          && row.genre in db.genres && row.name == db.genres[row.genre].name)
    && (forall f <- films :: f in db.films ==>
          forall g <- db.films[f].genres :: g in db.genres ==> GenreRow(f, g, db.genres[g].name) in rows)
  }

  /** The list of genres holds exactly the genres of the film's document. */
  lemma ListsEncodeGenres(db: Etl.Database, films: set<nat>, rows: seq<GenreRow>, grouped: map<nat, seq<Genre>>,
                          f: nat, g: Genre)
    requires GenreRows(db, films, rows) && Gathered(grouped, rows) && f in films && f in db.films
    ensures g in GenresIn(grouped, f) <==> (g.id, g.name) in Etl.GenresOf(db, f)
  {
    if g in GenresIn(grouped, f) {
      assert GenreRow(f, g.id, g.name) in rows;
    }
    if (g.id, g.name) in Etl.GenresOf(db, f) {
      assert GenreRow(f, g.id, g.name) in rows;
      assert HasGenre(GenresIn(grouped, f), g.id);
      var x :| x in GenresIn(grouped, f) && x.id == g.id;
      assert GenreRow(f, x.id, x.name) in rows;
      assert x == g;
    }
  }

  /** The document of a film: its own columns, and its genres and credits that still have a
      row, each with the name in that row. */
  lemma DocumentExactly(db: Etl.Database, f: nat)
    requires f in db.films
    ensures Etl.Build(db, f).attrs == db.films[f].attrs
    ensures forall g, name :: (g, name) in Etl.Build(db, f).genres <==>
              g in db.films[f].genres && g in db.genres && db.genres[g].name == name
    ensures forall c, name :: (c, name) in Etl.Build(db, f).cast <==>
              c in db.films[f].cast && c.person in db.persons && db.persons[c.person].name == name
  {
    forall g, name ensures (g, name) in Etl.Build(db, f).genres <==>
        g in db.films[f].genres && g in db.genres && db.genres[g].name == name {
      if g in db.films[f].genres && g in db.genres { assert (g, db.genres[g].name) in Etl.GenresOf(db, f); }
    }
    forall c, name ensures (c, name) in Etl.Build(db, f).cast <==>
        c in db.films[f].cast && c.person in db.persons && db.persons[c.person].name == name {
      if c in db.films[f].cast && c.person in db.persons {
        assert (c, db.persons[c.person].name) in Etl.CastOf(db, f);
      }
    }
  }
}
