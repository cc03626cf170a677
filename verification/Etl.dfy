/** The movies ETL: three keyset cursors, over films, genres and persons, feed one index of
    film documents while the database keeps changing between any two queries. */
module Etl {
  import opened Options
  import opened Keyset

  /** The columns of a film that are copied into its document. */
  datatype Attrs = Attrs(title: string, description: Option<string>, rating: Option<real>, level: int)

  datatype Credit = Credit(role: string, person: nat)

  /** A film row with its links; changing a link bumps the film. */
  datatype Film = Film(modified: nat, attrs: Attrs, genres: set<nat>, cast: set<Credit>)

  /** A genre or person row. */
  datatype Named = Named(modified: nat, name: string)

  datatype Database = Database(films: map<nat, Film>, genres: map<nat, Named>, persons: map<nat, Named>)

  /** One transaction: new or changed rows, all stamped with the same moment. */
  datatype Changes = Changes(films: map<nat, Film>, genres: map<nat, Named>, persons: map<nat, Named>)

  datatype Doc = Doc(attrs: Attrs, genres: set<(nat, string)>, cast: set<(Credit, string)>)

  datatype Kind = FilmKind | GenreKind | PersonKind

  datatype Cursors = Cursors(film: Stamp, genre: Stamp, person: Stamp)

  function Cursor(c: Cursors, k: Kind): Stamp {
    match k
    case FilmKind => c.film
    case GenreKind => c.genre
    case PersonKind => c.person
  }

  function Move(c: Cursors, k: Kind, to: Stamp): Cursors {
    match k
    case FilmKind => c.(film := to)
    case GenreKind => c.(genre := to)
    case PersonKind => c.(person := to)
  }

  // ---------- The queries ----------

  function Stamps(db: Database, k: Kind): set<Stamp> {
    match k
    case FilmKind => set f | f in db.films :: Stamp(db.films[f].modified, f)
    case GenreKind => set g | g in db.genres :: Stamp(db.genres[g].modified, g)
    case PersonKind => set p | p in db.persons :: Stamp(db.persons[p].modified, p)
  }

  /** The rows of kind `k` a film's document depends on. */
  function Sources(db: Database, k: Kind, f: nat): set<Stamp>
    requires f in db.films
  {
    match k
    case FilmKind => {Stamp(db.films[f].modified, f)}
    case GenreKind => set g | g in db.films[f].genres && g in db.genres :: Stamp(db.genres[g].modified, g)
    case PersonKind =>
      set c | c in db.films[f].cast && c.person in db.persons :: Stamp(db.persons[c.person].modified, c.person)
  }

  /** The films the changed rows with these identifiers touch. */
  function Targets(db: Database, k: Kind, ids: set<nat>): set<nat> {
    match k
    case FilmKind => set f | f in db.films && f in ids
    case GenreKind => set f | f in db.films && exists g <- db.films[f].genres :: g in ids
    case PersonKind => set f | f in db.films && exists c <- db.films[f].cast :: c.person in ids
  }

  function ReadAttrs(db: Database, ids: set<nat>): map<nat, Attrs> {
    map f | f in ids && f in db.films :: db.films[f].attrs
  }

  function GenresOf(db: Database, f: nat): set<(nat, string)> {
    if f in db.films then set g | g in db.films[f].genres && g in db.genres :: (g, db.genres[g].name) else {}
  }

  function CastOf(db: Database, f: nat): set<(Credit, string)> {
    if f in db.films then set c | c in db.films[f].cast && c.person in db.persons ::
        (c, db.persons[c.person].name) else {}
  }

  function ReadGenres(db: Database, ids: set<nat>): map<nat, set<(nat, string)>> {
    map f | f in ids :: GenresOf(db, f)
  }

  /** The documents of the films read, once their persons are read too. */
  function BuildDocs(db: Database, attrs: map<nat, Attrs>, genres: map<nat, set<(nat, string)>>): map<nat, Doc> {
    map f | f in attrs :: Doc(attrs[f], if f in genres then genres[f] else {}, CastOf(db, f))
  }

  /** The document of a film in one consistent database. */
  function Build(db: Database, f: nat): Doc
    requires f in db.films
  {
    Doc(db.films[f].attrs, GenresOf(db, f), CastOf(db, f))
  }

  // ---------- The system ----------

  /** How far the pipeline that is running has come: `next` is the checkpoint it will save
      and `since` the time of its first query. */
  datatype Cycle =
    | Resting
    | Selected(kind: Kind, next: Stamp, since: nat, ids: set<nat>)
    | Targeted(kind: Kind, next: Stamp, since: nat, films: set<nat>)
    | FilmsRead(kind: Kind, next: Stamp, since: nat, films: set<nat>, attrs: map<nat, Attrs>)
    | GenresRead(kind: Kind, next: Stamp, since: nat, films: set<nat>, attrs: map<nat, Attrs>,
                 genres: map<nat, set<(nat, string)>>)
    | Saving(kind: Kind, next: Stamp, since: nat, films: set<nat>, docs: map<nat, Doc>)

  datatype State = State(db: Database, clock: nat, index: map<nat, Doc>, cursors: Cursors, cycle: Cycle)

  const INIT := State(Database(map[], map[], map[]), 0, map[], Cursors(ORIGIN, ORIGIN, ORIGIN), Resting)

  datatype Event =
    | Write(changes: Changes)
    | Select(kind: Kind)
    | Target
    | ReadFilms
    | ReadGenreRows
    | ReadPersonRows
    | Save(batch: set<nat>)
    | Checkpoint
    | Crash

  function Stamped(films: map<nat, Film>, now: nat): map<nat, Film> {
    map f | f in films :: films[f].(modified := now)
  }

  function StampedNames(rows: map<nat, Named>, now: nat): map<nat, Named> {
    map g | g in rows :: rows[g].(modified := now)
  }

  /** Stamps strictly increase from transaction to transaction; nothing is deleted. */
  function Apply(db: Database, c: Changes, now: nat): Database {
    Database(db.films + Stamped(c.films, now), db.genres + StampedNames(c.genres, now),
             db.persons + StampedNames(c.persons, now))
  }

  function SaveDocs(index: map<nat, Doc>, docs: map<nat, Doc>, batch: set<nat>): map<nat, Doc> {
    index + map f | f in docs && f in batch :: docs[f]
  }

  /** One event, with chunks of `limit` rows; an event that cannot happen changes nothing. */
  ghost function Next(limit: nat, s: State, e: Event): State {
    match e
    case Write(c) => s.(db := Apply(s.db, c, s.clock + 1), clock := s.clock + 1)
    case Select(k) =>
      var chunk := Chunk(After(Stamps(s.db, k), Cursor(s.cursors, k)), limit);
      if s.cycle != Resting || chunk == [] then s
      else s.(cycle := Selected(k, chunk[|chunk| - 1], s.clock, set x | x in chunk :: x.id))
    case Target =>
      if !s.cycle.Selected? then s
      else s.(cycle := Targeted(s.cycle.kind, s.cycle.next, s.cycle.since, Targets(s.db, s.cycle.kind, s.cycle.ids)))
    case ReadFilms =>
      if !s.cycle.Targeted? then s
      else s.(cycle :=
          FilmsRead(s.cycle.kind, s.cycle.next, s.cycle.since, s.cycle.films, ReadAttrs(s.db, s.cycle.films)))
    case ReadGenreRows =>
      if !s.cycle.FilmsRead? then s
      else s.(cycle := GenresRead(s.cycle.kind, s.cycle.next, s.cycle.since, s.cycle.films, s.cycle.attrs,
                                  ReadGenres(s.db, s.cycle.films)))
    case ReadPersonRows =>
      if !s.cycle.GenresRead? then s else
      var docs := BuildDocs(s.db, s.cycle.attrs, s.cycle.genres);
      s.(cycle := if docs == map[] then Resting
                  else Saving(s.cycle.kind, s.cycle.next, s.cycle.since, s.cycle.films, docs))
    case Save(batch) =>
      if !s.cycle.Saving? then s
      else s.(index := SaveDocs(s.index, s.cycle.docs, batch), cycle := s.cycle.(docs := s.cycle.docs - batch))
    case Checkpoint =>
      if !s.cycle.Saving? || s.cycle.docs != map[] then s
      else s.(cursors := Move(s.cursors, s.cycle.kind, s.cycle.next), cycle := Resting)
    case Crash => s.(cycle := Resting)
  }

  ghost function Run(limit: nat, s: State, events: seq<Event>): State {
    if events == [] then s
    else Next(limit, Run(limit, s, events[..|events| - 1]), events[|events| - 1])
  }

  // ---------- The invariant ----------

  /** Some row the document depends on lies beyond the cursor of its kind. */
  ghost predicate Dirty(db: Database, c: Cursors, f: nat)
    requires f in db.films
  {
    exists k :: Beyond(db, c, k, f)
  }

  ghost predicate Beyond(db: Database, c: Cursors, k: Kind, f: nat)
    requires f in db.films
  {
    exists x <- Sources(db, k, f) :: Less(Cursor(c, k), x)
  }

  ghost predicate UpToDate(db: Database, index: map<nat, Doc>, f: nat)
    requires f in db.films
  {
    f in index && index[f] == Build(db, f)
  }

  ghost predicate Agrees(s: State) {
    forall f <- s.db.films :: Dirty(s.db, s.cursors, f) || UpToDate(s.db, s.index, f)
  }

  /** No row the document depends on changed after `since`. */
  ghost predicate Unchanged(db: Database, f: nat, since: nat)
    requires f in db.films
  {
    forall k :: forall x <- Sources(db, k, f) :: x.modified <= since
  }

  ghost predicate StampsOk(db: Database, clock: nat) {
    forall k :: forall x <- Stamps(db, k) :: 0 < x.modified <= clock
  }

  ghost predicate CursorsOk(c: Cursors, clock: nat) {
    forall k :: Cursor(c, k).modified <= clock
  }

  /** Every film touched by a row of the chunk is among the films, unless it changed since. */
  ghost predicate FilmsOk(db: Database, c: Cursors, k: Kind, next: Stamp, since: nat, films: set<nat>) {
    forall f <- db.films ::
      db.films[f].modified <= since && (exists x <- Sources(db, k, f) :: Less(Cursor(c, k), x) && AtMost(x, next)) ==>
        f in films
  }

  ghost predicate CycleOk(s: State) {
    match s.cycle
    case Resting => true
    case Selected(k, next, since, ids) =>
      forall x <- Stamps(s.db, k) :: Less(Cursor(s.cursors, k), x) && AtMost(x, next) ==> x.id in ids
    case Targeted(k, next, since, films) => FilmsOk(s.db, s.cursors, k, next, since, films)
    case FilmsRead(k, next, since, films, attrs) =>
      && FilmsOk(s.db, s.cursors, k, next, since, films)
      && AttrsOk(s.db, since, films, attrs)
    case GenresRead(k, next, since, films, attrs, genres) =>
      && FilmsOk(s.db, s.cursors, k, next, since, films)
      && AttrsOk(s.db, since, films, attrs)
      && GenresOk(s.db, since, films, genres)
    case Saving(k, next, since, films, docs) =>
      && FilmsOk(s.db, s.cursors, k, next, since, films)
      && DocsOk(s.db, since, films, docs, s.index)
  }

  /** What was read of a film is what the database says, unless it changed since. */
  ghost predicate AttrsOk(db: Database, since: nat, films: set<nat>, attrs: map<nat, Attrs>) {
    && (forall f <- attrs :: f in films && f in db.films)
    && (forall f <- db.films :: f in films && db.films[f].modified <= since ==>
          f in attrs && attrs[f] == db.films[f].attrs)
  }

  ghost predicate GenresOk(db: Database, since: nat, films: set<nat>, genres: map<nat, set<(nat, string)>>) {
    forall f <- db.films :: f in films && Unchanged(db, f, since) ==> f in genres && genres[f] == GenresOf(db, f)
  }

  /** A film of the cycle that did not change is either saved or waiting with its document. */
  ghost predicate DocsOk(db: Database, since: nat, films: set<nat>, docs: map<nat, Doc>, index: map<nat, Doc>) {
    && (forall f <- docs :: f in db.films && (Unchanged(db, f, since) ==> docs[f] == Build(db, f)))
    && (forall f <- db.films :: f in films && Unchanged(db, f, since) ==> f in docs || UpToDate(db, index, f))
  }

  ghost predicate TimesOk(s: State) {
    && StampsOk(s.db, s.clock) && CursorsOk(s.cursors, s.clock)
    && (s.cycle.Resting? || (s.cycle.since <= s.clock && s.cycle.next.modified <= s.cycle.since
                             && CursorsOk(s.cursors, s.cycle.since)
                             && Less(Cursor(s.cursors, s.cycle.kind), s.cycle.next)))
  }

  ghost predicate Inv(s: State) {
    Agrees(s) && TimesOk(s) && CycleOk(s)
  }
}
