/** Rows to documents. The film documents and the person documents are built from two
    different joins of one link table; the lemmas show that both encode that table. */
module Transformer {
  import opened Options

  const DIRECTOR := "director"
  const ACTOR := "actor"
  const WRITER := "writer"

  /** A row of the film-side join: a link with its person's name. */
  datatype CastRow = CastRow(film: nat, role: string, person: nat, name: string)

  /** A row of the person-side LEFT JOIN: a person with no link has one row without film. */
  datatype PersonRow = PersonRow(person: nat, name: string, film: Option<nat>, role: Option<string>)

  datatype FilmPerson = FilmPerson(id: nat, name: string)

  datatype Cast = Cast(directors: seq<FilmPerson>, actors: seq<FilmPerson>, writers: seq<FilmPerson>)

  datatype PersonFilm = PersonFilm(id: nat, roles: seq<string>)

  datatype Person = Person(id: nat, name: string, films: seq<PersonFilm>)

  const NO_CAST := Cast([], [], [])

  // ---------- Film side ----------

  /** Add by identifier unless it is there. */
  function AddPerson(list: seq<FilmPerson>, p: FilmPerson): seq<FilmPerson> {
    if exists q <- list :: q.id == p.id then list else list + [p]
  }

  /** Anything that is neither director nor actor counts as writer. */
  function AddRow(c: Cast, row: CastRow): Cast {
    var p := FilmPerson(row.person, row.name);
    if row.role == DIRECTOR then c.(directors := AddPerson(c.directors, p))
    else if row.role == ACTOR then c.(actors := AddPerson(c.actors, p))
    else c.(writers := AddPerson(c.writers, p))
  }

  function CastIn(grouped: map<nat, Cast>, film: nat): Cast {
    if film in grouped then grouped[film] else NO_CAST
  }

  function GroupPersons(rows: seq<CastRow>): map<nat, Cast> {
    if rows == [] then map[]
    else
      var grouped := GroupPersons(rows[..|rows| - 1]);
      var row := rows[|rows| - 1];
      grouped[row.film := AddRow(CastIn(grouped, row.film), row)]
  }

  method GroupPersonsByFilm(rows: seq<CastRow>) returns (grouped: map<nat, Cast>)
    ensures grouped == GroupPersons(rows)
  {
    grouped := map[];
    for i := 0 to |rows|
      invariant grouped == GroupPersons(rows[..i])
    {
      var row := rows[i];
      if row.film !in grouped {
        grouped := grouped[row.film := NO_CAST];
      }
      var cast := grouped[row.film];
      var p := FilmPerson(row.person, row.name);
      if row.role == DIRECTOR {
        if !exists q <- cast.directors :: q.id == p.id {
          cast := cast.(directors := cast.directors + [p]);
        }
      } else if row.role == ACTOR {
        if !exists q <- cast.actors :: q.id == p.id {
          cast := cast.(actors := cast.actors + [p]);
        }
      } else {
        if !exists q <- cast.writers :: q.id == p.id {
          cast := cast.(writers := cast.writers + [p]);
        }
      }
      grouped := grouped[row.film := cast];
      assert rows[..i + 1][..i] == rows[..i];
      assert grouped == GroupPersons(rows[..i + 1]);
    }
    assert rows[..|rows|] == rows;
  }

  /** The list of a film document that holds the persons of a role. */
  function ListFor(c: Cast, role: string): seq<FilmPerson> {
    if role == DIRECTOR then c.directors else if role == ACTOR then c.actors else c.writers
  }

  predicate Lists(list: seq<FilmPerson>, person: nat) {
    exists q <- list :: q.id == person
  }

  predicate Distinct(list: seq<FilmPerson>) {
    forall i, j | 0 <= i < j < |list| :: list[i].id != list[j].id
  }

  lemma AddPersonLists(list: seq<FilmPerson>, p: FilmPerson, person: nat)
    ensures Lists(AddPerson(list, p), person) <==> Lists(list, person) || p.id == person
    ensures Distinct(list) ==> Distinct(AddPerson(list, p))
  {
  }

  /** A person is in a film's list for a role exactly when some row links them in a role kept
      in that list. */
  lemma {:induction false} FilmSide(rows: seq<CastRow>, film: nat, role: string, person: nat)
    ensures var list := ListFor(CastIn(GroupPersons(rows), film), role);
            && (Lists(list, person) <==>
                  exists row <- rows :: row.film == film && row.person == person && SameList(row.role, role))
            && Distinct(list)
  {
    if rows != [] {
      var before := rows[..|rows| - 1];
      var row := rows[|rows| - 1];
      FilmSide(before, film, role, person);
      assert rows == before + [row];
      var list := ListFor(CastIn(GroupPersons(before), film), role);
      if row.film == film && SameList(row.role, role) {
        AddPersonLists(list, FilmPerson(row.person, row.name), person);
      }
    }
  }

  /** The two roles share a list. */
  predicate SameList(a: string, b: string) {
    a == b || (a != DIRECTOR && a != ACTOR && b != DIRECTOR && b != ACTOR)
  }

  /** Names are those of the rows: two rows of one person never disagree. */
  predicate NamesAgree(rows: seq<CastRow>) {
    forall a <- rows, b <- rows :: a.person == b.person ==> a.name == b.name
  }

  lemma {:induction false} FilmSideNames(rows: seq<CastRow>, film: nat, role: string, p: FilmPerson)
    requires p in ListFor(CastIn(GroupPersons(rows), film), role)
    ensures exists row <- rows :: row.film == film && row.person == p.id && row.name == p.name
  {
    if rows != [] {
      var before := rows[..|rows| - 1];
      var row := rows[|rows| - 1];
      assert rows == before + [row];
      if p in ListFor(CastIn(GroupPersons(before), film), role) {
        FilmSideNames(before, film, role, p);
      }
    }
  }

  /** The lists do not depend on the order of the rows, except for their own order. */
  lemma FilmSideOrderFree(rows: seq<CastRow>, other: seq<CastRow>, film: nat, role: string)
    requires NamesAgree(rows) && multiset(rows) == multiset(other)
    ensures var a := ListFor(CastIn(GroupPersons(rows), film), role);
            var b := ListFor(CastIn(GroupPersons(other), film), role);
            multiset(a) == multiset(b)
  {
    var a := ListFor(CastIn(GroupPersons(rows), film), role);
    var b := ListFor(CastIn(GroupPersons(other), film), role);
    SameRows(rows, other);
    forall p ensures p in a <==> p in b {
      if p in a {
        InBoth(rows, other, film, role, p);
      }
      if p in b {
        InBoth(other, rows, film, role, p);
      }
    }
    FilmSide(rows, film, role, 0);
    FilmSide(other, film, role, 0);
    DistinctSameMembers(a, b);
  }

  lemma SameRows(rows: seq<CastRow>, other: seq<CastRow>)
    requires multiset(rows) == multiset(other)
    ensures forall row :: row in rows <==> row in other
  {
    assert forall row :: row in rows <==> row in multiset(rows);
    assert forall row :: row in other <==> row in multiset(other);
  }

  lemma InBoth(rows: seq<CastRow>, other: seq<CastRow>, film: nat, role: string, p: FilmPerson)
    requires NamesAgree(rows) && forall row :: row in rows <==> row in other
    requires p in ListFor(CastIn(GroupPersons(rows), film), role)
    ensures p in ListFor(CastIn(GroupPersons(other), film), role)
  {
    FilmSide(rows, film, role, p.id);
    FilmSide(other, film, role, p.id);
    assert Lists(ListFor(CastIn(GroupPersons(rows), film), role), p.id);
    var q :| q in ListFor(CastIn(GroupPersons(other), film), role) && q.id == p.id;
    FilmSideNames(rows, film, role, p);
    FilmSideNames(other, film, role, q);
  }

  lemma {:induction false} DistinctSameMembers(a: seq<FilmPerson>, b: seq<FilmPerson>)
    requires Distinct(a) && Distinct(b) && forall p :: p in a <==> p in b
    ensures multiset(a) == multiset(b)
  {
    forall p ensures multiset(a)[p] == multiset(b)[p] {
      CountDistinct(a, p);
      CountDistinct(b, p);
    }
  }

  lemma {:induction false} CountDistinct(list: seq<FilmPerson>, p: FilmPerson)
    requires Distinct(list)
    ensures multiset(list)[p] == if p in list then 1 else 0
  {
    if list != [] {
      CountDistinct(list[1..], p);
      assert list == [list[0]] + list[1..];
      assert list[0] !in list[1..];
    }
  }

  // ---------- Person side ----------

  /** Add a role to the entry of a film, or a new entry; no role, no role added. */
  function AddFilm(films: seq<PersonFilm>, film: nat, role: Option<string>): seq<PersonFilm> {
    if films == [] then [PersonFilm(film, if role.Some? then [role.value] else [])]
    else if films[0].id == film then
      [if role.Some?
          && role.value !in films[0].roles then films[0].(roles := films[0].roles + [role.value]) else films[0]]
      + films[1..]
    else [films[0]] + AddFilm(films[1..], film, role)
  }

  function AddPersonRow(persons: seq<Person>, row: PersonRow): seq<Person> {
    if persons == [] then
      [Person(row.person, row.name, if row.film.Some? then AddFilm([], row.film.value, row.role) else [])]
    else if persons[0].id == row.person then
      [if row.film.Some? then persons[0].(films := AddFilm(persons[0].films, row.film.value, row.role)) else persons[0]]
      + persons[1..]
    else [persons[0]] + AddPersonRow(persons[1..], row)
  }

  /** Persons in the order in which the rows first name them. */
  function BuildPersons(rows: seq<PersonRow>): seq<Person> {
    if rows == [] then [] else AddPersonRow(BuildPersons(rows[..|rows| - 1]), rows[|rows| - 1])
  }

  /** The position of the first entry of a film, or the length. */
  method FindFilm(films: seq<PersonFilm>, film: nat) returns (i: nat)
    ensures i <= |films| && (forall j | 0 <= j < i :: films[j].id != film)
    ensures i < |films| ==> films[i].id == film
  {
    i := 0;
    while i < |films| && films[i].id != film
      invariant i <= |films| && forall j | 0 <= j < i :: films[j].id != film
    {
      i := i + 1;
    }
  }

  method FindPerson(persons: seq<Person>, person: nat) returns (i: nat)
    ensures i <= |persons| && (forall j | 0 <= j < i :: persons[j].id != person)
    ensures i < |persons| ==> persons[i].id == person
  {
    i := 0;
    while i < |persons| && persons[i].id != person
      invariant i <= |persons| && forall j | 0 <= j < i :: persons[j].id != person
    {
      i := i + 1;
    }
  }

  lemma {:induction false} AddFilmAt(films: seq<PersonFilm>, film: nat, role: Option<string>, i: nat)
    requires i <= |films| && (forall j | 0 <= j < i :: films[j].id != film) && (i < |films| ==> films[i].id == film)
    ensures AddFilm(films, film, role) ==
              if i == |films| then films + [PersonFilm(film, if role.Some? then [role.value] else [])]
              else if role.Some? && role.value !in films[i].roles
                then films[i := films[i].(roles := films[i].roles + [role.value])]
              else films
  {
    if i > 0 {
      assert films == [films[0]] + films[1..];
      AddFilmAt(films[1..], film, role, i - 1);
    }
  }

  lemma {:induction false} AddPersonRowAt(persons: seq<Person>, row: PersonRow, i: nat)
    requires i <= |persons| && (forall j | 0 <= j < i :: persons[j].id != row.person)
    requires i < |persons| ==> persons[i].id == row.person
    ensures AddPersonRow(persons, row) ==
              if i == |persons|
              then persons +
                  [Person(row.person, row.name, if row.film.Some? then AddFilm([], row.film.value, row.role) else [])]
              else if row.film.Some?
                then persons[i := persons[i].(films := AddFilm(persons[i].films, row.film.value, row.role))]
              else persons
  {
    if i > 0 {
      assert persons == [persons[0]] + persons[1..];
      AddPersonRowAt(persons[1..], row, i - 1);
    }
  }

  method BuildPersonsFromRows(rows: seq<PersonRow>) returns (persons: seq<Person>)
    ensures persons == BuildPersons(rows)
  {
    persons := [];
    for n := 0 to |rows|
      invariant persons == BuildPersons(rows[..n])
    {
      var row := rows[n];
      ghost var before := persons;
      var i := FindPerson(persons, row.person);
      AddPersonRowAt(persons, row, i);
      if i == |persons| {
        persons := persons + [Person(row.person, row.name, [])];
      }
      if row.film.Some? {
        var films := persons[i].films;
        var k := FindFilm(films, row.film.value);
        AddFilmAt(films, row.film.value, row.role, k);
        if k < |films| {
          if row.role.Some? && row.role.value !in films[k].roles {
            films := films[k := films[k].(roles := films[k].roles + [row.role.value])];
          }
        } else {
          films := films + [PersonFilm(row.film.value, if row.role.Some? then [row.role.value] else [])];
        }
        persons := persons[i := persons[i].(films := films)];
      }
      assert rows[..n + 1][..n] == rows[..n];
      assert persons == AddPersonRow(before, row);
    }
    assert rows[..|rows|] == rows;
  }

  /** The person's document lists the film with the role. */
  predicate Credits(films: seq<PersonFilm>, film: nat, role: string) {
    exists f <- films :: f.id == film && role in f.roles
  }

  predicate PersonCredits(persons: seq<Person>, person: nat, film: nat, role: string) {
    exists p <- persons :: p.id == person && Credits(p.films, film, role)
  }

  /** One entry per film, each role once. */
  predicate TidyFilms(films: seq<PersonFilm>) {
    && (forall i, j | 0 <= i < j < |films| :: films[i].id != films[j].id)
    && (forall f <- films :: forall i, j | 0 <= i < j < |f.roles| :: f.roles[i] != f.roles[j])
  }

  predicate TidyPersons(persons: seq<Person>) {
    && (forall i, j | 0 <= i < j < |persons| :: persons[i].id != persons[j].id)
    && (forall p <- persons :: TidyFilms(p.films))
  }

  lemma {:induction false} AddFilmCredits(films: seq<PersonFilm>, film: nat, role: Option<string>, f: nat, r: string)
    requires TidyFilms(films)
    ensures var films' := AddFilm(films, film, role);
            && (Credits(films', f, r) <==> Credits(films, f, r) || (f == film && role == Some(r)))
            && TidyFilms(films')
            && (forall x <- films' :: x.id == film || exists y <- films :: y.id == x.id)
  {
    if films != [] && films[0].id != film {
      var rest := films[1..];
      assert films == [films[0]] + rest;
      AddFilmCredits(rest, film, role, f, r);
      HeadCredits(films[0], rest, f, r);
      HeadCredits(films[0], AddFilm(rest, film, role), f, r);
      HeadTidy(films[0], rest);
      HeadTidy(films[0], AddFilm(rest, film, role));
    } else if films != [] {
      var rest := films[1..];
      assert films == [films[0]] + rest;
      var head := AddFilm(films, film, role)[0];
      HeadCredits(films[0], rest, f, r);
      HeadCredits(head, rest, f, r);
      HeadTidy(films[0], rest);
      HeadTidy(head, rest);
    }
  }

  lemma HeadCredits(head: PersonFilm, rest: seq<PersonFilm>, f: nat, r: string)
    ensures Credits([head] + rest, f, r) <==> (head.id == f && r in head.roles) || Credits(rest, f, r)
  {
  }

  /** The head's film is not in the rest, and its roles are each there once. */
  lemma HeadTidy(head: PersonFilm, rest: seq<PersonFilm>)
    ensures TidyFilms([head] + rest) <==>
              && TidyFilms(rest) && (forall x <- rest :: x.id != head.id)
              && (forall i, j | 0 <= i < j < |head.roles| :: head.roles[i] != head.roles[j])
  {
    var films := [head] + rest;
    assert films[0] == head && films[1..] == rest;
    assert forall x :: x in films <==> x == head || x in rest;
    if TidyFilms(films) {
      forall i, j | 0 <= i < j < |rest| ensures rest[i].id != rest[j].id { assert films[i + 1].id != films[j + 1].id; }
      forall x <- rest ensures x.id != head.id { var i :| 0 <= i < |rest| && rest[i] == x; assert films[i + 1] == x; }
    }
  }

  lemma {:induction false} AddRowCredits(persons: seq<Person>, row: PersonRow, person: nat, f: nat, r: string)
    requires TidyPersons(persons)
    ensures var persons' := AddPersonRow(persons, row);
            && (PersonCredits(persons', person, f, r) <==>
                  PersonCredits(persons, person, f, r)
                  || (row.person == person && row.film == Some(f) && row.role == Some(r)))
            && TidyPersons(persons')
            && (forall x <- persons' :: x.id == row.person || exists y <- persons :: y.id == x.id)
  {
    if persons == [] {
      if row.film.Some? {
        AddFilmCredits([], row.film.value, row.role, f, r);
      }
    } else {
      var rest := persons[1..];
      assert persons == [persons[0]] + rest;
      HeadPersonCredits(persons[0], rest, person, f, r);
      HeadPersonTidy(persons[0], rest);
      if persons[0].id != row.person {
        AddRowCredits(rest, row, person, f, r);
        HeadPersonCredits(persons[0], AddPersonRow(rest, row), person, f, r);
        HeadPersonTidy(persons[0], AddPersonRow(rest, row));
      } else {
        var head := AddPersonRow(persons, row)[0];
        if row.film.Some? {
          AddFilmCredits(persons[0].films, row.film.value, row.role, f, r);
        }
        HeadPersonCredits(head, rest, person, f, r);
        HeadPersonTidy(head, rest);
      }
    }
  }

  lemma HeadPersonCredits(head: Person, rest: seq<Person>, person: nat, f: nat, r: string)
    ensures PersonCredits([head] + rest, person, f, r) <==>
              (head.id == person && Credits(head.films, f, r)) || PersonCredits(rest, person, f, r)
  {
  }

  lemma HeadPersonTidy(head: Person, rest: seq<Person>)
    ensures TidyPersons([head] + rest) <==>
              TidyPersons(rest) && (forall x <- rest :: x.id != head.id) && TidyFilms(head.films)
  {
    var persons := [head] + rest;
    assert persons[0] == head && persons[1..] == rest;
    assert forall x :: x in persons <==> x == head || x in rest;
    if TidyPersons(persons) {
      forall i, j | 0 <= i < j < |rest|
          ensures rest[i].id != rest[j].id { assert persons[i + 1].id != persons[j + 1].id; }
      forall x <- rest ensures x.id != head.id { var i :| 0 <= i < |rest| && rest[i] == x; assert persons[i + 1] == x; }
    }
  }

  /** A person's document lists a film with a role exactly when some row says so; every
      person, film and role is listed once. */
  lemma {:induction false} PersonSide(rows: seq<PersonRow>, person: nat, film: nat, role: string)
    ensures var persons := BuildPersons(rows);
            && (PersonCredits(persons, person, film, role) <==>
                  exists row <- rows :: row.person == person && row.film == Some(film) && row.role == Some(role))
            && TidyPersons(persons)
  {
    if rows != [] {
      var before := rows[..|rows| - 1];
      PersonSide(before, person, film, role);
      assert rows == before + [rows[|rows| - 1]];
      AddRowCredits(BuildPersons(before), rows[|rows| - 1], person, film, role);
    }
  }

  // ---------- One relation ----------

  /** A row of the link table. */
  datatype Link = Link(film: nat, person: nat, role: string)

  /** The rows are the film-side join of the links for these films, in any order. */
  predicate FilmJoin(rows: seq<CastRow>, links: set<Link>, films: set<nat>) {
    && (forall row <- rows :: row.film in films && Link(row.film, row.person, row.role) in links)
    && (forall l <- links :: l.film in films ==> exists row <- rows :: Link(row.film, row.person, row.role) == l)
  }

  /** The rows are the person-side join of the links for these persons, in any order. */
  predicate PersonJoin(rows: seq<PersonRow>, links: set<Link>, persons: set<nat>) {
    && (forall row <- rows :: row.person in persons
          && (row.film.Some? <==> row.role.Some?)
          && (row.film.Some? ==> Link(row.film.value, row.person, row.role.value) in links))
    && (forall l <- links :: l.person in persons ==>
          exists row <- rows :: row.person == l.person && row.film == Some(l.film) && row.role == Some(l.role))
  }

  /** Both document shapes encode one relation: with the roles the link table allows, a
      person is in a film's list for a role exactly when the person's document lists the
      film with that role. */
  lemma BothSidesAgree(links: set<Link>, castRows: seq<CastRow>, films: set<nat>,
                       personRows: seq<PersonRow>, persons: set<nat>, film: nat, person: nat, role: string)
    requires forall l <- links :: l.role in {DIRECTOR, ACTOR, WRITER}
    requires FilmJoin(castRows, links, films) && PersonJoin(personRows, links, persons)
    requires film in films && person in persons && role in {DIRECTOR, ACTOR, WRITER}
    ensures Lists(ListFor(CastIn(GroupPersons(castRows), film), role), person)
            <==> PersonCredits(BuildPersons(personRows), person, film, role)
  {
    FilmSide(castRows, film, role, person);
    PersonSide(personRows, person, film, role);
    if Link(film, person, role) in links {
      var a :| a in castRows && Link(a.film, a.person, a.role) == Link(film, person, role);
      var b :| b in personRows && b.person == person && b.film == Some(film) && b.role == Some(role);
    } else {
      forall a <- castRows ensures !(a.film == film && a.person == person && SameList(a.role, role)) {
        assert Link(a.film, a.person, a.role) in links;
      }
      forall b <- personRows ensures !(b.person == person && b.film == Some(film) && b.role == Some(role)) {
      }
    }
  }

  // ---------- Genres ----------

  datatype GenreRow = GenreRow(film: nat, genre: nat, name: string)

  datatype Genre = Genre(id: nat, name: string)

  function GenresIn(grouped: map<nat, seq<Genre>>, film: nat): seq<Genre> {
    if film in grouped then grouped[film] else []
  }

  predicate HasGenre(list: seq<Genre>, id: nat) {
    exists g <- list :: g.id == id
  }

  predicate DistinctGenres(list: seq<Genre>) {
    forall i, j | 0 <= i < j < |list| :: list[i].id != list[j].id
  }

  /** A film's list holds a genre exactly when some row links them, under that row's name,
      and once. */
  ghost predicate Gathered(grouped: map<nat, seq<Genre>>, rows: seq<GenreRow>) {
    && (forall film, id ::
          HasGenre(GenresIn(grouped, film), id) <==> exists row <- rows :: row.film == film && row.genre == id)
    && (forall film: nat, g :: g in GenresIn(grouped, film) ==> GenreRow(film, g.id, g.name) in rows)
    && (forall film: nat :: DistinctGenres(GenresIn(grouped, film)))
  }

  method GroupGenresByFilm(rows: seq<GenreRow>) returns (grouped: map<nat, seq<Genre>>)
    ensures Gathered(grouped, rows)
  {
    grouped := map[];
    for n := 0 to |rows|
      invariant Gathered(grouped, rows[..n])
    {
      var row := rows[n];
      ghost var before := grouped;
      if row.film !in grouped {
        grouped := grouped[row.film := []];
      }
      if !HasGenre(grouped[row.film], row.genre) {
        grouped := grouped[row.film := grouped[row.film] + [Genre(row.genre, row.name)]];
      }
      GatherMore(before, rows[..n], row, grouped);
      assert rows[..n + 1] == rows[..n] + [row];
    }
    assert rows[..|rows|] == rows;
  }

  function AddGenre(list: seq<Genre>, g: Genre): seq<Genre> {
    if HasGenre(list, g.id) then list else list + [g]
  }

  lemma AddGenreLists(list: seq<Genre>, g: Genre, id: nat)
    ensures HasGenre(AddGenre(list, g), id) <==> HasGenre(list, id) || g.id == id
    ensures DistinctGenres(list) ==> DistinctGenres(AddGenre(list, g))
  {
  }

  lemma GatherMore(grouped: map<nat, seq<Genre>>, rows: seq<GenreRow>, row: GenreRow, after: map<nat, seq<Genre>>)
    requires Gathered(grouped, rows)
    requires after == grouped[row.film := AddGenre(GenresIn(grouped, row.film), Genre(row.genre, row.name))]
    ensures Gathered(after, rows + [row])
  {
    var g := Genre(row.genre, row.name);
    forall film, id
      ensures HasGenre(GenresIn(after, film), id) <==> exists r <- rows + [row] :: r.film == film && r.genre == id
    {
      AddGenreLists(GenresIn(grouped, film), g, id);
      assert row in rows + [row];
      assert forall r :: r in rows + [row] <==> r in rows || r == row;
    }
    forall film: nat ensures DistinctGenres(GenresIn(after, film)) {
      assert DistinctGenres(GenresIn(grouped, film));
      AddGenreLists(GenresIn(grouped, film), g, 0);
    }
    forall film: nat, x | x in GenresIn(after, film) ensures GenreRow(film, x.id, x.name) in rows + [row] {
      assert x in GenresIn(grouped, film) || (film == row.film && x == g);
    }
  }
}
