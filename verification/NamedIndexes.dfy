/** The genres and persons indexes: one cursor each, over rows that carry their own document.
    A person's document also lists films; linking a film to a person does not bump the
    person's row, so it is a step of its own here. */
module NamedIndexes {
  import opened Keyset
  import EtlConvergence

  type Credits = set<(nat, string)>

  /** A genre has no credits. */
  datatype Body = Body(name: string, films: Credits)

  datatype Row = Row(modified: nat, body: Body)

  datatype Cycle =
    | Resting
    | Selected(next: Stamp, since: nat, ids: set<nat>)
    | Saving(next: Stamp, since: nat, ids: set<nat>, docs: map<nat, Body>)

  /** `seen`: the credits of each row when it was last fetched. */
  datatype State = State(rows: map<nat, Row>, clock: nat, seen: map<nat, Credits>, index: map<nat, Body>,
                         cursor: Stamp, cycle: Cycle)

  const INIT := State(map[], 0, map[], map[], ORIGIN, Resting)

  datatype Event =
    | Write(names: map<nat, string>)
    | Relink(films: map<nat, Credits>)
    | Select
    | Fetch
    | Save(batch: set<nat>)
    | Checkpoint
    | Crash

  function Stamps(rows: map<nat, Row>): set<Stamp> {
    set id | id in rows :: Stamp(rows[id].modified, id)
  }

  function Renamed(rows: map<nat, Row>, names: map<nat, string>, now: nat): map<nat, Row> {
    rows + map id | id in names :: Row(now, Body(names[id], if id in rows then rows[id].body.films else {}))
  }

  function Linked(rows: map<nat, Row>, films: map<nat, Credits>): map<nat, Row> {
    map id | id in rows :: if id in films then rows[id].(body := rows[id].body.(films := films[id])) else rows[id]
  }

  function Bodies(rows: map<nat, Row>, ids: set<nat>): map<nat, Body> {
    map id | id in ids && id in rows :: rows[id].body
  }

  function Noted(seen: map<nat, Credits>, docs: map<nat, Body>): map<nat, Credits> {
    seen + map id | id in docs :: docs[id].films
  }

  ghost function Next(limit: nat, s: State, e: Event): State {
    match e
    case Write(names) =>
      s.(rows := Renamed(s.rows, names, s.clock + 1), clock := s.clock + 1)
    case Relink(films) => s.(rows := Linked(s.rows, films))
    case Select =>
      var chunk := Chunk(After(Stamps(s.rows), s.cursor), limit);
      if s.cycle != Resting || chunk == [] then s
      else s.(cycle := Selected(chunk[|chunk| - 1], s.clock, set x | x in chunk :: x.id))
    case Fetch =>
      if !s.cycle.Selected? then s else
      var docs := Bodies(s.rows, s.cycle.ids);
      s.(cycle := if docs == map[] then Resting else Saving(s.cycle.next, s.cycle.since, s.cycle.ids, docs),
         seen := Noted(s.seen, docs))
    case Save(batch) =>
      if !s.cycle.Saving? then s
      else s.(index := s.index + (map id | id in s.cycle.docs && id in batch :: s.cycle.docs[id]),
              cycle := s.cycle.(docs := s.cycle.docs - batch))
    case Checkpoint =>
      if !s.cycle.Saving? || s.cycle.docs != map[] then s else s.(cursor := s.cycle.next, cycle := Resting)
    case Crash => s.(cycle := Resting)
  }

  ghost function Run(limit: nat, s: State, events: seq<Event>): State {
    if events == [] then s else Next(limit, Run(limit, s, events[..|events| - 1]), events[|events| - 1])
  }

  // ---------- Agreement ----------

  predicate Passed(s: State, id: nat)
    requires id in s.rows
  {
    !Less(s.cursor, Stamp(s.rows[id].modified, id))
  }

  /** The document has the credits that the last fetch saw. */
  predicate AsSeen(s: State, docs: map<nat, Body>, id: nat) {
    id in docs && id in s.seen && docs[id].films == s.seen[id]
  }

  predicate Matches(s: State, docs: map<nat, Body>, id: nat)
    requires id in s.rows
  {
    AsSeen(s, docs, id) && docs[id].name == s.rows[id].body.name
  }

  ghost predicate TimesOk(s: State) {
    && s.cursor.modified <= s.clock
    && (forall id <- s.rows :: 0 < s.rows[id].modified <= s.clock)
    && (!s.cycle.Resting? ==>
          s.cursor.modified <= s.cycle.since <= s.clock && s.cycle.next.modified <= s.cycle.since
              && Less(s.cursor, s.cycle.next))
  }

  predicate InChunk(s: State, id: nat)
    requires id in s.rows && !s.cycle.Resting?
  {
    Less(s.cursor, Stamp(s.rows[id].modified, id)) && AtMost(Stamp(s.rows[id].modified, id), s.cycle.next)
  }

  ghost predicate CycleOk(s: State) {
    match s.cycle
    case Resting => true
    case Selected(next, since, ids) =>
      && (forall id <- s.rows :: InChunk(s, id) ==> id in ids)
      && (forall id <- ids :: id in s.rows && !Passed(s, id))
    case Saving(next, since, ids, docs) =>
      && (forall id <- docs ::
          id in s.rows && AsSeen(s, docs, id) && (s.rows[id].modified <= since ==> Matches(s, docs, id)))
      && (forall id <- s.rows :: InChunk(s, id) ==> id in docs || Matches(s, s.index, id))
  }

  ghost predicate Inv(s: State) {
    && TimesOk(s) && CycleOk(s)
    && (forall id <- s.rows :: Passed(s, id) ==> Matches(s, s.index, id))
  }

  lemma WriteKeeps(s: State, names: map<nat, string>, limit: nat)
    requires Inv(s)
    ensures Inv(Next(limit, s, Write(names)))
  {
    WriteKeepsTimes(s, names, limit);
    WriteKeepsCycle(s, names, limit);
  }

  /** The rows written have a stamp of their own; the others are as they were. */
  lemma WriteKeepsTimes(s: State, names: map<nat, string>, limit: nat)
    requires Inv(s)
    ensures var t := Next(limit, s, Write(names));
            && TimesOk(t) && (forall id <- t.rows :: Passed(t, id) ==> Matches(t, t.index, id))
  {
    var t := Next(limit, s, Write(names));
    forall id <- t.rows ensures id !in names ==> id in s.rows && t.rows[id] == s.rows[id] {
    }
  }

  lemma WriteKeepsCycle(s: State, names: map<nat, string>, limit: nat)
    requires Inv(s)
    ensures CycleOk(Next(limit, s, Write(names)))
  {
    var t := Next(limit, s, Write(names));
    forall id <- t.rows
        ensures if id in names then t.rows[id].modified == s.clock + 1 else id in s.rows && t.rows[id] == s.rows[id] {
    }
    match s.cycle {
      case Saving(_, since, _, docs) =>
        forall id <- docs | t.rows[id].modified <= since ensures Matches(t, docs, id) { assert Matches(s, docs, id); }
        forall id <- t.rows | InChunk(t, id) ensures id in docs || Matches(t, t.index, id) { assert InChunk(s, id); }
      case _ =>
    }
  }

  lemma RelinkKeeps(s: State, films: map<nat, Credits>, limit: nat)
    requires Inv(s)
    ensures Inv(Next(limit, s, Relink(films)))
  {
  }

  lemma SelectKeeps(s: State, limit: nat)
    requires Inv(s)
    ensures Inv(Next(limit, s, Select))
  {
    var todo := After(Stamps(s.rows), s.cursor);
    var chunk := Chunk(todo, limit);
    if s.cycle == Resting && chunk != [] {
      var last := chunk[|chunk| - 1];
      ChunkCovers(todo, limit);
      SelectedRows(limit, s.rows, s.cursor);
      assert last in todo && last.modified <= s.clock;
    }
  }

  /** The rows selected are those beyond the cursor and up to the last of the chunk. */
  lemma SelectedRows(limit: nat, rows: map<nat, Row>, cursor: Stamp)
    requires Chunk(After(Stamps(rows), cursor), limit) != []
    ensures var chunk := Chunk(After(Stamps(rows), cursor), limit);
            var ids := EtlConvergence.IdsOf(chunk);
            && (forall id <- rows :: var x := Stamp(rows[id].modified, id);
                  Less(cursor, x) && AtMost(x, chunk[|chunk| - 1]) ==> id in ids)
            && (forall id <- ids :: id in rows && Less(cursor, Stamp(rows[id].modified, id)))
  {
    var todo := After(Stamps(rows), cursor);
    ChunkIsPrefix(todo, limit);
    ChunkCovers(todo, limit);
    forall id <- rows | Less(cursor, Stamp(rows[id].modified, id)) ensures Stamp(rows[id].modified, id) in todo {
    }
  }

  lemma FetchKeeps(s: State, limit: nat)
    requires Inv(s)
    ensures Inv(Next(limit, s, Fetch))
  {
  }

  lemma SaveKeeps(s: State, batch: set<nat>, limit: nat)
    requires Inv(s)
    ensures Inv(Next(limit, s, Save(batch)))
  {
    if s.cycle.Saving? {
      var t := Next(limit, s, Save(batch));
      forall id <- t.rows | Passed(t, id) || (InChunk(t, id) && id !in t.cycle.docs) ensures Matches(t, t.index, id) {
        if id in s.cycle.docs && id in batch {
          assert s.rows[id].modified <= s.cycle.since ==> Matches(s, s.cycle.docs, id);
        }
      }
    }
  }

  lemma CheckpointKeeps(s: State, limit: nat)
    requires Inv(s)
    ensures Inv(Next(limit, s, Checkpoint))
  {
  }

  lemma StepKeeps(limit: nat, s: State, e: Event)
    requires Inv(s)
    ensures Inv(Next(limit, s, e))
  {
    match e {
      case Write(names) => WriteKeeps(s, names, limit);
      case Relink(films) => RelinkKeeps(s, films, limit);
      case Select => SelectKeeps(s, limit);
      case Fetch => FetchKeeps(s, limit);
      case Save(batch) => SaveKeeps(s, batch, limit);
      case Checkpoint => CheckpointKeeps(s, limit);
      case Crash =>
    }
  }

  lemma {:induction false} RunKeeps(limit: nat, events: seq<Event>)
    ensures Inv(Run(limit, INIT, events))
  {
    if events != [] {
      RunKeeps(limit, events[..|events| - 1]);
      StepKeeps(limit, Run(limit, INIT, events[..|events| - 1]), events[|events| - 1]);
    }
  }

  /** In every reachable state a row at or below the cursor has a document with its present
      name, and with its present credits if and only if they are those that its last fetch
      saw: exactly when its links have not changed since, or have changed back. */
  lemma DocumentsAgree(limit: nat, events: seq<Event>, id: nat)
    requires var s := Run(limit, INIT, events); id in s.rows && Passed(s, id)
    ensures var s := Run(limit, INIT, events);
            && id in s.index && id in s.seen && s.index[id].name == s.rows[id].body.name
            && (s.index[id] == s.rows[id].body <==> s.seen[id] == s.rows[id].body.films)
  {
    RunKeeps(limit, events);
  }

  ghost predicate Unlinked(s: State) {
    && (forall id <- s.rows :: s.rows[id].body.films == {})
    && (forall id <- s.seen :: s.seen[id] == {})
  }

  lemma {:induction false} NeverRelinked(limit: nat, events: seq<Event>)
    requires forall e <- events :: !e.Relink?
    ensures Unlinked(Run(limit, INIT, events))
  {
    if events != [] { NeverRelinked(limit, events[..|events| - 1]); }
  }

  /** Genres have no links of their own: below the cursor their documents always agree. */
  lemma GenresAgree(limit: nat, events: seq<Event>, id: nat)
    requires forall e <- events :: !e.Relink?
    requires var s := Run(limit, INIT, events); id in s.rows && Passed(s, id)
    ensures var s := Run(limit, INIT, events); id in s.index && s.index[id] == s.rows[id].body
  {
    NeverRelinked(limit, events);
    DocumentsAgree(limit, events, id);
  }

  // ---------- Exactly when a change of links reaches the document ----------

  /** The row lies beyond the cursor, and the running cycle, if any, has not fetched it. */
  predicate Awaited(s: State, id: nat) {
    id in s.rows && !Passed(s, id) && !(s.cycle.Saving? && InChunk(s, id))
  }

  predicate Touches(e: Event, id: nat) {
    (e.Write? && id in e.names) || (e.Relink? && id in e.films)
  }

  ghost predicate Untouched(more: seq<Event>, id: nat) {
    forall e <- more :: !Touches(e, id)
  }

  /** The running cycle has fetched the row and not moved the cursor yet. */
  predicate Fetched(s: State, id: nat) {
    id in s.rows && s.cycle.Saving? && InChunk(s, id)
  }

  /** The cycle running after `events`, if any, is cut before its checkpoint: the cursor only
      moves forward, so it is still the same. */
  ghost predicate CutShort(limit: nat, events: seq<Event>, more: seq<Event>) {
    exists k | 0 <= k < |more| :: more[k].Crash? && StillAt(limit, events, more[..k])
  }

  ghost predicate StillAt(limit: nat, events: seq<Event>, more: seq<Event>) {
    Run(limit, INIT, events + more).cursor == Run(limit, INIT, events).cursor
  }

  predicate SeenAs(s: State, id: nat, films: Credits) {
    id in s.seen && s.seen[id] == films
  }

  predicate SameSeen(s: State, t: State, id: nat) {
    (id in s.seen <==> id in t.seen) && (id in s.seen ==> t.seen[id] == s.seen[id])
  }

  /** A row that was awaited, or became so by a cut, is awaited or was fetched as it is; one
      that had been fetched is passed by the checkpoint; one passed stays so. */
  ghost predicate Follows(s: State, t: State, id: nat, cut: bool)
    requires id in s.rows
  {
    && id in t.rows && t.rows[id] == s.rows[id] && AtMost(s.cursor, t.cursor)
    && (if Awaited(s, id) || (Fetched(s, id) && cut) then Awaited(t, id) || SeenAs(t, id, s.rows[id].body.films)
        else SameSeen(s, t, id) && (Passed(t, id) || (Fetched(t, id) && Fetched(s, id) && t.cursor == s.cursor)))
  }

  lemma StepFollows(limit: nat, s: State, t: State, e: Event, id: nat, cut: bool)
    requires Inv(t) && id in s.rows && Follows(s, t, id, cut) && !Touches(e, id)
    ensures Follows(s, Next(limit, t, e), id, cut || (e.Crash? && t.cursor == s.cursor))
  {
    match e {
      case Fetch => if t.cycle.Selected? { FetchFollows(limit, s, t, id, cut); }
      case Select => SelectFollows(limit, s, t, id, cut);
      case Checkpoint => CheckpointFollows(limit, s, t, id, cut);
      case Crash => CrashFollows(limit, s, t, id, cut);
      case _ =>
    }
  }

  lemma FetchFollows(limit: nat, s: State, t: State, id: nat, cut: bool)
    requires Inv(t) && id in s.rows && Follows(s, t, id, cut) && t.cycle.Selected?
    ensures Follows(s, Next(limit, t, Fetch), id, cut)
  {
    var docs := Bodies(t.rows, t.cycle.ids);
    assert id in t.cycle.ids ==> id in docs && docs[id] == t.rows[id].body;
  }

  lemma SelectFollows(limit: nat, s: State, t: State, id: nat, cut: bool)
    requires id in s.rows && Follows(s, t, id, cut)
    ensures Follows(s, Next(limit, t, Select), id, cut)
  {
  }

  lemma CheckpointFollows(limit: nat, s: State, t: State, id: nat, cut: bool)
    requires Inv(t) && id in s.rows && Follows(s, t, id, cut)
    ensures Follows(s, Next(limit, t, Checkpoint), id, cut)
  {
  }

  lemma CrashFollows(limit: nat, s: State, t: State, id: nat, cut: bool)
    requires id in s.rows && Follows(s, t, id, cut)
    ensures Follows(s, Next(limit, t, Crash), id, cut || t.cursor == s.cursor)
  {
  }

  lemma RunSplit(limit: nat, events: seq<Event>, more: seq<Event>)
    requires more != []
    ensures var n := |more| - 1;
            Run(limit, INIT, events + more) == Next(limit, Run(limit, INIT, events + more[..n]), more[n])
  {
    var n := |more| - 1;
    RunStep(limit, INIT, events + more[..n], more[n]);
    assert events + more == events + more[..n] + [more[n]];
  }

  lemma CutStep(limit: nat, events: seq<Event>, more: seq<Event>)
    requires more != []
    ensures var n := |more| - 1;
            CutShort(limit, events, more) <==>
            CutShort(limit, events, more[..n]) || (more[n].Crash? && StillAt(limit, events, more[..n]))
  {
    var n := |more| - 1;
    forall k | 0 <= k < n ensures more[..n][..k] == more[..k] && more[..n][k] == more[k] {
    }
    if more[n].Crash? && StillAt(limit, events, more[..n]) { assert CutShort(limit, events, more); }
  }

  lemma {:induction false} RunFollows(limit: nat, events: seq<Event>, more: seq<Event>, id: nat)
    requires id in Run(limit, INIT, events).rows && Untouched(more, id)
    ensures Follows(Run(limit, INIT, events), Run(limit, INIT, events + more), id, CutShort(limit, events, more))
    decreases |more|
  {
    if more == [] {
      assert events + more == events;
      RunKeeps(limit, events);
    } else {
      var n := |more| - 1;
      RunFollows(limit, events, more[..n], id);
      RunKeeps(limit, events + more[..n]);
      StepFollows(limit, Run(limit, INIT, events), Run(limit, INIT, events + more[..n]), more[n], id,
                  CutShort(limit, events, more[..n]));
      RunSplit(limit, events, more);
      CutStep(limit, events, more);
    }
  }

  /** However a run goes on that leaves the row alone, with cuts anywhere: once the row is at
      or below the cursor, its document has its credits if and only if the row was still
      awaited at the start, or its last fetch had seen these very credits, or the cycle that
      had fetched it was cut before its checkpoint, so that the row was fetched again. */
  lemma ReachesExactly(limit: nat, events: seq<Event>, more: seq<Event>, id: nat)
    requires id in Run(limit, INIT, events).rows && Untouched(more, id)
    requires var t := Run(limit, INIT, events + more); id in t.rows && Passed(t, id)
    ensures var s, t := Run(limit, INIT, events), Run(limit, INIT, events + more);
            && id in t.index
            && (t.index[id].films == s.rows[id].body.films <==>
                || Awaited(s, id) || SeenAs(s, id, s.rows[id].body.films)
                || (Fetched(s, id) && CutShort(limit, events, more)))
  {
    RunFollows(limit, events, more, id);
    DocumentsAgree(limit, events + more, id);
    RunKeeps(limit, events + more);
  }

  /** A change of links leaves the row awaited or not as it was; a bump makes it awaited. */
  lemma ChangeAwaits(limit: nat, events: seq<Event>, e: Event, id: nat)
    requires id in Run(limit, INIT, events).rows && Touches(e, id)
    ensures var s := Run(limit, INIT, events);
            var t := Next(limit, s, e);
            && id in t.rows && t.seen == s.seen
            && (e.Relink? ==> t.rows[id].body.films == e.films[id] && (Awaited(t, id) <==> Awaited(s, id)))
            && (e.Write? ==> t.rows[id].body.films == s.rows[id].body.films && Awaited(t, id))
  {
    RunKeeps(limit, events);
  }

  // ---------- Convergence ----------

  ghost function OneCycle(limit: nat, s: State): State {
    Next(limit, Next(limit, Next(limit, Next(limit, s, Select), Fetch), Save(s.rows.Keys)), Checkpoint)
  }

  ghost function Remaining(s: State): nat {
    |After(Stamps(s.rows), s.cursor)|
  }

  /** A cycle always moves: it indexes the rows of its chunk and passes them. */
  lemma CycleOutcome(limit: nat, s: State)
    requires s.cycle == Resting
    ensures var chunk := Chunk(After(Stamps(s.rows), s.cursor), limit);
            OneCycle(limit, s) ==
              if chunk == [] then s
              else s.(index := s.index + Bodies(s.rows, EtlConvergence.IdsOf(chunk)), cursor := chunk[|chunk| - 1],
                      seen := Noted(s.seen, Bodies(s.rows, EtlConvergence.IdsOf(chunk))))
  {
    var todo := After(Stamps(s.rows), s.cursor);
    var chunk := Chunk(todo, limit);
    if chunk != [] {
      var docs := Bodies(s.rows, EtlConvergence.IdsOf(chunk));
      SomeDocs(limit, s);
      SavesAll(limit, s.(cycle := Saving(chunk[|chunk| - 1], s.clock, EtlConvergence.IdsOf(chunk), docs),
                         seen := Noted(s.seen, docs)));
    } else {
      assert Next(limit, s, Select) == s;
    }
  }

  /** The fetch of a cycle brings documents. */
  lemma SomeDocs(limit: nat, s: State)
    requires s.cycle == Resting && Chunk(After(Stamps(s.rows), s.cursor), limit) != []
    ensures var chunk := Chunk(After(Stamps(s.rows), s.cursor), limit);
            var docs := Bodies(s.rows, EtlConvergence.IdsOf(chunk));
            Next(limit, Next(limit, s, Select), Fetch) ==
            s.(cycle := Saving(chunk[|chunk| - 1], s.clock, EtlConvergence.IdsOf(chunk), docs),
               seen := Noted(s.seen, docs))
  {
    var chunk := Chunk(After(Stamps(s.rows), s.cursor), limit);
    SelectedRows(limit, s.rows, s.cursor);
    var docs := Bodies(s.rows, EtlConvergence.IdsOf(chunk));
    assert chunk[0].id in EtlConvergence.IdsOf(chunk) && chunk[0].id in docs;
    assert (set x | x in chunk :: x.id) == EtlConvergence.IdsOf(chunk);
  }

  lemma SavesAll(limit: nat, s: State)
    requires s.cycle.Saving? && s.cycle.docs.Keys <= s.rows.Keys
    ensures Next(limit, Next(limit, s, Save(s.rows.Keys)), Checkpoint) ==
            s.(index := s.index + s.cycle.docs, cursor := s.cycle.next, cycle := Resting)
  {
    var docs := s.cycle.docs;
    assert docs - s.rows.Keys == map[];
    assert (map id | id in docs && id in s.rows.Keys :: docs[id]) == docs;
  }

  lemma CycleCounts(limit: nat, s: State)
    requires s.cycle == Resting && 0 < limit
    ensures var t := OneCycle(limit, s);
            && t.rows == s.rows && t.cycle == Resting
            && Remaining(t) == if Remaining(s) < limit then 0 else Remaining(s) - limit
  {
    CycleOutcome(limit, s);
    ChunkCounts(limit, Stamps(s.rows), s.cursor);
  }

  lemma ChunkCounts(limit: nat, rows: set<Stamp>, cursor: Stamp)
    requires 0 < limit
    ensures var chunk := Chunk(After(rows, cursor), limit);
            var left := |After(rows, if chunk == [] then cursor else chunk[|chunk| - 1])|;
            left == if |After(rows, cursor)| < limit then 0 else |After(rows, cursor)| - limit
  {
    ChunkIsPrefix(After(rows, cursor), limit);
    if Chunk(After(rows, cursor), limit) != [] { ChunkAdvances(rows, cursor, limit); }
  }

  ghost function Iterate(step: State -> State, s: State, n: nat): State {
    if n == 0 then s else step(Iterate(step, s, n - 1))
  }

  ghost function Cycles(limit: nat, s: State, n: nat): State {
    Iterate(x => OneCycle(limit, x), s, n)
  }

  lemma {:induction false} CyclesCount(limit: nat, s: State, n: nat)
    requires s.cycle == Resting && 0 < limit
    ensures var t := Cycles(limit, s, n);
            && t.rows == s.rows && t.cycle == Resting
            && Remaining(t) == EtlConvergence.Left(Remaining(s), limit, n)
  {
    if n > 0 {
      CyclesCount(limit, s, n - 1);
      CycleCounts(limit, Cycles(limit, s, n - 1));
    }
  }

  /** With the table at rest every row is passed after exactly the least number of cycles
      that covers those that remain. */
  lemma CatchesUp(limit: nat, s: State, n: nat)
    requires s.cycle == Resting && 0 < limit
    ensures var t := Cycles(limit, s, n);
            t.rows == s.rows && ((forall id <- t.rows :: Passed(t, id)) <==> Remaining(s) <= n * limit)
  {
    CyclesCount(limit, s, n);
    EtlConvergence.LeftIs(Remaining(s), limit, n);
    var t := Cycles(limit, s, n);
    var todo := After(Stamps(t.rows), t.cursor);
    if todo == {} {
      forall id <- t.rows ensures Passed(t, id) {
        assert Stamp(t.rows[id].modified, id) !in todo;
      }
    } else {
      var x :| x in todo;
      assert !Passed(t, x.id);
    }
  }

  // ---------- The persons index can stay behind ----------

  lemma IdleCycle(limit: nat, s: State)
    requires s.cycle == Resting && After(Stamps(s.rows), s.cursor) == {}
    ensures OneCycle(limit, s) == s
  {
  }

  lemma {:induction false} FixedPoint(step: State -> State, s: State, n: nat)
    requires step(s) == s
    ensures Iterate(step, s, n) == s
  {
    if n > 0 { FixedPoint(step, s, n - 1); }
  }

  /** A person indexed before a film is linked keeps a document without that film, however
      many cycles follow. */
  lemma PersonStaysBehind(limit: nat, n: nat)
    requires 0 < limit
    ensures var s := State(map[1 := Row(1, Body("person", {}))], 1, map[1 := {}], map[1 := Body("person", {})],
                           Stamp(1, 1), Resting);
            var t := Cycles(limit, Next(limit, s, Relink(map[1 := {(7, "actor")}])), n);
            && Run(limit, INIT, [Write(map[1 := "person"]), Select, Fetch, Save({1}), Checkpoint]) == s
            && 1 in t.rows && 1 in t.index
            && t.rows[1].body.films == {(7, "actor")} && t.index[1].films == {}
  {
    var s := State(map[1 := Row(1, Body("person", {}))], 1, map[1 := {}], map[1 := Body("person", {})], Stamp(1, 1),
                   Resting);
    Indexed(limit);
    var t := Next(limit, s, Relink(map[1 := {(7, "actor")}]));
    assert t.rows[1].modified == 1;
    assert After(Stamps(t.rows), t.cursor) == {};
    IdleCycle(limit, t);
    FixedPoint(x => OneCycle(limit, x), t, n);
  }

  lemma RunStep(limit: nat, s: State, events: seq<Event>, e: Event)
    ensures Run(limit, s, events + [e]) == Next(limit, Run(limit, s, events), e)
  {
  }

  lemma TwoSteps(limit: nat, s: State, before: seq<Event>, a: Event, b: Event)
    ensures Run(limit, s, before + [a, b]) == Next(limit, Next(limit, Run(limit, s, before), a), b)
  {
    var mid := before + [a];
    assert mid + [b] == before + [a, b];
    RunStep(limit, s, before, a);
    RunStep(limit, s, mid, b);
  }

  lemma FiveSteps(limit: nat, s: State, a: Event, b: Event, c: Event, d: Event, e: Event)
    ensures Run(limit, s, [a, b, c, d, e]) ==
        Next(limit, Next(limit, Next(limit, Next(limit, Next(limit, s, a), b), c), d), e)
  {
    TwoSteps(limit, s, [], a, b);
    assert [] + [a, b] == [a, b] && [a, b] + [c, d] == [a, b, c, d] && [a, b, c, d] + [e] == [a, b, c, d, e];
    TwoSteps(limit, s, [a, b], c, d);
    RunStep(limit, s, [a, b, c, d], e);
  }

  lemma OneRowChunk(limit: nat)
    requires 0 < limit
    ensures var rows := map[1 := Row(1, Body("person", {}))];
            Chunk(After(Stamps(rows), ORIGIN), limit) == [Stamp(1, 1)]
  {
    var rows := map[1 := Row(1, Body("person", {}))];
    assert 1 in rows && rows[1].modified == 1;
    forall x ensures x in Stamps(rows) <==> x == Stamp(1, 1) {
      if x == Stamp(1, 1) { assert x == Stamp(rows[1].modified, 1); }
    }
    assert Stamps(rows) == {Stamp(1, 1)};
    assert After({Stamp(1, 1)}, ORIGIN) == {Stamp(1, 1)};
    ChunkIsPrefix({Stamp(1, 1)}, limit);
    var chunk := Chunk({Stamp(1, 1)}, limit);
    assert |chunk| == 1 && chunk[0] in chunk;
  }

  lemma FirstDocs(rows: map<nat, Row>)
    requires rows == map[1 := Row(1, Body("person", {}))]
    ensures Bodies(rows, EtlConvergence.IdsOf([Stamp(1, 1)])) == map[1 := Body("person", {})]
    ensures Noted(map[], map[1 := Body("person", {})]) == map[1 := {}]
  {
    assert EtlConvergence.IdsOf([Stamp(1, 1)]) == {1};
  }

  lemma FirstCycle(limit: nat, s: State)
    requires 0 < limit && s == INIT.(rows := map[1 := Row(1, Body("person", {}))], clock := 1)
    ensures Next(limit, Next(limit, Next(limit, Next(limit, s, Select), Fetch), Save({1})), Checkpoint) ==
            State(s.rows, 1, map[1 := {}], map[1 := Body("person", {})], Stamp(1, 1), Resting)
  {
    OneRowChunk(limit);
    CycleOutcome(limit, s);
    FirstDocs(s.rows);
    assert s.rows.Keys == {1};
  }

  lemma Indexed(limit: nat)
    requires 0 < limit
    ensures Run(limit, INIT, [Write(map[1 := "person"]), Select, Fetch, Save({1}), Checkpoint]) ==
            State(map[1 := Row(1, Body("person", {}))], 1, map[1 := {}], map[1 := Body("person", {})], Stamp(1, 1),
                  Resting)
  {
    var w := Write(map[1 := "person"]);
    var s1 := INIT.(rows := map[1 := Row(1, Body("person", {}))], clock := 1);
    FiveSteps(limit, INIT, w, Select, Fetch, Save({1}), Checkpoint);
    assert Next(limit, INIT, w) == s1;
    FirstCycle(limit, s1);
  }
}
