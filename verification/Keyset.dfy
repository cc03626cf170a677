/** Keyset pagination: the first rows after a checkpoint in the order (modified, id). */
module Keyset {
  /** When an entity was last modified, and its identifier. */
  datatype Stamp = Stamp(modified: nat, id: nat)

  /** Before every row: the checkpoint of a pipeline that never ran. */
  const ORIGIN := Stamp(0, 0)

  predicate Less(a: Stamp, b: Stamp) {
    a.modified < b.modified || (a.modified == b.modified && a.id < b.id)
  }

  predicate AtMost(a: Stamp, b: Stamp) {
    a == b || Less(a, b)
  }

  /** The rows the query's WHERE clause selects. */
  function After(rows: set<Stamp>, cp: Stamp): set<Stamp> {
    set r | r in rows && Less(cp, r)
  }

  lemma {:induction false} LeastExists(rows: set<Stamp>)
    requires rows != {}
    ensures exists x :: x in rows && forall y <- rows :: AtMost(x, y)
  {
    var a :| a in rows;
    if rows - {a} == {} {
      assert rows == {a};
    } else {
      LeastExists(rows - {a});
      var b :| b in rows - {a} && forall y <- rows - {a} :: AtMost(b, y);
      var x := if Less(a, b) then a else b;
      forall y <- rows ensures AtMost(x, y) {
        assert y == a || y in rows - {a};
      }
    }
  }

  ghost function Least(rows: set<Stamp>): (x: Stamp)
    requires rows != {}
    ensures x in rows && forall y <- rows :: AtMost(x, y)
  {
    LeastExists(rows);
    var x :| x in rows && forall y <- rows :: AtMost(x, y);
    x
  }

  /** ORDER BY modified, id LIMIT limit. */
  ghost function Chunk(rows: set<Stamp>, limit: nat): seq<Stamp>
    decreases limit
  {
    if rows == {} || limit == 0 then []
    else [Least(rows)] + Chunk(rows - {Least(rows)}, limit - 1)
  }

  /** A chunk holds the first rows: everything left out comes later, and nothing is left out
      of a short chunk. */
  lemma {:induction false} ChunkIsPrefix(rows: set<Stamp>, limit: nat)
    ensures var chunk := Chunk(rows, limit);
            && (forall x <- chunk :: x in rows)
            && (forall i, j | 0 <= i < j < |chunk| :: Less(chunk[i], chunk[j]))
            && (forall x <- chunk, y <- rows :: y !in chunk ==> Less(x, y))
            && |chunk| == (if |rows| < limit then |rows| else limit)
    decreases limit
  {
    if rows != {} && limit != 0 {
      var x := Least(rows);
      var rest := rows - {x};
      ChunkIsPrefix(rest, limit - 1);
      assert |rest| == |rows| - 1;
      assert forall y <- rest :: Less(x, y);
    }
  }

  /** The rows up to the last row of a chunk are exactly the chunk. */
  lemma ChunkCovers(rows: set<Stamp>, limit: nat)
    requires Chunk(rows, limit) != []
    ensures var chunk := Chunk(rows, limit);
            var last := chunk[|chunk| - 1];
            && last in rows
            && (forall y <- rows :: AtMost(y, last) <==> y in chunk)
  {
  }

  /** Moving the checkpoint to the end of a chunk takes exactly the chunk's rows away. */
  lemma ChunkAdvances(rows: set<Stamp>, cp: Stamp, limit: nat)
    requires Chunk(After(rows, cp), limit) != []
    ensures var chunk := Chunk(After(rows, cp), limit);
            var next := chunk[|chunk| - 1];
            && Less(cp, next)
            && After(rows, next) == After(rows, cp) - (set x | x in chunk)
            && |After(rows, next)| == |After(rows, cp)| - |chunk|
  {
    var todo := After(rows, cp);
    var chunk := Chunk(todo, limit);
    var next := chunk[|chunk| - 1];
    ChunkIsPrefix(todo, limit);
    ChunkCovers(todo, limit);
    TakeAway(rows, cp, chunk, next);
    DistinctCount(chunk);
    SubsetCount(todo, set x | x in chunk);
  }

  lemma TakeAway(rows: set<Stamp>, cp: Stamp, chunk: seq<Stamp>, next: Stamp)
    requires Less(cp, next) && forall y <- After(rows, cp) :: AtMost(y, next) <==> y in chunk
    ensures After(rows, next) == After(rows, cp) - (set x | x in chunk)
  {
  }

  lemma SubsetCount(rows: set<Stamp>, taken: set<Stamp>)
    requires taken <= rows
    ensures |rows - taken| == |rows| - |taken|
  {
  }

  lemma {:induction false} DistinctCount(xs: seq<Stamp>)
    requires forall i, j | 0 <= i < j < |xs| :: xs[i] != xs[j]
    ensures |set x | x in xs| == |xs|
  {
    if xs != [] {
      var rest := xs[1..];
      DistinctCount(rest);
      assert (set x | x in xs) == {xs[0]} + (set x | x in rest);
      assert xs[0] !in rest;
    }
  }
}
