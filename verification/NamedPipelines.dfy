/** The genre and person pipelines as they run: changed rows, their details, bulk requests
    of one chunk size, and the checkpoint last. */
module NamedPipelines {
  import opened Keyset
  import opened NamedIndexes
  import Orchestrator

  ghost function Part(docs: map<nat, Body>, ids: set<nat>): map<nat, Body> {
    map id | id in docs && id in ids :: docs[id]
  }

  /** The state once these documents are saved. */
  ghost function SavedUpTo(s: State, done: set<nat>): State
    requires s.cycle.Saving?
  {
    s.(index := s.index + Part(s.cycle.docs, done), cycle := s.cycle.(docs := s.cycle.docs - done))
  }

  /** Saving batch after batch is saving the whole. */
  lemma BatchJoins(limit: nat, s: State, done: set<nat>, batch: set<nat>)
    requires s.cycle.Saving?
    ensures Next(limit, SavedUpTo(s, done), Save(batch)) == SavedUpTo(s, done + batch)
  {
    var docs := s.cycle.docs;
    assert s.index + Part(docs, done) + Part(docs - done, batch) == s.index + Part(docs, done + batch);
    assert (docs - done) - batch == docs - (done + batch);
  }

  lemma NoneSaved(s: State)
    requires s.cycle.Saving?
    ensures SavedUpTo(s, {}) == s
  {
    assert Part(s.cycle.docs, {}) == map[] && s.cycle.docs - {} == s.cycle.docs;
  }

  lemma AllSaved(limit: nat, s: State, all: set<nat>)
    requires s.cycle.Saving? && s.cycle.docs.Keys <= all
    ensures SavedUpTo(s, s.cycle.docs.Keys) == Next(limit, s, Save(all))
  {
    var docs := s.cycle.docs;
    assert Part(docs, docs.Keys) == Part(docs, all) && docs - docs.Keys == docs - all;
  }

  class NamedPipeline {
    const limit: nat
    var rows: map<nat, Row>
    var clock: nat
    var index: map<nat, Body>
    var cursor: Stamp
    var cycle: Cycle
    /** What the last fetches saw. */
    ghost var seen: map<nat, Credits>

    ghost function View(): State
      reads this
    {
      State(rows, clock, seen, index, cursor, cycle)
    }

    constructor (chunkSize: nat)
      ensures View() == INIT && limit == chunkSize
    {
      limit := chunkSize;
      rows, clock, index, cursor, cycle, seen := map[], 0, map[], ORIGIN, Resting, map[];
    }

    method FetchChangedEntities()
      requires cycle == Resting
      modifies this`cycle
      ensures View() == Next(limit, old(View()), Select)
      ensures cycle.Resting? || cycle.Selected?
    {
      var chunk := Orchestrator.FetchFirst(After(Stamps(rows), cursor), limit);
      if chunk != [] {
        cycle := Selected(chunk[|chunk| - 1], clock, set x | x in chunk :: x.id);
      }
    }

    method FetchDetails()
      modifies this`cycle, this`seen
      ensures View() == Next(limit, old(View()), Fetch)
      ensures old(cycle).Selected? ==> cycle.Resting? || cycle.Saving?
    {
      if cycle.Selected? {
        var docs := Bodies(rows, cycle.ids);
        seen := Noted(seen, docs);
        cycle := if docs == map[] then Resting else Saving(cycle.next, cycle.since, cycle.ids, docs);
      }
    }

    method BulkSave(batch: set<nat>)
      requires cycle.Saving?
      modifies this`index, this`cycle
      ensures View() == Next(limit, old(View()), Save(batch))
    {
      index := index + map id | id in cycle.docs && id in batch :: cycle.docs[id];
      cycle := cycle.(docs := cycle.docs - batch);
    }

    method SetState()
      requires cycle.Saving? && cycle.docs == map[]
      modifies this`cursor, this`cycle
      ensures View() == Next(limit, old(View()), Checkpoint)
    {
      cursor := cycle.next;
      cycle := Resting;
    }

    method SaveBatches()
      requires cycle.Saving? && 0 < limit && cycle.docs.Keys <= rows.Keys
      modifies this`index, this`cycle
      ensures View() == Next(limit, old(View()), Save(rows.Keys))
    {
      ghost var before := View();
      ghost var done: set<nat> := {};
      var rest := cycle.docs.Keys;
      NoneSaved(before);
      AllSaved(limit, before, rows.Keys);
      while rest != {}
        invariant done + rest == before.cycle.docs.Keys && View() == SavedUpTo(before, done)
        decreases rest
      {
        var batch := TakeBatch(rest);
        SaveOne(batch, before, done);
        done, rest := done + batch, rest - batch;
      }
      assert done == before.cycle.docs.Keys;
    }

    method SaveOne(batch: set<nat>, ghost before: State, ghost done: set<nat>)
      requires before.cycle.Saving? && View() == SavedUpTo(before, done)
      modifies this`index, this`cycle
      ensures View() == SavedUpTo(before, done + batch)
    {
      BatchJoins(limit, before, done, batch);
      BulkSave(batch);
    }

    method TakeBatch(rest: set<nat>) returns (batch: set<nat>)
      requires rest != {} && 0 < limit
      ensures batch != {} && batch <= rest && |batch| <= limit
    {
      batch := {};
      var left := rest;
      while |batch| < limit && left != {}
        invariant left <= rest && batch == rest - left && |batch| <= limit
        invariant batch == {} ==> left == rest
        decreases left
      {
        var x :| x in left;
        batch, left := batch + {x}, left - {x};
      }
    }

    /** One cycle with nothing in between; it stops early when no row changed. */
    method RunPipeline()
      requires cycle == Resting && 0 < limit
      modifies this
      ensures View() == OneCycle(limit, old(View()))
    {
      FetchChangedEntities();
      if cycle.Resting? {
        return;
      }
      FetchDetails();
      if cycle.Resting? {
        return;
      }
      SaveBatches();
      SetState();
    }
  }
}
