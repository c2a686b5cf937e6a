/** What a journal says, apart from its chain of hashes: dated events of entities, in order,
    and what compaction keeps of them. */
module JournalLog {
  datatype Item<P> = Item(time: int, entity: string, payload: P)

  /** An entity survives when it is protected or has an event at or after the cutoff. */
  ghost predicate Survives<P>(log: seq<Item<P>>, cutoff: int, protected: set<string>, entity: string) {
    entity in protected || exists i :: 0 <= i < |log| && log[i].entity == entity && log[i].time >= cutoff
  }

  /** The events of the given entities, in order. */
  function Only<P>(log: seq<Item<P>>, entities: set<string>): seq<Item<P>> {
    if log == [] then [] else
      var last := log[|log| - 1];
      var before := Only(log[..|log| - 1], entities);
      if last.entity in entities then before + [last] else before
  }

  function Recent<P>(log: seq<Item<P>>, cutoff: int): set<string> {
    set i | 0 <= i < |log| && log[i].time >= cutoff :: log[i].entity
  }

  /** Compaction: whole entities are kept or dropped. */
  function Compacted<P>(log: seq<Item<P>>, cutoff: int, protected: set<string>): seq<Item<P>> {
    Only(log, protected + Recent(log, cutoff))
  }

  lemma {:induction false} OnlyAppend<P>(log: seq<Item<P>>, item: Item<P>, entities: set<string>)
    ensures Only(log + [item], entities)
         == if item.entity in entities then Only(log, entities) + [item] else Only(log, entities)
  {
    assert (log + [item])[..|log|] == log;
  }

  /** Whole entities, in order: the events of a surviving entity are exactly those it had,
      and an entity that does not survive has none left. */
  lemma {:induction false} OnlyEntity<P>(log: seq<Item<P>>, entities: set<string>, e: string)
    ensures Only(Only(log, entities), {e}) == if e in entities then Only(log, {e}) else []
  {
    if log != [] {
      var n := |log| - 1;
      OnlyEntity(log[..n], entities, e);
      if log[n].entity in entities {
        OnlyAppend(Only(log[..n], entities), log[n], {e});
      }
    }
  }

  lemma {:induction false} CompactedKeepsWhole<P>(log: seq<Item<P>>, cutoff: int, protected: set<string>, e: string)
    ensures Only(Compacted(log, cutoff, protected), {e})
         == if Survives(log, cutoff, protected, e) then Only(log, {e}) else []
  {
    OnlyEntity(log, protected + Recent(log, cutoff), e);
  }
}
