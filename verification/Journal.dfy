/** The hash-chained journal file: append, verification, compaction and the anchor.
    A hash is modelled as an injective function of what it covers, so it carries that content. */
module Journal {
  import opened JournalLog

  /** Hash of an entry; NoHash stands for the empty string before the first one. */
  datatype Hash<P> = NoHash | Digest(schema: nat, sequence: nat, item: Item<P>, previous: Hash<P>)

  datatype Entry<P> = Entry(schema: nat, sequence: nat, item: Item<P>, previous: Hash<P>, hash: Hash<P>)

  const SCHEMA := 1

  function EntryHash<P>(e: Entry<P>): Hash<P> { Digest(e.schema, e.sequence, e.item, e.previous) }

  function LastHash<P>(file: seq<Entry<P>>): Hash<P> {
    if file == [] then NoHash else file[|file| - 1].hash
  }

  function LastSequence<P>(file: seq<Entry<P>>): nat {
    if file == [] then 0 else file[|file| - 1].sequence
  }

  function Items<P>(file: seq<Entry<P>>): seq<Item<P>> {
    seq(|file|, i requires 0 <= i < |file| => file[i].item)
  }

  /** Every entry numbers itself, points to its predecessor and carries its own hash. */
  ghost predicate Verifies<P(!new)>(file: seq<Entry<P>>) {
    forall i :: 0 <= i < |file| ==>
      && file[i].schema == SCHEMA && file[i].sequence == i + 1
      && file[i].previous == LastHash(file[..i]) && file[i].hash == EntryHash(file[i])
  }

  /** The journal file that carries the given items. */
  function Chain<P>(items: seq<Item<P>>): seq<Entry<P>> {
    if items == [] then [] else
      var before := Chain(items[..|items| - 1]);
      before + [Next(before, items[|items| - 1])]
  }

  function Next<P>(file: seq<Entry<P>>, item: Item<P>): Entry<P> {
    var e := Entry(SCHEMA, |file| + 1, item, LastHash(file), NoHash);
    e.(hash := EntryHash(e))
  }

  lemma {:induction false} ChainShape<P(!new)>(items: seq<Item<P>>)
    ensures |Chain(items)| == |items| && Items(Chain(items)) == items && Verifies(Chain(items))
  {
    if items != [] {
      var past, last := items[..|items| - 1], items[|items| - 1];
      ChainShape(past);
      ChainGrows(items, past, last, Chain(past));
    }
  }

  lemma {:induction false} ItemsAppend<P>(file: seq<Entry<P>>, e: Entry<P>)
    ensures Items(file + [e]) == Items(file) + [e.item]
  {
    assert forall i :: 0 <= i < |file| ==> (file + [e])[i] == file[i];
  }

  lemma {:induction false} ChainGrows<P(!new)>(items: seq<Item<P>>, past: seq<Item<P>>, last: Item<P>,
                                               before: seq<Entry<P>>)
    requires items != [] && past == items[..|items| - 1] && last == items[|items| - 1]
    requires before == Chain(past) && |before| == |past| && Items(before) == past && Verifies(before)
    ensures |Chain(items)| == |items| && Items(Chain(items)) == items && Verifies(Chain(items))
  {
    assert Chain(items) == before + [Next(before, last)];
    assert items == past + [last];
    ItemsAppend(before, Next(before, last));
    VerifiesNext(before, last);
  }

  lemma {:induction false} VerifiesNext<P(!new)>(file: seq<Entry<P>>, item: Item<P>)
    requires Verifies(file)
    ensures Verifies(file + [Next(file, item)])
  {
    var longer := file + [Next(file, item)];
    forall i | 0 <= i < |longer|
      ensures longer[i].schema == SCHEMA && longer[i].sequence == i + 1
      ensures longer[i].previous == LastHash(longer[..i]) && longer[i].hash == EntryHash(longer[i])
    {
      assert longer[..i] == file[..i];
      if i == |file| { assert file[..i] == file; }
    }
  }

  lemma {:induction false} VerifiesPrefix<P(!new)>(file: seq<Entry<P>>, n: nat)
    requires Verifies(file) && n <= |file|
    ensures Verifies(file[..n])
  {
    forall i | 0 <= i < n ensures file[..n][..i] == file[..i] {}
  }

  /** A file that verifies is the chain of its own items: nothing else is left to say. */
  lemma {:induction false} VerifiedIsChain<P(!new)>(file: seq<Entry<P>>)
    requires Verifies(file)
    ensures file == Chain(Items(file)) && LastSequence(file) == |file|
  {
    if file != [] {
      var n := |file| - 1;
      VerifiesPrefix(file, n);
      VerifiedIsChain(file[..n]);
      assert file[n] == Next(file[..n], file[n].item);
      assert file == file[..n] + [file[n]];
      ChainAppend(file[..n], file[n], file[..n]);
    }
  }

  ghost predicate IsChain<P(!new)>(file: seq<Entry<P>>) { file == Chain(Items(file)) }

  /** The check accepts exactly the files that appending their own items would produce. */
  lemma {:induction false} VerifiesIffChain<P(!new)>(file: seq<Entry<P>>)
    ensures Verifies(file) <==> IsChain(file)
  {
    if Verifies(file) { VerifiedIsChain(file); }
    ChainShape(Items(file));
  }

  lemma {:induction false} ChainNext<P(!new)>(file: seq<Entry<P>>, item: Item<P>)
    requires IsChain(file)
    ensures IsChain(file + [Next(file, item)]) && Items(file + [Next(file, item)]) == Items(file) + [item]
  {
    ItemsAppend(file, Next(file, item));
    assert (Items(file) + [item])[..|file|] == Items(file);
  }

  lemma {:induction false} ChainLast<P(!new)>(file: seq<Entry<P>>)
    requires IsChain(file)
    ensures LastSequence(file) == |file|
    ensures forall i :: 0 <= i < |file| ==> file[i].schema == SCHEMA
  {
    VerifiesIffChain(file);
    VerifiedIsChain(file);
  }

  lemma {:induction false} ChainItems<P(!new)>(items: seq<Item<P>>)
    ensures IsChain(Chain(items)) && Items(Chain(items)) == items
  {
    ChainShape(items);
  }

  /** Chain integrity: the last hash identifies a verified file. */
  lemma {:induction false} SameHashSameFile<P(!new)>(f: seq<Entry<P>>, g: seq<Entry<P>>)
    requires Verifies(f) && Verifies(g) && f != [] && g != []
    requires LastHash(f) == LastHash(g)
    ensures f == g
  {
    var m, n := |f| - 1, |g| - 1;
    assert f[m].hash == EntryHash(f[m]) && g[n].hash == EntryHash(g[n]);
    assert f == f[..m] + [f[m]] && g == g[..n] + [g[n]];
    VerifiesPrefix(f, m);
    VerifiesPrefix(g, n);
    if m > 0 { SameHashSameFile(f[..m], g[..n]); }
  }

  /** The running check of the source, with its two running variables. */
  method ReadAndVerify<P(!new, ==)>(file: seq<Entry<P>>) returns (ok: bool)
    ensures ok <==> Verifies(file)
  {
    var sequence := 0;
    var previous: Hash<P> := NoHash;
    for i := 0 to |file|
      invariant sequence == i && previous == LastHash(file[..i]) && Verifies(file[..i])
    {
      var e := file[i];
      assert file[..i + 1] == file[..i] + [e];
      if e.schema != SCHEMA || e.sequence != sequence + 1 || e.previous != previous || e.hash != EntryHash(e) {
        return false;
      }
      VerifiesNext(file[..i], e.item);
      sequence := e.sequence;
      previous := e.hash;
    }
    assert file[..|file|] == file;
    ok := true;
  }

  lemma {:induction false} ChainAppend<P(!new)>(seen: seq<Entry<P>>, e: Entry<P>, before: seq<Entry<P>>)
    requires before == Chain(Items(seen))
    ensures Chain(Items(seen + [e])) == before + [Next(before, e.item)]
  {
    ItemsAppend(seen, e);
    assert (Items(seen) + [e.item])[..|seen|] == Items(seen);
  }

  /** Sequence numbers and hashes are recomputed; what the entries say stays. */
  method RebuildChain<P(!new)>(entries: seq<Entry<P>>) returns (rebuilt: seq<Entry<P>>)
    requires forall i :: 0 <= i < |entries| ==> entries[i].schema == SCHEMA
    ensures rebuilt == Chain(Items(entries))
  {
    rebuilt := entries;
    var previous: Hash<P> := NoHash;
    for i := 0 to |entries|
      invariant |rebuilt| == |entries| && rebuilt[i..] == entries[i..]
      invariant rebuilt[..i] == Chain(Items(entries[..i])) && previous == LastHash(rebuilt[..i])
    {
      var e := rebuilt[i].(sequence := i + 1, previous := previous);
      e := e.(hash := EntryHash(e));
      ghost var before := rebuilt[..i];
      assert rebuilt[i] == entries[i] && e == Next(before, entries[i].item);
      ChainAppend(entries[..i], entries[i], before);
      assert entries[..i + 1] == entries[..i] + [entries[i]];
      rebuilt := rebuilt[i := e];
      previous := e.hash;
      assert rebuilt[..i + 1] == before + [e];
    }
    assert entries[..|entries|] == entries && rebuilt[..|entries|] == rebuilt;
  }

  lemma {:induction false} RecentStep<P>(entries: seq<Entry<P>>, i: nat, cutoff: int)
    requires i < |entries|
    ensures Recent(Items(entries[..i + 1]), cutoff)
         == Recent(Items(entries[..i]), cutoff)
            + (if entries[i].item.time >= cutoff then {entries[i].item.entity} else {})
  {
    var a, b := Items(entries[..i + 1]), Items(entries[..i]);
    assert forall j :: 0 <= j < i ==> a[j] == b[j];
    assert a[i] == entries[i].item;
    forall e | e in Recent(a, cutoff)
      ensures e in Recent(b, cutoff) || (entries[i].item.time >= cutoff && e == entries[i].item.entity)
    {
      var j :| 0 <= j < |a| && a[j].time >= cutoff && a[j].entity == e;
      if j < i { assert b[j].entity == e && b[j].time >= cutoff; }
    }
    forall e | e in Recent(b, cutoff) ensures e in Recent(a, cutoff) {
      var j :| 0 <= j < |b| && b[j].time >= cutoff && b[j].entity == e;
      assert a[j].entity == e && a[j].time >= cutoff;
    }
    if entries[i].item.time >= cutoff { assert a[i].entity in Recent(a, cutoff); }
  }

  method Survivors<P(!new, ==)>(entries: seq<Entry<P>>, cutoff: int, protected: set<string>)
    returns (kept: set<string>)
    ensures kept == protected + Recent(Items(entries), cutoff)
  {
    kept := protected;
    for i := 0 to |entries|
      invariant kept == protected + Recent(Items(entries[..i]), cutoff)
    {
      RecentStep(entries, i, cutoff);
      if entries[i].item.time >= cutoff { kept := kept + {entries[i].item.entity}; }
    }
    assert entries[..|entries|] == entries;
  }

  /** What the second pass has kept of the entries it has seen. */
  ghost predicate Filtered<P(!new)>(retained: seq<Entry<P>>, seen: seq<Entry<P>>, kept: set<string>) {
    && Items(retained) == Only(Items(seen), kept) && |retained| <= |seen|
    && (|retained| == |seen| ==> retained == seen)
    && forall e :: e in retained ==> e in seen
  }

  lemma {:induction false} FilterOneMore<P(!new)>(retained: seq<Entry<P>>, seen: seq<Entry<P>>, e: Entry<P>,
                                                  kept: set<string>)
    requires Filtered(retained, seen, kept)
    ensures Filtered(if e.item.entity in kept then retained + [e] else retained, seen + [e], kept)
  {
    ItemsAppend(seen, e);
    ItemsAppend(retained, e);
    OnlyAppend(Items(seen), e.item, kept);
  }

  /** The two passes of compaction: collect the surviving entities, then keep their entries. */
  method Retain<P(!new, ==)>(entries: seq<Entry<P>>, cutoff: int, protected: set<string>)
    returns (retained: seq<Entry<P>>)
    requires forall i :: 0 <= i < |entries| ==> entries[i].schema == SCHEMA
    ensures Items(retained) == Compacted(Items(entries), cutoff, protected)
    ensures forall i :: 0 <= i < |retained| ==> retained[i].schema == SCHEMA
    ensures |retained| == |entries| ==> retained == entries
  {
    var kept := Survivors(entries, cutoff, protected);
    retained := [];
    for i := 0 to |entries|
      invariant Filtered(retained, entries[..i], kept)
    {
      FilterOneMore(retained, entries[..i], entries[i], kept);
      assert entries[..i + 1] == entries[..i] + [entries[i]];
      if entries[i].item.entity in kept { retained := retained + [entries[i]]; }
    }
    assert entries[..|entries|] == entries;
    assert forall i :: 0 <= i < |retained| ==> retained[i] in entries;
  }

  datatype State = Healthy | Degraded | Closed

  /** Where an append or a compaction may fail. */
  datatype Fault = NoFault | EncodeFault | WriteFault | AnchorFault

  datatype Anchor<P> = NoAnchor | Anchor(sequence: nat, hash: Hash<P>)

  /** The journal file and anchor on disk, and the store's memory of them.  A write is atomic:
      it happens or it does not. */
  datatype Log<P> = Log(file: seq<Entry<P>>, anchor: Anchor<P>, keyed: bool, entries: seq<Entry<P>>,
                        sequence: nat, lastHash: Hash<P>, state: State)

  /** The file always verifies; a healthy store's memory is that file, and its anchor too. */
  ghost predicate Sound<P(!new)>(j: Log<P>) {
    && IsChain(j.file) && IsChain(j.entries)
    && (j.state == Healthy ==> Current(j))
  }

  predicate Current<P(==)>(j: Log<P>) {
    && j.entries == j.file && j.sequence == |j.file| && j.lastHash == LastHash(j.file)
    && (j.keyed ==> j.anchor == Anchor(j.sequence, j.lastHash))
  }

  function Created<P>(keyed: bool): Log<P> {
    Log([], if keyed then Anchor(0, NoHash) else NoAnchor, keyed, [], 0, NoHash, Healthy)
  }

  function Degrade<P>(j: Log<P>): Log<P> { if j.state == Closed then j else j.(state := Degraded) }

  /** The entry, once written to the file. */
  function Written<P>(j: Log<P>, e: Entry<P>): Log<P> {
    j.(file := j.file + [e], sequence := e.sequence, lastHash := e.hash)
  }

  function AppendStep<P>(j: Log<P>, item: Item<P>, fault: Fault): (Log<P>, bool) {
    if fault == EncodeFault then (Degrade(j), false)
    else if j.state != Healthy then (j, false)
    else if fault == WriteFault then (Degrade(j), false)
    else
      var e := Entry(SCHEMA, j.sequence + 1, item, j.lastHash, NoHash);
      var w := Written(j, e.(hash := EntryHash(e)));
      if j.keyed && fault == AnchorFault then (Degrade(w), false)
      else (w.(entries := w.entries + [e.(hash := EntryHash(e))],
               anchor := if j.keyed then Anchor(w.sequence, w.lastHash) else w.anchor), true)
  }

  /** Memory and file after the compacted chain has replaced them. */
  function Replaced<P>(j: Log<P>, chain: seq<Entry<P>>): Log<P> {
    j.(file := chain, entries := chain, sequence := LastSequence(chain), lastHash := LastHash(chain))
  }

  function CompactStep<P>(j: Log<P>, cutoff: int, protected: set<string>, fault: Fault): (Log<P>, bool) {
    var kept := Compacted(Items(j.entries), cutoff, protected);
    if |kept| == |j.entries| then (j, true)
    else if fault == EncodeFault || fault == WriteFault then (j, false)
    else
      var w := Replaced(j, Chain(kept));
      if j.keyed && fault == AnchorFault then (Degrade(w), false)
      else (w.(anchor := if j.keyed then Anchor(w.sequence, w.lastHash) else w.anchor), true)
  }

  /** A new process opens the file it finds; None when it does not verify or is not the
      anchored one. */
  ghost predicate Opens<P(!new)>(j: Log<P>) {
    IsChain(j.file) && (j.keyed && j.anchor.Anchor? ==> j.anchor == Anchor(LastSequence(j.file), LastHash(j.file)))
  }

  function OpenStep<P>(j: Log<P>): Log<P> {
    Log(j.file, if j.keyed then Anchor(LastSequence(j.file), LastHash(j.file)) else j.anchor, j.keyed,
        j.file, LastSequence(j.file), LastHash(j.file), Healthy)
  }

  // ---------------------------------------------------------------- what every step keeps

  lemma {:induction false} AppendSound<P(!new)>(j: Log<P>, item: Item<P>, fault: Fault)
    requires Sound(j)
    ensures Sound(AppendStep(j, item, fault).0)
  {
    if j.state == Healthy {
      var longer := j.file + [Next(j.file, item)];
      ChainNext(j.file, item);
      LastOf(j.file, Next(j.file, item), longer);
    }
  }

  lemma {:induction false} LastOf<P>(file: seq<Entry<P>>, e: Entry<P>, longer: seq<Entry<P>>)
    requires longer == file + [e]
    ensures |longer| == |file| + 1 && LastHash(longer) == e.hash
  {}

  /** An append either adds its item to a healthy journal or leaves one that takes no more. */
  lemma {:induction false} AppendEffect<P(!new)>(j: Log<P>, item: Item<P>, fault: Fault)
    requires Sound(j)
    ensures var (k, ok) := AppendStep(j, item, fault);
      && (ok <==> j.state == Healthy && (fault == NoFault || (fault == AnchorFault && !j.keyed)))
      && (ok ==> k.state == Healthy && Items(k.file) == Items(j.file) + [item])
      && (!ok ==> k.state != Healthy && k.entries == j.entries)
      && (j.state != Healthy ==> k.file == j.file && k.state != Healthy)
  {
    if j.state == Healthy { ChainNext(j.file, item); }
  }

  lemma {:induction false} CompactSound<P(!new)>(j: Log<P>, cutoff: int, protected: set<string>, fault: Fault)
    requires Sound(j)
    ensures Sound(CompactStep(j, cutoff, protected, fault).0)
  {
    ReplacedSound(Compacted(Items(j.entries), cutoff, protected));
  }

  lemma {:induction false} ReplacedSound<P(!new)>(kept: seq<Item<P>>)
    ensures IsChain(Chain(kept)) && LastSequence(Chain(kept)) == |Chain(kept)|
  {
    ChainItems(kept);
    ChainLast(Chain(kept));
  }

  /** Compaction keeps or drops entities whole and in order, and never heals a journal. */
  lemma {:induction false} CompactEffect<P(!new)>(j: Log<P>, cutoff: int, protected: set<string>, fault: Fault,
                                                  entity: string)
    requires Sound(j)
    ensures var (k, ok) := CompactStep(j, cutoff, protected, fault);
      && (k.state == Healthy ==> j.state == Healthy)
      && (ok ==> k.state == j.state)
      && (ok ==> Only(Items(k.entries), {entity})
                 == if Survives(Items(j.entries), cutoff, protected, entity)
                    then Only(Items(j.entries), {entity}) else [])
      && (ok && j.state == Healthy ==> k.file == k.entries)
  {
    var kept := Compacted(Items(j.entries), cutoff, protected);
    CompactedKeepsWhole(Items(j.entries), cutoff, protected, entity);
    ChainItems(kept);
    if |kept| == |j.entries| { OnlyAll(Items(j.entries), protected + Recent(Items(j.entries), cutoff)); }
  }

  lemma {:induction false} OnlyAll<P>(log: seq<Item<P>>, entities: set<string>)
    ensures |Only(log, entities)| <= |log|
    ensures |Only(log, entities)| == |log| ==> Only(log, entities) == log
  {
    if log != [] {
      OnlyAll(log[..|log| - 1], entities);
      assert log == log[..|log| - 1] + [log[|log| - 1]];
    }
  }

  datatype Op<P> =
    | AppendOp(item: Item<P>, fault: Fault)
    | CompactOp(cutoff: int, protected: set<string>, fault: Fault)
    | ReopenOp

  ghost function Step<P(!new)>(j: Log<P>, op: Op<P>): Log<P> {
    match op
    case AppendOp(item, fault) => AppendStep(j, item, fault).0
    case CompactOp(cutoff, protected, fault) => CompactStep(j, cutoff, protected, fault).0
    case ReopenOp => if Opens(j) then OpenStep(j) else j
  }

  ghost function Run<P(!new)>(j: Log<P>, ops: seq<Op<P>>): Log<P> {
    if ops == [] then j else Step(Run(j, ops[..|ops| - 1]), ops[|ops| - 1])
  }

  /** Over every run of appends, compactions and restarts, whatever fails, the file verifies,
      and a healthy journal's sequence is its length. */
  lemma {:induction false} RunSound<P(!new)>(keyed: bool, ops: seq<Op<P>>)
    ensures var j := Run(Created(keyed), ops);
      Sound(j) && Verifies(j.file) && (j.state == Healthy ==> j.sequence == |j.file| && j.entries == j.file)
  {
    var j := Run(Created(keyed), ops);
    if ops != [] {
      var n := |ops| - 1;
      RunSound(keyed, ops[..n]);
      var before := Run(Created(keyed), ops[..n]);
      match ops[n]
      case AppendOp(item, fault) => AppendSound(before, item, fault);
      case CompactOp(cutoff, protected, fault) => CompactSound(before, cutoff, protected, fault);
      case ReopenOp => if Opens(before) { ChainLast(before.file); }
    }
    VerifiesIffChain(j.file);
  }

  // ---------------------------------------------------------------- the store

  class Store<P(!new, ==)> {
    var file: seq<Entry<P>>
    var anchor: Anchor<P>
    var keyed: bool
    var entries: seq<Entry<P>>
    var sequence: nat
    var lastHash: Hash<P>
    var state: State

    function Model(): Log<P> reads this { Log(file, anchor, keyed, entries, sequence, lastHash, state) }

    constructor (keyed: bool)
      ensures Model() == Created(keyed)
    {
      file, entries, sequence, lastHash, state := [], [], 0, NoHash, Healthy;
      this.keyed := keyed;
      anchor := if keyed then Anchor(0, NoHash) else NoAnchor;
    }

    method Append(time: int, entity: string, payload: P, fault: Fault) returns (ok: bool)
      modifies this
      ensures (Model(), ok) == AppendStep(old(Model()), Item(time, entity, payload), fault)
    {
      if fault == EncodeFault {
        if state != Closed { state := Degraded; }
        return false;
      }
      if state != Healthy { return false; }
      var e := Entry(SCHEMA, sequence + 1, Item(time, entity, payload), lastHash, NoHash);
      e := e.(hash := EntryHash(e));
      if fault == WriteFault {
        state := Degraded;
        return false;
      }
      file := file + [e];
      sequence, lastHash := e.sequence, e.hash;
      if keyed {
        if fault == AnchorFault {
          state := Degraded;
          return false;
        }
        anchor := Anchor(sequence, lastHash);
      }
      entries := entries + [e];
      ok := true;
    }

    method Compact(cutoff: int, protected: set<string>, fault: Fault) returns (ok: bool)
      requires IsChain(entries)
      modifies this
      ensures (Model(), ok) == CompactStep(old(Model()), cutoff, protected, fault)
    {
      ChainLast(entries);
      var retained := Retain(entries, cutoff, protected);
      if |retained| == |entries| { return true; }
      if fault == EncodeFault || fault == WriteFault { return false; }
      retained := RebuildChain(retained);
      file, entries := retained, retained;
      sequence, lastHash := LastSequence(retained), LastHash(retained);
      if keyed {
        if fault == AnchorFault {
          if state != Closed { state := Degraded; }
          return false;
        }
        anchor := Anchor(sequence, lastHash);
      }
      ok := true;
    }

    /** The file must verify, and be the one its anchor names. */
    method CanOpen() returns (ok: bool)
      ensures ok <==> Opens(Model())
    {
      ok := ReadAndVerify(file);
      VerifiesIffChain(file);
      if keyed && anchor.Anchor? && anchor != Anchor(LastSequence(file), LastHash(file)) { ok := false; }
    }

    method Reopen() returns (ok: bool)
      modifies this
      ensures ok <==> Opens(old(Model()))
      ensures Model() == if ok then OpenStep(old(Model())) else old(Model())
    {
      ok := CanOpen();
      if !ok { return; }
      entries, sequence, lastHash, state := file, LastSequence(file), LastHash(file), Healthy;
      if keyed { anchor := Anchor(sequence, lastHash); }
    }
  }

  /** A file that was rewritten is told apart by the anchor of the last write: only the
      anchored file itself passes. */
  lemma {:induction false} AnchorPinsFile<P(!new)>(anchored: seq<Entry<P>>, found: seq<Entry<P>>)
    requires Verifies(anchored) && Verifies(found)
    requires LastSequence(found) == LastSequence(anchored) && LastHash(found) == LastHash(anchored)
    ensures found == anchored
  {
    VerifiedIsChain(anchored);
    VerifiedIsChain(found);
    if anchored != [] && found != [] { SameHashSameFile(found, anchored); }
  }
}
