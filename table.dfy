/**
  The resource manager's state as a value: the key-to-holder table and the
  log of release-routine calls made so far. This module states what one
  insertion does to that state and what every release over a whole session
  adds up to; the class in module ResourceManager is tied to these functions.
 */
module ResourceTable {
  import opened Resources

  type Table = map<Key, Holder>

  /** The manager's table and, in order, every release routine it has called. */
  datatype Cache = Cache(table: Table, released: seq<Release>)

  /**
    The releases tearing down `t` performs: one per entry, through the holder
    deallocator. Counted with multiplicity, so two keys holding equal payloads
    give two releases.
   */
  ghost function ReleasesOf(t: Table): (r: multiset<Release>)
    ensures |r| == |t|
    decreases |t|
  {
    if t == map[] then multiset{}
    else
      var k := AnyKey(t);
      assert (t - {k}).Keys == t.Keys - {k};
      multiset{Deallocate(t[k])} + ReleasesOf(t - {k})
  }

  /** Some key of a non-empty table: the one a tear-down happens to visit first. */
  ghost function AnyKey(t: Table): (k: Key)
    requires t != map[]
    ensures k in t
  {
    var k :| k in t; k
  }

  /** Removing two distinct keys, in either order. */
  lemma RemoveBoth(t: Table, j: Key, k: Key)
    requires j in t && k in t && j != k
    ensures k in t - {j} && (t - {j})[k] == t[k] && |t - {j}| < |t|
    ensures j in t - {k} && (t - {k})[j] == t[j] && |t - {k}| < |t|
    ensures t - {j} - {k} == t - {k} - {j}
  {
    assert (t - {j}).Keys == t.Keys - {j};
    assert (t - {k}).Keys == t.Keys - {k};
  }

  /** Tearing down any one entry first leaves the rest to release as before. */
  lemma {:induction false} ReleasesOfRemove(t: Table, k: Key)
    requires k in t
    ensures ReleasesOf(t) == ReleasesOf(t - {k}) + multiset{Deallocate(t[k])}
    decreases |t|
  {
    var j := AnyKey(t);
    if j != k {
      RemoveBoth(t, j, k);
      ReleasesOfRemove(t - {j}, k);
      ReleasesOfRemove(t - {k}, j);
      var rest := t - {j} - {k};
      assert ReleasesOf(t) == multiset{Deallocate(t[j])} + ReleasesOf(t - {j});
      ReorderFirstTwo(ReleasesOf(t), ReleasesOf(t - {j}), ReleasesOf(t - {k}), ReleasesOf(rest),
                      multiset{Deallocate(t[j])}, multiset{Deallocate(t[k])});
    }
  }

  /** Multiset bookkeeping: releasing `j` then `k` is releasing `k` then `j`. */
  lemma ReorderFirstTwo(all: multiset<Release>, withoutJ: multiset<Release>, withoutK: multiset<Release>,
                        rest: multiset<Release>, dj: multiset<Release>, dk: multiset<Release>)
    requires all == dj + withoutJ && withoutJ == rest + dk && withoutK == rest + dj
    ensures all == withoutK + dk
  {
  }

  /** One step of a tear-down: releasing the entry under `k` moves it from the table to the releases made. */
  lemma TeardownStep(t: Table, k: Key, done: seq<Release>, all: multiset<Release>)
    requires k in t && multiset(done) + ReleasesOf(t) == all
    ensures multiset(done + [Deallocate(t[k])]) + ReleasesOf(t - {k}) == all
    ensures |t - {k}| < |t|
  {
    ReleasesOfRemove(t, k);
    assert (t - {k}).Keys == t.Keys - {k};
  }

  /** A finished tear-down: the releases it made are those of the table it started from. */
  lemma TeardownDone(c: Cache, owed: multiset<Release>, done: seq<Release>)
    requires Accounted(c) == owed && multiset(done) + ReleasesOf(map[]) == ReleasesOf(c.table)
    ensures var r := c.released + done;
            && |r| == |c.released| + |c.table|
            && r[..|c.released|] == c.released
            && multiset(r[|c.released|..]) == ReleasesOf(c.table)
            && multiset(r) == owed
  {
    var r := c.released + done;
    assert ReleasesOf(map[]) == multiset{};
    assert r[|c.released|..] == done;
    assert r[..|c.released|] == c.released;
  }

  /**
    Storing `h` under `k`: the entry the table loses (if `k` was present) and
    the one it gains balance out.
   */
  lemma ReleasesOfUpdate(t: Table, k: Key, h: Holder)
    ensures ReleasesOf(t[k := h]) + (if k in t then multiset{Deallocate(t[k])} else multiset{})
            == ReleasesOf(t) + multiset{Deallocate(h)}
  {
    UpdateThenRemove(t, k, h);
    ReleasesOfRemove(t[k := h], k);
    if k in t {
      ReleasesOfRemove(t, k);
    }
  }

  /** Storing under `k` and then removing `k` forgets the store. */
  lemma UpdateThenRemove(t: Table, k: Key, h: Holder)
    ensures k in t[k := h] && t[k := h][k] == h
    ensures t[k := h] - {k} == t - {k}
    ensures k !in t ==> t - {k} == t
  {
  }

  /**
    Everything the cache is responsible for: what tearing it down would
    release, plus everything it has released already.
   */
  ghost function Accounted(c: Cache): multiset<Release>
  {
    ReleasesOf(c.table) + multiset(c.released)
  }

  /** The payload an insertion hands to the cache, as the release it is owed. */
  function Acquired(value: Option<Holder>): (r: multiset<Release>)
    ensures |r| == if value.Some? then 1 else 0
    ensures value.Some? ==> Deallocate(value.value) in r
  {
    match value
    case None => multiset{}
    case Some(h) => multiset{Deallocate(h)}
  }

  /**
    The table's set operation, given the holder deallocator: `h` becomes the
    entry under `key`, and a holder already there is released first.
   */
  function Put(c: Cache, key: Key, h: Holder): (r: Cache)
    ensures key in r.table && r.table[key] == h
    ensures r.table.Keys == c.table.Keys + {key}
    ensures forall k :: k in c.table && k != key ==> r.table[k] == c.table[k]
    ensures key in c.table ==> r.released == c.released + [Deallocate(c.table[key])]
    ensures key !in c.table ==> r.released == c.released && |r.table| == |c.table| + 1
  {
    var freed := if key in c.table then [Deallocate(c.table[key])] else [];
    Cache(c.table[key := h], c.released + freed)
  }

  /**
    Add a parsed payload under `key`, as the tileset and template helpers do,
    with the payload released when its holder cannot be packed. `value` is
    the parse result already tagged with the kind it is to be stored as;
    `packed` says whether packing it into a newly allocated holder succeeded. The status is 1
    when the payload was stored and 0 otherwise.
   */
  function Add(c: Cache, key: Key, value: Option<Holder>, packed: bool): (r: (int, Cache))
    ensures r.0 == 0 || r.0 == 1
    ensures r.0 == 1 <==> value.Some? && packed
    ensures r.0 == 0 ==> r.1.table == c.table
    ensures value.None? ==> r.1 == c
    ensures value.Some? && !packed ==> r.1.released == c.released + [Deallocate(value.value)]
    ensures r.0 == 1 ==> key in r.1.table && r.1.table[key] == value.value
    ensures r.0 == 1 ==> r.1.table.Keys == c.table.Keys + {key}
    ensures r.0 == 1 ==> forall k :: k in c.table && k != key ==> r.1.table[k] == c.table[k]
    ensures r.0 == 1 && key in c.table ==> r.1.released == c.released + [Deallocate(c.table[key])]
    ensures r.0 == 1 && key !in c.table ==> r.1.released == c.released
  {
    match value
    case None => (0, c)
    case Some(h) =>
      if packed then (1, Put(c, key, h))
      else (0, Cache(c.table, c.released + [Deallocate(h)]))
  }

  /** Multiset bookkeeping: what moves from the table to the log is still accounted for. */
  lemma MovedToLog(owedAfter: multiset<Release>, owedBefore: multiset<Release>, log: multiset<Release>,
                   moved: multiset<Release>, gained: multiset<Release>)
    requires owedAfter + moved == owedBefore + gained
    ensures owedAfter + (log + moved) == owedBefore + log + gained
  {
    forall x ensures (owedAfter + (log + moved))[x] == (owedBefore + log + gained)[x] {
      assert (owedAfter + moved)[x] == (owedBefore + gained)[x];
    }
  }

  /** Setting a key takes on the new holder and gives up, through the release log, the one it replaces. */
  lemma PutConservesOwnership(c: Cache, key: Key, h: Holder)
    ensures Accounted(Put(c, key, h)) == Accounted(c) + multiset{Deallocate(h)}
  {
    var lost := if key in c.table then multiset{Deallocate(c.table[key])} else multiset{};
    var freed := if key in c.table then [Deallocate(c.table[key])] else [];
    var r := Put(c, key, h);
    assert r.table == c.table[key := h];
    assert multiset(r.released) == multiset(c.released) + lost by {
      assert r.released == c.released + freed;
      assert multiset(freed) == lost;
    }
    ReleasesOfUpdate(c.table, key, h);
    MovedToLog(ReleasesOf(r.table), ReleasesOf(c.table), multiset(c.released), lost, multiset{Deallocate(h)});
    assert Accounted(r) == ReleasesOf(r.table) + (multiset(c.released) + lost);
  }

  /** An insertion neither loses nor duplicates a payload: what was handed over is now owned or released. */
  lemma AddConservesOwnership(c: Cache, key: Key, value: Option<Holder>, packed: bool)
    ensures Accounted(Add(c, key, value, packed).1) == Accounted(c) + Acquired(value)
  {
    match value
    case None =>
    case Some(h) =>
      if packed {
        PutConservesOwnership(c, key, h);
      } else {
        var r := Cache(c.table, c.released + [Deallocate(h)]);
        assert multiset(r.released) == multiset(c.released) + multiset{Deallocate(h)};
        assert Add(c, key, value, packed).1 == r;
      }
  }

  /**
    The helpers as written: when the holder cannot be packed they return 0
    and drop the parsed payload without releasing it.
   */
  function AddAsWritten(c: Cache, key: Key, value: Option<Holder>, packed: bool): (r: (int, Cache))
    ensures r.0 == 1 <==> value.Some? && packed
    ensures r.0 == 0 ==> r.1 == c
    ensures r.0 == 1 ==> r.1 == Add(c, key, value, packed).1
  {
    match value
    case None => (0, c)
    case Some(h) => if packed then (1, Put(c, key, h)) else (0, c)
  }

  /** Only a failed holder allocation after a successful parse tells the two apart. */
  lemma AsWrittenAgreesUnlessAllocationFails(c: Cache, key: Key, value: Option<Holder>, packed: bool)
    requires !(value.Some? && !packed)
    ensures AddAsWritten(c, key, value, packed) == Add(c, key, value, packed)
  {
  }

  /**
    As written, a payload of either kind that parsed but whose holder cannot
    be packed is neither stored nor released: once the call returns nothing
    owns it.
   */
  lemma AsWrittenLeaksOnAllocationFailure(c: Cache, key: Key, h: Holder)
    ensures AddAsWritten(c, key, Some(h), false) == (0, c)
    ensures Accounted(AddAsWritten(c, key, Some(h), false).1) != Accounted(c) + Acquired(Some(h))
  {
    assert |Accounted(c) + Acquired(Some(h))| == |Accounted(c)| + 1;
  }

  /** One call of a tileset or template helper: the key, parse result and allocation outcome. */
  datatype Load = Load(key: Key, value: Option<Holder>, packed: bool)

  /** The cache after a sequence of calls of the corrected helper `Add`, in order. */
  function Run(c: Cache, loads: seq<Load>): Cache
    decreases |loads|
  {
    if loads == [] then c
    else Run(Add(c, loads[0].key, loads[0].value, loads[0].packed).1, loads[1..])
  }

  /** The payloads a sequence of helper calls handed to the cache. */
  function Handed(loads: seq<Load>): (r: multiset<Release>)
    ensures |r| <= |loads|
    decreases |loads|
  {
    if loads == [] then multiset{} else Acquired(loads[0].value) + Handed(loads[1..])
  }

  /** Over any session of corrected helper calls, every payload handed over is owned or released, exactly once. */
  lemma {:induction false} RunConservesOwnership(c: Cache, loads: seq<Load>)
    ensures Accounted(Run(c, loads)) == Accounted(c) + Handed(loads)
    decreases |loads|
  {
    if loads != [] {
      var l := loads[0];
      AddConservesOwnership(c, l.key, l.value, l.packed);
      RunConservesOwnership(Add(c, l.key, l.value, l.packed).1, loads[1..]);
    }
  }

  /**
    Starting from an empty manager and using the corrected helper, the
    releases made during a session plus those its tear-down makes are exactly
    one per successfully parsed payload; a failed parse is never released.
   */
  lemma SessionReleasesEachPayloadOnce(loads: seq<Load>)
    ensures var c := Run(Cache(map[], []), loads);
            multiset(c.released) + ReleasesOf(c.table) == Handed(loads)
  {
    var c := Run(Cache(map[], []), loads);
    RunConservesOwnership(Cache(map[], []), loads);
    assert ReleasesOf(map[]) == multiset{};
    assert Accounted(Cache(map[], [])) == multiset{};
    assert Accounted(c) == Handed(loads);
  }

  /** The cache after a sequence of helper calls as written, in order. */
  function RunAsWritten(c: Cache, loads: seq<Load>): Cache
    decreases |loads|
  {
    if loads == [] then c
    else RunAsWritten(AddAsWritten(c, loads[0].key, loads[0].value, loads[0].packed).1, loads[1..])
  }

  /** The payloads of the calls that parsed but whose holder could not be packed. */
  function Dropped(loads: seq<Load>): (r: multiset<Release>)
    ensures r <= Handed(loads)
    decreases |loads|
  {
    if loads == [] then multiset{}
    else (if loads[0].packed then multiset{} else Acquired(loads[0].value)) + Dropped(loads[1..])
  }

  /** As written, one call accounts for what it was handed except a payload it could not pack. */
  lemma AddAsWrittenDropsOnlyUnpacked(c: Cache, key: Key, value: Option<Holder>, packed: bool)
    ensures Accounted(AddAsWritten(c, key, value, packed).1) + (if packed then multiset{} else Acquired(value))
            == Accounted(c) + Acquired(value)
  {
    if packed {
      AddConservesOwnership(c, key, value, packed);
    }
  }

  /** Multiset bookkeeping for one step of a session. */
  lemma StepThenRest(first: multiset<Release>, mid: multiset<Release>, last: multiset<Release>,
                     d0: multiset<Release>, h0: multiset<Release>, dRest: multiset<Release>, hRest: multiset<Release>)
    requires mid + d0 == first + h0
    requires last + dRest == mid + hRest
    ensures last + (d0 + dRest) == first + (h0 + hRest)
  {
    forall x ensures (last + (d0 + dRest))[x] == (first + (h0 + hRest))[x] {
      assert (mid + d0)[x] == (first + h0)[x];
      assert (last + dRest)[x] == (mid + hRest)[x];
    }
  }

  /**
    Over any session run as written, every payload handed over is owned or
    released exactly once, except those dropped on a failed holder
    allocation, which are neither.
   */
  lemma {:induction false} RunAsWrittenLosesOnlyDropped(c: Cache, loads: seq<Load>)
    ensures Accounted(RunAsWritten(c, loads)) + Dropped(loads) == Accounted(c) + Handed(loads)
    decreases |loads|
  {
    if loads != [] {
      var l := loads[0];
      var c1 := AddAsWritten(c, l.key, l.value, l.packed).1;
      var d0 := if l.packed then multiset{} else Acquired(l.value);
      AddAsWrittenDropsOnlyUnpacked(c, l.key, l.value, l.packed);
      RunAsWrittenLosesOnlyDropped(c1, loads[1..]);
      StepThenRest(Accounted(c), Accounted(c1), Accounted(RunAsWritten(c1, loads[1..])),
                   d0, Acquired(l.value), Dropped(loads[1..]), Handed(loads[1..]));
    }
  }

  /**
    Starting from an empty manager and run as written, the releases made and
    owed are the parsed payloads minus those dropped: none is released twice,
    and with no failed holder allocation every one is released exactly once.
   */
  lemma SessionAsWrittenReleasesAllButDropped(loads: seq<Load>)
    ensures var c := RunAsWritten(Cache(map[], []), loads);
            multiset(c.released) + ReleasesOf(c.table) + Dropped(loads) == Handed(loads)
    ensures var c := RunAsWritten(Cache(map[], []), loads);
            Dropped(loads) == multiset{} ==> multiset(c.released) + ReleasesOf(c.table) == Handed(loads)
  {
    var c := RunAsWritten(Cache(map[], []), loads);
    RunAsWrittenLosesOnlyDropped(Cache(map[], []), loads);
    assert ReleasesOf(map[]) == multiset{};
    assert Accounted(Cache(map[], [])) == multiset{};
    assert Accounted(c) + Dropped(loads) == Handed(loads);
  }

  /**
    Loading twice under one key keeps one entry there, the second payload,
    and releases the first payload once.
   */
  lemma ReloadReplacesAndReleases(c: Cache, key: Key, first: Holder, second: Holder)
    ensures var c1 := Add(c, key, Some(first), true).1;
            var c2 := Add(c1, key, Some(second), true).1;
            && c2.table.Keys == c.table.Keys + {key}
            && c2.table[key] == second
            && c2.released == c1.released + [Deallocate(first)]
  {
  }

  /**
    Tilesets and templates share one key space: a template stored under a
    tileset's key replaces it, and the tileset is released through the
    tileset routine.
   */
  lemma TemplateReplacesTilesetUnderSameKey(c: Cache, key: Key, ts: Tileset, tx: Template)
    requires key in c.table && c.table[key] == TilesetHolder(ts)
    ensures var r := Add(c, key, AsTemplate(Some(tx)), true).1;
            r.table[key] == TemplateHolder(tx) && r.released == c.released + [FreeTileset(ts)]
  {
  }
}
