/**
  The resource manager itself: a table from keys to tagged holders that the
  manager updates in place, the eight public loaders that fill it, the four
  map loaders that hand it to the map parser, and its tear-down.
 */
module ResourceManager {
  import opened Resources
  import opened ResourceTable

  class Manager {
    /** The manager's hashtable: key to resource holder. */
    var table: Table
    /** Every release routine called on a payload this manager owned, in order. */
    ghost var released: seq<Release>
    /** One release owed for every payload ever handed to this manager. */
    ghost var acquired: multiset<Release>
    /** Set once the manager has been freed; no operation may follow. */
    ghost var freed: bool

    ghost function Model(): Cache
      reads this
    {
      Cache(table, released)
    }

    /** Every payload handed over is either still in the table or released, exactly once. */
    ghost predicate Owns()
      reads this
    {
      Accounted(Model()) == acquired
    }

    ghost predicate Valid()
      reads this
    {
      !freed && Owns()
    }

    /**
      Creating a manager gives an empty table that owns nothing. A failed
      table allocation, which would give a null manager, is not modelled.
     */
    constructor ()
      ensures Valid()
      ensures table == map[] && released == [] && acquired == multiset{}
    {
      table := map[];
      released := [];
      acquired := multiset{};
      freed := false;
      assert ReleasesOf(map[]) == multiset{};
    }

    /**
      The hashtable's set operation given the holder deallocator: a holder
      already stored under `key` is released, then `h` takes its place.
      This is the table step inside `AddTileset` and `AddTemplate`, which
      keep `Valid()`; on its own it records no acquisition, so a caller
      outside them can leave `Owns()` false.
     */
    method Set(key: Key, h: Holder)
      modifies this
      ensures Model() == ResourceTable.Put(old(Model()), key, h)
      ensures acquired == old(acquired) && freed == old(freed)
    {
      if key in table {
        released := released + [Deallocate(table[key])];
      }
      table := table[key := h];
    }

    /**
      Store a parsed tileset under `key`. A missing parse result stores
      nothing; a tileset whose holder cannot be packed is released and not
      stored. Returns 1 when the tileset was stored, 0 otherwise.
     */
    method AddTileset(key: Key, value: Option<Tileset>, packed: bool) returns (status: int)
      requires Valid()
      modifies this
      ensures Valid()
      ensures (status, Model()) == Add(old(Model()), key, AsTileset(value), packed)
      ensures acquired == old(acquired) + Acquired(AsTileset(value))
    {
      AddConservesOwnership(Model(), key, AsTileset(value), packed);
      status := 0;
      if value.Some? {
        acquired := acquired + multiset{FreeTileset(value.value)};
        if packed {
          Set(key, TilesetHolder(value.value));
          status := 1;
        } else {
          released := released + [FreeTileset(value.value)];
        }
      }
    }

    /** The template counterpart of AddTileset, in the same key space. */
    method AddTemplate(key: Key, value: Option<Template>, packed: bool) returns (status: int)
      requires Valid()
      modifies this
      ensures Valid()
      ensures (status, Model()) == Add(old(Model()), key, AsTemplate(value), packed)
      ensures acquired == old(acquired) + Acquired(AsTemplate(value))
    {
      AddConservesOwnership(Model(), key, AsTemplate(value), packed);
      status := 0;
      if value.Some? {
        acquired := acquired + multiset{FreeTemplate(value.value)};
        if packed {
          Set(key, TemplateHolder(value.value));
          status := 1;
        } else {
          released := released + [FreeTemplate(value.value)];
        }
      }
    }

    /**
      Free the manager: every stored holder goes through the deallocator once,
      in some order, and the table is emptied. Afterwards every payload the
      manager was ever handed has been released exactly once.
     */
    method Free()
      requires Valid()
      modifies this
      ensures freed && table == map[] && acquired == old(acquired)
      ensures |released| == |old(released)| + |old(table)|
      ensures released[..|old(released)|] == old(released)
      ensures multiset(released[|old(released)|..]) == ReleasesOf(old(table))
      ensures multiset(released) == acquired
    {
      var order := DeallocateAll(table);
      TeardownDone(Model(), acquired, order);
      released := released + order;
      table := map[];
      freed := true;
    }
  }

  /**
    Walk a table entry by entry, passing each holder to the deallocator; the
    releases made, in the order they are made, are exactly one per entry.
   */
  method DeallocateAll(t: Table) returns (order: seq<Release>)
    ensures multiset(order) == ReleasesOf(t)
    ensures |order| == |t|
  {
    var rest := t;
    order := [];
    while rest != map[]
      invariant multiset(order) + ReleasesOf(rest) == ReleasesOf(t)
      decreases |rest|
    {
      var k :| k in rest;
      TeardownStep(rest, k, order, ReleasesOf(t));
      order := order + [Deallocate(rest[k])];
      rest := rest - {k};
    }
    assert ReleasesOf(rest) == multiset{};
  }

  /** Load a tileset from the file at `path` into `mgr`, under `path`. */
  method LoadTileset(mgr: Manager?, path: string, env: Collaborators, packed: bool) returns (status: int)
    requires mgr != null ==> mgr.Valid()
    modifies mgr
    ensures mgr == null ==> status == 0
    ensures mgr != null ==> mgr.Valid() && mgr.acquired == old(mgr.acquired) + Acquired(AsTileset(env.parseTileset(Path(path))))
    ensures mgr != null ==> (status, mgr.Model()) == Add(old(mgr.Model()), path, AsTileset(env.parseTileset(Path(path))), packed)
  {
    if mgr == null {
      return 0;
    }
    status := mgr.AddTileset(path, env.parseTileset(Path(path)), packed);
  }

  /** Load a tileset from `len` bytes of `buffer` into `mgr`, under `key`. */
  method LoadTilesetBuffer(mgr: Manager?, buffer: seq<char>, len: int, key: Key, env: Collaborators, packed: bool)
    returns (status: int)
    requires mgr != null ==> mgr.Valid()
    modifies mgr
    ensures mgr == null ==> status == 0
    ensures mgr != null ==> mgr.Valid() && mgr.acquired == old(mgr.acquired) + Acquired(AsTileset(env.parseTileset(Buffer(buffer, len))))
    ensures mgr != null ==> (status, mgr.Model()) == Add(old(mgr.Model()), key, AsTileset(env.parseTileset(Buffer(buffer, len))), packed)
  {
    if mgr == null {
      return 0;
    }
    status := mgr.AddTileset(key, env.parseTileset(Buffer(buffer, len)), packed);
  }

  /** Load a tileset from the open descriptor `fd` (left open) into `mgr`, under `key`. */
  method LoadTilesetFd(mgr: Manager?, fd: int, key: Key, env: Collaborators, packed: bool) returns (status: int)
    requires mgr != null ==> mgr.Valid()
    modifies mgr
    ensures mgr == null ==> status == 0
    ensures mgr != null ==> mgr.Valid() && mgr.acquired == old(mgr.acquired) + Acquired(AsTileset(env.parseTileset(Descriptor(fd))))
    ensures mgr != null ==> (status, mgr.Model()) == Add(old(mgr.Model()), key, AsTileset(env.parseTileset(Descriptor(fd))), packed)
  {
    if mgr == null {
      return 0;
    }
    status := mgr.AddTileset(key, env.parseTileset(Descriptor(fd)), packed);
  }

  /** Load a tileset through a read callback and its user data into `mgr`, under `key`. */
  method LoadTilesetCallback(mgr: Manager?, callback: nat, userdata: nat, key: Key, env: Collaborators, packed: bool)
    returns (status: int)
    requires mgr != null ==> mgr.Valid()
    modifies mgr
    ensures mgr == null ==> status == 0
    ensures mgr != null ==> mgr.Valid() && mgr.acquired == old(mgr.acquired) + Acquired(AsTileset(env.parseTileset(Callback(callback, userdata))))
    ensures mgr != null ==> (status, mgr.Model()) == Add(old(mgr.Model()), key, AsTileset(env.parseTileset(Callback(callback, userdata))), packed)
  {
    if mgr == null {
      return 0;
    }
    status := mgr.AddTileset(key, env.parseTileset(Callback(callback, userdata)), packed);
  }

  /** Load a template from the file at `path` into `mgr`, under `path`. */
  method LoadTemplate(mgr: Manager?, path: string, env: Collaborators, packed: bool) returns (status: int)
    requires mgr != null ==> mgr.Valid()
    modifies mgr
    ensures mgr == null ==> status == 0
    ensures mgr != null ==> mgr.Valid() && mgr.acquired == old(mgr.acquired) + Acquired(AsTemplate(env.parseTemplate(Path(path))))
    ensures mgr != null ==> (status, mgr.Model()) == Add(old(mgr.Model()), path, AsTemplate(env.parseTemplate(Path(path))), packed)
  {
    if mgr == null {
      return 0;
    }
    status := mgr.AddTemplate(path, env.parseTemplate(Path(path)), packed);
  }

  /** Load a template from `len` bytes of `buffer` into `mgr`, under `key`. */
  method LoadTemplateBuffer(mgr: Manager?, buffer: seq<char>, len: int, key: Key, env: Collaborators, packed: bool)
    returns (status: int)
    requires mgr != null ==> mgr.Valid()
    modifies mgr
    ensures mgr == null ==> status == 0
    ensures mgr != null ==> mgr.Valid() && mgr.acquired == old(mgr.acquired) + Acquired(AsTemplate(env.parseTemplate(Buffer(buffer, len))))
    ensures mgr != null ==> (status, mgr.Model()) == Add(old(mgr.Model()), key, AsTemplate(env.parseTemplate(Buffer(buffer, len))), packed)
  {
    if mgr == null {
      return 0;
    }
    status := mgr.AddTemplate(key, env.parseTemplate(Buffer(buffer, len)), packed);
  }

  /** Load a template from the open descriptor `fd` (left open) into `mgr`, under `key`. */
  method LoadTemplateFd(mgr: Manager?, fd: int, key: Key, env: Collaborators, packed: bool) returns (status: int)
    requires mgr != null ==> mgr.Valid()
    modifies mgr
    ensures mgr == null ==> status == 0
    ensures mgr != null ==> mgr.Valid() && mgr.acquired == old(mgr.acquired) + Acquired(AsTemplate(env.parseTemplate(Descriptor(fd))))
    ensures mgr != null ==> (status, mgr.Model()) == Add(old(mgr.Model()), key, AsTemplate(env.parseTemplate(Descriptor(fd))), packed)
  {
    if mgr == null {
      return 0;
    }
    status := mgr.AddTemplate(key, env.parseTemplate(Descriptor(fd)), packed);
  }

  /** Load a template through a read callback and its user data into `mgr`, under `key`. */
  method LoadTemplateCallback(mgr: Manager?, callback: nat, userdata: nat, key: Key, env: Collaborators, packed: bool)
    returns (status: int)
    requires mgr != null ==> mgr.Valid()
    modifies mgr
    ensures mgr == null ==> status == 0
    ensures mgr != null ==> mgr.Valid() && mgr.acquired == old(mgr.acquired) + Acquired(AsTemplate(env.parseTemplate(Callback(callback, userdata))))
    ensures mgr != null ==> (status, mgr.Model()) == Add(old(mgr.Model()), key, AsTemplate(env.parseTemplate(Callback(callback, userdata))), packed)
  {
    if mgr == null {
      return 0;
    }
    status := mgr.AddTemplate(key, env.parseTemplate(Callback(callback, userdata)), packed);
  }

  /**
    Load a map from the file at `path`: parse it, then normalise the parse
    result in place. The manager (which may be absent) is accepted but not
    passed on: the model's parser is a pure function, and the map parser's
    own use of the manager is not modelled. The allocator set-up done first
    is not modelled either.
   */
  method LoadMap(mgr: Manager?, path: string, env: Collaborators) returns (result: Option<Map>)
    requires mgr != null ==> mgr.Valid()
    ensures result == env.postParse(env.parseMap(Path(path)))
  {
    var parsed: Option<Map> := None;
    parsed := env.parseMap(Path(path));
    parsed := env.postParse(parsed);
    result := parsed;
  }

  /** LoadMap reading `len` bytes of `buffer`; `mgr` is accepted but not passed on, as there. */
  method LoadMapBuffer(mgr: Manager?, buffer: seq<char>, len: int, env: Collaborators) returns (result: Option<Map>)
    requires mgr != null ==> mgr.Valid()
    ensures result == env.postParse(env.parseMap(Buffer(buffer, len)))
  {
    var parsed: Option<Map> := None;
    parsed := env.parseMap(Buffer(buffer, len));
    parsed := env.postParse(parsed);
    result := parsed;
  }

  /** LoadMap reading the open descriptor `fd`; `mgr` is accepted but not passed on, as there. */
  method LoadMapFd(mgr: Manager?, fd: int, env: Collaborators) returns (result: Option<Map>)
    requires mgr != null ==> mgr.Valid()
    ensures result == env.postParse(env.parseMap(Descriptor(fd)))
  {
    var parsed: Option<Map> := None;
    parsed := env.parseMap(Descriptor(fd));
    parsed := env.postParse(parsed);
    result := parsed;
  }

  /** LoadMap reading through a read callback and its user data; `mgr` is accepted but not passed on, as there. */
  method LoadMapCallback(mgr: Manager?, callback: nat, userdata: nat, env: Collaborators) returns (result: Option<Map>)
    requires mgr != null ==> mgr.Valid()
    ensures result == env.postParse(env.parseMap(Callback(callback, userdata)))
  {
    var parsed: Option<Map> := None;
    parsed := env.parseMap(Callback(callback, userdata));
    parsed := env.postParse(parsed);
    result := parsed;
  }
}
