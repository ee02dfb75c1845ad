# tmx resource manager, modelled in Dafny

The tmx library reads Tiled map files. Its resource manager (`src/tmx_rc.c`) is an optional cache. It maps a string key to a *resource holder*, which is either an external tileset (`.tsx`) or an object template (`.tx`) with a kind tag. Many maps can then share one loaded copy. The manager owns every holder it stores:

- storing under a key that is already present releases the old holder;
- freeing the manager releases every holder left in it, using the release routine for the holder's kind.

This project models that manager. It proves that no payload is ever released twice. As written, a payload whose holder cannot be allocated leaks (see Findings). It also proves that with the helper corrected to release such a payload, nothing leaks.

- `resources.dfy`, module `Resources`: the payloads, which are abstract. It also holds the kind-tagged `Holder`, the `Release` record (which release routine ran on which payload), the deallocator's dispatch by tag, the four byte-source shapes, and the collaborators the loaders call (the three parsers and map normalisation) as function values.
- `table.dfy`, module `ResourceTable`: the manager's state as a value, `Cache(table, released)`. It defines:
  - the table's set operation, given the deallocator (`Put`);
  - the add helpers (`Add`, plus `AddAsWritten` for the code as written);
  - `ReleasesOf`, the multiset of releases a tear-down of a table performs.

  Its lemmas are about ownership. With the corrected helper, a payload handed to the manager is either in the table or released, exactly once, after one insertion (`AddConservesOwnership`), over a whole session (`RunConservesOwnership`), and at tear-down (`SessionReleasesEachPayloadOnce`). With the helpers as written, the same holds for every payload except those whose holder could not be allocated. Those are neither stored nor released (`RunAsWrittenLosesOnlyDropped`, `SessionAsWrittenReleasesAllButDropped`).
- `manager.dfy`, module `ResourceManager`: the class `Manager`. It has a mutable `table` field, a ghost release log, a ghost multiset of the releases owed, and a ghost `freed` flag. `Valid()` says the manager is not freed and that `ReleasesOf(table)` plus the log equals what is owed. The module also holds the eight public tileset/template loaders, which take a nullable manager, and the four map loaders. Every state-changing method's postcondition ties its new state to the functions of `ResourceTable`.

External inputs are parameters:

- each parser is a total function from a `Source` to an `Option`;
- map normalisation is a function on `Option<Map>`;
- whether allocating a holder succeeds is a boolean `packed`.

## Model

| member | source | states |
|---|---|---|
| `Resources.Deallocate` | src/tmx_rc.c:20 | The deallocator given to the table picks the release routine by the holder's kind tag: the tileset routine exactly for tileset holders, each applied to the holder's own payload. |
| `ResourceTable.Put` | src/tmx_rc.c:20 | Setting `key` stores the new holder under it and leaves every other key unchanged. Iff the key was present, the old holder is released exactly once, before the new one becomes the entry. Otherwise the table grows by one. |
| `ResourceTable.Add` | src/tmx_rc.c:15-37 | The corrected helper (see Findings). The status is 1 exactly when the parse produced a value and its holder was packed. Otherwise it is 0 and the table is not modified. A parsed payload that could not be packed is released, which the code as written does not do. On success the tagged holder is under `key`, other keys are unchanged, and a holder previously under `key` is released once. A null parse leaves the whole state unchanged. |
| `ResourceTable.ReleasesOf` | src/tmx_rc.c:47-49 | Tearing down a table performs exactly one release per entry (the multiset's size is the table's size). |
| `ResourceTable.ReleasesOfRemove` | src/tmx_rc.c:47-49 | Whichever entry a tear-down releases first, the releases left are those of the rest of the table. So the result does not depend on the walk order. |
| `ResourceTable.ReleasesOfUpdate` | src/tmx_rc.c:20 | Replacing or inserting under a key changes the releases owed by exactly the old holder (if any) out and the new holder in. |
| `ResourceTable.TeardownStep` | src/tmx_rc.c:48 | Releasing one entry moves its release from the table to the releases made, and shrinks the table. |
| `ResourceTable.TeardownDone` | src/tmx_rc.c:47-49 | Once a tear-down has released everything, the log is the old log followed by exactly one release per former entry. Every payload the manager was handed has then been released. |
| `ResourceTable.PutConservesOwnership` | src/tmx_rc.c:20 | Setting a key adds the new holder to what the cache accounts for and changes nothing else. A replaced holder only moves from the table to the release log. |
| `ResourceTable.AddConservesOwnership` | src/tmx_rc.c:15-37 | After one add call, what the table owes at tear-down plus the releases made equals what it was before plus the parsed payload, if there was one. Nothing is lost and nothing is released twice. |
| `ResourceTable.AddAsWritten` | src/tmx_rc.c:15-24 | The helpers as written: status 1 exactly when parsed and packed. On status 0 the whole state, release log included, is unchanged. On success it agrees with `Add`. |
| `ResourceTable.AsWrittenAgreesUnlessAllocationFails` | src/tmx_rc.c:15-37 | The code as written and the corrected add are identical on every input except "parsed, but the holder could not be packed". |
| `ResourceTable.AsWrittenLeaksOnAllocationFailure` | src/tmx_rc.c:19-24 | As written, every such input (any state, key and payload of either kind) returns 0 and leaves the parsed payload neither stored nor released. |
| `ResourceTable.RunConservesOwnership` | src/tmx_rc.c:15-37 | With the corrected helper: over any sequence of add calls, the releases owed plus the releases made grow by exactly the payloads that were parsed. |
| `ResourceTable.SessionReleasesEachPayloadOnce` | src/tmx_rc.c:43-49 | With the corrected helper: start from an empty manager, run any sequence of loads, then tear down. Every parsed payload is released exactly once in total. A failed parse is never released. |
| `ResourceTable.AddAsWrittenDropsOnlyUnpacked` | src/tmx_rc.c:15-37 | As written, one add call accounts for everything it was handed, except a parsed payload whose holder could not be packed. |
| `ResourceTable.Dropped` | src/tmx_rc.c:19-24 | The payloads a session drops are a sub-multiset of those handed over: nothing is dropped that was not parsed. |
| `ResourceTable.RunAsWrittenLosesOnlyDropped` | src/tmx_rc.c:15-37 | As written: over any sequence of add calls, what is owed plus what is released, together with the dropped payloads, equals what was there before plus every parsed payload. So besides the dropped ones nothing is lost, and nothing is released twice. |
| `ResourceTable.SessionAsWrittenReleasesAllButDropped` | src/tmx_rc.c:15-49 | As written, from creation to tear-down, the releases made are the parsed payloads minus the dropped ones, each exactly once. With no failed holder allocation, every parsed payload is released exactly once. |
| `ResourceTable.ReloadReplacesAndReleases` | src/tmx_rc.c:20 | Loading twice under one key leaves one entry there, holding the second payload. The first payload is released exactly once. |
| `ResourceTable.TemplateReplacesTilesetUnderSameKey` | src/tmx_rc.c:32 | Tilesets and templates share one flat key space. A template stored under a tileset's key replaces it, and the tileset goes through the tileset routine. |
| `Resources.AsTileset` | src/tmx_rc.c:18 | A parse result becomes a holder exactly when it is present, and that holder carries the tileset tag and the parsed tileset. |
| `Resources.AsTemplate` | src/tmx_rc.c:30 | A parse result becomes a holder exactly when it is present, and that holder carries the template tag and the parsed template. |
| `ResourceManager.Manager.constructor` | src/tmx_rc.c:43-45 | A new manager has an empty table, no releases, owes nothing, and is valid. |
| `ResourceManager.Manager.Set` | src/tmx_rc.c:20 | In place: the new state is `Put` of the old one, with the holder deallocator releasing a replaced entry. |
| `ResourceManager.Manager.AddTileset` | src/tmx_rc.c:15-25 | In place: status and new state are `Add` of the old state with the tileset-tagged value. The ownership invariant `Valid()` is kept, and a parsed tileset is added to what is owed. |
| `ResourceManager.Manager.AddTemplate` | src/tmx_rc.c:26-37 | The same for a template-tagged holder, in the same table. |
| `ResourceManager.DeallocateAll` | src/tmx_rc.c:48 | Walking the table entry by entry, the releases made are one per entry, as multiset `ReleasesOf(table)`, whatever the order. |
| `ResourceManager.Manager.Free` | src/tmx_rc.c:47-49 | The table is emptied and the manager marked freed. The log gains exactly one release per stored entry, through the kind's routine, and nothing else. Afterwards the whole log equals what the manager was ever handed. |
| `ResourceManager.LoadTileset` | src/tmx_rc.c:51-54 | A null manager gives 0 and nothing changes. Otherwise the result is `Add` of the tileset parsed from the path, stored under the path itself. |
| `ResourceManager.LoadTilesetBuffer` | src/tmx_rc.c:56-59 | A null manager gives 0. Otherwise `Add` of the tileset parsed from the buffer and its length, under the caller's key. |
| `ResourceManager.LoadTilesetFd` | src/tmx_rc.c:61-64 | A null manager gives 0. Otherwise `Add` of the tileset parsed from the descriptor, under the caller's key. |
| `ResourceManager.LoadTilesetCallback` | src/tmx_rc.c:66-69 | A null manager gives 0. Otherwise `Add` of the tileset parsed through the callback and user data, under the caller's key. |
| `ResourceManager.LoadTemplate` | src/tmx_rc.c:71-74 | A null manager gives 0. Otherwise `Add` of the template parsed from the path, under the path itself. |
| `ResourceManager.LoadTemplateBuffer` | src/tmx_rc.c:76-79 | A null manager gives 0. Otherwise `Add` of the template parsed from the buffer, under the caller's key. |
| `ResourceManager.LoadTemplateFd` | src/tmx_rc.c:81-84 | A null manager gives 0. Otherwise `Add` of the template parsed from the descriptor, under the caller's key. |
| `ResourceManager.LoadTemplateCallback` | src/tmx_rc.c:86-89 | A null manager gives 0. Otherwise `Add` of the template parsed through the callback, under the caller's key. |
| `ResourceManager.LoadMap` | src/tmx_rc.c:91-97 | The map returned is the normalisation of the parse of the path. A null manager is accepted. |
| `ResourceManager.LoadMapBuffer` | src/tmx_rc.c:99-105 | The same for a buffer and its length. |
| `ResourceManager.LoadMapFd` | src/tmx_rc.c:107-113 | The same for a file descriptor. |
| `ResourceManager.LoadMapCallback` | src/tmx_rc.c:115-121 | The same for a read callback and its user data. |

## Left out

- Parsing itself (`parse_tsx_xml*`, `parse_tx_xml*`, `parse_xml*`): each parser is an arbitrary total function from a source to an optional object. Reading files, buffers, descriptors and callbacks is I/O and is not modelled. The callback and its user data are opaque numbers.
- The template and map parsers' own use of the manager: they receive `rc_mgr` and may look up or load the tilesets a template or map refers to. The model's parsers are pure, so the map loaders leave the manager unchanged. The dependency loads those parsers would make are not modelled, which also leaves out the lookup operation the parsers use.
- `map_post_parsing` is an arbitrary function on the parse result. `set_alloc_functions`, the process-wide allocator hook, is left out because it has no logic here.
- The hashtable's internals (`mk_hashtable(5)`, hashing, buckets, resizing, key duplication): the table is an abstract finite map. A failure inside the table's own allocation during set is not modelled. The bodies of `pack_tileset_resource`, `pack_template_resource`, `resource_deallocator`, `hashtable_set` and `free_hashtable` are not part of this model. They are modelled from their names and how `src/tmx_rc.c` uses them.
- Object identity: payloads are values, not addresses. "Released exactly once" is stated with multisets, so two entries holding equal payloads count as two releases.
- Use after free and the dangling references maps keep into a freed manager (src/tmx_rc.h:37-39) are not detected by the library. The model requires `Valid()`, which includes "not freed", of every public operation. The internal table step `ResourceManager.Manager.Set` requires nothing: it is only called from `AddTileset` and `AddTemplate`.
- `ResourceManager.Manager.constructor`: a failed creation is not modelled. `mk_hashtable(5)` allocates, and when the allocation fails `tmx_make_resource_manager` returns a null manager. The constructor always yields a valid manager; the loaders' null case covers what such a manager would do.
- The eight loaders receive the holder-allocation outcome as the `packed` parameter. "Rejects a null manager before parsing" is shown only as "returns 0 and changes nothing", because parsing has no effect in the model.
- `ResourceTable.Add` is the corrected helper, not the code as written (see Findings). `ResourceTable.AddAsWritten` is the code as written.
- `ResourceTable.RunConservesOwnership` and `ResourceTable.SessionReleasesEachPayloadOnce` are about sessions of the corrected `Add`. For the code as written, payloads whose holder could not be allocated leak. `ResourceTable.RunAsWrittenLosesOnlyDropped` and `ResourceTable.SessionAsWrittenReleasesAllButDropped` state that case.
- `ResourceManager.Manager.AddTileset`, `ResourceManager.Manager.AddTemplate`, and through them the eight loaders, follow the corrected helper (see Findings). When the holder cannot be packed they release the parsed payload, which the code as written does not.

## Findings

| source | as written | input that shows it | evidently intended | confidence | as-written member | corrected member |
|---|---|---|---|---|---|---|
| src/tmx_rc.c:19-24 | When `pack_tileset_resource` returns null, `add_tileset` returns 0 without freeing the parsed tileset, and nothing else holds it | a tileset that parses while the holder allocation fails | the parsed tileset is released when it cannot be stored, so that every payload is stored or released | medium, not executed; assumes the pack function does not free its argument (its body is not part of this model) | `ResourceTable.AsWrittenLeaksOnAllocationFailure` | `ResourceTable.AddConservesOwnership` |
| src/tmx_rc.c:31-36 | When `pack_template_resource` returns null, `add_template` returns 0 without freeing the parsed template | a template that parses while the holder allocation fails | the parsed template is released when it cannot be stored | medium, not executed; same assumption | `ResourceTable.AsWrittenLeaksOnAllocationFailure` | `ResourceTable.AddConservesOwnership` |

`ResourceTable.AddAsWritten` models both helpers as written. `ResourceTable.Add`, the corrected definition, is the one the class uses.
