/**
  The values a resource manager deals in: the parsed tilesets, templates and
  maps (kept abstract, the XML parsers that build them are not modelled), the
  tagged holder the manager stores, the release routine chosen for a holder,
  and the byte sources the loaders read from.
 */
module Resources {

  datatype Option<T> = None | Some(value: T)

  /** A cache key: a file path or a caller-chosen label, compared byte for byte. */
  type Key = string

  /** A parsed tileset (a .tsx document); `id` stands for the object's identity. */
  datatype Tileset = Tileset(id: nat)

  /** A parsed object template (a .tx document). */
  datatype Template = Template(id: nat)

  /** A parsed map (a .tmx document). */
  datatype Map = Map(id: nat)

  /** The resource holder: a payload together with its kind tag. */
  datatype Holder = TilesetHolder(tileset: Tileset) | TemplateHolder(template: Template)

  /** One call of a payload release routine: the tileset one or the template one. */
  datatype Release = FreeTileset(tileset: Tileset) | FreeTemplate(template: Template)

  /**
    The release the holder deallocator performs: it looks at the kind tag and
    calls the release routine of that kind on the payload.
   */
  function Deallocate(h: Holder): (r: Release)
    ensures r.FreeTileset? <==> h.TilesetHolder?
    ensures h.TilesetHolder? ==> r.tileset == h.tileset
    ensures h.TemplateHolder? ==> r.template == h.template
  {
    match h
    case TilesetHolder(ts) => FreeTileset(ts)
    case TemplateHolder(tx) => FreeTemplate(tx)
  }

  /** A parsed tileset as the holder it is to be packed into. */
  function AsTileset(value: Option<Tileset>): (r: Option<Holder>)
    ensures r.Some? <==> value.Some?
    ensures r.Some? ==> r.value == TilesetHolder(value.value)
  {
    match value
    case None => None
    case Some(ts) => Some(TilesetHolder(ts))
  }

  /** A parsed template as the holder it is to be packed into. */
  function AsTemplate(value: Option<Template>): (r: Option<Holder>)
    ensures r.Some? <==> value.Some?
    ensures r.Some? ==> r.value == TemplateHolder(value.value)
  {
    match value
    case None => None
    case Some(tx) => Some(TemplateHolder(tx))
  }

  /**
    Where a loader reads its bytes from: a file path, a buffer with its length,
    an open file descriptor (left open), or a read callback with its user data
    (both opaque handles here).
   */
  datatype Source =
    | Path(path: string)
    | Buffer(buffer: seq<char>, len: int)
    | Descriptor(fd: int)
    | Callback(callback: nat, userdata: nat)

  /**
    The collaborators the loaders call: one parser per document kind, each
    yielding an object or None, and the in-place normalisation of a parsed map.
   */
  datatype Collaborators = Collaborators(
    parseTileset: Source -> Option<Tileset>,
    parseTemplate: Source -> Option<Template>,
    parseMap: Source -> Option<Map>,
    postParse: Option<Map> -> Option<Map>)
}
