/** The MDX decoder as functions of the cursor: what each step of the
    loader reads, what it produces and where it leaves the cursor. The
    methods of `Mdx.Loader` are proved to compute exactly these. */
module MdxSpec {
  import opened Wire
  import opened Cursor
  import opened Scene
  import opened Grouping

  // ----- Tags -------------------------------------------------------------

  const MDLX: Bytes := Ascii("MDLX")
  const VERS: Bytes := Ascii("VERS")
  const MODL: Bytes := Ascii("MODL")
  const SEQS: Bytes := Ascii("SEQS")
  const GLBS: Bytes := Ascii("GLBS")
  const MTLS: Bytes := Ascii("MTLS")
  const LAYS: Bytes := Ascii("LAYS")
  const TEXS: Bytes := Ascii("TEXS")
  const TXAN: Bytes := Ascii("TXAN")
  const GEOS: Bytes := Ascii("GEOS")
  const VRTX: Bytes := Ascii("VRTX")
  const NRMS: Bytes := Ascii("NRMS")
  const PTYP: Bytes := Ascii("PTYP")
  const PCNT: Bytes := Ascii("PCNT")
  const PVTX: Bytes := Ascii("PVTX")
  const GNDX: Bytes := Ascii("GNDX")
  const MTGC: Bytes := Ascii("MTGC")
  const MATS: Bytes := Ascii("MATS")
  const UVAS: Bytes := Ascii("UVAS")
  const UVBS: Bytes := Ascii("UVBS")
  const GEOA: Bytes := Ascii("GEOA")
  const BONE: Bytes := Ascii("BONE")
  const LITE: Bytes := Ascii("LITE")
  const HELP: Bytes := Ascii("HELP")
  const ATCH: Bytes := Ascii("ATCH")
  const PIVT: Bytes := Ascii("PIVT")
  const PREM: Bytes := Ascii("PREM")
  const PRE2: Bytes := Ascii("PRE2")

  // Track tags.
  const KGTR: Bytes := Ascii("KGTR")
  const KGRT: Bytes := Ascii("KGRT")
  const KGSC: Bytes := Ascii("KGSC")
  const KATV: Bytes := Ascii("KATV")
  const KMTA: Bytes := Ascii("KMTA")
  const KMTF: Bytes := Ascii("KMTF")
  const KTAT: Bytes := Ascii("KTAT")
  const KTAR: Bytes := Ascii("KTAR")
  const KTAS: Bytes := Ascii("KTAS")
  const KGAO: Bytes := Ascii("KGAO")
  const KGAC: Bytes := Ascii("KGAC")
  const KLAV: Bytes := Ascii("KLAV")
  const KLAC: Bytes := Ascii("KLAC")
  const KLAI: Bytes := Ascii("KLAI")
  const KLBC: Bytes := Ascii("KLBC")
  const KLBI: Bytes := Ascii("KLBI")
  const KPEV: Bytes := Ascii("KPEV")
  const KP2S: Bytes := Ascii("KP2S")
  const KP2L: Bytes := Ascii("KP2L")
  const KP2E: Bytes := Ascii("KP2E")
  const KP2V: Bytes := Ascii("KP2V")
  const KP2N: Bytes := Ascii("KP2N")
  const KP2W: Bytes := Ascii("KP2W")

  // ----- Primitive reads --------------------------------------------------

  /** `struct.unpack('<i', read(4))`: fails exactly when fewer than four
      bytes are left. */
  function ReadInt(v: View): (r: Parsed<int>)
    ensures r.Parsed? <==> v.Fits(4)
    ensures r.Parsed? ==> r.value == Int32At(v.buf, v.idx) && r.rest == v.(idx := v.idx + 4)
  {
    var (v1, b) := v.Read(4);
    if |b| != 4 then Failed(StructError) else Parsed(Int32(b), v1)
  }

  /** `struct.unpack(fmt, read(calcsize(fmt)))`. */
  function ReadPacked(v: View, f: Fmt): (r: Parsed<seq<Scalar>>)
    ensures v.Fits(Size(f)) ==> r.Parsed?
    ensures !v.Fits(Size(f)) && Size(f) > 0 ==> r == Failed(StructError)
    ensures r.Parsed? ==> |r.value| == f.count && (v.Fits(Size(f)) || Size(f) == 0)
    ensures r.Parsed? && v.Fits(Size(f)) ==> r.rest == v.(idx := v.idx + Size(f))
  {
    var (v1, b) := v.Read(Size(f));
    match Unpack(f, b)
    case None => Failed(StructError)
    case Some(xs) => Parsed(xs, v1)
  }

  // ----- Framing ----------------------------------------------------------

  /** `check_block_magic(tag)`. */
  function ExpectTag(v: View, tag: Bytes): (r: Parsed<()>)
    requires |tag| == 4
    ensures r.Parsed? <==> v.Fits(4) && v.buf[v.idx..v.idx + 4] == tag
    ensures r.Parsed? ==> r.rest == v.(idx := v.idx + 4)
    ensures r.Failed? ==> r.error == TagMismatch(tag, v.Read(4).1)
  {
    var (v1, b) := v.Read(4);
    if b != tag then Failed(TagMismatch(tag, b)) else Parsed((), v1)
  }

  /** `load_block()`: a signed 32-bit length, then `read` of that many
      bytes; a negative length is refused before anything more is read. */
  function Block(v: View): (r: Parsed<Bytes>)
    ensures !v.Fits(4) ==> r == Failed(StructError)
    ensures v.Fits(4) && Int32At(v.buf, v.idx) < 0 ==> r == Failed(NegativeLength(Int32At(v.buf, v.idx)))
    ensures v.Fits(4) && Int32At(v.buf, v.idx) >= 0 ==>
              r.Parsed? && (r.rest, r.value) == v.(idx := v.idx + 4).Read(Int32At(v.buf, v.idx))
  {
    var (n, v1) :- ReadInt(v);
    if n < 0 then Failed(NegativeLength(n))
    else
      var (v2, b) := v1.Read(n);
      Parsed(b, v2)
  }

  /** The peek of an optional block: true with the tag consumed, or false
      with the cursor moved back four bytes from where the read left it. */
  function Peek(v: View, tag: Bytes): (r: Parsed<bool>)
    requires |tag| == 4
    ensures r.Parsed? && r.value <==> v.Fits(4) && v.buf[v.idx..v.idx + 4] == tag
    ensures r.Parsed? && r.value ==> r.rest == v.(idx := v.idx + 4)
    ensures v.mode == Stream && v.Fits(4) && v.idx >= 0 && v.buf[v.idx..v.idx + 4] != tag ==> r == Parsed(false, v)
    ensures v.mode == Slice && r.Parsed? ==> r.value
  {
    var (v1, b) := v.Read(4);
    if b == tag then Parsed(true, v1)
    else
      match v1.SeekBack4()
      case Moved(after) => Parsed(false, after)
      case NoSeek => Failed(SeekUnsupported)
      case BeforeStart => Failed(SeekBeforeStart)
  }

  // ----- Counted lists ----------------------------------------------------

  /** The remaining `left` elements of `load_vectors`, after `acc`. */
  function VectorItems(v: View, f: Fmt, left: nat, acc: seq<Value>): (r: Parsed<seq<Value>>)
    ensures r.Parsed? ==> |r.value| == |acc| + left && r.value[..|acc|] == acc
    ensures r.Parsed? ==> r.rest.buf == v.buf && r.rest.mode == v.mode
    decreases left
  {
    if left == 0 then Parsed(acc, v)
    else
      var (xs, v1) :- ReadPacked(v, f);
      VectorItems(v1, f, left - 1, acc + [ScalarOrTuple(xs)])
  }

  /** `load_vectors(tag, fmt)`: the tag, a count, then that many tuples. */
  function Vectors(v: View, tag: Bytes, f: Fmt): (r: Parsed<seq<Value>>)
    requires |tag| == 4
    ensures r.Parsed? ==> v.Fits(8) && |r.value| == Count(Int32At(v.buf, v.idx + 4))
    ensures r.Parsed? ==> r.rest.buf == v.buf && r.rest.mode == v.mode
  {
    var (_, v1) :- ExpectTag(v, tag);
    var (n, v2) :- ReadInt(v1);
    VectorItems(v2, f, Count(n), [])
  }

  /** The integer a one-element '<i' vector entry holds. */
  function IntOf(x: Value): int
  {
    match x
    case One(Int(i)) => i
    case _ => 0
  }

  function IntsOf(xs: seq<Value>): (r: seq<int>)
    ensures |r| == |xs|
    ensures forall k :: 0 <= k < |xs| ==> r[k] == IntOf(xs[k])
  {
    seq(|xs|, k requires 0 <= k < |xs| => IntOf(xs[k]))
  }

  // ----- Keyframe tracks --------------------------------------------------

  /** Bytes of one keyframe: frame, value and, with tangents, the two
      tangents. */
  function KeySize(f: Fmt, tangents: bool): nat
  {
    4 + Size(f) + (if tangents then 2 * Size(f) else 0)
  }

  /** One keyframe of `load_keyframe` and the bytes it adds to the count. */
  function OneKey(v: View, f: Fmt, tangents: bool): (r: Parsed<(Keyframe, int)>)
    ensures r.Parsed? ==> r.value.1 == KeySize(f, tangents)
    ensures r.Parsed? ==> r.rest.buf == v.buf && r.rest.mode == v.mode
  {
    var (v1, b) := v.Read(4 + Size(f));
    if |b| != 4 + Size(f) then Failed(StructError)
    else
      var frame := Int32(b[..4]);
      var value := ScalarOrTuple(UnpackAll(f.kind, f.count, b[4..]));
      if !tangents then Parsed((Keyframe(frame, value, None, None), 4 + Size(f)), v1)
      else
        var (ts, v2) :- ReadPacked(v1, Fmt(f.kind, 2 * f.count));
        var half := |ts| / 2;
        var key := Keyframe(frame, value, Some(ScalarOrTuple(ts[..half])), Some(ScalarOrTuple(ts[half..])));
        Parsed((key, 4 + Size(f) + 2 * Size(f)), v2)
  }

  /** The key loop of `load_keyframe`: `left` more keys after `keys`, with
      the running byte count `n`. */
  function KeysFrom(v: View, f: Fmt, tangents: bool, left: nat, keys: seq<Keyframe>, n: int)
    : (r: Parsed<(seq<Keyframe>, int)>)
    ensures r.Parsed? ==> r.value.1 >= n
    ensures r.Parsed? ==> r.rest.buf == v.buf && r.rest.mode == v.mode
    decreases left
  {
    if left == 0 then Parsed((keys, n), v)
    else
      var ((key, size), v1) :- OneKey(v, f, tangents);
      KeysFrom(v1, f, tangents, left - 1, keys + [key], n + size)
  }

  /** `load_keyframe(target, fmt)`: the byte count, which includes the
      four bytes of the tag read before it, and the track. */
  function Keyframes(v: View, target: Channel, f: Fmt): (r: Parsed<(int, Track)>)
    ensures r.Parsed? ==> r.value.0 >= 16
    ensures r.Parsed? ==> r.rest.buf == v.buf && r.rest.mode == v.mode
  {
    var (v1, h) := v.Read(12);
    if |h| != 12 then Failed(StructError)
    else
      var nkeys, code, gsid := Int32(h[..4]), Int32(h[4..8]), Int32(h[8..]);
      match LineTypeOf(code)
      case None => Failed(UnknownInterpolation(code))
      case Some(lt) =>
        var ((keys, n), v2) :- KeysFrom(v1, f, HasTangents(lt), Count(nkeys), [], 16);
        Parsed((n, Track(target, lt, gsid, keys)), v2)
  }

  /** The tag tables of the `load_*_keyframe` methods: for each place a
      track is read, the channel and value format of each accepted tag. */
  function TrackKind(ctx: TrackContext, tag: Bytes): Option<(Channel, Fmt)>
  {
    match ctx
    case NodeTracks =>
      if tag == KGTR then Some((ObjectTranslation, Fmt(F32, 3)))
      else if tag == KGRT then Some((ObjectRotation, Fmt(F32, 4)))
      else if tag == KGSC then Some((ObjectScaling, Fmt(F32, 3)))
      else if tag == KATV then Some((ObjectVisibility, Fmt(F32, 1)))
      else None
    case MaterialTracks =>
      if tag == KMTA then Some((MaterialAlpha, Fmt(F32, 1)))
      else if tag == KMTF then Some((MaterialTexture, Fmt(I32, 1)))
      else None
    case TextureAnimTracks =>
      if tag == KTAT then Some((TextureAnimTranslation, Fmt(F32, 3)))
      else if tag == KTAR then Some((TextureAnimRotation, Fmt(F32, 3)))
      else if tag == KTAS then Some((TextureAnimScaling, Fmt(F32, 3)))
      else None
    case GeosetAnimTracks =>
      if tag == KGAO then Some((GeosetAnimAlpha, Fmt(F32, 1)))
      else if tag == KGAC then Some((GeosetAnimColor, Fmt(F32, 3)))
      else None
    case LightTracks =>
      if tag == KLAV then Some((LightVisibility, Fmt(F32, 1)))
      else if tag == KLAC then Some((LightColor, Fmt(F32, 3)))
      else if tag == KLAI then Some((LightIntensity, Fmt(F32, 1)))
      else if tag == KLBC then Some((LightAmbientColor, Fmt(F32, 3)))
      else if tag == KLBI then Some((LightAmbientIntensity, Fmt(F32, 1)))
      else None
    case AttachmentTracks =>
      if tag == KATV then Some((AttachementVisibility, Fmt(F32, 1)))
      else None
    case EmitterTracks =>
      if tag == KPEV then Some((ParticleEmitterVisibility, Fmt(F32, 1)))
      else None
    case Emitter2Tracks =>
      if tag == KP2S then Some((ParticleEmitter2Speed, Fmt(F32, 1)))
      else if tag == KP2L then Some((ParticleEmitter2Latitude, Fmt(F32, 1)))
      else if tag == KP2E then Some((ParticleEmitter2EmissionRate, Fmt(F32, 1)))
      else if tag == KP2V then Some((ParticleEmitter2Visibility, Fmt(F32, 1)))
      else if tag == KP2N then Some((ParticleEmitter2Length, Fmt(F32, 1)))
      else if tag == KP2W then Some((ParticleEmitter2Width, Fmt(F32, 1)))
      else None
  }

  /** A `load_*_keyframe` method: the tag, then the track its table names. */
  function TaggedTrack(v: View, ctx: TrackContext): (r: Parsed<(int, Track)>)
    ensures r.Parsed? ==> r.value.0 >= 16
    ensures r.Parsed? ==> r.rest.buf == v.buf && r.rest.mode == v.mode
    ensures TrackKind(ctx, v.Read(4).1).None? ==> r == Failed(UnknownTrackTag(ctx, v.Read(4).1))
  {
    var (v1, tag) := v.Read(4);
    match TrackKind(ctx, tag)
    case None => Failed(UnknownTrackTag(ctx, tag))
    case Some((ch, f)) => Keyframes(v1, ch, f)
  }

  /** The running-total loop that reads trailing tracks: while the total
      `j` is below `limit`, read a track and add its byte count. */
  function TracksUntil(v: View, ctx: TrackContext, j: int, limit: int, acc: seq<Track>)
    : (r: Parsed<seq<Track>>)
    ensures j >= limit ==> r == Parsed(acc, v)
    ensures r.Parsed? ==> r.rest.buf == v.buf && r.rest.mode == v.mode
    decreases limit - j
  {
    if j >= limit then Parsed(acc, v)
    else
      var ((m, t), v1) :- TaggedTrack(v, ctx);
      TracksUntil(v1, ctx, j + m, limit, acc + [t])
  }

  // ----- Node header and fixed fields --------------------------------------

  /** `load_object(flag_class)`: the declared length `k` (returned as read,
      not as the bytes actually consumed) and the node. */
  function Object(v: View, vocab: FlagVocabulary): (r: Parsed<(int, Node)>)
    ensures r.Parsed? ==> v.Fits(4) && r.value.0 == Int32At(v.buf, v.idx)
    ensures r.Parsed? ==> r.value.1.vocabulary == vocab
    ensures r.Parsed? ==> r.rest.buf == v.buf && r.rest.mode == v.mode
  {
    var (k, v1) :- ReadInt(v);
    var (v2, name) := v1.Read(80);
    var (id, v3) :- ReadInt(v2);
    var (parent, v4) :- ReadInt(v3);
    var (flags, v5) :- ReadInt(v4);
    var (tracks, v6) :- TracksUntil(v5, NodeTracks, 96, k, []);
    Parsed((k, Node(StripNul(name), id, parent, flags, vocab, tracks)), v6)
  }

  /** The bytes one fixed field occupies. */
  function ShapeWidth(s: Shape): nat
  {
    match s
    case Packed(f) => Size(f)
    case Flag => 4
    case Text(w) => w
    case Pad(w) => w
  }

  /** The bytes a list of fixed fields occupies. */
  function Width(layout: seq<Field>): nat
  {
    if layout == [] then 0 else ShapeWidth(layout[0].shape) + Width(layout[1..])
  }

  /** One fixed-field read of a record wrapper. */
  function ReadField(v: View, s: Shape): (r: Parsed<FieldValue>)
    ensures r.Parsed? ==> r.rest.buf == v.buf && r.rest.mode == v.mode
  {
    match s
    case Packed(f) =>
      var (xs, v1) :- ReadPacked(v, f);
      Parsed(Numbers(xs), v1)
    case Flag =>
      var (x, v1) :- ReadInt(v);
      Parsed(Truth(x != 0), v1)
    case Text(w) =>
      var (v1, b) := v.Read(w);
      Parsed(Str(StripNul(b)), v1)
    case Pad(w) =>
      var (v1, _) := v.Read(w);
      Parsed(Skipped, v1)
  }

  /** The fixed fields of `layout`, read one after the other after `acc`. */
  function ReadFields(v: View, layout: seq<Field>, acc: seq<FieldValue>): (r: Parsed<seq<FieldValue>>)
    ensures r.Parsed? ==> |r.value| == |acc| + |layout| && r.value[..|acc|] == acc
    ensures r.Parsed? ==> r.rest.buf == v.buf && r.rest.mode == v.mode
    decreases |layout|
  {
    if layout == [] then Parsed(acc, v)
    else
      var (x, v1) :- ReadField(v, layout[0].shape);
      ReadFields(v1, layout[1..], acc + [x])
  }

  function F32s(key: string, n: nat): Field { Field(key, Packed(Fmt(F32, n))) }
  function I32s(key: string, n: nat): Field { Field(key, Packed(Fmt(I32, n))) }

  /** The fields `load_light` reads after the node header. */
  const LightLayout: seq<Field> := [
    I32s("type_", 1), F32s("attenuation", 2), F32s("color", 3), F32s("intensity", 1),
    F32s("ambient_color", 3), F32s("ambient_intensity", 1)]

  /** The fields `load_attachement` reads after the node header. */
  const AttachmentLayout: seq<Field> := [
    Field("path", Text(256)), Field("", Pad(4)), I32s("attachement_id", 1)]

  /** The fields `load_particle_emitter` reads after the node header. */
  const EmitterLayout: seq<Field> := [
    F32s("emission_rate", 1), F32s("gravity", 1), F32s("longitude", 1), F32s("latitude", 1),
    Field("model_path", Text(256)), F32s("life_span", 1), F32s("init_velocity", 1)]

  /** The fields `load_particle_emitter_2` reads after the node header, in
      five runs. */
  const Emitter2Layout: seq<Field> :=
    Emitter2Motion + Emitter2Modes + Emitter2Segments + Emitter2UvAnims + Emitter2Ids

  const Emitter2Motion: seq<Field> := [
    F32s("speed", 1), F32s("variation", 1), F32s("latitude", 1), F32s("gravity", 1),
    F32s("lifespan", 1), F32s("emission_rate", 1), F32s("length", 1), F32s("width", 1)]
  const Emitter2Modes: seq<Field> := [
    I32s("filter_mode", 1), I32s("rows", 1), I32s("columns", 1), I32s("tail_mode", 1),
    F32s("tail_length", 1), F32s("time", 1)]
  const Emitter2Segments: seq<Field> := [
    F32s("segment_color[0]", 3), F32s("segment_color[1]", 3), F32s("segment_color[2]", 3),
    Field("alpha", Packed(Fmt(U8, 3))), F32s("particle_scaling", 3)]
  const Emitter2UvAnims: seq<Field> := [
    I32s("lifespan_uv_anim", 3), I32s("decay_uv_anim", 3), I32s("tail_uv_anim", 3),
    I32s("tail_decay_uv_anim", 3)]
  const Emitter2Ids: seq<Field> := [
    I32s("texture_id", 1), Field("squirt", Flag), I32s("priority_plane", 1), I32s("replaceable_id", 1)]

  /** The fields `load_geoset_animation` reads before its tracks. */
  const GeosetAnimLayout: seq<Field> := [
    F32s("alpha", 1), I32s("color_anim", 1), F32s("color", 3), I32s("geoset_id", 1)]

  /** A node record wrapper: the node header, the fixed fields, then more
      tracks while the running total, started at `k + width`, is below
      `maxBytes`. The extra tracks join the node's own. */
  function NodeRecord(v: View, maxBytes: int, vocab: FlagVocabulary, layout: seq<Field>,
                      ctx: TrackContext, width: int): (r: Parsed<(Node, seq<FieldValue>)>)
    ensures r.Parsed? ==> |r.value.1| == |layout| && r.value.0.vocabulary == vocab
  {
    var ((k, node), v1) :- Object(v, vocab);
    var (fixed, v2) :- ReadFields(v1, layout, []);
    var (more, v3) :- TracksUntil(v2, ctx, k + width, maxBytes, []);
    Parsed((node.(tracks := node.tracks + more), fixed), v3)
  }

  // ----- Geosets ----------------------------------------------------------

  /** Python's `zip`: pairs up to the shorter of the two lists. */
  function Zip(types: seq<Value>, groups: seq<seq<Value>>): (r: seq<Primitives>)
    ensures |r| == if |types| <= |groups| then |types| else |groups|
    ensures forall k :: 0 <= k < |r| ==> r[k] == Primitives(types[k], groups[k])
  {
    var n := if |types| <= |groups| then |types| else |groups|;
    seq(n, k requires 0 <= k < n => Primitives(types[k], groups[k]))
  }

  /** `load_faces()`: primitive types, counts and vertex indices, checked
      by its two asserts, then the indices grouped per count. */
  function Faces(v: View): (r: Parsed<seq<Primitives>>)
  {
    var (ptyps, v1) :- Vectors(v, PTYP, Fmt(I32, 1));
    var (pcnts, v2) :- Vectors(v1, PCNT, Fmt(I32, 1));
    if |ptyps| != |pcnts| then Failed(PrimitiveCountMismatch)
    else
      var (pvtx, v3) :- Vectors(v2, PVTX, Fmt(I16, 1));
      var counts := IntsOf(pcnts);
      if |pvtx| != Sum(counts) then Failed(PrimitiveIndexMismatch)
      else
        match Partition(pvtx, counts)
        case None => Failed(PartitionOverrun)
        case Some(groups) => Parsed(Zip(ptyps, groups), v3)
  }

  /** `load_groups()`: matrix group sizes, then the matrices grouped. */
  function Groups(v: View): (r: Parsed<seq<seq<Value>>>)
  {
    var (mtgcs, v1) :- Vectors(v, MTGC, Fmt(I32, 1));
    var (mats, v2) :- Vectors(v1, MATS, Fmt(I32, 1));
    match Partition(mats, IntsOf(mtgcs))
    case None => Failed(PartitionOverrun)
    case Some(groups) => Parsed(groups, v2)
  }

  /** `load_geoset_attributes()`: a geoset is selectable unless its third
      integer is 4. */
  function Attributes(v: View): (r: Parsed<GeosetAttributes>)
  {
    var (material, v1) :- ReadInt(v);
    var (group, v2) :- ReadInt(v1);
    var (selectable, v3) :- ReadInt(v2);
    Parsed(GeosetAttributes(material, group, selectable != 4), v3)
  }

  /** A bounds radius and two corners (`GAnimation`). */
  function ExtentOf(v: View): (r: Parsed<Extent>)
  {
    var (radius, v1) :- ReadPacked(v, Fmt(F32, 1));
    var (lo, v2) :- ReadPacked(v1, Fmt(F32, 3));
    var (hi, v3) :- ReadPacked(v2, Fmt(F32, 3));
    Parsed(Extent(radius[0], lo, hi), v3)
  }

  function Extents(v: View, left: nat, acc: seq<Extent>): (r: Parsed<seq<Extent>>)
    ensures r.Parsed? ==> |r.value| == |acc| + left
    decreases left
  {
    if left == 0 then Parsed(acc, v)
    else
      var (e, v1) :- ExtentOf(v);
      Extents(v1, left - 1, acc + [e])
  }

  /** `load_ganimations()`: the default extent and a counted list of more. */
  function GAnimations(v: View): (r: Parsed<(Extent, seq<Extent>)>)
  {
    var (default, v1) :- ExtentOf(v);
    var (n, v2) :- ReadInt(v1);
    var (extents, v3) :- Extents(v2, Count(n), []);
    Parsed((default, extents), v3)
  }

  function UvSets(v: View, left: nat, acc: seq<seq<Value>>): (r: Parsed<seq<seq<Value>>>)
    ensures r.Parsed? ==> |r.value| == |acc| + left
    decreases left
  {
    if left == 0 then Parsed(acc, v)
    else
      var (uvs, v1) :- Vectors(v, UVBS, Fmt(F32, 2));
      UvSets(v1, left - 1, acc + [uvs])
  }

  /** `load_tvertices()`: a counted list of texture-coordinate sets. */
  function TVertices(v: View): (r: Parsed<seq<seq<Value>>>)
  {
    var (_, v1) :- ExpectTag(v, UVAS);
    var (n, v2) :- ReadInt(v1);
    UvSets(v2, Count(n), [])
  }

  /** `load_geoset(_)`: eight parts in a fixed order. */
  function GeosetOf(v: View): (r: Parsed<Geoset>)
  {
    var (verts, v1) :- Vectors(v, VRTX, Fmt(F32, 3));
    var (norms, v2) :- Vectors(v1, NRMS, Fmt(F32, 3));
    var (faces, v3) :- Faces(v2);
    var (vgroups, v4) :- Vectors(v3, GNDX, Fmt(U8, 1));
    var (groups, v5) :- Groups(v4);
    var (attrs, v6) :- Attributes(v5);
    var (anims, v7) :- GAnimations(v6);
    var (uvs, v8) :- TVertices(v7);
    Parsed(Geoset(verts, norms, faces, vgroups, groups, attrs, anims.0, anims.1, uvs), v8)
  }

  /** `load_geoset_animation(max_bytes)`: 24 bytes of fixed fields, then
      tracks while the running total is below `max_bytes`. */
  function GeosetAnimationOf(v: View, maxBytes: int): (r: Parsed<GeosetAnimation>)
  {
    var (fixed, v1) :- ReadFields(v, GeosetAnimLayout, []);
    var (tracks, v2) :- TracksUntil(v1, GeosetAnimTracks, 24, maxBytes, []);
    Parsed(GeosetAnimation(fixed, tracks), v2)
  }

  // ----- Records of a multiblock -------------------------------------------

  /** The `loader_fn` a multiblock calls for each record. */
  datatype RecordKind =
    | TextureAnimRecord | GeosetRecord | GeosetAnimRecord
    | LightRecord | AttachmentRecord | EmitterRecord | Emitter2Record

  /** `loader_fn(maxBytes)` on the record cursor `v`: the model afterwards. */
  function Record(kind: RecordKind, m: Model, v: View, maxBytes: int): (r: Parsed<Model>)
  {
    match kind
    case TextureAnimRecord =>
      var (tracks, v1) :- TracksUntil(v, TextureAnimTracks, 0, maxBytes, []);
      Parsed(m.(textureAnimations := m.textureAnimations + [tracks]), v1)
    case GeosetRecord =>
      var (g, v1) :- GeosetOf(v);
      Parsed(m.(geosets := m.geosets + [g]), v1)
    case GeosetAnimRecord =>
      var (a, v1) :- GeosetAnimationOf(v, maxBytes);
      Parsed(m.(geosetAnimations := m.geosetAnimations + [a]), v1)
    case LightRecord =>
      var ((node, fixed), v1) :- NodeRecord(v, maxBytes, ObjectFlags, LightLayout, LightTracks, 44);
      Parsed(m.(lights := m.lights + [Light(node, fixed)]), v1)
    case AttachmentRecord =>
      var ((node, fixed), v1) :- NodeRecord(v, maxBytes, ObjectFlags, AttachmentLayout, AttachmentTracks, 264);
      Parsed(m.(attachments := m.attachments + [Attachment(node, fixed)]), v1)
    case EmitterRecord =>
      var ((node, fixed), v1) :- NodeRecord(v, maxBytes, ParticleFlags, EmitterLayout, EmitterTracks, 280);
      Parsed(m.(emitters := m.emitters + [ParticleEmitter(node, fixed)]), v1)
    case Emitter2Record =>
      var ((node, fixed), v1) :- NodeRecord(v, maxBytes, ParticleFlags2, Emitter2Layout, Emitter2Tracks, 171);
      Parsed(m.(emitters2 := m.emitters2 + [ParticleEmitter2(node, fixed)]), v1)
  }

  /** The record loop of `load_multiblocks` from offset `i` of the block:
      each record's length `len` is read at `i`, its loader runs with
      `len - 4` on a cursor at `i + 4`, then `i` moves on by `len`. A
      length that would not move `i` forward stops the model with
      NoProgress where the source would loop. */
  function Multi(kind: RecordKind, m: Model, buf: Bytes, i: nat): (r: Result<Model>)
    decreases |buf| - i
  {
    if i >= |buf| then Ok(m)
    else if i + 4 > |buf| then Err(StructError)
    else
      var len := Int32At(buf, i);
      match Record(kind, m, View(buf, i + 4, Slice), len - 4)
      case Failed(e) => Err(e)
      case Parsed(m', _) =>
        if len <= 0 then Err(NoProgress(len)) else Multi(kind, m', buf, i + len)
  }

  /** The block and its records, once the tag is accepted. */
  function MultiBody(kind: RecordKind, m: Model, v: View): (r: Parsed<Model>)
  {
    var (buf, v1) :- Block(v);
    Observe(Multi(kind, m, buf, 0), v1)
  }

  /** `load_multiblocks(tag, loader_fn, optional)`. */
  function Multiblocks(kind: RecordKind, tag: Bytes, optional: bool, m: Model, v: View): (r: Parsed<Model>)
    requires |tag| == 4
  {
    if optional then
      var (present, v1) :- Peek(v, tag);
      if present then MultiBody(kind, m, v1) else Parsed(m, v1)
    else
      var (_, v1) :- ExpectTag(v, tag);
      MultiBody(kind, m, v1)
  }

  // ----- Materials ----------------------------------------------------------

  /** The track loop of `load_layers`: each track is read from a fresh cursor
      at offset `j` of the layer's bytes. */
  function LayerTracks(lb: Bytes, j: nat, acc: seq<Track>): (r: Result<seq<Track>>)
    decreases |lb| - j
  {
    if j >= |lb| then Ok(acc)
    else
      match TaggedTrack(View(lb, j, Slice), MaterialTracks)
      case Failed(e) => Err(e)
      case Parsed((m, t), _) => LayerTracks(lb, j + m, acc + [t])
  }

  /** One layer from its bytes: '<5i f' at the start, then tracks. */
  function LayerOf(lb: Bytes): (r: Result<Layer>)
    ensures r.Ok? ==> |lb| >= 24
  {
    if |lb| < 24 then Err(StructError)
    else
      var shading := Int32At(lb, 4);
      var bits := [HasBit(shading, 0x01), HasBit(shading, 0x02), HasBit(shading, 0x10),
                   HasBit(shading, 0x20), HasBit(shading, 0x40), HasBit(shading, 0x80)];
      var tracks :- LayerTracks(lb, 24, []);
      Ok(Layer(Int32At(lb, 0), bits, Int32At(lb, 8), Int32At(lb, 12), Int32At(lb, 16),
               Float(lb[20..24]), tracks))
  }

  /** One layer of `load_layers`: a length `n`, then `read(n - 4)` bytes
      that hold the layer. */
  function OneLayer(v: View): (r: Parsed<Layer>)
  {
    var (n, v1) :- ReadInt(v);
    var (v2, lb) := v1.Read(n - 4);
    match LayerOf(lb)
    case Err(e) => Failed(e)
    case Ok(layer) => Parsed(layer, v2)
  }

  /** The remaining `left` layers of `load_layers`, after `acc`. */
  function LayerItems(v: View, left: nat, acc: seq<Layer>): (r: Parsed<seq<Layer>>)
    ensures r.Parsed? ==> |r.value| == |acc| + left
    decreases left
  {
    if left == 0 then Parsed(acc, v)
    else
      var (layer, v1) :- OneLayer(v);
      LayerItems(v1, left - 1, acc + [layer])
  }

  /** `load_layers()`. */
  function Layers(v: View): (r: Parsed<seq<Layer>>)
  {
    var (_, v1) :- ExpectTag(v, LAYS);
    var (n, v2) :- ReadInt(v1);
    LayerItems(v2, Count(n), [])
  }

  /** One material at offset `i` of the block: a '<i i i' header (size,
      priority plane, flags), then the layers from a cursor after it; the
      size and the material. */
  function MaterialAt(buf: Bytes, i: nat): (r: Result<(int, Material)>)
    requires i + 12 <= |buf|
  {
    var flags := Int32At(buf, i + 8);
    match Layers(View(buf, i + 12, Slice))
    case Failed(e) => Err(e)
    case Parsed(layers, _) =>
      Ok((Int32At(buf, i),
          Material(Int32At(buf, i + 4), [HasBit(flags, 0x01), HasBit(flags, 0x10), HasBit(flags, 0x20)], layers)))
  }

  /** The loop of `load_materials` from offset `i`: a material, then `i`
      moves on by its size. */
  function MaterialLoop(m: Model, buf: Bytes, i: nat): (r: Result<Model>)
    decreases |buf| - i
  {
    if i >= |buf| then Ok(m)
    else if i + 12 > |buf| then Err(StructError)
    else
      match MaterialAt(buf, i)
      case Err(e) => Err(e)
      case Ok((size, mat)) =>
        if size <= 0 then Err(NoProgress(size))
        else MaterialLoop(m.(materials := m.materials + [mat]), buf, i + size)
  }

  // ----- Fixed-stride tables -----------------------------------------------

  /** Python's truth value of an unpacked element: a float is false only
      as +0.0 or -0.0. */
  predicate Truthy(x: Scalar)
  {
    match x
    case Int(i) => i != 0
    case Float(b) => !(|b| == 4 && b[0] == 0 && b[1] == 0 && b[2] == 0 && (b[3] == 0 || b[3] == 0x80))
  }

  /** The 132-byte record '<80s 2i f i f 4x f 3f 3f' at offset `i`, with its
      fields where the format puts them: name, interval, move speed (f at
      88), flags (i at 92, non-looping when non-zero), rarity (f at 96),
      four skipped bytes, bounds radius (f at 104) and the two corners (3f
      at 108 and at 120). */
  function SequenceOf(buf: Bytes, i: nat): (r: Sequence)
    requires i + 132 <= |buf|
    ensures |r.interval| == 2 && |r.minExtent| == 3 && |r.maxExtent| == 3
  {
    Sequence(StripNul(buf[i..i + 80]), [Int(Int32At(buf, i + 80)), Int(Int32At(buf, i + 84))],
             Float(buf[i + 88..i + 92]), Int32At(buf, i + 92) != 0, Float(buf[i + 96..i + 100]),
             Float(buf[i + 104..i + 108]),
             [Float(buf[i + 108..i + 112]), Float(buf[i + 112..i + 116]), Float(buf[i + 116..i + 120])],
             [Float(buf[i + 120..i + 124]), Float(buf[i + 124..i + 128]), Float(buf[i + 128..i + 132])])
  }

  /** The 13-tuple `struct.unpack_from` returns for the sequence format. */
  function SequenceTuple(buf: Bytes, i: nat): (t: seq<Scalar>)
    requires i + 132 <= |buf|
    ensures |t| == 13
  {
    [Float(buf[i..i + 80]), Int(Int32At(buf, i + 80)), Int(Int32At(buf, i + 84)),
     Float(buf[i + 88..i + 92]), Int(Int32At(buf, i + 92)), Float(buf[i + 96..i + 100]),
     Float(buf[i + 104..i + 108]),
     Float(buf[i + 108..i + 112]), Float(buf[i + 112..i + 116]), Float(buf[i + 116..i + 120]),
     Float(buf[i + 120..i + 124]), Float(buf[i + 124..i + 128]), Float(buf[i + 128..i + 132])]
  }

  /** The record as `load_sequences` builds it: it takes move speed from
      t[4], non-looping from t[5], rarity from t[6], bounds radius from
      t[7], the corners from t[8:11] and t[11:]. */
  function SequenceAsWritten(buf: Bytes, i: nat): (r: Sequence)
    requires i + 132 <= |buf|
  {
    var t := SequenceTuple(buf, i);
    Sequence(StripNul(buf[i..i + 80]), t[1..3], t[4], Truthy(t[5]), t[6], t[7], t[8..11], t[11..])
  }

  /** The loop of `load_sequences` over `range(0, len(buf), 132)`. */
  function SequenceLoop(m: Model, buf: Bytes, i: nat): (r: Result<Model>)
    decreases |buf| - i
  {
    if i >= |buf| then Ok(m)
    else if i + 132 > |buf| then Err(StructError)
    else SequenceLoop(m.(sequences := m.sequences + [SequenceOf(buf, i)]), buf, i + 132)
  }

  /** The 268-byte record '<i 256s 4x i' at offset `i`. */
  function TextureOf(buf: Bytes, i: nat): (r: Texture)
    requires i + 268 <= |buf|
  {
    var flags := Int32At(buf, i + 264);
    Texture(Int32At(buf, i), StripNul(buf[i + 4..i + 260]), HasBit(flags, 1), HasBit(flags, 2))
  }

  /** The loop of `load_textures` over `range(0, len(buf), 268)`. */
  function TextureLoop(m: Model, buf: Bytes, i: nat): (r: Result<Model>)
    decreases |buf| - i
  {
    if i >= |buf| then Ok(m)
    else if i + 268 > |buf| then Err(StructError)
    else TextureLoop(m.(textures := m.textures + [TextureOf(buf, i)]), buf, i + 268)
  }

  /** The loop of `load_global_sequences`: one '<i' duration every 4 bytes. */
  function GlobalLoop(m: Model, buf: Bytes, i: nat): (r: Result<Model>)
    decreases |buf| - i
  {
    if i >= |buf| then Ok(m)
    else if i + 4 > |buf| then Err(StructError)
    else GlobalLoop(m.(globalSequences := m.globalSequences + [Int32At(buf, i)]), buf, i + 4)
  }

  /** `load_model_info`'s five `unpack_from` calls on the block. */
  function ModelInfoOf(buf: Bytes): (r: Result<ModelInfo>)
    ensures r.Ok? <==> |buf| >= 112
  {
    if |buf| < 112 then Err(StructError)
    else
      Ok(ModelInfo(StripNul(buf[..80]), Float(buf[80..84]),
                   [Float(buf[84..88]), Float(buf[88..92]), Float(buf[92..96])],
                   [Float(buf[96..100]), Float(buf[100..104]), Float(buf[104..108])],
                   Int32At(buf, 108)))
  }

  // ----- Node tables --------------------------------------------------------

  /** One bone: a node, then geoset id and geoset animation id. */
  function BoneOf(v: View): (r: Parsed<(int, Bone)>)
  {
    var ((k, node), v1) :- Object(v, ObjectFlags);
    var (geoset, v2) :- ReadInt(v1);
    var (geosetAnim, v3) :- ReadInt(v2);
    Parsed((k, Bone(node, geoset, geosetAnim)), v3)
  }

  /** The loop of `load_bones`: a cursor at `i`, then `i` moves on by the
      node's declared length plus 8. */
  function BoneLoop(m: Model, buf: Bytes, i: nat): (r: Result<Model>)
    decreases |buf| - i
  {
    if i >= |buf| then Ok(m)
    else
      match BoneOf(View(buf, i, Slice))
      case Failed(e) => Err(e)
      case Parsed((k, bone), _) =>
        if k + 8 <= 0 then Err(NoProgress(k + 8))
        else BoneLoop(m.(bones := m.bones + [bone]), buf, i + k + 8)
  }

  /** One helper: a node and its declared length. */
  function HelperOf(v: View): (r: Parsed<(int, Helper)>)
  {
    var ((k, node), v1) :- Object(v, ObjectFlags);
    Parsed((k, Helper(node)), v1)
  }

  /** The loop of `load_helpers`: a cursor at `i`, then `i` moves on by the
      node's declared length. */
  function HelperLoop(m: Model, buf: Bytes, i: nat): (r: Result<Model>)
    decreases |buf| - i
  {
    if i >= |buf| then Ok(m)
    else
      match HelperOf(View(buf, i, Slice))
      case Failed(e) => Err(e)
      case Parsed((k, h), _) =>
        if k <= 0 then Err(NoProgress(k))
        else HelperLoop(m.(helpers := m.helpers + [h]), buf, i + k)
  }

  /** The pivot loop: `left` more '<3f' points. */
  function PivotItems(m: Model, v: View, left: nat): (r: Parsed<Model>)
    decreases left
  {
    if left == 0 then Parsed(m, v)
    else
      var (p, v1) :- ReadPacked(v, Fmt(F32, 3));
      PivotItems(m.(pivotPoints := m.pivotPoints + [p]), v1, left - 1)
  }

  // ----- The steps of `load` -----------------------------------------------

  /** `check_magic_number()`. */
  function CheckMagic(v: View): (r: Parsed<()>)
    ensures r.Parsed? <==> v.Fits(4) && v.buf[v.idx..v.idx + 4] == MDLX
  {
    var (v1, b) := v.Read(4);
    if b != MDLX then Failed(NotMdx(b)) else Parsed((), v1)
  }

  /** `load_version()`: the block must be exactly one '<i'. */
  function VersionStep(m: Model, v: View): (r: Parsed<Model>)
  {
    var (_, v1) :- ExpectTag(v, VERS);
    var (buf, v2) :- Block(v1);
    if |buf| != 4 then Failed(StructError) else Parsed(m.(version := Some(Int32(buf))), v2)
  }

  /** `load_modelinfo()`. */
  function ModelInfoStep(m: Model, v: View): (r: Parsed<Model>)
  {
    var (_, v1) :- ExpectTag(v, MODL);
    var (buf, v2) :- Block(v1);
    match ModelInfoOf(buf)
    case Err(e) => Failed(e)
    case Ok(info) => Parsed(m.(info := Some(info)), v2)
  }

  /** `load_sequences()`. */
  function SequencesStep(m: Model, v: View): (r: Parsed<Model>)
  {
    var (_, v1) :- ExpectTag(v, SEQS);
    var (buf, v2) :- Block(v1);
    Observe(SequenceLoop(m, buf, 0), v2)
  }

  /** `load_global_sequences()`: optional. */
  function GlobalSequencesStep(m: Model, v: View): (r: Parsed<Model>)
  {
    var (present, v1) :- Peek(v, GLBS);
    if !present then Parsed(m, v1)
    else
      var (buf, v2) :- Block(v1);
      Observe(GlobalLoop(m, buf, 0), v2)
  }

  /** `load_materials()`. */
  function MaterialsStep(m: Model, v: View): (r: Parsed<Model>)
  {
    var (_, v1) :- ExpectTag(v, MTLS);
    var (buf, v2) :- Block(v1);
    Observe(MaterialLoop(m, buf, 0), v2)
  }

  /** `load_textures()`. */
  function TexturesStep(m: Model, v: View): (r: Parsed<Model>)
  {
    var (_, v1) :- ExpectTag(v, TEXS);
    var (buf, v2) :- Block(v1);
    Observe(TextureLoop(m, buf, 0), v2)
  }

  /** `load_bones()`. */
  function BonesStep(m: Model, v: View): (r: Parsed<Model>)
  {
    var (_, v1) :- ExpectTag(v, BONE);
    var (buf, v2) :- Block(v1);
    Observe(BoneLoop(m, buf, 0), v2)
  }

  /** `load_helpers()`: optional. */
  function HelpersStep(m: Model, v: View): (r: Parsed<Model>)
  {
    var (present, v1) :- Peek(v, HELP);
    if !present then Parsed(m, v1)
    else
      var (buf, v2) :- Block(v1);
      Observe(HelperLoop(m, buf, 0), v2)
  }

  /** `load_pivot_points()`: a byte length, then `length // 12` points. */
  function PivotPointsStep(m: Model, v: View): (r: Parsed<Model>)
  {
    var (_, v1) :- ExpectTag(v, PIVT);
    var (n, v2) :- ReadInt(v1);
    PivotItems(m, v2, Count(n / 12))
  }

  /** `load()`: the steps in their order, adding to the model `m` (empty
      for a new loader). */
  function LoadAll(m: Model, v: View): (r: Parsed<Model>)
  {
    var (_, v1) :- CheckMagic(v);
    var (m2, v2) :- VersionStep(m, v1);
    var (m3, v3) :- ModelInfoStep(m2, v2);
    var (m4, v4) :- SequencesStep(m3, v3);
    var (m5, v5) :- GlobalSequencesStep(m4, v4);
    var (m6, v6) :- MaterialsStep(m5, v5);
    var (m7, v7) :- TexturesStep(m6, v6);
    var (m8, v8) :- Multiblocks(TextureAnimRecord, TXAN, true, m7, v7);
    var (m9, v9) :- Multiblocks(GeosetRecord, GEOS, false, m8, v8);
    var (m10, v10) :- Multiblocks(GeosetAnimRecord, GEOA, false, m9, v9);
    var (m11, v11) :- BonesStep(m10, v10);
    var (m12, v12) :- Multiblocks(LightRecord, LITE, true, m11, v11);
    var (m13, v13) :- HelpersStep(m12, v12);
    var (m14, v14) :- Multiblocks(AttachmentRecord, ATCH, true, m13, v13);
    var (m15, v15) :- PivotPointsStep(m14, v14);
    var (m16, v16) :- Multiblocks(EmitterRecord, PREM, true, m15, v15);
    Multiblocks(Emitter2Record, PRE2, true, m16, v16)
  }
}
