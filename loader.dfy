/** The MDX loader of war3/mdx.py: an object holding the current cursor,
    the cursors saved beneath it and the model it fills. Each method reads
    and appends as its namesake does, and is proved to agree with its
    function in MdxSpec: on success the result (or the model) and the
    cursor afterwards are the ones the function gives, and on failure the
    error is. */
module Mdx {
  import opened Wire
  import opened Cursor
  import opened Scene
  import opened Grouping
  import opened MdxSpec

  class Loader {
    var infile: InFile
    var stack: seq<InFile>
    var model: Model

    /** The current cursor with the saved ones. */
    function Cursors(): CursorStack<InFile>
      reads this
    {
      CursorStack(infile, stack)
    }

    /** `Loader(infile)`: no saved cursors and an empty model. */
    constructor (infile: InFile)
      ensures this.infile == infile && stack == [] && model == EmptyModel
    {
      this.infile := infile;
      stack := [];
      model := EmptyModel;
    }

    /** `push_infile(c)`. */
    method PushInfile(c: InFile)
      modifies this
      ensures Cursors() == Push(old(Cursors()), c) && model == old(model)
    {
      stack := stack + [infile];
      infile := c;
    }

    /** `pop_infile()`: the cursor given up, or None for the IndexError of
        an empty stack, which changes nothing. */
    method PopInfile() returns (r: Option<InFile>)
      modifies this
      ensures Pop(old(Cursors())).None? ==> r.None? && Cursors() == old(Cursors())
      ensures Pop(old(Cursors())).Some? ==>
                r == Some(Pop(old(Cursors())).value.0) && Cursors() == Pop(old(Cursors())).value.1
      ensures model == old(model)
    {
      if |stack| == 0 {
        return None;
      }
      r := Some(infile);
      infile := stack[|stack| - 1];
      stack := stack[..|stack| - 1];
    }

    // ----- Reads from the current cursor -------------------------------------

    /** `struct.unpack('<i', self.infile.read(4))`. */
    method UnpackInt() returns (r: Result<int>)
      modifies infile
      ensures Observe(r, infile.State()) == ReadInt(old(infile.State()))
    {
      var b := infile.Read(4);
      if |b| != 4 {
        return Err(StructError);
      }
      return Ok(Int32(b));
    }

    /** `struct.unpack(fmt, self.infile.read(calcsize(fmt)))`. */
    method UnpackFmt(f: Fmt) returns (r: Result<seq<Scalar>>)
      modifies infile
      ensures Observe(r, infile.State()) == ReadPacked(old(infile.State()), f)
    {
      var b := infile.Read(Size(f));
      var xs := Unpack(f, b);
      if xs.None? {
        return Err(StructError);
      }
      return Ok(xs.value);
    }

    /** `check_block_magic(tag)`. */
    method CheckBlockMagic(tag: Bytes) returns (r: Result<()>)
      requires |tag| == 4
      modifies infile
      ensures Observe(r, infile.State()) == ExpectTag(old(infile.State()), tag)
    {
      var b := infile.Read(4);
      if b != tag {
        return Err(TagMismatch(tag, b));
      }
      return Ok(());
    }

    /** `load_block()`. */
    method LoadBlock() returns (r: Result<Bytes>)
      modifies infile
      ensures Observe(r, infile.State()) == Block(old(infile.State()))
    {
      var n :- UnpackInt();
      if n < 0 {
        return Err(NegativeLength(n));
      }
      var b := infile.Read(n);
      return Ok(b);
    }

    /** The peek of an optional block: read four bytes and, when they are
        not `tag`, `seek(-4, SEEK_CUR)`. */
    method PeekTag(tag: Bytes) returns (r: Result<bool>)
      requires |tag| == 4
      modifies infile
      ensures Observe(r, infile.State()) == Peek(old(infile.State()), tag)
    {
      var b := infile.Read(4);
      if b == tag {
        return Ok(true);
      }
      var s := infile.SeekBack4();
      match s
      case Moved(_) => return Ok(false);
      case NoSeek => return Err(SeekUnsupported);
      case BeforeStart => return Err(SeekBeforeStart);
    }

    /** `load_vectors(tag, fmt)`. */
    method LoadVectors(tag: Bytes, f: Fmt) returns (r: Result<seq<Value>>)
      requires |tag| == 4
      modifies infile
      ensures Observe(r, infile.State()) == Vectors(old(infile.State()), tag, f)
    {
      hide ExpectTag, ReadInt, VectorItems;
      var _ :- CheckBlockMagic(tag);
      var n :- UnpackInt();
      r := LoadVectorItems(f, Count(n));
    }

    /** The `for _ in range(n)` loop of `load_vectors`. */
    method LoadVectorItems(f: Fmt, n: nat) returns (r: Result<seq<Value>>)
      modifies infile
      ensures Observe(r, infile.State()) == VectorItems(old(infile.State()), f, n, [])
    {
      hide ReadPacked;
      ghost var v0 := infile.State();
      var vectors: seq<Value> := [];
      var k := 0;
      while k < n
        invariant 0 <= k <= n
        invariant VectorItems(v0, f, n, []) == VectorItems(infile.State(), f, n - k, vectors)
      {
        var t :- UnpackFmt(f);
        vectors := vectors + [ScalarOrTuple(t)];
        k := k + 1;
      }
      return Ok(vectors);
    }

    /** `load_keyframe(target, fmt)`: the byte count and the track. */
    method LoadKeyframe(target: Channel, f: Fmt) returns (r: Result<(int, Track)>)
      modifies infile
      ensures Observe(r, infile.State()) == Keyframes(old(infile.State()), target, f)
    {
      hide KeysFrom;
      var h := infile.Read(12);
      if |h| != 12 {
        return Err(StructError);
      }
      var nkeys, code, gsid := Int32(h[..4]), Int32(h[4..8]), Int32(h[8..]);
      var lt := LineTypeOf(code);
      if lt.None? {
        return Err(UnknownInterpolation(code));
      }
      var p :- LoadKeys(f, HasTangents(lt.value), Count(nkeys));
      return Ok((p.1, Track(target, lt.value, gsid, p.0)));
    }

    /** The key loop of `load_keyframe`, with its byte count `n`, which
        starts at 16. */
    method LoadKeys(f: Fmt, tangents: bool, nkeys: nat) returns (r: Result<(seq<Keyframe>, int)>)
      modifies infile
      ensures Observe(r, infile.State()) == KeysFrom(old(infile.State()), f, tangents, nkeys, [], 16)
    {
      hide OneKey;
      ghost var v0 := infile.State();
      var n := 16;
      var keys: seq<Keyframe> := [];
      var k := 0;
      while k < nkeys
        invariant 0 <= k <= nkeys
        invariant KeysFrom(v0, f, tangents, nkeys, [], 16) == KeysFrom(infile.State(), f, tangents, nkeys - k, keys, n)
      {
        var p :- LoadKey(f, tangents);
        keys := keys + [p.0];
        n := n + p.1;
        k := k + 1;
      }
      return Ok((keys, n));
    }

    /** One pass of the key loop: frame and value, then the tangents when
        the interpolation has them; the key and the bytes it adds. */
    method LoadKey(f: Fmt, tangents: bool) returns (r: Result<(Keyframe, int)>)
      modifies infile
      ensures Observe(r, infile.State()) == OneKey(old(infile.State()), f, tangents)
    {
      hide ReadPacked;
      var b := infile.Read(4 + Size(f));
      if |b| != 4 + Size(f) {
        return Err(StructError);
      }
      var frame := Int32(b[..4]);
      var value := ScalarOrTuple(UnpackAll(f.kind, f.count, b[4..]));
      if !tangents {
        return Ok((Keyframe(frame, value, None, None), 4 + Size(f)));
      }
      var ts :- UnpackFmt(Fmt(f.kind, 2 * f.count));
      var half := |ts| / 2;
      var key := Keyframe(frame, value, Some(ScalarOrTuple(ts[..half])), Some(ScalarOrTuple(ts[half..])));
      return Ok((key, 4 + Size(f) + 2 * Size(f)));
    }

    /** The `load_*_keyframe` methods: the tag, looked up in the table of
        the place the track is read, then the track. */
    method LoadTaggedKeyframe(ctx: TrackContext) returns (r: Result<(int, Track)>)
      modifies infile
      ensures Observe(r, infile.State()) == TaggedTrack(old(infile.State()), ctx)
    {
      hide Keyframes, TrackKind;
      var tag := infile.Read(4);
      var kind := TrackKind(ctx, tag);
      if kind.None? {
        return Err(UnknownTrackTag(ctx, tag));
      }
      r := LoadKeyframe(kind.value.0, kind.value.1);
    }

    /** The running-total loop of trailing tracks: `while j < limit`. */
    method LoadTrailingTracks(ctx: TrackContext, j0: int, limit: int) returns (r: Result<seq<Track>>)
      modifies infile
      ensures Observe(r, infile.State()) == TracksUntil(old(infile.State()), ctx, j0, limit, [])
    {
      hide TaggedTrack;
      ghost var v0 := infile.State();
      var j := j0;
      var tracks: seq<Track> := [];
      while j < limit
        invariant TracksUntil(v0, ctx, j0, limit, []) == TracksUntil(infile.State(), ctx, j, limit, tracks)
        decreases limit - j
      {
        var p :- LoadTaggedKeyframe(ctx);
        tracks := tracks + [p.1];
        j := j + p.0;
      }
      return Ok(tracks);
    }

    /** `load_object(flag_class)`. */
    method LoadObject(vocab: FlagVocabulary) returns (r: Result<(int, Node)>)
      modifies infile
      ensures Observe(r, infile.State()) == Object(old(infile.State()), vocab)
    {
      hide ReadInt, TracksUntil;
      var k :- UnpackInt();
      var name := infile.Read(80);
      var id :- UnpackInt();
      var parent :- UnpackInt();
      var flags :- UnpackInt();
      var tracks :- LoadTrailingTracks(NodeTracks, 96, k);
      return Ok((k, Node(StripNul(name), id, parent, flags, vocab, tracks)));
    }

    /** One fixed field of a record wrapper. */
    method LoadField(s: Shape) returns (r: Result<FieldValue>)
      modifies infile
      ensures Observe(r, infile.State()) == ReadField(old(infile.State()), s)
    {
      hide ReadPacked, ReadInt;
      match s
      case Packed(f) =>
        var xs :- UnpackFmt(f);
        return Ok(Numbers(xs));
      case Flag =>
        var x :- UnpackInt();
        return Ok(Truth(x != 0));
      case Text(w) =>
        var b := infile.Read(w);
        return Ok(Str(StripNul(b)));
      case Pad(w) =>
        var _ := infile.Read(w);
        return Ok(Skipped);
    }

    /** The fixed-field reads of a record wrapper, in order. */
    method LoadFields(layout: seq<Field>) returns (r: Result<seq<FieldValue>>)
      modifies infile
      ensures Observe(r, infile.State()) == ReadFields(old(infile.State()), layout, [])
    {
      hide ReadField;
      ghost var v0 := infile.State();
      var values: seq<FieldValue> := [];
      var k := 0;
      while k < |layout|
        invariant 0 <= k <= |layout|
        invariant ReadFields(v0, layout, []) == ReadFields(infile.State(), layout[k..], values)
      {
        assert layout[k..][0] == layout[k] && layout[k..][1..] == layout[k + 1..];
        var x :- LoadField(layout[k].shape);
        values := values + [x];
        k := k + 1;
      }
      assert layout[k..] == [];
      return Ok(values);
    }

    /** What the node record wrappers share: the node, the fixed fields,
        then `j += width` and tracks while `j < max_bytes`. */
    method LoadNodeRecord(maxBytes: int, vocab: FlagVocabulary, layout: seq<Field>,
                          ctx: TrackContext, width: int) returns (r: Result<(Node, seq<FieldValue>)>)
      modifies infile
      ensures Observe(r, infile.State()) == NodeRecord(old(infile.State()), maxBytes, vocab, layout, ctx, width)
    {
      hide Object, ReadFields, TracksUntil;
      var obj :- LoadObject(vocab);
      var fixed :- LoadFields(layout);
      var more :- LoadTrailingTracks(ctx, obj.0 + width, maxBytes);
      return Ok((obj.1.(tracks := obj.1.tracks + more), fixed));
    }

    // ----- Geosets ------------------------------------------------------------

    /** `load_faces()`. */
    method LoadFaces() returns (r: Result<seq<Primitives>>)
      modifies infile
      ensures Observe(r, infile.State()) == Faces(old(infile.State()))
    {
      hide Vectors;
      var ptyps :- LoadVectors(PTYP, Fmt(I32, 1));
      var pcnts :- LoadVectors(PCNT, Fmt(I32, 1));
      if |ptyps| != |pcnts| {
        return Err(PrimitiveCountMismatch);
      }
      var pvtx :- LoadVectors(PVTX, Fmt(I16, 1));
      var counts := IntsOf(pcnts);
      if |pvtx| != Sum(counts) {
        return Err(PrimitiveIndexMismatch);
      }
      var groups := PartitionGroups(pvtx, counts);
      if groups.None? {
        return Err(PartitionOverrun);
      }
      return Ok(Zip(ptyps, groups.value));
    }

    /** `load_groups()`. */
    method LoadGroups() returns (r: Result<seq<seq<Value>>>)
      modifies infile
      ensures Observe(r, infile.State()) == Groups(old(infile.State()))
    {
      hide Vectors;
      var mtgcs :- LoadVectors(MTGC, Fmt(I32, 1));
      var mats :- LoadVectors(MATS, Fmt(I32, 1));
      var groups := PartitionGroups(mats, IntsOf(mtgcs));
      if groups.None? {
        return Err(PartitionOverrun);
      }
      return Ok(groups.value);
    }

    /** `load_geoset_attributes()`. */
    method LoadGeosetAttributes() returns (r: Result<GeosetAttributes>)
      modifies infile
      ensures Observe(r, infile.State()) == Attributes(old(infile.State()))
    {
      hide ReadInt;
      var material :- UnpackInt();
      var group :- UnpackInt();
      var selectable :- UnpackInt();
      return Ok(GeosetAttributes(material, group, selectable != 4));
    }

    /** A bounds radius and two corners, as `load_ganimations` reads them. */
    method LoadExtent() returns (r: Result<Extent>)
      modifies infile
      ensures Observe(r, infile.State()) == ExtentOf(old(infile.State()))
    {
      hide ReadPacked;
      var radius :- UnpackFmt(Fmt(F32, 1));
      var lo :- UnpackFmt(Fmt(F32, 3));
      var hi :- UnpackFmt(Fmt(F32, 3));
      return Ok(Extent(radius[0], lo, hi));
    }

    /** `load_ganimations()`. */
    method LoadGAnimations() returns (r: Result<(Extent, seq<Extent>)>)
      modifies infile
      ensures Observe(r, infile.State()) == GAnimations(old(infile.State()))
    {
      hide ExtentOf, ReadInt, Extents;
      var default :- LoadExtent();
      var n :- UnpackInt();
      var extents :- LoadExtents(Count(n));
      return Ok((default, extents));
    }

    /** The counted loop of `load_ganimations`. */
    method LoadExtents(n: nat) returns (r: Result<seq<Extent>>)
      modifies infile
      ensures Observe(r, infile.State()) == Extents(old(infile.State()), n, [])
    {
      hide ExtentOf;
      ghost var v0 := infile.State();
      var extents: seq<Extent> := [];
      var k := 0;
      while k < n
        invariant 0 <= k <= n
        invariant Extents(v0, n, []) == Extents(infile.State(), n - k, extents)
      {
        var e :- LoadExtent();
        extents := extents + [e];
        k := k + 1;
      }
      return Ok(extents);
    }

    /** `load_tvertices()`. */
    method LoadTVertices() returns (r: Result<seq<seq<Value>>>)
      modifies infile
      ensures Observe(r, infile.State()) == TVertices(old(infile.State()))
    {
      hide ExpectTag, ReadInt, UvSets;
      var _ :- CheckBlockMagic(UVAS);
      var n :- UnpackInt();
      r := LoadUvSets(Count(n));
    }

    /** The counted loop of `load_tvertices`: one UVBS vector list each. */
    method LoadUvSets(n: nat) returns (r: Result<seq<seq<Value>>>)
      modifies infile
      ensures Observe(r, infile.State()) == UvSets(old(infile.State()), n, [])
    {
      hide Vectors;
      ghost var v0 := infile.State();
      var tverts: seq<seq<Value>> := [];
      var k := 0;
      while k < n
        invariant 0 <= k <= n
        invariant UvSets(v0, n, []) == UvSets(infile.State(), n - k, tverts)
      {
        var uvs :- LoadVectors(UVBS, Fmt(F32, 2));
        tverts := tverts + [uvs];
        k := k + 1;
      }
      return Ok(tverts);
    }

    /** `load_geoset(_)`. */
    method LoadGeoset() returns (r: Result<()>)
      modifies this, infile
      ensures ObserveModel(r, model, infile.State()) == Record(GeosetRecord, old(model), old(infile.State()), 0)
      ensures infile == old(infile) && stack == old(stack)
    {
      hide Vectors, Faces, Groups, Attributes, GAnimations, TVertices;
      var verts :- LoadVectors(VRTX, Fmt(F32, 3));
      var norms :- LoadVectors(NRMS, Fmt(F32, 3));
      var faces :- LoadFaces();
      var vgroups :- LoadVectors(GNDX, Fmt(U8, 1));
      var groups :- LoadGroups();
      var attrs :- LoadGeosetAttributes();
      var anims :- LoadGAnimations();
      var tverts :- LoadTVertices();
      model := model.(geosets := model.geosets + [Geoset(verts, norms, faces, vgroups, groups, attrs,
                                                           anims.0, anims.1, tverts)]);
      return Ok(());
    }

    // ----- Record loaders of the multiblocks -----------------------------------

    /** `load_texture_animation_keyframes(k)`. */
    method LoadTextureAnimationKeyframes(k: int) returns (r: Result<()>)
      modifies this, infile
      ensures ObserveModel(r, model, infile.State()) == Record(TextureAnimRecord, old(model), old(infile.State()), k)
      ensures infile == old(infile) && stack == old(stack)
    {
      hide TracksUntil;
      var anims :- LoadTrailingTracks(TextureAnimTracks, 0, k);
      model := model.(textureAnimations := model.textureAnimations + [anims]);
      return Ok(());
    }

    /** `load_geoset_animation(max_bytes)`. */
    method LoadGeosetAnimation(maxBytes: int) returns (r: Result<()>)
      modifies this, infile
      ensures ObserveModel(r, model, infile.State()) == Record(GeosetAnimRecord, old(model), old(infile.State()), maxBytes)
      ensures infile == old(infile) && stack == old(stack)
    {
      hide ReadFields, TracksUntil;
      var fixed :- LoadFields(GeosetAnimLayout);
      var frames :- LoadTrailingTracks(GeosetAnimTracks, 24, maxBytes);
      model := model.(geosetAnimations := model.geosetAnimations + [GeosetAnimation(fixed, frames)]);
      return Ok(());
    }

    /** `load_light(max_bytes)`. */
    method LoadLight(maxBytes: int) returns (r: Result<()>)
      modifies this, infile
      ensures ObserveModel(r, model, infile.State()) == Record(LightRecord, old(model), old(infile.State()), maxBytes)
      ensures infile == old(infile) && stack == old(stack)
    {
      hide NodeRecord;
      var obj :- LoadNodeRecord(maxBytes, ObjectFlags, LightLayout, LightTracks, 44);
      model := model.(lights := model.lights + [Light(obj.0, obj.1)]);
      return Ok(());
    }

    /** `load_attachement(max_bytes)`. */
    method LoadAttachement(maxBytes: int) returns (r: Result<()>)
      modifies this, infile
      ensures ObserveModel(r, model, infile.State()) == Record(AttachmentRecord, old(model), old(infile.State()), maxBytes)
      ensures infile == old(infile) && stack == old(stack)
    {
      hide NodeRecord;
      var obj :- LoadNodeRecord(maxBytes, ObjectFlags, AttachmentLayout, AttachmentTracks, 264);
      model := model.(attachments := model.attachments + [Attachment(obj.0, obj.1)]);
      return Ok(());
    }

    /** `load_particle_emitter(max_bytes)`. */
    method LoadParticleEmitter(maxBytes: int) returns (r: Result<()>)
      modifies this, infile
      ensures ObserveModel(r, model, infile.State()) == Record(EmitterRecord, old(model), old(infile.State()), maxBytes)
      ensures infile == old(infile) && stack == old(stack)
    {
      hide NodeRecord;
      var obj :- LoadNodeRecord(maxBytes, ParticleFlags, EmitterLayout, EmitterTracks, 280);
      model := model.(emitters := model.emitters + [ParticleEmitter(obj.0, obj.1)]);
      return Ok(());
    }

    /** `load_particle_emitter_2(max_bytes)`. */
    method LoadParticleEmitter2(maxBytes: int) returns (r: Result<()>)
      modifies this, infile
      ensures ObserveModel(r, model, infile.State()) == Record(Emitter2Record, old(model), old(infile.State()), maxBytes)
      ensures infile == old(infile) && stack == old(stack)
    {
      hide NodeRecord;
      var obj :- LoadNodeRecord(maxBytes, ParticleFlags2, Emitter2Layout, Emitter2Tracks, 171);
      model := model.(emitters2 := model.emitters2 + [ParticleEmitter2(obj.0, obj.1)]);
      return Ok(());
    }

    /** The `loader_fn` argument of `load_multiblocks`, called. */
    method CallLoader(kind: RecordKind, maxBytes: int) returns (r: Result<()>)
      modifies this, infile
      ensures ObserveModel(r, model, infile.State()) == Record(kind, old(model), old(infile.State()), maxBytes)
      ensures infile == old(infile) && stack == old(stack)
    {
      match kind
      case TextureAnimRecord => r := LoadTextureAnimationKeyframes(maxBytes);
      case GeosetRecord => r := LoadGeoset();
      case GeosetAnimRecord => r := LoadGeosetAnimation(maxBytes);
      case LightRecord => r := LoadLight(maxBytes);
      case AttachmentRecord => r := LoadAttachement(maxBytes);
      case EmitterRecord => r := LoadParticleEmitter(maxBytes);
      case Emitter2Record => r := LoadParticleEmitter2(maxBytes);
    }

    /** `load_multiblocks(tag, loader_fn, optional)`. */
    method LoadMultiblocks(kind: RecordKind, tag: Bytes, optional: bool) returns (r: Result<()>)
      requires |tag| == 4
      modifies this, infile
      ensures ObserveModel(r, model, infile.State()) == Multiblocks(kind, tag, optional, old(model), old(infile.State()))
      ensures r.Ok? ==> infile == old(infile) && stack == old(stack)
    {
      hide Peek, ExpectTag, Block, Multi;
      if optional {
        var present :- PeekTag(tag);
        if !present {
          return Ok(());
        }
      } else {
        var _ :- CheckBlockMagic(tag);
      }
      var buf :- LoadBlock();
      r := LoadRecords(kind, buf);
    }

    /** The record loop of `load_multiblocks` over the block `buf`: each
        record's loader runs on a cursor of its own, pushed before it and
        popped after it. */
    method LoadRecords(kind: RecordKind, buf: Bytes) returns (r: Result<()>)
      modifies this
      ensures ObserveModel(r, model, infile.State()) == Observe(Multi(kind, old(model), buf, 0), old(infile.State()))
      ensures r.Ok? ==> infile == old(infile) && stack == old(stack)
    {
      hide Record, Int32At;
      ghost var m0, top, saved := model, infile, stack;
      var i := 0;
      while i < |buf|
        invariant infile == top && stack == saved
        invariant Multi(kind, m0, buf, 0) == Multi(kind, model, buf, i)
        decreases |buf| - i
      {
        if i + 4 > |buf| {
          return Err(StructError);
        }
        var m := Int32At(buf, i);
        var c := new InFile(buf, i + 4, Slice);
        PushInfile(c);
        var _ :- CallLoader(kind, m - 4);
        var _ := PopInfile();
        if m <= 0 {
          return Err(NoProgress(m));
        }
        i := i + m;
      }
      return Ok(());
    }

    // ----- Materials -----------------------------------------------------------

    /** `load_layers()`: each layer's tracks are read from a cursor of its
        own, pushed for the track and popped after it. */
    method LoadLayers() returns (r: Result<seq<Layer>>)
      modifies this, infile
      ensures Observe(r, infile.State()) == Layers(old(infile.State()))
      ensures r.Ok? ==> infile == old(infile) && stack == old(stack) && model == old(model)
    {
      hide ExpectTag, ReadInt, LayerItems;
      var _ :- CheckBlockMagic(LAYS);
      var nlays :- UnpackInt();
      r := LoadLayerItems(Count(nlays));
    }

    /** The `for _ in range(nlays)` loop of `load_layers`. */
    method LoadLayerItems(nlays: nat) returns (r: Result<seq<Layer>>)
      modifies this, infile
      ensures Observe(r, infile.State()) == LayerItems(old(infile.State()), nlays, [])
      ensures r.Ok? ==> infile == old(infile) && stack == old(stack) && model == old(model)
    {
      hide OneLayer;
      ghost var v0, cur, saved, m0 := infile.State(), infile, stack, model;
      var lays: seq<Layer> := [];
      var k := 0;
      while k < nlays
        invariant 0 <= k <= nlays
        invariant infile == cur && stack == saved && model == m0
        invariant LayerItems(v0, nlays, []) == LayerItems(infile.State(), nlays - k, lays)
      {
        var layer :- LoadLayer();
        lays := lays + [layer];
        k := k + 1;
      }
      return Ok(lays);
    }

    /** One pass of that loop: the layer's length, its bytes, the '<5i f'
        fields at their start and the tracks after them. */
    method LoadLayer() returns (r: Result<Layer>)
      modifies this, infile
      ensures Observe(r, infile.State()) == OneLayer(old(infile.State()))
      ensures r.Ok? ==> infile == old(infile) && stack == old(stack) && model == old(model)
    {
      hide ReadInt, LayerTracks;
      var n :- UnpackInt();
      var lb := infile.Read(n - 4);
      if |lb| < 24 {
        return Err(StructError);
      }
      var shading := Int32At(lb, 4);
      var bits := [HasBit(shading, 0x01), HasBit(shading, 0x02), HasBit(shading, 0x10),
                   HasBit(shading, 0x20), HasBit(shading, 0x40), HasBit(shading, 0x80)];
      var anims :- LoadLayerTracks(lb);
      return Ok(Layer(Int32At(lb, 0), bits, Int32At(lb, 8), Int32At(lb, 12), Int32At(lb, 16),
                      Float(lb[20..24]), anims));
    }

    /** The track loop of a layer: each track is read from a cursor at
        offset `j` of the layer's bytes, pushed before and popped after. */
    method LoadLayerTracks(lb: Bytes) returns (r: Result<seq<Track>>)
      modifies this
      ensures r == LayerTracks(lb, 24, [])
      ensures r.Ok? ==> infile == old(infile) && stack == old(stack) && model == old(model)
    {
      hide TaggedTrack;
      ghost var cur, saved, m0 := infile, stack, model;
      var j := 24;
      var anims: seq<Track> := [];
      while j < |lb|
        invariant infile == cur && stack == saved && model == m0
        invariant LayerTracks(lb, 24, []) == LayerTracks(lb, j, anims)
        decreases |lb| - j
      {
        var c := new InFile(lb, j, Slice);
        PushInfile(c);
        var p :- LoadTaggedKeyframe(MaterialTracks);
        var _ := PopInfile();
        anims := anims + [p.1];
        j := j + p.0;
      }
      return Ok(anims);
    }

    /** `load_materials()`. */
    method LoadMaterials() returns (r: Result<()>)
      modifies this, infile
      ensures ObserveModel(r, model, infile.State()) == MaterialsStep(old(model), old(infile.State()))
      ensures r.Ok? ==> infile == old(infile) && stack == old(stack)
    {
      hide ExpectTag, Block, MaterialLoop;
      var _ :- CheckBlockMagic(MTLS);
      var buf :- LoadBlock();
      r := LoadMaterialRecords(buf);
    }

    /** The loop of `load_materials` over the block `buf`. */
    method LoadMaterialRecords(buf: Bytes) returns (r: Result<()>)
      modifies this
      ensures ObserveModel(r, model, infile.State()) == Observe(MaterialLoop(old(model), buf, 0), old(infile.State()))
      ensures r.Ok? ==> infile == old(infile) && stack == old(stack)
    {
      hide MaterialAt;
      ghost var m0, top, saved := model, infile, stack;
      var i := 0;
      while i < |buf|
        invariant infile == top && stack == saved
        invariant MaterialLoop(m0, buf, 0) == MaterialLoop(model, buf, i)
        decreases |buf| - i
      {
        if i + 12 > |buf| {
          return Err(StructError);
        }
        var p :- LoadMaterial(buf, i);
        model := model.(materials := model.materials + [p.1]);
        if p.0 <= 0 {
          return Err(NoProgress(p.0));
        }
        i := i + p.0;
      }
      return Ok(());
    }

    /** One pass of that loop: the header, then the layers from a cursor
        pushed after it and popped afterwards. */
    method LoadMaterial(buf: Bytes, i: nat) returns (r: Result<(int, Material)>)
      requires i + 12 <= |buf|
      modifies this
      ensures r == MaterialAt(buf, i)
      ensures r.Ok? ==> infile == old(infile) && stack == old(stack) && model == old(model)
    {
      hide Layers;
      var size, priority, flags := Int32At(buf, i), Int32At(buf, i + 4), Int32At(buf, i + 8);
      var c := new InFile(buf, i + 12, Slice);
      PushInfile(c);
      var layers :- LoadLayers();
      var _ := PopInfile();
      return Ok((size, Material(priority, [HasBit(flags, 0x01), HasBit(flags, 0x10), HasBit(flags, 0x20)], layers)));
    }

    // ----- The other steps of `load` --------------------------------------------

    /** `check_magic_number()`. */
    method CheckMagicNumber() returns (r: Result<()>)
      modifies infile
      ensures Observe(r, infile.State()) == CheckMagic(old(infile.State()))
    {
      var b := infile.Read(4);
      if b != MDLX {
        return Err(NotMdx(b));
      }
      return Ok(());
    }

    /** `load_version()`. */
    method LoadVersion() returns (r: Result<()>)
      modifies this, infile
      ensures ObserveModel(r, model, infile.State()) == VersionStep(old(model), old(infile.State()))
      ensures infile == old(infile) && stack == old(stack)
    {
      hide ExpectTag, Block;
      var _ :- CheckBlockMagic(VERS);
      var buf :- LoadBlock();
      if |buf| != 4 {
        return Err(StructError);
      }
      model := model.(version := Some(Int32(buf)));
      return Ok(());
    }

    /** `load_modelinfo()`. */
    method LoadModelinfo() returns (r: Result<()>)
      modifies this, infile
      ensures ObserveModel(r, model, infile.State()) == ModelInfoStep(old(model), old(infile.State()))
      ensures infile == old(infile) && stack == old(stack)
    {
      hide ExpectTag, Block, ModelInfoOf;
      var _ :- CheckBlockMagic(MODL);
      var buf :- LoadBlock();
      var info :- ModelInfoOf(buf);
      model := model.(info := Some(info));
      return Ok(());
    }

    /** `load_sequences()`. */
    method LoadSequences() returns (r: Result<()>)
      modifies this, infile
      ensures ObserveModel(r, model, infile.State()) == SequencesStep(old(model), old(infile.State()))
      ensures infile == old(infile) && stack == old(stack)
    {
      hide ExpectTag, Block, SequenceLoop;
      var _ :- CheckBlockMagic(SEQS);
      var buf :- LoadBlock();
      r := LoadSequenceRecords(buf);
    }

    /** The loop of `load_sequences` over `range(0, len(buf), 132)`. */
    method LoadSequenceRecords(buf: Bytes) returns (r: Result<()>)
      modifies this
      ensures ObserveModel(r, model, infile.State()) == Observe(SequenceLoop(old(model), buf, 0), old(infile.State()))
      ensures infile == old(infile) && stack == old(stack)
    {
      hide SequenceOf;
      ghost var m0 := model;
      var i := 0;
      while i < |buf|
        invariant infile == old(infile) && stack == old(stack)
        invariant SequenceLoop(m0, buf, 0) == SequenceLoop(model, buf, i)
        decreases |buf| - i
      {
        if i + 132 > |buf| {
          return Err(StructError);
        }
        model := model.(sequences := model.sequences + [SequenceOf(buf, i)]);
        i := i + 132;
      }
      return Ok(());
    }

    /** `load_global_sequences()`. */
    method LoadGlobalSequences() returns (r: Result<()>)
      modifies this, infile
      ensures ObserveModel(r, model, infile.State()) == GlobalSequencesStep(old(model), old(infile.State()))
      ensures infile == old(infile) && stack == old(stack)
    {
      hide Peek, Block, GlobalLoop;
      var present :- PeekTag(GLBS);
      if !present {
        return Ok(());
      }
      var buf :- LoadBlock();
      r := LoadGlobalRecords(buf);
    }

    /** The loop of `load_global_sequences`: one duration every 4 bytes. */
    method LoadGlobalRecords(buf: Bytes) returns (r: Result<()>)
      modifies this
      ensures ObserveModel(r, model, infile.State()) == Observe(GlobalLoop(old(model), buf, 0), old(infile.State()))
      ensures infile == old(infile) && stack == old(stack)
    {
      ghost var m0 := model;
      var i := 0;
      while i < |buf|
        invariant infile == old(infile) && stack == old(stack)
        invariant GlobalLoop(m0, buf, 0) == GlobalLoop(model, buf, i)
        decreases |buf| - i
      {
        if i + 4 > |buf| {
          return Err(StructError);
        }
        model := model.(globalSequences := model.globalSequences + [Int32At(buf, i)]);
        i := i + 4;
      }
      return Ok(());
    }

    /** `load_textures()`. */
    method LoadTextures() returns (r: Result<()>)
      modifies this, infile
      ensures ObserveModel(r, model, infile.State()) == TexturesStep(old(model), old(infile.State()))
      ensures infile == old(infile) && stack == old(stack)
    {
      hide ExpectTag, Block, TextureLoop;
      var _ :- CheckBlockMagic(TEXS);
      var buf :- LoadBlock();
      r := LoadTextureRecords(buf);
    }

    /** The loop of `load_textures` over `range(0, len(buf), 268)`. */
    method LoadTextureRecords(buf: Bytes) returns (r: Result<()>)
      modifies this
      ensures ObserveModel(r, model, infile.State()) == Observe(TextureLoop(old(model), buf, 0), old(infile.State()))
      ensures infile == old(infile) && stack == old(stack)
    {
      hide TextureOf;
      ghost var m0 := model;
      var i := 0;
      while i < |buf|
        invariant infile == old(infile) && stack == old(stack)
        invariant TextureLoop(m0, buf, 0) == TextureLoop(model, buf, i)
        decreases |buf| - i
      {
        if i + 268 > |buf| {
          return Err(StructError);
        }
        model := model.(textures := model.textures + [TextureOf(buf, i)]);
        i := i + 268;
      }
      return Ok(());
    }

    /** `load_bones()`. */
    method LoadBones() returns (r: Result<()>)
      modifies this, infile
      ensures ObserveModel(r, model, infile.State()) == BonesStep(old(model), old(infile.State()))
      ensures r.Ok? ==> infile == old(infile) && stack == old(stack)
    {
      hide ExpectTag, Block, BoneLoop;
      var _ :- CheckBlockMagic(BONE);
      var buf :- LoadBlock();
      r := LoadBoneRecords(buf);
    }

    /** The loop of `load_bones`: a cursor at each bone, pushed and popped. */
    method LoadBoneRecords(buf: Bytes) returns (r: Result<()>)
      modifies this
      ensures ObserveModel(r, model, infile.State()) == Observe(BoneLoop(old(model), buf, 0), old(infile.State()))
      ensures r.Ok? ==> infile == old(infile) && stack == old(stack)
    {
      hide BoneOf;
      ghost var m0, top, saved := model, infile, stack;
      var i := 0;
      while i < |buf|
        invariant infile == top && stack == saved
        invariant BoneLoop(m0, buf, 0) == BoneLoop(model, buf, i)
        decreases |buf| - i
      {
        var c := new InFile(buf, i, Slice);
        PushInfile(c);
        var b :- LoadBone();
        var _ := PopInfile();
        model := model.(bones := model.bones + [b.1]);
        if b.0 + 8 <= 0 {
          return Err(NoProgress(b.0 + 8));
        }
        i := i + b.0 + 8;
      }
      return Ok(());
    }

    /** One bone of `load_bones`: the node, then two integers. */
    method LoadBone() returns (r: Result<(int, Bone)>)
      modifies infile
      ensures Observe(r, infile.State()) == BoneOf(old(infile.State()))
    {
      hide Object, ReadInt;
      var obj :- LoadObject(ObjectFlags);
      var geoset :- UnpackInt();
      var geosetAnim :- UnpackInt();
      return Ok((obj.0, Bone(obj.1, geoset, geosetAnim)));
    }

    /** `load_helper()`. */
    method LoadHelper() returns (r: Result<(int, Helper)>)
      modifies infile
      ensures Observe(r, infile.State()) == HelperOf(old(infile.State()))
    {
      hide Object;
      var obj :- LoadObject(ObjectFlags);
      return Ok((obj.0, Helper(obj.1)));
    }

    /** `load_helpers()`. */
    method LoadHelpers() returns (r: Result<()>)
      modifies this, infile
      ensures ObserveModel(r, model, infile.State()) == HelpersStep(old(model), old(infile.State()))
      ensures r.Ok? ==> infile == old(infile) && stack == old(stack)
    {
      hide Peek, Block, HelperLoop;
      var present :- PeekTag(HELP);
      if !present {
        return Ok(());
      }
      var buf :- LoadBlock();
      r := LoadHelperRecords(buf);
    }

    /** The loop of `load_helpers`: a cursor at each helper, pushed and
        popped. */
    method LoadHelperRecords(buf: Bytes) returns (r: Result<()>)
      modifies this
      ensures ObserveModel(r, model, infile.State()) == Observe(HelperLoop(old(model), buf, 0), old(infile.State()))
      ensures r.Ok? ==> infile == old(infile) && stack == old(stack)
    {
      hide HelperOf;
      ghost var m0, top, saved := model, infile, stack;
      var i := 0;
      while i < |buf|
        invariant infile == top && stack == saved
        invariant HelperLoop(m0, buf, 0) == HelperLoop(model, buf, i)
        decreases |buf| - i
      {
        var c := new InFile(buf, i, Slice);
        PushInfile(c);
        var h :- LoadHelper();
        var _ := PopInfile();
        model := model.(helpers := model.helpers + [h.1]);
        if h.0 <= 0 {
          return Err(NoProgress(h.0));
        }
        i := i + h.0;
      }
      return Ok(());
    }

    /** `load_pivot_points()`. */
    method LoadPivotPoints() returns (r: Result<()>)
      modifies this, infile
      ensures ObserveModel(r, model, infile.State()) == PivotPointsStep(old(model), old(infile.State()))
      ensures infile == old(infile) && stack == old(stack)
    {
      hide ExpectTag, ReadInt, PivotItems;
      var _ :- CheckBlockMagic(PIVT);
      var n :- UnpackInt();
      r := LoadPivotItems(Count(n / 12));
    }

    /** The `for _ in range(n // 12)` loop of `load_pivot_points`. */
    method LoadPivotItems(n: nat) returns (r: Result<()>)
      modifies this, infile
      ensures ObserveModel(r, model, infile.State()) == PivotItems(old(model), old(infile.State()), n)
      ensures infile == old(infile) && stack == old(stack)
    {
      hide ReadPacked;
      ghost var m0, v0 := model, infile.State();
      var k := 0;
      while k < n
        invariant 0 <= k <= n
        invariant infile == old(infile) && stack == old(stack)
        invariant PivotItems(m0, v0, n) == PivotItems(model, infile.State(), n - k)
      {
        var p :- UnpackFmt(Fmt(F32, 3));
        model := model.(pivotPoints := model.pivotPoints + [p]);
        k := k + 1;
      }
      return Ok(());
    }

    /** `load()`: every step in order; the model on success. */
    method Load() returns (r: Result<Model>)
      modifies this, infile
      ensures Observe(r, infile.State()) == LoadAll(old(model), old(infile.State()))
      ensures r.Ok? ==> r.value == model && infile == old(infile) && stack == old(stack)
    {
      hide CheckMagic, VersionStep, ModelInfoStep, SequencesStep, GlobalSequencesStep, MaterialsStep, TexturesStep, Multiblocks, BonesStep, HelpersStep, PivotPointsStep;
      var _ :- CheckMagicNumber();
      var _ :- LoadVersion();
      var _ :- LoadModelinfo();
      var _ :- LoadSequences();
      var _ :- LoadGlobalSequences();
      var _ :- LoadMaterials();
      var _ :- LoadTextures();
      var _ :- LoadMultiblocks(TextureAnimRecord, TXAN, true);
      var _ :- LoadMultiblocks(GeosetRecord, GEOS, false);
      var _ :- LoadMultiblocks(GeosetAnimRecord, GEOA, false);
      var _ :- LoadBones();
      var _ :- LoadMultiblocks(LightRecord, LITE, true);
      var _ :- LoadHelpers();
      var _ :- LoadMultiblocks(AttachmentRecord, ATCH, true);
      var _ :- LoadPivotPoints();
      var _ :- LoadMultiblocks(EmitterRecord, PREM, true);
      var _ :- LoadMultiblocks(Emitter2Record, PRE2, true);
      return Ok(model);
    }
  }
}
