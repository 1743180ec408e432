/** What the decoder's functions promise beyond their own contracts: the
    shape of keyframe tracks and counted lists, the byte accounting of the
    running-total loops and record wrappers, the framing round trips, and
    what a multiblock may change in the model. */
module MdxFacts {
  import opened Wire
  import opened Cursor
  import opened Scene
  import opened Grouping
  import opened MdxSpec

  // ----- Keyframe tracks ----------------------------------------------------

  /** A keyframe as `load_keyframe` builds it for value format `f`: a value
      of `f.count` elements, bare when there is one, and both tangents
      (each of `f.count` elements) exactly when the interpolation has them. */
  predicate KeyShaped(key: Keyframe, f: Fmt, tangents: bool)
  {
    && |Components(key.value)| == f.count && Canonical(key.value)
    && (key.tanIn.Some? <==> tangents) && (key.tanOut.Some? <==> tangents)
    && (tangents ==> |Components(key.tanIn.value)| == f.count && |Components(key.tanOut.value)| == f.count)
  }

  /** One key reads `KeySize` bytes, all present, and has the shape above. */
  lemma OneKeyShape(v: View, f: Fmt, tangents: bool)
    requires OneKey(v, f, tangents).Parsed?
    ensures v.Fits(KeySize(f, tangents))
    ensures OneKey(v, f, tangents).rest == v.(idx := v.idx + KeySize(f, tangents))
    ensures KeyShaped(OneKey(v, f, tangents).value.0, f, tangents)
  {
    hide Int32, UnpackAll, ScalarOrTuple, Unpack;
    var (v1, b) := v.Read(4 + Size(f));
    assert |b| == 4 + Size(f);
    assert v.Fits(4 + Size(f));
    if tangents {
      var p := ReadPacked(v1, Fmt(f.kind, 2 * f.count));
      assert Size(Fmt(f.kind, 2 * f.count)) == 2 * Size(f);
      var ts := p.value;
      assert |ts| == 2 * f.count;
      assert |ts[..|ts| / 2]| == f.count && |ts[|ts| / 2..]| == f.count;
    }
  }

  /** The key loop reads `left` more keys, `KeySize` bytes each, and adds
      `KeySize` to the count per key. */
  lemma {:induction false} KeysFromBytes(v: View, f: Fmt, tangents: bool, left: nat, keys: seq<Keyframe>, n: int)
    requires KeysFrom(v, f, tangents, left, keys, n).Parsed?
    ensures |KeysFrom(v, f, tangents, left, keys, n).value.0| == |keys| + left
    ensures KeysFrom(v, f, tangents, left, keys, n).value.1 == n + left * KeySize(f, tangents)
    ensures KeysFrom(v, f, tangents, left, keys, n).rest == v.(idx := v.idx + left * KeySize(f, tangents))
    decreases left
  {
    hide OneKey, KeySize, Size, Int32, ScalarOrTuple, UnpackAll;
    if left > 0 {
      OneKeyShape(v, f, tangents);
      var ((key, size), v1) := OneKey(v, f, tangents).Extract();
      KeysFromBytes(v1, f, tangents, left - 1, keys + [key], n + size);
      StepTimes(left, KeySize(f, tangents));
    }
  }

  /** One more key adds one more `w` to the byte count. */
  lemma StepTimes(left: nat, w: int)
    requires left > 0
    ensures left * w == w + (left - 1) * w
  {
  }

  /** The keys before the loop stay in front, and every key the loop adds
      has the shape of its format and interpolation. */
  lemma {:induction false} KeysFromShape(v: View, f: Fmt, tangents: bool, left: nat, keys: seq<Keyframe>, n: int)
    requires KeysFrom(v, f, tangents, left, keys, n).Parsed?
    ensures var ks := KeysFrom(v, f, tangents, left, keys, n).value.0;
            && |keys| <= |ks| && ks[..|keys|] == keys
            && (forall k :: |keys| <= k < |ks| ==> KeyShaped(ks[k], f, tangents))
    decreases left
  {
    hide OneKey;
    if left > 0 {
      OneKeyShape(v, f, tangents);
      var ((key, size), v1) := OneKey(v, f, tangents).Extract();
      KeysFromShape(v1, f, tangents, left - 1, keys + [key], n + size);
      var ks := KeysFrom(v1, f, tangents, left - 1, keys + [key], n + size).value.0;
      assert ks[..|keys|] == (ks[..|keys| + 1])[..|keys|];
      assert ks[|keys|] == (ks[..|keys| + 1])[|keys|] == key;
    }
  }

  /** `load_keyframe`: a track of exactly `nkeys` keys, with tangents exactly
      when the interpolation is Hermite or Bezier, whose byte count is
      16 + nkeys * KeySize; an unknown interpolation code is an error. */
  lemma KeyframesShape(v: View, target: Channel, f: Fmt)
    requires v.Fits(12)
    ensures var nkeys, code := Int32At(v.buf, v.idx), Int32At(v.buf, v.idx + 4);
            && (LineTypeOf(code).None? ==> Keyframes(v, target, f) == Failed(UnknownInterpolation(code)))
            && (Keyframes(v, target, f).Parsed? ==>
                  var (n, track) := Keyframes(v, target, f).value;
                  && LineTypeOf(code) == Some(track.interp)
                  && track.target == target && track.globalSeq == Int32At(v.buf, v.idx + 8)
                  && |track.keys| == Count(nkeys)
                  && n == 16 + Count(nkeys) * KeySize(f, HasTangents(track.interp))
                  && (forall k :: 0 <= k < |track.keys| ==> KeyShaped(track.keys[k], f, HasTangents(track.interp))))
  {
    hide KeysFrom;
    var (v1, h) := v.Read(12);
    assert h == v.buf[v.idx..v.idx + 12];
    assert h[..4] == v.buf[v.idx..v.idx + 4];
    assert h[4..8] == v.buf[v.idx + 4..v.idx + 8];
    assert h[8..] == v.buf[v.idx + 8..v.idx + 12];
    var code := Int32(h[4..8]);
    if Keyframes(v, target, f).Parsed? {
      var lt := LineTypeOf(code).value;
      KeysFromBytes(v1, f, HasTangents(lt), Count(Int32(h[..4])), [], 16);
      KeysFromShape(v1, f, HasTangents(lt), Count(Int32(h[..4])), [], 16);
    }
  }

  /** The running-total track loop keeps the tracks it had, and reads at
      most one track per 16 bytes still missing from `limit`: every track
      adds at least 16 to the total, so the loop ends. */
  lemma {:induction false} TracksUntilShape(v: View, ctx: TrackContext, j: int, limit: int, acc: seq<Track>)
    requires TracksUntil(v, ctx, j, limit, acc).Parsed?
    ensures var ts := TracksUntil(v, ctx, j, limit, acc).value;
            && |acc| <= |ts| && ts[..|acc|] == acc
            && (j < limit ==> |acc| < |ts| && 16 * (|ts| - |acc|) < limit - j + 16)
    decreases limit - j
  {
    hide TaggedTrack;
    if j < limit {
      var ((m, t), v1) := TaggedTrack(v, ctx).Extract();
      TracksUntilShape(v1, ctx, j + m, limit, acc + [t]);
      var ts := TracksUntil(v1, ctx, j + m, limit, acc + [t]).value;
      assert ts[..|acc|] == (ts[..|acc| + 1])[..|acc|];
    }
  }

  /** A node header accepts exactly the tags KGTR, KGRT, KGSC and KATV;
      any other tag is an error naming it. */
  lemma NodeTrackTags(v: View)
    ensures var tag := v.Read(4).1;
            && (TrackKind(NodeTracks, tag).Some? <==> tag == KGTR || tag == KGRT || tag == KGSC || tag == KATV)
            && (TrackKind(NodeTracks, tag).None? ==> TaggedTrack(v, NodeTracks) == Failed(UnknownTrackTag(NodeTracks, tag)))
  {
    hide Keyframes;
  }

  /** `load_object`: all 96 header bytes are there; the name is the 80
      bytes after the length with their trailing NULs stripped, then the
      object id, the parent and the flag word; the tracks are those of the
      running-total loop from 96 up to the declared length. */
  lemma ObjectHeader(v: View, vocab: FlagVocabulary)
    requires Object(v, vocab).Parsed?
    ensures v.Fits(96)
    ensures var node := Object(v, vocab).value.1;
            && node.name == StripNul(v.buf[v.idx + 4..v.idx + 84])
            && node.objectId == Int32At(v.buf, v.idx + 84)
            && node.parent == Int32At(v.buf, v.idx + 88)
            && node.flags == Int32At(v.buf, v.idx + 92)
            && node.tracks == TracksUntil(v.(idx := v.idx + 96), NodeTracks, 96, Int32At(v.buf, v.idx), []).value
  {
    hide TracksUntil, StripNul;
    var v1 := v.(idx := v.idx + 4);
    assert v1.Read(80).0.Fits(4);
  }

  // ----- Fixed fields ---------------------------------------------------------

  /** A fixed field that fits is read in full and moves the cursor by its
      width. */
  lemma ReadFieldConsumes(v: View, s: Shape)
    requires v.Fits(ShapeWidth(s))
    ensures ReadField(v, s).Parsed?
    ensures ReadField(v, s).rest == v.(idx := v.idx + ShapeWidth(s))
  {
  }

  /** Fixed fields that fit are read in full: the cursor moves by the
      layout's width, one value per field. */
  lemma {:induction false} ReadFieldsConsumes(v: View, layout: seq<Field>, acc: seq<FieldValue>)
    requires v.Fits(Width(layout))
    ensures ReadFields(v, layout, acc).Parsed?
    ensures ReadFields(v, layout, acc).rest == v.(idx := v.idx + Width(layout))
    decreases |layout|
  {
    hide ReadField;
    if layout != [] {
      ReadFieldConsumes(v, layout[0].shape);
      var v1 := v.(idx := v.idx + ShapeWidth(layout[0].shape));
      ReadFieldsConsumes(v1, layout[1..], acc + [ReadField(v, layout[0].shape).value]);
    }
  }

  /** One step of `Width` from the front of a suffix. */
  lemma WidthStep(layout: seq<Field>, k: nat)
    requires k < |layout|
    ensures Width(layout[k..]) == ShapeWidth(layout[k].shape) + Width(layout[k + 1..])
  {
    assert layout[k..][1..] == layout[k + 1..];
  }

  /** The running totals the light and attachment wrappers start from are
      the widths of their fixed fields: 44 and 264. */
  lemma NodeWrapperWidths()
    ensures Width(LightLayout) == 44
    ensures Width(AttachmentLayout) == 264
  {
    assert Width(LightLayout[5..]) == 4 by { WidthStep(LightLayout, 5); }
    assert Width(LightLayout[4..]) == 16 by { WidthStep(LightLayout, 4); }
    assert Width(LightLayout[3..]) == 20 by { WidthStep(LightLayout, 3); }
    assert Width(LightLayout[2..]) == 32 by { WidthStep(LightLayout, 2); }
    assert Width(LightLayout[1..]) == 40 by { WidthStep(LightLayout, 1); }
    assert Width(LightLayout[0..]) == 44 by { WidthStep(LightLayout, 0); }
    assert Width(AttachmentLayout[2..]) == 4 by { WidthStep(AttachmentLayout, 2); }
    assert Width(AttachmentLayout[1..]) == 8 by { WidthStep(AttachmentLayout, 1); }
    assert Width(AttachmentLayout[0..]) == 264 by { WidthStep(AttachmentLayout, 0); }
    assert LightLayout[0..] == LightLayout && AttachmentLayout[0..] == AttachmentLayout;
  }

  /** The particle emitter wrapper starts from 280, the width of its fixed
      fields, and a geoset animation from 24. */
  lemma EmitterWrapperWidths()
    ensures Width(EmitterLayout) == 280
    ensures Width(GeosetAnimLayout) == 24
  {
    assert Width(EmitterLayout[6..]) == 4 by { WidthStep(EmitterLayout, 6); }
    assert Width(EmitterLayout[5..]) == 8 by { WidthStep(EmitterLayout, 5); }
    assert Width(EmitterLayout[4..]) == 264 by { WidthStep(EmitterLayout, 4); }
    assert Width(EmitterLayout[3..]) == 268 by { WidthStep(EmitterLayout, 3); }
    assert Width(EmitterLayout[2..]) == 272 by { WidthStep(EmitterLayout, 2); }
    assert Width(EmitterLayout[1..]) == 276 by { WidthStep(EmitterLayout, 1); }
    assert Width(EmitterLayout[0..]) == 280 by { WidthStep(EmitterLayout, 0); }
    assert Width(GeosetAnimLayout[3..]) == 4 by { WidthStep(GeosetAnimLayout, 3); }
    assert Width(GeosetAnimLayout[2..]) == 16 by { WidthStep(GeosetAnimLayout, 2); }
    assert Width(GeosetAnimLayout[1..]) == 20 by { WidthStep(GeosetAnimLayout, 1); }
    assert Width(GeosetAnimLayout[0..]) == 24 by { WidthStep(GeosetAnimLayout, 0); }
    assert EmitterLayout[0..] == EmitterLayout && GeosetAnimLayout[0..] == GeosetAnimLayout;
  }

  /** The width of two runs of fields is the sum of their widths. */
  lemma {:induction false} WidthAppend(a: seq<Field>, b: seq<Field>)
    ensures Width(a + b) == Width(a) + Width(b)
    decreases |a|
  {
    if a != [] {
      assert (a + b)[1..] == a[1..] + b;
      WidthAppend(a[1..], b);
    } else {
      assert a + b == b;
    }
  }

  /** The particle emitter 2 wrapper starts from 171, the width of its
      fixed fields. */
  lemma Emitter2WrapperWidth()
    ensures Width(Emitter2Layout) == 171
  {
    Emitter2MotionWidth();
    Emitter2ModesWidth();
    Emitter2BackWidths();
    WidthAppend(Emitter2Motion, Emitter2Modes);
    WidthAppend(Emitter2Motion + Emitter2Modes, Emitter2Segments);
    WidthAppend(Emitter2Motion + Emitter2Modes + Emitter2Segments, Emitter2UvAnims);
    WidthAppend(Emitter2Motion + Emitter2Modes + Emitter2Segments + Emitter2UvAnims, Emitter2Ids);
  }

  /** The width of the first run of particle emitter 2 fields. */
  lemma Emitter2MotionWidth()
    ensures Width(Emitter2Motion) == 32
  {
    assert Width(Emitter2Motion[7..]) == 4 by { WidthStep(Emitter2Motion, 7); }
    assert Width(Emitter2Motion[6..]) == 8 by { WidthStep(Emitter2Motion, 6); }
    assert Width(Emitter2Motion[5..]) == 12 by { WidthStep(Emitter2Motion, 5); }
    assert Width(Emitter2Motion[4..]) == 16 by { WidthStep(Emitter2Motion, 4); }
    assert Width(Emitter2Motion[3..]) == 20 by { WidthStep(Emitter2Motion, 3); }
    assert Width(Emitter2Motion[2..]) == 24 by { WidthStep(Emitter2Motion, 2); }
    assert Width(Emitter2Motion[1..]) == 28 by { WidthStep(Emitter2Motion, 1); }
    assert Width(Emitter2Motion[0..]) == 32 by { WidthStep(Emitter2Motion, 0); }
    assert Emitter2Motion[0..] == Emitter2Motion;
  }

  /** The width of the second run of particle emitter 2 fields. */
  lemma Emitter2ModesWidth()
    ensures Width(Emitter2Modes) == 24
  {
    assert Width(Emitter2Modes[5..]) == 4 by { WidthStep(Emitter2Modes, 5); }
    assert Width(Emitter2Modes[4..]) == 8 by { WidthStep(Emitter2Modes, 4); }
    assert Width(Emitter2Modes[3..]) == 12 by { WidthStep(Emitter2Modes, 3); }
    assert Width(Emitter2Modes[2..]) == 16 by { WidthStep(Emitter2Modes, 2); }
    assert Width(Emitter2Modes[1..]) == 20 by { WidthStep(Emitter2Modes, 1); }
    assert Width(Emitter2Modes[0..]) == 24 by { WidthStep(Emitter2Modes, 0); }
    assert Emitter2Modes[0..] == Emitter2Modes;
  }

  /** The widths of the last three runs of particle emitter 2 fields. */
  lemma Emitter2BackWidths()
    ensures Width(Emitter2Segments) == 51 && Width(Emitter2UvAnims) == 48 && Width(Emitter2Ids) == 16
  {
    assert Width(Emitter2Segments[4..]) == 12 by { WidthStep(Emitter2Segments, 4); }
    assert Width(Emitter2Segments[3..]) == 15 by { WidthStep(Emitter2Segments, 3); }
    assert Width(Emitter2Segments[2..]) == 27 by { WidthStep(Emitter2Segments, 2); }
    assert Width(Emitter2Segments[1..]) == 39 by { WidthStep(Emitter2Segments, 1); }
    assert Width(Emitter2Segments[0..]) == 51 by { WidthStep(Emitter2Segments, 0); }
    assert Emitter2Segments[0..] == Emitter2Segments;
    assert Width(Emitter2UvAnims[3..]) == 12 by { WidthStep(Emitter2UvAnims, 3); }
    assert Width(Emitter2UvAnims[2..]) == 24 by { WidthStep(Emitter2UvAnims, 2); }
    assert Width(Emitter2UvAnims[1..]) == 36 by { WidthStep(Emitter2UvAnims, 1); }
    assert Width(Emitter2UvAnims[0..]) == 48 by { WidthStep(Emitter2UvAnims, 0); }
    assert Emitter2UvAnims[0..] == Emitter2UvAnims;
    assert Width(Emitter2Ids[3..]) == 4 by { WidthStep(Emitter2Ids, 3); }
    assert Width(Emitter2Ids[2..]) == 8 by { WidthStep(Emitter2Ids, 2); }
    assert Width(Emitter2Ids[1..]) == 12 by { WidthStep(Emitter2Ids, 1); }
    assert Width(Emitter2Ids[0..]) == 16 by { WidthStep(Emitter2Ids, 0); }
    assert Emitter2Ids[0..] == Emitter2Ids;
  }

  // ----- Counted lists and framing ---------------------------------------------

  /** Every tuple `load_vectors` adds has the format's element count, and
      is bare exactly when that count is one. */
  lemma {:induction false} VectorItemsShape(v: View, f: Fmt, left: nat, acc: seq<Value>)
    requires VectorItems(v, f, left, acc).Parsed?
    ensures var xs := VectorItems(v, f, left, acc).value;
            forall k :: |acc| <= k < |xs| ==> |Components(xs[k])| == f.count && Canonical(xs[k])
    decreases left
  {
    hide ReadPacked;
    if left > 0 {
      var (ys, v1) := ReadPacked(v, f).Extract();
      VectorItemsShape(v1, f, left - 1, acc + [ScalarOrTuple(ys)]);
      var xs := VectorItems(v1, f, left - 1, acc + [ScalarOrTuple(ys)]).value;
      assert xs[|acc|] == (xs[..|acc| + 1])[|acc|] == ScalarOrTuple(ys);
    }
  }

  /** `load_vectors` reads all of its tuples whenever the bytes are there,
      `Size(f)` bytes per tuple. */
  lemma {:induction false} VectorItemsConsume(v: View, f: Fmt, left: nat, acc: seq<Value>)
    requires v.Fits(left * Size(f))
    ensures VectorItems(v, f, left, acc).Parsed?
    ensures VectorItems(v, f, left, acc).rest == v.(idx := v.idx + left * Size(f))
    decreases left
  {
    hide ReadPacked;
    if left > 0 {
      var w := Size(f);
      assert left * w == w + (left - 1) * w && (left - 1) * w >= 0;
      var v1 := v.(idx := v.idx + w);
      VectorItemsConsume(v1, f, left - 1, acc + [ScalarOrTuple(ReadPacked(v, f).value)]);
    }
  }

  /** A block written as its tag, its length and its bytes reads back as
      those bytes, with the cursor just after them. */
  lemma FramedBlockRoundTrip(tag: Bytes, payload: Bytes, tail: Bytes, mode: Mode)
    requires |tag| == 4 && |payload| < TwoTo31
    ensures var buf := tag + EncodeInt32(|payload|) + payload + tail;
            && ExpectTag(View(buf, 0, mode), tag) == Parsed((), View(buf, 4, mode))
            && Block(View(buf, 4, mode)) == Parsed(payload, View(buf, 8 + |payload|, mode))
  {
    var buf := tag + EncodeInt32(|payload|) + payload + tail;
    Int32OfEncode(|payload|);
    assert buf[0..4] == tag;
    assert buf[4..8] == EncodeInt32(|payload|);
    assert buf[8..8 + |payload|] == payload;
  }

  /** An optional multiblock whose tag is absent leaves the model and, on
      the top-level stream, the cursor as they were; a required one whose
      tag is absent is a tag mismatch; on a nested cursor an absent
      optional tag cannot be undone. */
  lemma MultiblocksAbsent(kind: RecordKind, tag: Bytes, optional: bool, m: Model, v: View)
    requires |tag| == 4
    requires !(v.Fits(4) && v.buf[v.idx..v.idx + 4] == tag)
    ensures optional && v.mode == Stream && v.Fits(4) ==> Multiblocks(kind, tag, optional, m, v) == Parsed(m, v)
    ensures optional && v.mode == Slice ==> Multiblocks(kind, tag, optional, m, v) == Failed(SeekUnsupported)
    ensures !optional ==> Multiblocks(kind, tag, optional, m, v) == Failed(TagMismatch(tag, v.Read(4).1))
  {
    hide MultiBody;
  }

  // ----- Fixed-stride tables ---------------------------------------------------

  /** `load_global_sequences` succeeds exactly when the block is a whole
      number of '<i' words, and then appends one duration per word and
      changes nothing else. */
  lemma {:induction false} GlobalLoopShape(m: Model, buf: Bytes, i: nat)
    requires i <= |buf|
    ensures GlobalLoop(m, buf, i).Ok? <==> (|buf| - i) % 4 == 0
    ensures GlobalLoop(m, buf, i).Ok? ==>
              var r := GlobalLoop(m, buf, i).value;
              && r == m.(globalSequences := r.globalSequences)
              && |r.globalSequences| == |m.globalSequences| + (|buf| - i) / 4
              && r.globalSequences[..|m.globalSequences|] == m.globalSequences
              && (forall k :: 0 <= k < (|buf| - i) / 4 ==>
                    r.globalSequences[|m.globalSequences| + k] == Int32At(buf, i + 4 * k))
    decreases |buf| - i
  {
    if i < |buf| && i + 4 <= |buf| {
      var m1 := m.(globalSequences := m.globalSequences + [Int32At(buf, i)]);
      GlobalLoopShape(m1, buf, i + 4);
      if GlobalLoop(m, buf, i).Ok? {
        var r := GlobalLoop(m1, buf, i + 4).value;
        assert r.globalSequences[..|m.globalSequences|] == (r.globalSequences[..|m1.globalSequences|])[..|m.globalSequences|];
        assert r.globalSequences[|m.globalSequences|] == m1.globalSequences[|m.globalSequences|];
        forall k | 1 <= k < (|buf| - i) / 4
          ensures r.globalSequences[|m.globalSequences| + k] == Int32At(buf, i + 4 * k)
        {
          assert |m.globalSequences| + k == |m1.globalSequences| + (k - 1);
          assert k - 1 < (|buf| - (i + 4)) / 4;
          assert i + 4 + 4 * (k - 1) == i + 4 * k;
        }
      }
    }
  }

  /** `load_sequences` succeeds exactly when the block is a whole number
      of 132-byte records, and then appends one sequence per record and
      changes nothing else. */
  lemma {:induction false} SequenceLoopShape(m: Model, buf: Bytes, i: nat)
    requires i <= |buf|
    ensures SequenceLoop(m, buf, i).Ok? <==> (|buf| - i) % 132 == 0
    ensures SequenceLoop(m, buf, i).Ok? ==>
              var r := SequenceLoop(m, buf, i).value;
              && r == m.(sequences := r.sequences)
              && |r.sequences| == |m.sequences| + (|buf| - i) / 132
              && r.sequences[..|m.sequences|] == m.sequences
              && (forall k :: 0 <= k < (|buf| - i) / 132 ==>
                    r.sequences[|m.sequences| + k] == SequenceOf(buf, i + 132 * k))
    decreases |buf| - i
  {
    hide SequenceOf;
    if i < |buf| && i + 132 <= |buf| {
      var m1 := m.(sequences := m.sequences + [SequenceOf(buf, i)]);
      SequenceLoopShape(m1, buf, i + 132);
      if SequenceLoop(m, buf, i).Ok? {
        var r := SequenceLoop(m1, buf, i + 132).value;
        assert r.sequences[..|m.sequences|] == (r.sequences[..|m1.sequences|])[..|m.sequences|];
        assert r.sequences[|m.sequences|] == m1.sequences[|m.sequences|];
        forall k | 1 <= k < (|buf| - i) / 132
          ensures r.sequences[|m.sequences| + k] == SequenceOf(buf, i + 132 * k)
        {
          assert |m.sequences| + k == |m1.sequences| + (k - 1);
          assert k - 1 < (|buf| - (i + 132)) / 132;
          assert i + 132 + 132 * (k - 1) == i + 132 * k;
        }
      }
    }
  }

  /** `load_textures` succeeds exactly when the block is a whole number of
      268-byte records, and then appends one texture per record and changes
      nothing else. */
  lemma {:induction false} TextureLoopShape(m: Model, buf: Bytes, i: nat)
    requires i <= |buf|
    ensures TextureLoop(m, buf, i).Ok? <==> (|buf| - i) % 268 == 0
    ensures TextureLoop(m, buf, i).Ok? ==>
              var r := TextureLoop(m, buf, i).value;
              && r == m.(textures := r.textures)
              && |r.textures| == |m.textures| + (|buf| - i) / 268
              && r.textures[..|m.textures|] == m.textures
              && (forall k :: 0 <= k < (|buf| - i) / 268 ==>
                    r.textures[|m.textures| + k] == TextureOf(buf, i + 268 * k))
    decreases |buf| - i
  {
    hide TextureOf;
    if i < |buf| && i + 268 <= |buf| {
      var m1 := m.(textures := m.textures + [TextureOf(buf, i)]);
      TextureLoopShape(m1, buf, i + 268);
      if TextureLoop(m, buf, i).Ok? {
        var r := TextureLoop(m1, buf, i + 268).value;
        assert r.textures[..|m.textures|] == (r.textures[..|m1.textures|])[..|m.textures|];
        assert r.textures[|m.textures|] == m1.textures[|m.textures|];
        forall k | 1 <= k < (|buf| - i) / 268
          ensures r.textures[|m.textures| + k] == TextureOf(buf, i + 268 * k)
        {
          assert |m.textures| + k == |m1.textures| + (k - 1);
          assert k - 1 < (|buf| - (i + 268)) / 268;
          assert i + 268 + 268 * (k - 1) == i + 268 * k;
        }
      }
    }
  }

  /** `load_pivot_points` appends `left` points of three elements each and
      changes nothing else. */
  lemma {:induction false} PivotItemsShape(m: Model, v: View, left: nat)
    requires PivotItems(m, v, left).Parsed?
    ensures var r := PivotItems(m, v, left).value;
            && r == m.(pivotPoints := r.pivotPoints)
            && |r.pivotPoints| == |m.pivotPoints| + left
            && r.pivotPoints[..|m.pivotPoints|] == m.pivotPoints
            && (forall k :: |m.pivotPoints| <= k < |r.pivotPoints| ==> |r.pivotPoints[k]| == 3)
    decreases left
  {
    hide ReadPacked;
    if left > 0 {
      var (p, v1) := ReadPacked(v, Fmt(F32, 3)).Extract();
      var m1 := m.(pivotPoints := m.pivotPoints + [p]);
      PivotItemsShape(m1, v1, left - 1);
      var r := PivotItems(m1, v1, left - 1).value;
      assert r.pivotPoints[..|m.pivotPoints|] == (r.pivotPoints[..|m1.pivotPoints|])[..|m.pivotPoints|];
      assert r.pivotPoints[|m.pivotPoints|] == m1.pivotPoints[|m.pivotPoints|] == p;
    }
  }

  // ----- The sequence record ---------------------------------------------------

  /** The corrected record takes every field from the position the format
      gives it in the unpacked tuple: the interval from t[1:3], move speed
      t[3], the non-looping flag t[4], rarity t[5], bounds radius t[6] and
      the corners t[7:10] and t[10:13]. */
  lemma SequenceOfMatchesFormat(buf: Bytes, i: nat)
    requires i + 132 <= |buf|
    ensures var t := SequenceTuple(buf, i);
            SequenceOf(buf, i) == Sequence(StripNul(buf[i..i + 80]), t[1..3], t[3], Truthy(t[4]), t[5], t[6],
                                           t[7..10], t[10..13])
  {
    var t := SequenceTuple(buf, i);
    assert t[1..3] == [t[1], t[2]];
    assert t[7..10] == [t[7], t[8], t[9]];
    assert t[10..13] == [t[10], t[11], t[12]];
  }

  /** As written, `load_sequences` reads every field after the interval
      one place too far on: the move speed is the flags integer, the
      non-looping flag is the truth of the rarity, and the maximum corner
      has two elements, so it never agrees with the record the format
      describes. */
  lemma SequenceFieldsShifted(buf: Bytes, i: nat)
    requires i + 132 <= |buf|
    ensures var a := SequenceAsWritten(buf, i);
            && a.moveSpeed == Int(Int32At(buf, i + 92))
            && a.nonLooping == Truthy(SequenceOf(buf, i).rarity)
            && a.rarity == SequenceOf(buf, i).boundsRadius
            && |a.maxExtent| == 2
            && a != SequenceOf(buf, i)
  {
    var t := SequenceTuple(buf, i);
    assert |t[11..]| == 2;
  }

  // ----- Multiblocks only add -------------------------------------------------

  /** The model list a record kind adds to. */
  function KindCount(kind: RecordKind, m: Model): nat
  {
    match kind
    case TextureAnimRecord => |m.textureAnimations|
    case GeosetRecord => |m.geosets|
    case GeosetAnimRecord => |m.geosetAnimations|
    case LightRecord => |m.lights|
    case AttachmentRecord => |m.attachments|
    case EmitterRecord => |m.emitters|
    case Emitter2Record => |m.emitters2|
  }

  /** `m2` is `m` with more entries at the end of the list of `kind`, and
      nothing else changed. */
  predicate Extends(kind: RecordKind, m: Model, m2: Model)
  {
    match kind
    case TextureAnimRecord =>
      m2 == m.(textureAnimations := m2.textureAnimations) && m.textureAnimations <= m2.textureAnimations
    case GeosetRecord => m2 == m.(geosets := m2.geosets) && m.geosets <= m2.geosets
    case GeosetAnimRecord =>
      m2 == m.(geosetAnimations := m2.geosetAnimations) && m.geosetAnimations <= m2.geosetAnimations
    case LightRecord => m2 == m.(lights := m2.lights) && m.lights <= m2.lights
    case AttachmentRecord => m2 == m.(attachments := m2.attachments) && m.attachments <= m2.attachments
    case EmitterRecord => m2 == m.(emitters := m2.emitters) && m.emitters <= m2.emitters
    case Emitter2Record => m2 == m.(emitters2 := m2.emitters2) && m.emitters2 <= m2.emitters2
  }

  lemma ExtendsTrans(kind: RecordKind, m1: Model, m2: Model, m3: Model)
    requires Extends(kind, m1, m2) && Extends(kind, m2, m3)
    ensures Extends(kind, m1, m3) && KindCount(kind, m1) <= KindCount(kind, m3)
  {
  }

  /** A record's loader appends exactly one entry to its list and changes
      nothing else in the model. */
  lemma RecordAddsOne(kind: RecordKind, m: Model, v: View, maxBytes: int)
    requires Record(kind, m, v, maxBytes).Parsed?
    ensures Extends(kind, m, Record(kind, m, v, maxBytes).value)
    ensures KindCount(kind, Record(kind, m, v, maxBytes).value) == KindCount(kind, m) + 1
  {
    hide TracksUntil, GeosetOf, GeosetAnimationOf, NodeRecord;
  }

  /** The record loop of `load_multiblocks` appends one entry per record it
      reads, at least one when the block is not empty, and changes nothing
      else. */
  lemma {:induction false} MultiExtends(kind: RecordKind, m: Model, buf: Bytes, i: nat)
    requires Multi(kind, m, buf, i).Ok?
    ensures Extends(kind, m, Multi(kind, m, buf, i).value)
    ensures i < |buf| ==> KindCount(kind, m) < KindCount(kind, Multi(kind, m, buf, i).value)
    decreases |buf| - i
  {
    hide Record;
    if i < |buf| {
      var len := Int32At(buf, i);
      var m1 := Record(kind, m, View(buf, i + 4, Slice), len - 4).value;
      RecordAddsOne(kind, m, View(buf, i + 4, Slice), len - 4);
      MultiExtends(kind, m1, buf, i + len);
      ExtendsTrans(kind, m, m1, Multi(kind, m1, buf, i + len).value);
    }
  }

  /** `load_multiblocks` only ever adds records of its own kind. */
  lemma MultiblocksExtends(kind: RecordKind, tag: Bytes, optional: bool, m: Model, v: View)
    requires |tag| == 4
    requires Multiblocks(kind, tag, optional, m, v).Parsed?
    ensures Extends(kind, m, Multiblocks(kind, tag, optional, m, v).value)
  {
    hide Multi;
    var present := optional ==> Peek(v, tag).value;
    if present {
      var v1 := if optional then Peek(v, tag).rest else ExpectTag(v, tag).rest;
      var buf := Block(v1).value;
      MultiExtends(kind, m, buf, 0);
    }
  }

  // ----- Faces -----------------------------------------------------------------

  /** `load_faces`: one entry per primitive-type entry, with that type and
      as many vertex indices as its count says, and the index list exactly
      as long as the counts add up to. */
  lemma FacesShape(v: View)
    requires Faces(v).Parsed?
    ensures var (ptyps, v1) := Vectors(v, PTYP, Fmt(I32, 1)).Extract();
            var (pcnts, v2) := Vectors(v1, PCNT, Fmt(I32, 1)).Extract();
            var pvtx := Vectors(v2, PVTX, Fmt(I16, 1)).value;
            var r := Faces(v).value;
            && |r| == |ptyps| == |pcnts| && |pvtx| == Sum(IntsOf(pcnts))
            && (forall k :: 0 <= k < |r| ==>
                  r[k].primType == ptyps[k] && |r[k].indices| == Count(IntOf(pcnts[k])))
  {
    hide Vectors, Partition;
    var (ptyps, v1) := Vectors(v, PTYP, Fmt(I32, 1)).Extract();
    var (pcnts, v2) := Vectors(v1, PCNT, Fmt(I32, 1)).Extract();
    var pvtx := Vectors(v2, PVTX, Fmt(I16, 1)).value;
    PartitionShape(pvtx, IntsOf(pcnts));
  }

  // ----- Node tables and materials --------------------------------------------

  /** `load_bones` only appends bones, one per record of the block. */
  lemma {:induction false} BoneLoopAppends(m: Model, buf: Bytes, i: nat)
    requires BoneLoop(m, buf, i).Ok?
    ensures var r := BoneLoop(m, buf, i).value;
            && r == m.(bones := r.bones) && m.bones <= r.bones
            && (i < |buf| ==> |m.bones| < |r.bones|)
    decreases |buf| - i
  {
    hide BoneOf;
    if i < |buf| {
      var ((k, bone), _) := BoneOf(View(buf, i, Slice)).Extract();
      BoneLoopAppends(m.(bones := m.bones + [bone]), buf, i + k + 8);
    }
  }

  /** `load_helpers` only appends helpers, one per record of the block. */
  lemma {:induction false} HelperLoopAppends(m: Model, buf: Bytes, i: nat)
    requires HelperLoop(m, buf, i).Ok?
    ensures var r := HelperLoop(m, buf, i).value;
            && r == m.(helpers := r.helpers) && m.helpers <= r.helpers
            && (i < |buf| ==> |m.helpers| < |r.helpers|)
    decreases |buf| - i
  {
    hide HelperOf;
    if i < |buf| {
      var ((k, h), _) := HelperOf(View(buf, i, Slice)).Extract();
      HelperLoopAppends(m.(helpers := m.helpers + [h]), buf, i + k);
    }
  }

  /** `load_materials` only appends materials, one per record of the block. */
  lemma {:induction false} MaterialLoopAppends(m: Model, buf: Bytes, i: nat)
    requires MaterialLoop(m, buf, i).Ok?
    ensures var r := MaterialLoop(m, buf, i).value;
            && r == m.(materials := r.materials) && m.materials <= r.materials
            && (i < |buf| ==> |m.materials| < |r.materials|)
    decreases |buf| - i
  {
    hide MaterialAt;
    if i < |buf| {
      var (size, mat) := MaterialAt(buf, i).value;
      MaterialLoopAppends(m.(materials := m.materials + [mat]), buf, i + size);
    }
  }

  /** A layer's tracks follow the tracks read before them. */
  lemma {:induction false} LayerTracksAppend(lb: Bytes, j: nat, acc: seq<Track>)
    requires LayerTracks(lb, j, acc).Ok?
    ensures acc <= LayerTracks(lb, j, acc).value
    ensures j < |lb| ==> |acc| < |LayerTracks(lb, j, acc).value|
    decreases |lb| - j
  {
    hide TaggedTrack;
    if j < |lb| {
      var ((m, t), _) := TaggedTrack(View(lb, j, Slice), MaterialTracks).Extract();
      LayerTracksAppend(lb, j + m, acc + [t]);
    }
  }

  // ----- The whole file ---------------------------------------------------------

  /** The version and the model info, which VERS and MODL set. */
  predicate SameHeader(m: Model, m2: Model)
  {
    m2.version == m.version && m2.info == m.info
  }

  /** The table steps of `load` after MODL leave the header as it is. */
  lemma TableStepsKeepHeader(m: Model, v: View)
    ensures SequencesStep(m, v).Parsed? ==> SameHeader(m, SequencesStep(m, v).value)
    ensures GlobalSequencesStep(m, v).Parsed? ==> SameHeader(m, GlobalSequencesStep(m, v).value)
    ensures MaterialsStep(m, v).Parsed? ==> SameHeader(m, MaterialsStep(m, v).value)
    ensures TexturesStep(m, v).Parsed? ==> SameHeader(m, TexturesStep(m, v).value)
  {
    hide SequenceLoop, GlobalLoop, MaterialLoop, TextureLoop, ExpectTag, Peek, Block;
    if SequencesStep(m, v).Parsed? {
      var buf := Block(ExpectTag(v, SEQS).rest).value;
      SequenceLoopShape(m, buf, 0);
    }
    if GlobalSequencesStep(m, v).Parsed? && Peek(v, GLBS).value {
      var buf := Block(Peek(v, GLBS).rest).value;
      GlobalLoopShape(m, buf, 0);
    }
    if MaterialsStep(m, v).Parsed? {
      var buf := Block(ExpectTag(v, MTLS).rest).value;
      MaterialLoopAppends(m, buf, 0);
    }
    if TexturesStep(m, v).Parsed? {
      var buf := Block(ExpectTag(v, TEXS).rest).value;
      TextureLoopShape(m, buf, 0);
    }
  }

  /** The node steps of `load` leave the header as it is. */
  lemma NodeStepsKeepHeader(m: Model, v: View)
    ensures BonesStep(m, v).Parsed? ==> SameHeader(m, BonesStep(m, v).value)
    ensures HelpersStep(m, v).Parsed? ==> SameHeader(m, HelpersStep(m, v).value)
    ensures PivotPointsStep(m, v).Parsed? ==> SameHeader(m, PivotPointsStep(m, v).value)
  {
    hide BoneLoop, HelperLoop, PivotItems, ExpectTag, Peek, Block, ReadInt;
    if BonesStep(m, v).Parsed? {
      var buf := Block(ExpectTag(v, BONE).rest).value;
      BoneLoopAppends(m, buf, 0);
    }
    if HelpersStep(m, v).Parsed? && Peek(v, HELP).value {
      var buf := Block(Peek(v, HELP).rest).value;
      HelperLoopAppends(m, buf, 0);
    }
    if PivotPointsStep(m, v).Parsed? {
      var (n, v2) := ReadInt(ExpectTag(v, PIVT).rest).Extract();
      PivotItemsShape(m, v2, Count(n / 12));
    }
  }

  /** A multiblock step leaves the header as it is. */
  lemma MultiblocksKeepHeader(kind: RecordKind, tag: Bytes, optional: bool, m: Model, v: View)
    requires |tag| == 4
    ensures Multiblocks(kind, tag, optional, m, v).Parsed? ==>
              SameHeader(m, Multiblocks(kind, tag, optional, m, v).value)
  {
    hide Multiblocks;
    if Multiblocks(kind, tag, optional, m, v).Parsed? {
      MultiblocksExtends(kind, tag, optional, m, v);
      ExtendsKeepsHeader(kind, m, Multiblocks(kind, tag, optional, m, v).value);
    }
  }

  lemma ExtendsKeepsHeader(kind: RecordKind, m: Model, m2: Model)
    requires Extends(kind, m, m2)
    ensures SameHeader(m, m2)
  {
  }

  /** A file `load` accepts always has its version and its model info:
      VERS and MODL set them, and no later step changes them. */
  lemma LoadAllHeader(m: Model, v: View)
    requires LoadAll(m, v).Parsed?
    ensures LoadAll(m, v).value.version.Some? && LoadAll(m, v).value.info.Some?
  {
    hide CheckMagic, SequencesStep, GlobalSequencesStep, MaterialsStep, TexturesStep,
         Multiblocks, BonesStep, HelpersStep, PivotPointsStep, ExpectTag, Block;
    var (_, v1) := CheckMagic(v).Extract();
    var (m2, v2) := VersionStep(m, v1).Extract();
    var (m3, v3) := ModelInfoStep(m2, v2).Extract();
    assert m3.version.Some? && m3.info.Some?;
    var (m4, v4) := SequencesStep(m3, v3).Extract();
    TableStepsKeepHeader(m3, v3);
    var (m5, v5) := GlobalSequencesStep(m4, v4).Extract();
    TableStepsKeepHeader(m4, v4);
    var (m6, v6) := MaterialsStep(m5, v5).Extract();
    TableStepsKeepHeader(m5, v5);
    var (m7, v7) := TexturesStep(m6, v6).Extract();
    TableStepsKeepHeader(m6, v6);
    var (m8, v8) := Multiblocks(TextureAnimRecord, TXAN, true, m7, v7).Extract();
    MultiblocksKeepHeader(TextureAnimRecord, TXAN, true, m7, v7);
    var (m9, v9) := Multiblocks(GeosetRecord, GEOS, false, m8, v8).Extract();
    MultiblocksKeepHeader(GeosetRecord, GEOS, false, m8, v8);
    var (m10, v10) := Multiblocks(GeosetAnimRecord, GEOA, false, m9, v9).Extract();
    MultiblocksKeepHeader(GeosetAnimRecord, GEOA, false, m9, v9);
    var (m11, v11) := BonesStep(m10, v10).Extract();
    NodeStepsKeepHeader(m10, v10);
    var (m12, v12) := Multiblocks(LightRecord, LITE, true, m11, v11).Extract();
    MultiblocksKeepHeader(LightRecord, LITE, true, m11, v11);
    var (m13, v13) := HelpersStep(m12, v12).Extract();
    NodeStepsKeepHeader(m12, v12);
    var (m14, v14) := Multiblocks(AttachmentRecord, ATCH, true, m13, v13).Extract();
    MultiblocksKeepHeader(AttachmentRecord, ATCH, true, m13, v13);
    var (m15, v15) := PivotPointsStep(m14, v14).Extract();
    NodeStepsKeepHeader(m14, v14);
    var (m16, v16) := Multiblocks(EmitterRecord, PREM, true, m15, v15).Extract();
    MultiblocksKeepHeader(EmitterRecord, PREM, true, m15, v15);
    MultiblocksKeepHeader(Emitter2Record, PRE2, true, m16, v16);
  }
}
