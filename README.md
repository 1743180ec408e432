# MDX decoder and MDL importer state, in Dafny

This project models the Warcraft III MDX model decoder of `war3/mdx.py` and
two pieces of importer state from `WarMDLImport.py`, and proves properties of
them.

**The byte cursor and the cursor stack** (module `Cursor`). The top-level input
is a binary stream: a short read returns the bytes that are left, and
`seek(-4, SEEK_CUR)` works. Every nested cursor is a `_ReadonlyBytesIO`. A
short or negative read on it returns nothing and jumps to the end of its
buffer, and it has no `seek`. The loader keeps the current cursor and a stack
of saved ones.

**The decoder** (modules `MdxSpec` and `Mdx`). `MdxSpec` gives every reading
step as a function from a cursor view to `Parsed(value, cursor afterwards)` or
`Failed(error)`. `Mdx.Loader` is the loader: a class with the current cursor,
the saved cursors and the model, and one method per source method with the
source's loops. Each method is proved to agree with its function. The
functions cover:
- tag and length framing;
- optional and required multiblocks;
- counted tuple lists;
- keyframe tracks and the running-total loops over them;
- the node header and the fixed fields of each record wrapper;
- geosets, materials and layers;
- the fixed-stride tables;
- the step order of `load`.

**Facts about the decoder** (module `MdxFacts`). These lemmas state what the
functions promise: the shape and byte count of keyframe tracks, the widths of
the wrapper fields, the stride tables, the framing round trip, what an absent
optional block does, that multiblocks only append, and that an accepted file
always has a version and model info.

**Grouping** (module `Grouping`). `partition` is a function with its loop
method, plus lemmas on group count, group sizes and concatenation.

**Wire formats** (module `Wire`). This module covers little-endian integers,
`struct` formats of float, int, short and byte elements, `rstrip(b'\x00')`,
and `_scalar_or_tuple`.

**MDL importer state** (module `MdlImport`). `GeosetManager` holds six parallel
lists of per-geoset lists, the index `cnt` of the current geoset, and the
`add_new` flag. `StateMachine` covers handler registration, `set_start`, and
the checks `run` makes before it calls any handler.

Errors are values. Each `raise`, each failing `struct.unpack`, each failing
`assert` in `load_faces`, the `IndexError` of `partition`, the `ValueError` of
`LineType`, and each failing `seek` becomes a `LoadError`. The loader returns
it, and nothing catches it.

Some behaviour of the code is worth stating on its own, because a reader of
the format might expect otherwise. The model follows the code in each case:
- A short read on a `_ReadonlyBytesIO` returns empty bytes, not the bytes that
  are left, and moves the cursor to the end of its buffer (war3/mdx.py:32-34).
- Every nested cursor runs to the end of the parent block, not to the end of
  its record (war3/mdx.py:83, 266, 291, 459, 522).
- A MODL block shorter than 112 bytes is a `struct` error, because the blend
  time is read at offset 108 (war3/mdx.py:209-213).
- The PIVT block's integer is a byte length, and `length // 12` points are
  loaded (war3/mdx.py:558-562).
- The peek of an optional block seeks back four bytes from where the read left
  the cursor. After a short read at the end of the stream, that is not where
  the block started. On a nested cursor the seek is an error (war3/mdx.py:72-75).

## Model

| member | source | states |
|---|---|---|
| Wire.Int32 | war3/mdx.py:66 | a `'<i'` value lies in the signed 32-bit range |
| Wire.Int32OfEncode | war3/mdx.py:66 | decoding the little-endian encoding of a 32-bit integer gives it back |
| Wire.EncodeOfInt32 | war3/mdx.py:66 | encoding a decoded 4-byte word gives the word back, so the encoding is a bijection |
| Wire.StripNul | war3/mdx.py:131 | `rstrip(b'\x00')` keeps a prefix that does not end in NUL, and removes only NULs |
| Wire.Unpack | war3/mdx.py:95 | `struct.unpack` succeeds exactly when the byte count is the format's size, and yields as many elements as the format has |
| Wire.UnpackPack | war3/mdx.py:95 | unpacking the packed bytes of representable elements gives the elements back |
| Wire.DecodeEncodeScalar | war3/mdx.py:95 | one element decodes to what was encoded |
| Wire.ScalarOrTuple | war3/mdx.py:40-41 | the value's components are exactly the list, and it is a bare scalar exactly when the list has one element |
| Wire.ScalarOrTupleOfComponents | war3/mdx.py:40-41 | a canonical value is rebuilt from its components |
| Cursor.View.Read | war3/mdx.py:30-37 | a read that fits returns `buf[idx:idx+n]` and advances by n; otherwise a nested cursor returns nothing and jumps to the end, and the stream returns the tail |
| Cursor.View.SeekBack4 | war3/mdx.py:74 | moves back four bytes exactly on the stream at offset 4 or more |
| Cursor.ReadSplit | war3/mdx.py:30-37 | two reads that fit return the same bytes, and leave the same cursor, as one read of their total |
| Cursor.ShortReadSticks | war3/mdx.py:32-34 | after a short read on a nested cursor, every later read of a positive count returns nothing |
| Cursor.InFile.constructor | war3/mdx.py:26-28 | a cursor over `buf` at `idx` |
| Cursor.InFile.Read | war3/mdx.py:30-37 | the object's offset and the bytes returned are those of `View.Read` |
| Cursor.InFile.SeekBack4 | war3/mdx.py:74 | the offset moves back four bytes when the seek succeeds, and is unchanged otherwise |
| Cursor.Push | war3/mdx.py:51-53 | the new cursor is current and the old one is saved on top |
| Cursor.Pop | war3/mdx.py:55-58 | returns the current cursor and restores the one saved last; an empty stack is the IndexError |
| Cursor.PopPush | war3/mdx.py:51-58 | a pop after a push returns the pushed cursor and restores the current cursor and the stack exactly |
| Cursor.PushPop | war3/mdx.py:51-58 | pushing the popped cursor back restores the stack |
| Grouping.PartitionGroups | war3/mdx.py:11-18 | the generator's two loops yield `Partition` |
| Grouping.PartitionFromSucceeds | war3/mdx.py:11-18 | `partition` raises exactly when the counts, with a negative count taken as zero, need more elements than there are |
| Grouping.PartitionShape | war3/mdx.py:11-18 | one group per count, group k of `counts[k]` elements, and the groups concatenated are `elements[:total]` |
| Grouping.TotalIsSum | war3/mdx.py:11-18 | with no negative count, the elements taken are `sum(counts)` |
| Grouping.PartitionUsesAll | war3/mdx.py:376-380 | when `len(pvtx) == sum(pcnts)` and no count is negative, partition succeeds and uses every element in order |
| Grouping.NegativeCountOverruns | war3/mdx.py:376-380 | a negative count passes the `sum` assert while partition still runs out of elements |
| MdxSpec.ReadInt | war3/mdx.py:66 | `struct.unpack('<i', read(4))` fails exactly when fewer than 4 bytes are left; otherwise it gives the word there and advances by 4 |
| MdxSpec.ReadPacked | war3/mdx.py:95 | succeeds whenever the format's bytes are there, with as many elements as the format, advancing by its size |
| MdxSpec.ExpectTag | war3/mdx.py:60-63 | `check_block_magic` raises exactly when the next 4 bytes differ from the tag, and reports the bytes read |
| MdxSpec.Block | war3/mdx.py:65-69 | a negative length raises before any payload is read; otherwise the result is `read(n)` after the length |
| MdxSpec.Peek | war3/mdx.py:72-75 | the tag is consumed when present; when absent, the stream is back where it was and the block is skipped; a nested cursor cannot seek |
| MdxSpec.VectorItems | war3/mdx.py:93-96 | the loop adds exactly `left` tuples after those it had |
| MdxSpec.Vectors | war3/mdx.py:88-98 | `load_vectors` returns exactly the declared count of tuples, a negative count giving none |
| MdxSpec.Keyframes | war3/mdx.py:100-127 | the byte count returned includes the 16 header bytes |
| MdxSpec.TaggedTrack | war3/mdx.py:146-164 | a tag outside the table of its context raises, naming the tag |
| MdxSpec.TracksUntil | war3/mdx.py:138-141 | a running total already at the limit reads no track |
| MdxSpec.Object | war3/mdx.py:129-144 | `load_object` returns the declared length k as read, not the bytes it consumed |
| MdxSpec.ReadFields | war3/mdx.py:471-478 | one value per fixed field, after those read before |
| MdxSpec.NodeRecord | war3/mdx.py:470-488 | a record wrapper yields one value per fixed field and keeps the flag class it was given |
| MdxSpec.LayerOf | war3/mdx.py:281-282 | a layer needs the 24 bytes of `'<5i f'` |
| MdxSpec.SequenceOf | war3/mdx.py:223-240 | the corrected sequence record has a two-element interval and two three-element corners |
| MdxSpec.SequenceTuple | war3/mdx.py:223-226 | `unpack_from('<80s 2i f i f 4x f 3f 3f')` gives 13 elements |
| MdxSpec.ModelInfoOf | war3/mdx.py:205-217 | the model info decodes exactly when the block has at least 112 bytes |
| MdxSpec.CheckMagic | war3/mdx.py:197-199 | the file is accepted exactly when it starts with `MDLX` |
| MdxSpec.OneKey | war3/mdx.py:111-125 | one key adds `KeySize` to the count |
| MdxSpec.KeysFrom | war3/mdx.py:110-125 | the running count never decreases |
| Mdx.Loader.constructor | war3/mdx.py:168-170 | no saved cursors and an empty model |
| Mdx.Loader.PushInfile | war3/mdx.py:51-53 | the cursors become `Push` of the old ones; the model is unchanged |
| Mdx.Loader.PopInfile | war3/mdx.py:55-58 | the cursors become `Pop` of the old ones; an empty stack changes nothing |
| Mdx.Loader.UnpackInt | war3/mdx.py:66 | agrees with `ReadInt`: the value and the cursor afterwards, or the error |
| Mdx.Loader.UnpackFmt | war3/mdx.py:95 | agrees with `ReadPacked` |
| Mdx.Loader.CheckBlockMagic | war3/mdx.py:60-63 | agrees with `ExpectTag` |
| Mdx.Loader.LoadBlock | war3/mdx.py:65-69 | agrees with `Block` |
| Mdx.Loader.PeekTag | war3/mdx.py:72-75 | agrees with `Peek` |
| Mdx.Loader.LoadVectors | war3/mdx.py:88-98 | agrees with `Vectors`, so its count and shape are those of `MdxFacts.VectorItemsShape` |
| Mdx.Loader.LoadVectorItems | war3/mdx.py:93-96 | the loop agrees with `VectorItems` |
| Mdx.Loader.LoadKeyframe | war3/mdx.py:100-127 | agrees with `Keyframes`, so the track is as `MdxFacts.KeyframesShape` states |
| Mdx.Loader.LoadKeys | war3/mdx.py:110-125 | the key loop agrees with `KeysFrom` started at 16 |
| Mdx.Loader.LoadKey | war3/mdx.py:111-125 | one key agrees with `OneKey` |
| Mdx.Loader.LoadTaggedKeyframe | war3/mdx.py:146-164 | the tag dispatch of every `load_*_keyframe` agrees with `TaggedTrack` |
| Mdx.Loader.LoadTrailingTracks | war3/mdx.py:138-141 | the running-total loop agrees with `TracksUntil` |
| Mdx.Loader.LoadObject | war3/mdx.py:129-144 | agrees with `Object`, so the header is as `MdxFacts.ObjectHeader` states |
| Mdx.Loader.LoadField | war3/mdx.py:472-478 | one fixed-field read agrees with `ReadField` |
| Mdx.Loader.LoadFields | war3/mdx.py:471-478 | the fixed-field reads agree with `ReadFields` |
| Mdx.Loader.LoadNodeRecord | war3/mdx.py:470-488 | node header, fixed fields and trailing tracks agree with `NodeRecord` |
| Mdx.Loader.LoadFaces | war3/mdx.py:370-380 | agrees with `Faces`: both asserts, the partition, and the shape of `MdxFacts.FacesShape` |
| Mdx.Loader.LoadGroups | war3/mdx.py:382-385 | agrees with `Groups` |
| Mdx.Loader.LoadGeosetAttributes | war3/mdx.py:387-391 | agrees with `Attributes`: selectable unless the third integer is 4 |
| Mdx.Loader.LoadExtent | war3/mdx.py:394-397 | agrees with `ExtentOf` |
| Mdx.Loader.LoadGAnimations | war3/mdx.py:393-407 | agrees with `GAnimations` |
| Mdx.Loader.LoadExtents | war3/mdx.py:400-405 | the counted loop agrees with `Extents` |
| Mdx.Loader.LoadTVertices | war3/mdx.py:409-417 | agrees with `TVertices` |
| Mdx.Loader.LoadUvSets | war3/mdx.py:414-415 | the counted loop agrees with `UvSets` |
| Mdx.Loader.LoadGeoset | war3/mdx.py:357-368 | appends the geoset `Record` gives; the cursors are as before |
| Mdx.Loader.LoadTextureAnimationKeyframes | war3/mdx.py:332-338 | appends the track list `Record` gives |
| Mdx.Loader.LoadGeosetAnimation | war3/mdx.py:422-437 | appends the geoset animation `Record` gives, with its total started at 24 |
| Mdx.Loader.LoadLight | war3/mdx.py:470-488 | appends the light `Record` gives, with its total started at k + 44 |
| Mdx.Loader.LoadAttachement | war3/mdx.py:535-548 | appends the attachment `Record` gives, with its total started at k + 264 |
| Mdx.Loader.LoadParticleEmitter | war3/mdx.py:567-584 | appends the emitter `Record` gives, with its total started at k + 280 |
| Mdx.Loader.LoadParticleEmitter2 | war3/mdx.py:597-632 | appends the emitter `Record` gives, with its total started at k + 171 |
| Mdx.Loader.CallLoader | war3/mdx.py:83 | `loader_fn(m - 4)` for each record kind agrees with `Record` |
| Mdx.Loader.LoadMultiblocks | war3/mdx.py:71-86 | agrees with `Multiblocks`, so it only appends its own kind (`MdxFacts.MultiblocksExtends`) |
| Mdx.Loader.LoadRecords | war3/mdx.py:79-86 | the record loop agrees with `Multi`: length read at i, loader on a cursor at i + 4 with `m - 4`, i advanced by m; the cursor stack is the same after each record |
| Mdx.Loader.LoadLayers | war3/mdx.py:273-299 | agrees with `Layers`; on success the cursors and the model are as before |
| Mdx.Loader.LoadLayerItems | war3/mdx.py:279-297 | the counted layer loop agrees with `LayerItems` |
| Mdx.Loader.LoadLayer | war3/mdx.py:280-297 | one layer agrees with `OneLayer` |
| Mdx.Loader.LoadLayerTracks | war3/mdx.py:288-294 | the track loop from offset 24, on a fresh cursor each time, agrees with `LayerTracks` |
| Mdx.Loader.LoadMaterials | war3/mdx.py:255-271 | agrees with `MaterialsStep` |
| Mdx.Loader.LoadMaterialRecords | war3/mdx.py:260-271 | the material loop agrees with `MaterialLoop` |
| Mdx.Loader.LoadMaterial | war3/mdx.py:261-267 | one material agrees with `MaterialAt` |
| Mdx.Loader.CheckMagicNumber | war3/mdx.py:197-199 | agrees with `CheckMagic` |
| Mdx.Loader.LoadVersion | war3/mdx.py:200-203 | agrees with `VersionStep`: the block must be exactly one `'<i'` |
| Mdx.Loader.LoadModelinfo | war3/mdx.py:205-217 | agrees with `ModelInfoStep` |
| Mdx.Loader.LoadSequences | war3/mdx.py:220-240 | agrees with `SequencesStep`, which appends the corrected sequence record (see Findings) |
| Mdx.Loader.LoadSequenceRecords | war3/mdx.py:225-240 | the stride loop agrees with `SequenceLoop`, whose records are the corrected ones (see Findings) |
| Mdx.Loader.LoadGlobalSequences | war3/mdx.py:242-253 | agrees with `GlobalSequencesStep` |
| Mdx.Loader.LoadGlobalRecords | war3/mdx.py:248-253 | the word loop agrees with `GlobalLoop` |
| Mdx.Loader.LoadTextures | war3/mdx.py:315-326 | agrees with `TexturesStep` |
| Mdx.Loader.LoadTextureRecords | war3/mdx.py:320-326 | the stride loop agrees with `TextureLoop` |
| Mdx.Loader.LoadBones | war3/mdx.py:453-465 | agrees with `BonesStep` |
| Mdx.Loader.LoadBoneRecords | war3/mdx.py:457-465 | the bone loop, advancing by k + 8, agrees with `BoneLoop` |
| Mdx.Loader.LoadBone | war3/mdx.py:459-462 | one bone agrees with `BoneOf` |
| Mdx.Loader.LoadHelper | war3/mdx.py:528-530 | agrees with `HelperOf` |
| Mdx.Loader.LoadHelpers | war3/mdx.py:513-526 | agrees with `HelpersStep` |
| Mdx.Loader.LoadHelperRecords | war3/mdx.py:520-526 | the helper loop, advancing by k, agrees with `HelperLoop` |
| Mdx.Loader.LoadPivotPoints | war3/mdx.py:558-562 | agrees with `PivotPointsStep`: `length // 12` points |
| Mdx.Loader.LoadPivotItems | war3/mdx.py:561-562 | the point loop agrees with `PivotItems` |
| Mdx.Loader.Load | war3/mdx.py:172-195 | the steps in their order agree with `LoadAll`; on success the result is the model, its sequences being the corrected records |
| MdxFacts.OneKeyShape | war3/mdx.py:111-125 | one key reads `KeySize` bytes, all present, with a value of the format's arity and tangents exactly when asked |
| MdxFacts.KeysFromBytes | war3/mdx.py:110-125 | the key loop reads `left` keys, `KeySize` bytes each, and adds `KeySize` per key to the count |
| MdxFacts.KeysFromShape | war3/mdx.py:110-125 | the keys read before stay in front, and every new key has the shape of its format |
| MdxFacts.KeyframesShape | war3/mdx.py:100-127 | exactly nkeys keys; tangents, each of the value's arity, iff Hermite or Bezier; count 16 + nkeys·KeySize; an unknown interpolation code raises |
| MdxFacts.NodeTrackTags | war3/mdx.py:146-164 | a node header accepts exactly KGTR, KGRT, KGSC and KATV, and raises on any other tag |
| MdxFacts.ObjectHeader | war3/mdx.py:129-144 | all 96 header bytes are present; the name is the 80 bytes with NULs stripped; id, parent and flags follow; the tracks are those of the loop from 96 to k |
| MdxFacts.TracksUntilShape | war3/mdx.py:138-141 | the tracks read before stay in front; below the limit at least one track is read, and at most one per 16 bytes missing, so the loop ends |
| MdxFacts.ReadFieldConsumes | war3/mdx.py:471-478 | a fixed field whose bytes are there is read in full and moves the cursor by its width |
| MdxFacts.ReadFieldsConsumes | war3/mdx.py:471-478 | fixed fields whose bytes are there are read in full and move the cursor by the layout's width |
| MdxFacts.WidthStep | war3/mdx.py:471-478 | the width of a layout suffix is its first field's width plus the rest |
| MdxFacts.NodeWrapperWidths | war3/mdx.py:471-479 | the light's increment 44 and the attachment's 264 (war3/mdx.py:537-541) equal the bytes of their fixed fields |
| MdxFacts.EmitterWrapperWidths | war3/mdx.py:568-577 | the particle emitter's increment 280, and the geoset animation's start 24 (war3/mdx.py:423-430), equal the bytes of their fixed fields |
| MdxFacts.WidthAppend | war3/mdx.py:599-625 | the width of two runs of fields is the sum of their widths |
| MdxFacts.Emitter2MotionWidth | war3/mdx.py:599-606 | speed through width take 32 bytes |
| MdxFacts.Emitter2ModesWidth | war3/mdx.py:607-612 | filter mode through time take 24 bytes |
| MdxFacts.Emitter2BackWidths | war3/mdx.py:613-624 | segment colours through replaceable id take 51 + 48 + 16 bytes |
| MdxFacts.Emitter2WrapperWidth | war3/mdx.py:599-625 | the particle emitter 2 increment 171 equals the bytes of its fixed fields |
| MdxFacts.FacesShape | war3/mdx.py:370-380 | an accepted geoset has one primitive entry per PTYP entry, with that type and as many vertex indices as its PCNT count, and PVTX is exactly as long as the counts add up to |
| MdxFacts.VectorItemsShape | war3/mdx.py:93-96 | every tuple has the format's arity, and is a bare scalar exactly when the arity is 1 |
| MdxFacts.VectorItemsConsume | war3/mdx.py:93-96 | when the bytes are there, all tuples are read, `calcsize` bytes each |
| MdxFacts.FramedBlockRoundTrip | war3/mdx.py:60-69 | a block written as tag, length and payload reads back as that payload, with the cursor just after it |
| MdxFacts.MultiblocksAbsent | war3/mdx.py:71-77 | an absent optional tag on the stream leaves the model and the cursor unchanged and calls no loader; an absent required tag raises; on a nested cursor the rewind fails |
| MdxFacts.GlobalLoopShape | war3/mdx.py:248-253 | succeeds iff the block is a whole number of 4-byte words; appends one duration per word, in order, and changes nothing else |
| MdxFacts.SequenceLoopShape | war3/mdx.py:225-240 | succeeds iff the block is a whole number of 132-byte records; appends one corrected sequence record per 132 bytes, in order, and changes nothing else |
| MdxFacts.TextureLoopShape | war3/mdx.py:318-326 | succeeds iff the block is a whole number of 268-byte records; appends one texture per record, in order, and changes nothing else |
| MdxFacts.PivotItemsShape | war3/mdx.py:561-562 | appends exactly the requested number of three-element points and changes nothing else |
| MdxFacts.SequenceOfMatchesFormat | war3/mdx.py:223-240 | the corrected record takes each field from the tuple position the format gives it |
| MdxFacts.SequenceFieldsShifted | war3/mdx.py:229-235 | as written, move speed is the flags integer, non-looping is the truth of the rarity, the max corner has two elements, and the record never matches the corrected one |
| MdxFacts.ExtendsTrans | war3/mdx.py:80-86 | appending twice to one list is appending to it |
| MdxFacts.RecordAddsOne | war3/mdx.py:332-632 | each record loader appends exactly one entry to its own list and changes nothing else in the model |
| MdxFacts.MultiExtends | war3/mdx.py:80-86 | the record loop only appends to its kind's list, at least once when the block is not empty |
| MdxFacts.MultiblocksExtends | war3/mdx.py:71-86 | a multiblock only ever adds records of its own kind |
| MdxFacts.BoneLoopAppends | war3/mdx.py:457-465 | the bone loop only appends bones, at least one when the block is not empty |
| MdxFacts.HelperLoopAppends | war3/mdx.py:520-526 | the helper loop only appends helpers, at least one when the block is not empty |
| MdxFacts.MaterialLoopAppends | war3/mdx.py:260-271 | the material loop only appends materials, at least one when the block is not empty |
| MdxFacts.LayerTracksAppend | war3/mdx.py:288-294 | a layer's tracks follow those read before, at least one when bytes remain |
| MdxFacts.TableStepsKeepHeader | war3/mdx.py:220-326 | the sequence, global-sequence, material and texture steps leave the version and model info as they were |
| MdxFacts.NodeStepsKeepHeader | war3/mdx.py:453-562 | the bone, helper and pivot steps leave the version and model info as they were |
| MdxFacts.MultiblocksKeepHeader | war3/mdx.py:71-86 | a multiblock step leaves the version and model info as they were |
| MdxFacts.ExtendsKeepsHeader | war3/mdx.py:71-86 | appending records leaves the version and model info as they were |
| MdxFacts.LoadAllHeader | war3/mdx.py:172-195 | every file `load` accepts has a version and model info |
| MdlImport.ContainerOf | WarMDLImport.py:124-137 | each of 'vertices', 'normals', 'tvertices', 'groups', 'vgroup' (singular) and 'faces' selects exactly its own container, and every other name selects none |
| MdlImport.AddAt | WarMDLImport.py:124-137 | the items go to the end of list `cnt`, and every other list is unchanged |
| MdlImport.GeosetManager.constructor | WarMDLImport.py:101-109 | all six containers are `[[]]`, cnt is 0, add_new is false |
| MdlImport.GeosetManager.NewGeoset | WarMDLImport.py:111-119 | one empty list is appended to every container; cnt goes up by one; add_new becomes false; every container keeps length cnt + 1 |
| MdlImport.GeosetManager.AddTo | WarMDLImport.py:124-155 | adds to list cnt of one container only; add_new is set only for faces |
| MdlImport.GeosetManager.Append | WarMDLImport.py:124-137 | li becomes one more element of the named container's current list only; add_new is set only for 'faces'; an unknown name changes nothing |
| MdlImport.GeosetManager.Extend | WarMDLImport.py:142-155 | li's elements are added to the named container's current list only; add_new is set only for 'faces'; an unknown name changes nothing |
| MdlImport.AddAtTwice | WarMDLImport.py:142-155 | two extensions of the current list are one extension by both, in order |
| MdlImport.Upper | WarMDLImport.py:54 | `upper()` maps each ASCII lower-case letter to its capital and keeps every other character |
| MdlImport.UpperIdempotent | WarMDLImport.py:54 | an upper-cased name has no lower-case letter, and upper-casing it again changes nothing |
| MdlImport.StateMachine.constructor | WarMDLImport.py:43-47 | the registry holds the handlers, start state and end states given |
| MdlImport.StateMachine.Add | WarMDLImport.py:53-61 | the name is upper-cased; a handler is registered only when given; the name joins the end states and becomes the start state only when asked; a start state added with its handler passes the checks of `run` once there is an end state |
| MdlImport.StateMachine.SetStart | WarMDLImport.py:64-69 | raises iff the upper-cased name has no handler, and then changes nothing; otherwise sets the start state, so `run`'s checks then pass when an end state exists |
| MdlImport.StateMachine.RunCheck | WarMDLImport.py:72-77 | `run` gets past its checks iff the start state has a handler and there is an end state, and then starts with that handler; a missing start handler is reported first, and the missing end state exactly when the start handler is there |

## Left out

- MdxSpec.SequenceLoop: appends the corrected record `SequenceOf`, not the shifted record `load_sequences` builds (war3/mdx.py:229-235). The as-written record is `MdxSpec.SequenceAsWritten`, and `MdxFacts.SequenceFieldsShifted` states how it differs, field by field.
- Mdx.Loader.LoadSequenceRecords: agrees with `SequenceLoop`, so it appends the corrected record as well.
- Mdx.Loader.LoadSequences: agrees with `SequencesStep`, so its sequences are the corrected records.
- Mdx.Loader.Load: its model's sequences are the corrected records; every other part is as the code builds it.
- MdxFacts.SequenceLoopShape: states the corrected record at each 132-byte offset; `MdxFacts.SequenceFieldsShifted` gives the record the code builds at the same offset.
- The module-level `load` (war3/mdx.py:655-658) opens a file path. That is I/O. `Mdx.Loader.Load` starts from a loader built on a byte buffer in stream mode.
- Floats are opaque 4-byte words. The decoder does no arithmetic on them, and IEEE decoding is not modelled.
- war3/model.py is not part of this model.
  - Interpolation is the four-valued `LineType`, with codes 0 to 3 as the MDX keyframe track format numbers them (none, linear, Hermite, Bezier). Any other code is the `ValueError`.
  - `LightType`, `ColorAnimation`, `FilterMode`, `TailMode` and `PrimitiveType` are kept as raw integers. The `ValueError` their constructors raise for unknown values is not modelled.
  - `ObjectFlag.set_from_int`, `ParticleFlag` and `ParticleFlag2` are kept as the raw flag word, tagged with the vocabulary.
- Names and paths are bytes with trailing NULs stripped. The ASCII decoding, and its `UnicodeDecodeError` for bytes above 127, are not modelled.
- RIBB, EVTS and CLID blocks are never read by the code (war3/mdx.py:192-194). They are not modelled.
- A record, layer track or node table whose length would not move the running offset forward is the error `NoProgress`. The source loops forever, or goes backwards, on such input (war3/mdx.py:81-86, 138-141, 263-271, 465, 526). The other running-total loops stop because every track adds at least 16 (`MdxFacts.TracksUntilShape`).
- The texture animation rotation is read as `'3f'`, as the code does (war3/mdx.py:340-352).
- `StateMachine.run`'s loop and the handlers it dispatches to do line-based text I/O. They are left out, and only the checks before the loop are modelled.
- `handler(self.parent)` is modelled by passing the handler value itself.
- The `print` in `add` is left out.
- The mutable default arguments of `StateMachine.__init__` are left out. Two machines built without arguments would share one dict and one list.
- `Upper` handles ASCII only. Python's `upper()` also maps non-ASCII letters.
- `GeosetManager` is generic in the element type. Python lists are not typed.

## Findings

| source | as written | input that shows it | evidently intended | confidence | as-written member | corrected member |
|---|---|---|---|---|---|---|
| war3/mdx.py:229-235 | `move_speed = t[4]`, `non_looping = bool(t[5])`, `rarity = t[6]`, `bounds_radius = t[7]`, `min_extent = t[8:11]`, `max_extent = t[11:]` | any SEQS record: `'<80s 2i f i f 4x f 3f 3f'` unpacks to 13 elements, so `max_extent` gets two of them and `move_speed` gets the flags integer | move speed t[3], non-looping `bool(t[4])`, rarity t[5], bounds radius t[6], corners t[7:10] and t[10:13] | high, not executed | MdxSpec.SequenceAsWritten, MdxFacts.SequenceFieldsShifted | MdxSpec.SequenceOf, MdxFacts.SequenceOfMatchesFormat |

The loader uses the corrected record.
