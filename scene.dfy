/** The decoded scene: the records the MDX loader appends to its model, the
    keyframe tracks they carry, and the errors that abort a load. */
module Scene {
  import opened Wire
  import opened Cursor

  /** Why a load stops. Every one aborts the whole load: nothing is caught. */
  datatype LoadError =
    | NotMdx(actual: Bytes)                          // check_magic_number
    | TagMismatch(expected: Bytes, actual: Bytes)    // check_block_magic
    | NegativeLength(length: int)                    // load_block
    | UnknownTrackTag(context: TrackContext, tag: Bytes)
    | StructError                                    // struct.unpack of the wrong number of bytes
    | UnknownInterpolation(code: int)                // LineType(code) of an unknown code
    | PrimitiveCountMismatch                         // first assert of load_faces
    | PrimitiveIndexMismatch                         // second assert of load_faces
    | PartitionOverrun                               // IndexError inside partition
    | SeekUnsupported                                // seek on a _ReadonlyBytesIO
    | SeekBeforeStart                                // seek to a negative position
    | NoProgress(length: int)                        // a running offset that would not advance

  /** The result of a step that works on a plain buffer, or of a method. */
  datatype Result<+T> = Ok(value: T) | Err(error: LoadError) {
    predicate IsFailure() { Err? }
    function PropagateFailure<U>(): Result<U> requires Err? { Err(error) }
    function Extract(): T requires Ok? { value }
  }

  /** The result of decoding from a cursor: the value and the cursor
      afterwards, or the error. */
  datatype Parsed<+T> = Parsed(value: T, rest: View) | Failed(error: LoadError) {
    predicate IsFailure() { Failed? }
    function PropagateFailure<U>(): Parsed<U> requires Failed? { Failed(error) }
    function Extract(): (T, View) requires Parsed? { (value, rest) }
  }

  /** What a method's result and its cursor afterwards look like as a
      Parsed value; on an error the cursor is of no interest. */
  function Observe<T>(r: Result<T>, v: View): Parsed<T>
  {
    match r
    case Ok(x) => Parsed(x, v)
    case Err(e) => Failed(e)
  }

  /** The same for a method whose effect is on the loader's model. */
  function ObserveModel(r: Result<()>, m: Model, v: View): Parsed<Model>
  {
    match r
    case Ok(_) => Parsed(m, v)
    case Err(e) => Failed(e)
  }

  /** The animated property a track drives (`KF` in war3/model.py). */
  datatype Channel =
    | ObjectTranslation | ObjectRotation | ObjectScaling | ObjectVisibility
    | MaterialAlpha | MaterialTexture
    | TextureAnimTranslation | TextureAnimRotation | TextureAnimScaling
    | GeosetAnimAlpha | GeosetAnimColor
    | LightVisibility | LightColor | LightIntensity | LightAmbientColor | LightAmbientIntensity
    | AttachementVisibility
    | ParticleEmitterVisibility
    | ParticleEmitter2Speed | ParticleEmitter2Latitude | ParticleEmitter2EmissionRate
    | ParticleEmitter2Visibility | ParticleEmitter2Length | ParticleEmitter2Width

  /** Where a track is read; each place accepts its own set of tags. */
  datatype TrackContext =
    | NodeTracks | MaterialTracks | TextureAnimTracks | GeosetAnimTracks
    | LightTracks | AttachmentTracks | EmitterTracks | Emitter2Tracks

  /** Interpolation kind of a track (`LineType`). */
  datatype LineType = NoInterp | Linear | Hermite | Bezier

  /** `LineType(code)`, with the codes of the format's track layout;
      None for the ValueError of any other code. */
  function LineTypeOf(code: int): Option<LineType>
  {
    if code == 0 then Some(NoInterp)
    else if code == 1 then Some(Linear)
    else if code == 2 then Some(Hermite)
    else if code == 3 then Some(Bezier)
    else None
  }

  predicate HasTangents(lt: LineType)
  {
    lt == Hermite || lt == Bezier
  }

  datatype Keyframe = Keyframe(frame: int, value: Value, tanIn: Option<Value>, tanOut: Option<Value>)

  /** `KeyframeAnimation(target, ltype, gsid)` with its keyframes. */
  datatype Track = Track(target: Channel, interp: LineType, globalSeq: int, keys: seq<Keyframe>)

  /** Which flag class turns a node's flag word into flags. */
  datatype FlagVocabulary = ObjectFlags | ParticleFlags | ParticleFlags2

  /** The header every positioned object shares (the dict `load_object`
      returns); the flag word is kept as read, with its vocabulary. */
  datatype Node = Node(name: Bytes, objectId: int, parent: int, flags: int,
                       vocabulary: FlagVocabulary, tracks: seq<Track>)

  /** How one fixed field after a node header is read: `struct.unpack` of a
      format, `bool` of one '<i' integer, a text field of `width` bytes with
      its NULs stripped, or `width` bytes read and dropped. */
  datatype Shape = Packed(fmt: Fmt) | Flag | Text(width: nat) | Pad(width: nat)

  /** A fixed field, under the key the source stores it by. */
  datatype Field = Field(key: string, shape: Shape)

  datatype FieldValue = Numbers(xs: seq<Scalar>) | Truth(b: bool) | Str(text: Bytes) | Skipped

  datatype ModelInfo = ModelInfo(name: Bytes, boundsRadius: Scalar, minExtent: seq<Scalar>,
                                 maxExtent: seq<Scalar>, blendTime: int)

  /** An animation sequence (`Animation`). */
  datatype Sequence = Sequence(name: Bytes, interval: seq<Scalar>, moveSpeed: Scalar, nonLooping: bool,
                               rarity: Scalar, boundsRadius: Scalar, minExtent: seq<Scalar>,
                               maxExtent: seq<Scalar>)

  /** A layer: filter mode, the six bits 0x01, 0x02, 0x10, 0x20, 0x40, 0x80
      of its shading word in that order, three more integers, alpha, and
      its tracks. */
  datatype Layer = Layer(filterMode: int, shading: seq<bool>, textureId: int, textureAnimId: int,
                         coordId: int, alpha: Scalar, tracks: seq<Track>)

  /** A material: priority plane, bits 0x01, 0x10 and 0x20 of its flag
      word, and its layers. */
  datatype Material = Material(priorityPlane: int, flagBits: seq<bool>, layers: seq<Layer>)

  datatype Texture = Texture(replaceableId: int, path: Bytes, wrapWidth: bool, wrapHeight: bool)

  /** Primitives of one type with their vertex indices. */
  datatype Primitives = Primitives(primType: Value, indices: seq<Value>)

  datatype GeosetAttributes = GeosetAttributes(materialId: int, selectionGroup: int, selectable: bool)

  /** A bounding volume (`GAnimation`). */
  datatype Extent = Extent(boundsRadius: Scalar, minExtent: seq<Scalar>, maxExtent: seq<Scalar>)

  datatype Geoset = Geoset(vertices: seq<Value>, normals: seq<Value>, faces: seq<Primitives>,
                           vertexGroups: seq<Value>, groups: seq<seq<Value>>,
                           attributes: GeosetAttributes, defaultExtent: Extent,
                           extents: seq<Extent>, uvSets: seq<seq<Value>>)

  datatype GeosetAnimation = GeosetAnimation(fixed: seq<FieldValue>, tracks: seq<Track>)

  datatype Bone = Bone(node: Node, geosetId: int, geosetAnimId: int)

  datatype Light = Light(node: Node, fixed: seq<FieldValue>)

  datatype Helper = Helper(node: Node)

  datatype Attachment = Attachment(node: Node, fixed: seq<FieldValue>)

  datatype ParticleEmitter = ParticleEmitter(node: Node, fixed: seq<FieldValue>)

  datatype ParticleEmitter2 = ParticleEmitter2(node: Node, fixed: seq<FieldValue>)

  /** The loader's `Model`: created empty, only ever appended to. */
  datatype Model = Model(
    version: Option<int>,
    info: Option<ModelInfo>,
    sequences: seq<Sequence>,
    globalSequences: seq<int>,
    materials: seq<Material>,
    textures: seq<Texture>,
    textureAnimations: seq<seq<Track>>,
    geosets: seq<Geoset>,
    geosetAnimations: seq<GeosetAnimation>,
    bones: seq<Bone>,
    lights: seq<Light>,
    helpers: seq<Helper>,
    attachments: seq<Attachment>,
    pivotPoints: seq<seq<Scalar>>,
    emitters: seq<ParticleEmitter>,
    emitters2: seq<ParticleEmitter2>)

  const EmptyModel: Model :=
    Model(None, None, [], [], [], [], [], [], [], [], [], [], [], [], [], [])
}
