/** The two pieces of state of the MDL text importer in WarMDLImport.py
    that are not Blender glue: the geoset container the line handlers fill,
    and the registry of the state machine that drives them. */
module MdlImport {
  import opened Wire

  // ----- GeosetManager -------------------------------------------------------

  /** The six containers of a geoset manager, under the names `append` and
      `extend` accept. */
  datatype Container = Vertices | Normals | TVertices | Groups | VGroups | Faces

  /** The container a name selects: 'vertices', 'normals', 'tvertices',
      'groups', 'vgroup' (singular) or 'faces'; any other name selects none. */
  function ContainerOf(name: string): (r: Option<Container>)
    ensures r == Some(Vertices) <==> name == "vertices"
    ensures r == Some(Normals) <==> name == "normals"
    ensures r == Some(TVertices) <==> name == "tvertices"
    ensures r == Some(Groups) <==> name == "groups"
    ensures r == Some(VGroups) <==> name == "vgroup"
    ensures r == Some(Faces) <==> name == "faces"
    ensures r.None? <==> name !in {"vertices", "normals", "tvertices", "groups", "vgroup", "faces"}
  {
    if name == "vertices" then Some(Vertices)
    else if name == "normals" then Some(Normals)
    else if name == "tvertices" then Some(TVertices)
    else if name == "groups" then Some(Groups)
    else if name == "vgroup" then Some(VGroups)
    else if name == "faces" then Some(Faces)
    else None
  }

  /** `lists[cnt]` with `items` added at its end; every other list as it was. */
  function AddAt<T>(lists: seq<seq<T>>, cnt: nat, items: seq<T>): (r: seq<seq<T>>)
    requires cnt < |lists|
    ensures |r| == |lists|
    ensures r[cnt] == lists[cnt] + items
    ensures forall k :: 0 <= k < |lists| && k != cnt ==> r[k] == lists[k]
  {
    lists[cnt := lists[cnt] + items]
  }

  /** The per-geoset lists of vertices, normals, texture vertices, faces,
      matrix groups and vertex groups; `cnt` is the geoset being filled and
      `addNew` records that faces were added to it. */
  class GeosetManager<T> {
    var vertices: seq<seq<T>>
    var normals: seq<seq<T>>
    var tvertices: seq<seq<T>>
    var faces: seq<seq<T>>
    var groups: seq<seq<T>>
    var vgroups: seq<seq<T>>
    var cnt: nat
    var addNew: bool

    /** Every container holds one list per geoset so far, the last one at
        index `cnt`. */
    predicate Valid()
      reads this
    {
      |vertices| == cnt + 1 && |normals| == cnt + 1 && |tvertices| == cnt + 1
      && |faces| == cnt + 1 && |groups| == cnt + 1 && |vgroups| == cnt + 1
    }

    /** The lists of one container. */
    function Lists(c: Container): seq<seq<T>>
      reads this
    {
      match c
      case Vertices => vertices
      case Normals => normals
      case TVertices => tvertices
      case Groups => groups
      case VGroups => vgroups
      case Faces => faces
    }

    /** `GeosetManager()`: one empty geoset. */
    constructor ()
      ensures Valid() && cnt == 0 && !addNew
      ensures forall c :: Lists(c) == [[]]
    {
      vertices, normals, tvertices := [[]], [[]], [[]];
      faces, groups, vgroups := [[]], [[]], [[]];
      cnt := 0;
      addNew := false;
    }

    /** `new_geoset()`: an empty list at the end of every container, the
        next geoset current, the flag cleared. */
    method NewGeoset()
      requires Valid()
      modifies this
      ensures Valid() && cnt == old(cnt) + 1 && !addNew
      ensures forall c :: Lists(c) == old(Lists(c)) + [[]]
    {
      vertices := vertices + [[]];
      normals := normals + [[]];
      tvertices := tvertices + [[]];
      faces := faces + [[]];
      groups := groups + [[]];
      vgroups := vgroups + [[]];
      cnt := cnt + 1;
      addNew := false;
    }

    /** Adds `items` at the end of list `cnt` of container `c`. */
    method AddTo(c: Container, items: seq<T>)
      requires Valid()
      modifies this
      ensures Valid() && cnt == old(cnt)
      ensures Lists(c) == AddAt(old(Lists(c)), cnt, items)
      ensures forall d :: d != c ==> Lists(d) == old(Lists(d))
      ensures addNew == (old(addNew) || c == Faces)
    {
      match c
      case Vertices => vertices := AddAt(vertices, cnt, items);
      case Normals => normals := AddAt(normals, cnt, items);
      case TVertices => tvertices := AddAt(tvertices, cnt, items);
      case Groups => groups := AddAt(groups, cnt, items);
      case VGroups => vgroups := AddAt(vgroups, cnt, items);
      case Faces =>
        faces := AddAt(faces, cnt, items);
        addNew := true;
    }

    /** `append(li, cont)`: `li` becomes one more element of the current
        list of the named container; an unknown name changes nothing. */
    method Append(li: T, cont: string)
      requires Valid()
      modifies this
      ensures Valid() && cnt == old(cnt)
      ensures ContainerOf(cont).None? ==>
                (forall c :: Lists(c) == old(Lists(c))) && addNew == old(addNew)
      ensures ContainerOf(cont).Some? ==>
                var c := ContainerOf(cont).value;
                && Lists(c) == AddAt(old(Lists(c)), cnt, [li])
                && (forall d :: d != c ==> Lists(d) == old(Lists(d)))
                && addNew == (old(addNew) || c == Faces)
    {
      var c := ContainerOf(cont);
      if c.Some? {
        AddTo(c.value, [li]);
      }
    }

    /** `extend(li, cont)`: the elements of `li` are added to the current
        list of the named container; an unknown name changes nothing. */
    method Extend(li: seq<T>, cont: string)
      requires Valid()
      modifies this
      ensures Valid() && cnt == old(cnt)
      ensures ContainerOf(cont).None? ==>
                (forall c :: Lists(c) == old(Lists(c))) && addNew == old(addNew)
      ensures ContainerOf(cont).Some? ==>
                var c := ContainerOf(cont).value;
                && Lists(c) == AddAt(old(Lists(c)), cnt, li)
                && (forall d :: d != c ==> Lists(d) == old(Lists(d)))
                && addNew == (old(addNew) || c == Faces)
    {
      var c := ContainerOf(cont);
      if c.Some? {
        AddTo(c.value, li);
      }
    }
  }

  /** Two additions to the same list are one addition of both, in order. */
  lemma AddAtTwice<T>(lists: seq<seq<T>>, cnt: nat, a: seq<T>, b: seq<T>)
    requires cnt < |lists|
    ensures AddAt(AddAt(lists, cnt, a), cnt, b) == AddAt(lists, cnt, a + b)
  {
    assert lists[cnt] + a + b == lists[cnt] + (a + b);
  }

  // ----- StateMachine --------------------------------------------------------

  /** `str.upper()` on the ASCII letters. */
  function Upper(s: string): (r: string)
    ensures |r| == |s|
    ensures forall k :: 0 <= k < |s| ==> r[k] == if 'a' <= s[k] <= 'z' then (s[k] as int - 32) as char else s[k]
  {
    seq(|s|, k requires 0 <= k < |s| => if 'a' <= s[k] <= 'z' then (s[k] as int - 32) as char else s[k])
  }

  /** A name that `Upper` leaves as it is. */
  predicate IsUpper(s: string)
  {
    forall k :: 0 <= k < |s| ==> !('a' <= s[k] <= 'z')
  }

  /** Upper-casing twice is upper-casing once. */
  lemma UpperIdempotent(s: string)
    ensures IsUpper(Upper(s))
    ensures Upper(Upper(s)) == Upper(s)
  {
  }

  /** The exceptions of `set_start` and of the checks `run` makes before
      it calls any handler. */
  datatype MachineError = UnknownState(name: string) | NoStartHandler | NoEndState

  /** A state machine's registry: the handler of each state name, the
      start state and the end states. A handler is whatever `handler(parent)`
      built when it was registered. */
  class StateMachine<H> {
    var handlers: map<string, H>
    var startState: Option<string>
    var endStates: seq<string>

    /** `StateMachine(parent, handlers, startState, endStates)`. */
    constructor (handlers: map<string, H>, startState: Option<string>, endStates: seq<string>)
      ensures this.handlers == handlers && this.startState == startState && this.endStates == endStates
    {
      this.handlers := handlers;
      this.startState := startState;
      this.endStates := endStates;
    }

    /** `add(name, handler, endState, startState)`: the name is upper-cased;
        a handler is registered only when one is given; the name joins the
        end states and becomes the start state when asked. */
    method Add(name: string, handler: Option<H>, endState: bool, isStart: bool)
      modifies this
      ensures handler.Some? ==> handlers == old(handlers)[Upper(name) := handler.value]
      ensures handler.None? ==> handlers == old(handlers)
      ensures endStates == old(endStates) + (if endState then [Upper(name)] else [])
      ensures startState == if isStart then Some(Upper(name)) else old(startState)
      ensures isStart && handler.Some? && (endState || old(endStates) != []) ==> RunCheck().Ok?
    {
      var n := Upper(name);
      if handler.Some? {
        handlers := handlers[n := handler.value];
      }
      if endState {
        endStates := endStates + [n];
      }
      if isStart {
        startState := Some(n);
      }
    }

    /** `set_start(name)`: the upper-cased name becomes the start state when
        it has a handler; otherwise the error, and nothing changes. */
    method SetStart(name: string) returns (r: Option<MachineError>)
      modifies this
      ensures r.None? <==> Upper(name) in old(handlers)
      ensures r.Some? ==> r.value == UnknownState(Upper(name)) && startState == old(startState)
      ensures r.None? ==> startState == Some(Upper(name))
      ensures handlers == old(handlers) && endStates == old(endStates)
      ensures r.None? && endStates != [] ==> RunCheck() == Ok(handlers[Upper(name)])
    {
      var n := Upper(name);
      if n in handlers {
        startState := Some(n);
        return None;
      }
      return Some(UnknownState(n));
    }

    /** The checks at the start of `run`: the start state's handler, or the
        error raised before any handler runs. */
    function RunCheck(): (r: Result<H, MachineError>)
      reads this
      ensures r.Ok? <==> startState.Some? && startState.value in handlers && endStates != []
      ensures r.Ok? ==> r.value == handlers[startState.value]
      ensures r == Err(NoStartHandler) <==> startState.None? || startState.value !in handlers
      ensures r == Err(NoEndState) <==> startState.Some? && startState.value in handlers && endStates == []
    {
      if startState.None? || startState.value !in handlers then Err(NoStartHandler)
      else if endStates == [] then Err(NoEndState)
      else Ok(handlers[startState.value])
    }
  }

  datatype Result<+T, +E> = Ok(value: T) | Err(error: E)
}
