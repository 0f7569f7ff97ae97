/**
 * What each chunk of a REV text file does to the reader's state, as
 * functions: the cursor, the node table, the geometries and the stack of
 * open parents. A chunk either fails with the error the reader reports or
 * yields the new state. The reader's methods are proved to compute exactly
 * these functions.
 */
module RevChunks {
  import opened Wrappers
  import opened RevLexer
  import opened RevErrors
  import opened RevGeometry
  import opened RevDecode
  import opened RevStore

  /** The reader's state between chunks. */
  datatype State = State(p: nat, nodes: seq<Node>, geometries: seq<Geometry>, stack: seq<nat>)

  /**
   * The stack of open parents is a path down the tree: its bottom is a root
   * and each entry is a child of the entry below it.
   */
  predicate StackOk(nodes: seq<Node>, stack: seq<nat>)
  {
    && (forall k :: 0 <= k < |stack| ==> stack[k] < |nodes|)
    && (|stack| > 0 ==> nodes[stack[0]].parent.None?)
    && (forall k :: 1 <= k < |stack| ==> nodes[stack[k]].parent == Some(stack[k - 1]))
  }

  predicate Consistent(s: string, st: State)
  {
    st.p <= |s| && TreeOk(st.nodes) && GeometriesOk(st.nodes, st.geometries) && StackOk(st.nodes, st.stack)
  }

  /** A step only moves the cursor forward and appends nodes and geometries. */
  predicate Extends(st: State, st2: State)
  {
    st.p <= st2.p && st.nodes <= st2.nodes && st.geometries <= st2.geometries
  }

  function Top(st: State): nat
    requires |st.stack| > 0
  {
    st.stack[|st.stack| - 1]
  }

  /** The stack is not empty and its top node has kind `k`. */
  predicate TopIs(st: State, k: Kind)
  {
    |st.stack| > 0 && Top(st) < |st.nodes| && KindOfNode(st.nodes[Top(st)].data) == k
  }

  function Pop(st: State): State
    requires |st.stack| > 0
  {
    st.(stack := st.stack[..|st.stack| - 1])
  }

  /** Appending nodes keeps geometries attached and the stack a path. */
  lemma GrowKeeps(nodes: seq<Node>, nodes2: seq<Node>, geometries: seq<Geometry>, stack: seq<nat>)
    requires nodes <= nodes2 && GeometriesOk(nodes, geometries) && StackOk(nodes, stack)
    ensures GeometriesOk(nodes2, geometries) && StackOk(nodes2, stack)
  {
    forall k | 0 <= k < |geometries| ensures nodes2[geometries[k].group] == nodes[geometries[k].group] {
    }
    forall k | 0 <= k < |stack| ensures nodes2[stack[k]] == nodes[stack[k]] {
    }
  }

  /** Attaching a geometry to a Group node keeps every geometry attached to a Group. */
  lemma AttachKeeps(nodes: seq<Node>, geometries: seq<Geometry>, g: Geometry)
    requires GeometriesOk(nodes, geometries) && g.group < |nodes| && nodes[g.group].data.Group?
    ensures GeometriesOk(nodes, geometries + [g])
  {
    var gs := geometries + [g];
    forall k | 0 <= k < |gs| ensures gs[k].group < |nodes| && nodes[gs[k].group].data.Group? {
      if k < |geometries| {
        assert gs[k] == geometries[k];
      }
    }
  }

  lemma ExtendsTrans(a: State, b: State, c: State)
    requires Extends(a, b) && Extends(b, c)
    ensures Extends(a, c)
  {
  }

  /** Closing the innermost parent leaves a path. */
  lemma PopKeeps(nodes: seq<Node>, stack: seq<nat>)
    requires |stack| > 0 && StackOk(nodes, stack)
    ensures StackOk(nodes, stack[..|stack| - 1])
  {
  }

  /** Opening a new child of the innermost parent (or a root on an empty stack) leaves a path. */
  lemma PushKeeps(nodes: seq<Node>, stack: seq<nat>, n: Node)
    requires StackOk(nodes, stack)
    requires n.parent == (if stack == [] then None else Some(stack[|stack| - 1]))
    ensures StackOk(nodes + [n], stack + [|nodes|])
  {
    GrowKeeps(nodes, nodes + [n], [], stack);
  }

  // ---------------------------------------------------------------- HEAD

  /**
   * HEAD: only on an empty stack. Opens a root File node and reads four
   * full lines into info, note, date and user; encoding is empty and path
   * is the path the caller gave.
   */
  function HeadAt(s: string, st: State, path: string): (r: Result<State, Error>)
    requires Consistent(s, st)
    ensures r.Ok? ==> Consistent(s, r.value) && Extends(st, r.value) && st.p < r.value.p
    ensures r.Ok? ==> |r.value.nodes| == |st.nodes| + 1 && r.value.stack == [|st.nodes|] && TopIs(r.value, FileNode)
    ensures r.Ok? ==> r.value.geometries == st.geometries
  {
    if st.stack != [] then Err(HeadWithNonEmptyStack)
    else
      match LineAt(s, st.p)
      case None => Err(HeadMissingInfo)
      case Some(info) =>
        match LineAt(s, info.next)
        case None => Err(HeadMissingNote)
        case Some(note) =>
          match LineAt(s, note.next)
          case None => Err(HeadMissingDate)
          case Some(date) =>
            match LineAt(s, date.next)
            case None => Err(HeadMissingUser)
            case Some(user) =>
              var f := Node(None, File(LineText(s, info), LineText(s, note), LineText(s, date), LineText(s, user), "", path));
              AppendKeepsTree(st.nodes, f);
              GrowKeeps(st.nodes, st.nodes + [f], st.geometries, []);
              PushKeeps(st.nodes, [], f);
              Ok(State(user.next, st.nodes + [f], st.geometries, [|st.nodes|]))
  }

  // ---------------------------------------------------------------- MODL

  /**
   * MODL: only with the File on top. Opens a Model node under it and reads
   * two full lines into project and name. The Model stays open until END:
   * or the end of the file.
   */
  function ModlAt(s: string, st: State): (r: Result<State, Error>)
    requires Consistent(s, st)
    ensures r.Ok? ==> TopIs(st, FileNode)
    ensures r.Ok? ==> Consistent(s, r.value) && Extends(st, r.value) && st.p < r.value.p
    ensures r.Ok? ==> |r.value.nodes| == |st.nodes| + 1 && r.value.stack == st.stack + [|st.nodes|] && TopIs(r.value, ModelNode)
    ensures r.Ok? ==> r.value.geometries == st.geometries
  {
    if !TopIs(st, FileNode) then Err(ModlWithoutFile)
    else
      match LineAt(s, st.p)
      case None => Err(ModlMissingProject)
      case Some(project) =>
        match LineAt(s, project.next)
        case None => Err(ModlMissingName)
        case Some(name) =>
          var m := Node(Some(Top(st)), Model(LineText(s, project), LineText(s, name)));
          AppendKeepsTree(st.nodes, m);
          GrowKeeps(st.nodes, st.nodes + [m], st.geometries, []);
          PushKeeps(st.nodes, st.stack, m);
          Ok(State(name.next, st.nodes + [m], st.geometries, st.stack + [|st.nodes|]))
  }

  // ---------------------------------------------------------------- PRIM / OBST / INSU

  /**
   * A primitive chunk: only with a Group on top. Reads the kind, then the
   * body, and appends a geometry to that Group carrying the Group's
   * transparency.
   */
  function PrimAt(s: string, st: State, id: string): (r: Result<State, Error>)
    requires Consistent(s, st)
    ensures r.Ok? ==> TopIs(st, GroupNode)
    ensures r.Ok? ==> Consistent(s, r.value) && Extends(st, r.value) && st.p < r.value.p
    ensures r.Ok? ==> r.value.nodes == st.nodes && r.value.stack == st.stack && |r.value.geometries| == |st.geometries| + 1
  {
    if !TopIs(st, GroupNode) then Err(PrimOutsideGroup)
    else
      match U32At(s, st.p)
      case None => Err(PrimMissingKind)
      case Some((kind, q)) =>
        match PrimBodyAt(s, q, id, kind)
        case Err(e) => Err(e)
        case Ok((body, q2)) => Ok(Attach(s, st, body, q2))
  }

  /** Appends a geometry with `body` to the Group on top, with that Group's transparency, and moves the cursor to `q`. */
  function Attach(s: string, st: State, body: GeometryBody, q: nat): (r: State)
    requires Consistent(s, st) && TopIs(st, GroupNode) && st.p <= q <= |s|
    ensures Consistent(s, r) && Extends(st, r) && r.p == q
    ensures r.nodes == st.nodes && r.stack == st.stack && |r.geometries| == |st.geometries| + 1
  {
    var g := Geometry(Top(st), st.nodes[Top(st)].data.transparency, body);
    AttachKeeps(st.nodes, st.geometries, g);
    State(q, st.nodes, st.geometries + [g], st.stack)
  }

  // ---------------------------------------------------------------- CNTB

  /** A translation written in millimetres, in metres. */
  function Metres(t: Vec3): (r: Vec3)
    ensures r.x * 1000.0 == t.x && r.y * 1000.0 == t.y && r.z * 1000.0 == t.z
  {
    Vec3(t.x * 0.001, t.y * 0.001, t.z * 0.001)
  }

  /** Three floats; `None` as soon as one is missing. */
  function Vec3At(s: string, p: nat): (r: Option<(Vec3, nat)>)
    requires p <= |s|
    ensures r.Some? ==> p < r.value.1 <= |s|
  {
    match FloatAt(s, p)
    case None => None
    case Some((x, q1)) =>
      match FloatAt(s, q1)
      case None => None
      case Some((y, q2)) =>
        match FloatAt(s, q2)
        case None => None
        case Some((z, q3)) => Some((Vec3(x, y, z), q3))
  }

  /** Reads three floats with `read_f32`, stopping at the first one missing. */
  method ReadVec3(s: string, p: nat) returns (r: Option<(Vec3, nat)>)
    requires p <= |s|
    ensures r == Vec3At(s, p)
  {
    var x := ReadF32(s, p);
    if x.None? {
      return None;
    }
    var y := ReadF32(s, x.value.1);
    if y.None? {
      return None;
    }
    var z := ReadF32(s, y.value.1);
    if z.None? {
      return None;
    }
    return Some((Vec3(x.value.0, y.value.0, z.value.0), z.value.1));
  }

  /** The transparency a new Group starts with: its parent's when the parent is a Group, else 0. */
  function InheritedTransparency(parent: NodeData): (r: nat)
    ensures parent.Group? ==> r == parent.transparency
    ensures !parent.Group? ==> r == 0
  {
    if parent.Group? then parent.transparency else 0
  }

  /** The fields of a CNTB, and the cursor after them. */
  datatype GroupFields = GroupFields(name: string, translation: Vec3, material: nat, next: nat)

  /**
   * The fields after a CNTB header: the name line, three floats of
   * translation in millimetres, the material; one line ending is skipped
   * right after the translation and right after the material.
   */
  function GroupPreambleAt(s: string, p: nat): (r: Result<GroupFields, Error>)
    requires p <= |s|
    ensures r.Ok? ==> p < r.value.next <= |s|
  {
    match LineAt(s, p)
    case None => Err(CntbMissingName)
    case Some(l) =>
      match Vec3At(s, l.next)
      case None => Err(CntbMissingTranslation)
      case Some((t, q1)) =>
        match U32At(s, EolSkip(s, q1))
        case None => Err(CntbMissingMaterial)
        case Some((m, q2)) => Ok(GroupFields(LineText(s, l), Metres(t), m, EolSkip(s, q2)))
  }

  /** Reads the fields after a CNTB header, as `parse_cntb_txt` does before the children. */
  method ReadGroupPreamble(s: string, p: nat) returns (r: Result<GroupFields, Error>)
    requires p <= |s|
    ensures r == GroupPreambleAt(s, p)
  {
    var name := ReadLine(s, p);
    if name.None? {
      return Err(CntbMissingName);
    }
    var t := ReadVec3(s, name.value.next);
    if t.None? {
      return Err(CntbMissingTranslation);
    }
    var q := SkipEol(s, t.value.1);
    var material := ReadU32(s, q);
    if material.None? {
      return Err(CntbMissingMaterial);
    }
    var next := SkipEol(s, material.value.1);
    return Ok(GroupFields(LineText(s, name.value), Metres(t.value.0), material.value.0, next));
  }

  /**
   * CNTB: only with a Model or Group on top. Opens a Group under it, reads
   * its fields, then its children up to the matching CNTE, and closes it:
   * the stack is as before.
   */
  function GroupAt(s: string, st: State): (r: Result<State, Error>)
    requires Consistent(s, st)
    ensures r.Ok? ==> TopIs(st, ModelNode) || TopIs(st, GroupNode)
    ensures r.Ok? ==> Consistent(s, r.value) && Extends(st, r.value) && st.p < r.value.p
    ensures r.Ok? ==> |st.nodes| < |r.value.nodes| && r.value.stack == st.stack
    decreases |s| - st.p, 1
  {
    if !(TopIs(st, ModelNode) || TopIs(st, GroupNode)) then Err(CntbWithoutParent)
    else
      match GroupPreambleAt(s, st.p)
      case Err(e) => Err(e)
      case Ok(f) =>
        var open := Opened(s, st, f);
        match ChildrenFrom(s, open)
        case Err(e) => Err(e)
        case Ok(done) =>
          GroupCloses(s, st, open, done);
          Ok(Pop(done))
  }

  /** Popping the Group pushed on `st`, once its children are read, gives back the stack of `st`. */
  lemma GroupCloses(s: string, st: State, open: State, done: State)
    requires Consistent(s, st) && Extends(st, open) && st.p < open.p
    requires open.stack == st.stack + [|st.nodes|] && |open.nodes| == |st.nodes| + 1
    requires Consistent(s, done) && Extends(open, done) && done.stack == open.stack
    ensures |done.stack| > 0 && Consistent(s, Pop(done)) && Extends(st, Pop(done)) && st.p < Pop(done).p
    ensures |st.nodes| < |Pop(done).nodes| && Pop(done).stack == st.stack
  {
    PopKeeps(done.nodes, done.stack);
  }

  /** The state once a CNTB's fields are read: its Group appended under the node on top, and pushed. */
  function Opened(s: string, st: State, f: GroupFields): (r: State)
    requires Consistent(s, st) && (TopIs(st, ModelNode) || TopIs(st, GroupNode)) && st.p < f.next <= |s|
    ensures Consistent(s, r) && TopIs(r, GroupNode) && Extends(st, r) && st.p < r.p
    ensures r.stack == st.stack + [|st.nodes|] && |r.nodes| == |st.nodes| + 1 && r.geometries == st.geometries
  {
    var parent := Top(st);
    var g := Node(Some(parent), Group(f.name, f.translation, f.material, InheritedTransparency(st.nodes[parent].data)));
    AppendKeepsTree(st.nodes, g);
    GrowKeeps(st.nodes, st.nodes + [g], st.geometries, []);
    PushKeeps(st.nodes, st.stack, g);
    State(f.next, st.nodes + [g], st.geometries, st.stack + [|st.nodes|])
  }

  /**
   * The children of the open Group: chunks up to a CNTE, which ends the
   * group. Running out of input between children also ends it, without
   * error.
   */
  function ChildrenFrom(s: string, st: State): (r: Result<State, Error>)
    requires Consistent(s, st) && TopIs(st, GroupNode)
    ensures r.Ok? ==> Consistent(s, r.value) && Extends(st, r.value) && r.value.stack == st.stack
    decreases |s| - st.p, 0
  {
    if st.p >= |s| then Ok(st)
    else
      match HeaderAt(s, st.p)
      case None => Err(CntbUnexpectedEof)
      case Some((id, q)) =>
        if id == "CNTE" then Ok(st.(p := q))
        else
          match ChildAt(s, st.(p := q), id)
          case Err(e) => Err(e)
          case Ok(st2) =>
            KeepsTop(st, st2, GroupNode);
            ExtendsTrans(st, st.(p := q), st2);
            ChildrenFrom(s, st2)
  }

  /** One child chunk of a Group other than CNTE, its header already read. */
  function ChildAt(s: string, st: State, id: string): (r: Result<State, Error>)
    requires Consistent(s, st) && TopIs(st, GroupNode)
    ensures r.Ok? ==> Consistent(s, r.value) && Extends(st, r.value) && st.p < r.value.p && r.value.stack == st.stack
    decreases |s| - st.p, 2
  {
    if id == "CNTB" then GroupAt(s, st)
    else if GeometryTypeOf(id).Some? then PrimAt(s, st, id)
    else Err(CntbUnexpectedChunk(id))
  }

  /** Appending nodes keeps the kind of the node on top of an unchanged stack. */
  lemma KeepsTop(st: State, st2: State, k: Kind)
    requires TopIs(st, k) && Extends(st, st2) && st2.stack == st.stack
    ensures TopIs(st2, k)
  {
    assert st2.nodes[Top(st)] == st.nodes[Top(st)];
  }

  /** `GroupAt` once its parent check has passed: the fields, then the children, then the pop. */
  lemma GroupAtSteps(s: string, st: State)
    requires Consistent(s, st) && (TopIs(st, ModelNode) || TopIs(st, GroupNode))
    ensures var f := GroupPreambleAt(s, st.p);
      f.Err? ==> GroupAt(s, st) == Err(f.error)
    ensures var f := GroupPreambleAt(s, st.p);
      f.Ok? ==>
        var c := ChildrenFrom(s, Opened(s, st, f.value));
        && (c.Err? ==> GroupAt(s, st) == Err(c.error))
        && (c.Ok? ==> |c.value.stack| > 0 && GroupAt(s, st) == Ok(Pop(c.value)))
  {
  }

  /** `ChildrenFrom` at the end of input, at a missing header and at the closing CNTE. */
  lemma ChildrenStops(s: string, st: State)
    requires Consistent(s, st) && TopIs(st, GroupNode)
    ensures st.p >= |s| ==> ChildrenFrom(s, st) == Ok(st)
    ensures st.p < |s| && HeaderAt(s, st.p).None? ==> ChildrenFrom(s, st) == Err(CntbUnexpectedEof)
    ensures (st.p < |s| && HeaderAt(s, st.p).Some? && HeaderAt(s, st.p).value.0 == "CNTE" ==>
      ChildrenFrom(s, st) == Ok(st.(p := HeaderAt(s, st.p).value.1)))
  {
  }

  /** `ChildrenFrom` after a child other than CNTE: the child's error, or the rest of the children. */
  lemma ChildrenStep(s: string, st: State, id: string, q: nat)
    requires Consistent(s, st) && TopIs(st, GroupNode) && st.p < |s|
    requires HeaderAt(s, st.p) == Some((id, q)) && id != "CNTE"
    ensures q <= |s| && Consistent(s, st.(p := q)) && TopIs(st.(p := q), GroupNode)
    ensures var c := ChildAt(s, st.(p := q), id);
      && (c.Err? ==> ChildrenFrom(s, st) == Err(c.error))
      && (c.Ok? ==> Consistent(s, c.value) && TopIs(c.value, GroupNode) && ChildrenFrom(s, st) == ChildrenFrom(s, c.value))
  {
    var c := ChildAt(s, st.(p := q), id);
    if c.Ok? {
      KeepsTop(st, c.value, GroupNode);
    }
  }

  /** Which child chunk `ChildAt` reads, by its id. */
  lemma ChildKinds(s: string, st: State, id: string)
    requires Consistent(s, st) && TopIs(st, GroupNode)
    ensures id == "CNTB" ==> ChildAt(s, st, id) == GroupAt(s, st)
    ensures (id == "PRIM" || id == "OBST" || id == "INSU") ==> ChildAt(s, st, id) == PrimAt(s, st, id)
    ensures (!(id == "CNTB" || id == "PRIM" || id == "OBST" || id == "INSU") ==>
      ChildAt(s, st, id) == Err(CntbUnexpectedChunk(id)))
  {
  }

  // ---------------------------------------------------------------- top level

  /** Between top-level chunks the stack holds the File, and possibly the open Model above it. */
  predicate TopLevel(st: State)
  {
    (|st.stack| == 1 && TopIs(st, FileNode)) || (|st.stack| == 2 && TopIs(st, ModelNode))
  }

  /** The only warning a top-level chunk can raise is the one for a stray CNTE. */
  predicate OnlyStrayCnte(warnings: seq<Warning>)
  {
    forall i :: 0 <= i < |warnings| ==> warnings[i] == UnexpectedCnteAtRoot
  }

  /** Pops the node on top only when it has kind `k`; nothing but the stack changes. */
  function PopIf(st: State, k: Kind): (r: State)
    ensures r.p == st.p && r.nodes == st.nodes && r.geometries == st.geometries
    ensures TopIs(st, k) ==> r.stack == st.stack[..|st.stack| - 1]
    ensures !TopIs(st, k) ==> r == st
  {
    if TopIs(st, k) then Pop(st) else st
  }

  /** Closes the Model and then the File if they are on top, and warns if anything is still open. */
  function Finish(st: State, warnings: seq<Warning>): (r: (State, seq<Warning>))
    ensures r.0.p == st.p && r.0.nodes == st.nodes && r.0.geometries == st.geometries
    ensures r.0.stack <= st.stack && |st.stack| <= |r.0.stack| + 2
    ensures warnings <= r.1 && (r.1 == warnings <==> r.0.stack == [])
    ensures r.1 != warnings ==> r.1 == warnings + [NonEmptyStackAtEnd]
  {
    var closed := PopIf(PopIf(st, ModelNode), FileNode);
    (closed, if closed.stack != [] then warnings + [NonEmptyStackAtEnd] else warnings)
  }

  /** From a top-level state, closing up empties the stack, so the non-empty-stack warning is never raised. */
  lemma FinishEmptiesStack(s: string, st: State, warnings: seq<Warning>)
    requires Consistent(s, st) && TopLevel(st)
    ensures var (closed, ws) := Finish(st, warnings);
      Consistent(s, closed) && closed.stack == [] && ws == warnings && Extends(st, closed)
  {
    assert LinkOk(st.nodes, st.stack[0]);
    if |st.stack| == 2 {
      PopKeeps(st.nodes, st.stack);
      assert Pop(st).stack == [st.stack[0]];
    }
  }

  /**
   * The top-level chunks after HEAD: MODL and CNTB in any order, a stray
   * CNTE only warns, END: or the end of input stops, and then the open
   * Model and File are closed.
   */
  function TopFrom(s: string, st: State, warnings: seq<Warning>): (r: Result<(State, seq<Warning>), Error>)
    requires Consistent(s, st) && TopLevel(st) && OnlyStrayCnte(warnings)
    ensures r.Ok? ==> Consistent(s, r.value.0) && Extends(st, r.value.0)
    ensures r.Ok? ==> r.value.0.stack == [] && OnlyStrayCnte(r.value.1) && warnings <= r.value.1
    decreases |s| - st.p
  {
    if st.p >= |s| then
      FinishEmptiesStack(s, st, warnings);
      Ok(Finish(st, warnings))
    else
      match HeaderAt(s, st.p)
      case None => Err(UnexpectedEofAtRoot)
      case Some((id, q)) =>
        if id == "END:" then EndAt(s, st.(p := q), warnings)
        else
          match RootChunkAt(s, st.(p := q), id, warnings)
          case Err(e) => Err(e)
          case Ok((st2, ws)) =>
            ExtendsTrans(st, st.(p := q), st2);
            var r := TopFrom(s, st2, ws);
            assert r.Ok? ==> Extends(st, r.value.0) by {
              if r.Ok? {
                ExtendsTrans(st, st2, r.value.0);
              }
            }
            r
  }

  /** END: closes an open Model, then the reader stops and closes up. */
  function EndAt(s: string, st: State, warnings: seq<Warning>): (r: Result<(State, seq<Warning>), Error>)
    requires Consistent(s, st) && TopLevel(st) && OnlyStrayCnte(warnings)
    ensures r.Ok? && Consistent(s, r.value.0) && Extends(st, r.value.0)
    ensures r.value.0.stack == [] && r.value.1 == warnings
  {
    var closed := PopIf(st, ModelNode);
    assert TopLevel(closed) by {
      if TopIs(st, ModelNode) {
        assert closed.stack == [st.stack[0]];
        assert LinkOk(st.nodes, st.stack[0]);
      }
    }
    PopKeeps(st.nodes, st.stack);
    FinishEmptiesStack(s, closed, warnings);
    Ok(Finish(closed, warnings))
  }

  /** One top-level chunk other than END:, its header already read. */
  function RootChunkAt(s: string, st: State, id: string, warnings: seq<Warning>): (r: Result<(State, seq<Warning>), Error>)
    requires Consistent(s, st) && TopLevel(st) && OnlyStrayCnte(warnings)
    ensures r.Ok? ==> Consistent(s, r.value.0) && TopLevel(r.value.0) && Extends(st, r.value.0)
    ensures r.Ok? ==> OnlyStrayCnte(r.value.1) && warnings <= r.value.1
  {
    if id == "MODL" then
      match ModlAt(s, st)
      case Err(e) => Err(e)
      case Ok(st2) => Ok((st2, warnings))
    else if id == "CNTB" then
      match GroupAt(s, st)
      case Err(e) => Err(e)
      case Ok(st2) =>
        KeepsTop(st, st2, if |st.stack| == 1 then FileNode else ModelNode);
        Ok((st2, warnings))
    else if id == "CNTE" then Ok((st, warnings + [UnexpectedCnteAtRoot]))
    else if GeometryTypeOf(id).Some? then Err(GeometryOutsideAnyGroup(id))
    else Err(UnrecognizedChunk(id))
  }

  /** `TopFrom` at the end of input, at a missing header and at END:. */
  lemma TopStops(s: string, st: State, warnings: seq<Warning>)
    requires Consistent(s, st) && TopLevel(st) && OnlyStrayCnte(warnings)
    ensures st.p >= |s| ==> TopFrom(s, st, warnings) == Ok(Finish(st, warnings))
    ensures st.p < |s| && HeaderAt(s, st.p).None? ==> TopFrom(s, st, warnings) == Err(UnexpectedEofAtRoot)
    ensures (st.p < |s| && HeaderAt(s, st.p).Some? && HeaderAt(s, st.p).value.0 == "END:" ==>
      var q := HeaderAt(s, st.p).value.1;
      TopFrom(s, st, warnings) == Ok(Finish(PopIf(st.(p := q), ModelNode), warnings)))
  {
  }

  /** Which top-level chunk `RootChunkAt` reads, by its id. */
  lemma RootKinds(s: string, st: State, id: string, warnings: seq<Warning>)
    requires Consistent(s, st) && TopLevel(st) && OnlyStrayCnte(warnings)
    ensures (id == "MODL" ==>
      var m := ModlAt(s, st);
      RootChunkAt(s, st, id, warnings) == if m.Err? then Err(m.error) else Ok((m.value, warnings)))
    ensures (id == "CNTB" ==>
      var g := GroupAt(s, st);
      RootChunkAt(s, st, id, warnings) == if g.Err? then Err(g.error) else Ok((g.value, warnings)))
    ensures id == "CNTE" ==> RootChunkAt(s, st, id, warnings) == Ok((st, warnings + [UnexpectedCnteAtRoot]))
    ensures (id == "PRIM" || id == "OBST" || id == "INSU") ==> RootChunkAt(s, st, id, warnings) == Err(GeometryOutsideAnyGroup(id))
    ensures (!(id in ["MODL", "CNTB", "CNTE", "PRIM", "OBST", "INSU"]) ==>
      RootChunkAt(s, st, id, warnings) == Err(UnrecognizedChunk(id)))
  {
  }

  /**
   * A whole file: the first chunk must be HEAD, which opens the root File on
   * an empty stack; then the top-level chunks. `nodes` and `geometries` are
   * what the store already held.
   */
  function RevAt(s: string, path: string, nodes: seq<Node>, geometries: seq<Geometry>): (r: Result<(State, seq<Warning>), Error>)
    requires TreeOk(nodes) && GeometriesOk(nodes, geometries)
    ensures r.Ok? ==> var st := r.value.0;
      && TreeOk(st.nodes) && GeometriesOk(st.nodes, st.geometries)
      && nodes <= st.nodes && geometries <= st.geometries
      && |nodes| < |st.nodes| && st.nodes[|nodes|].data.File?
      && st.stack == [] && OnlyStrayCnte(r.value.1)
  {
    match HeaderAt(s, 0)
    case None => Err(EmptyOrInvalidFile)
    case Some((id, q)) =>
      if id != "HEAD" then Err(ExpectedHead(id))
      else
        match HeadAt(s, State(q, nodes, geometries, []), path)
        case Err(e) => Err(e)
        case Ok(st) => TopFrom(s, st, [])
  }
}

/**
 * Properties of the chunk functions: what a Group inherits, what makes a
 * chunk fail where it stands, and how the top level ends.
 */
module RevChunkFacts {
  import opened Wrappers
  import opened RevLexer
  import opened RevErrors
  import opened RevGeometry
  import opened RevDecode
  import opened RevStore
  import opened RevChunks

  /**
   * The Group a CNTB opens hangs under the node on top of the stack, is
   * named by the line after the header, holds the three translation floats
   * scaled by 0.001, and starts with its parent's transparency when the
   * parent is a Group (0 under a Model).
   */
  lemma {:induction false} GroupNodeFields(s: string, st: State)
    requires Consistent(s, st) && GroupAt(s, st).Ok?
    ensures LineAt(s, st.p).Some?
    ensures var l := LineAt(s, st.p).value;
      Vec3At(s, l.next).Some? &&
      var t := Vec3At(s, l.next).value.0;
      var n := GroupAt(s, st).value.nodes[|st.nodes|];
      var parent := st.nodes[Top(st)].data;
      && n.parent == Some(Top(st))
      && n.data.Group?
      && n.data.name == LineText(s, l)
      && n.data.translation == Vec3(t.x * 0.001, t.y * 0.001, t.z * 0.001)
      && n.data.transparency == (if parent.Group? then parent.transparency else 0)
  {
    GroupAtNewNode(s, st);
    PreambleFields(s, st.p);
  }

  /** The fields a CNTB reads, in terms of the lines and floats after its header. */
  lemma PreambleFields(s: string, p: nat)
    requires p <= |s| && GroupPreambleAt(s, p).Ok?
    ensures LineAt(s, p).Some? && Vec3At(s, LineAt(s, p).value.next).Some?
    ensures var l := LineAt(s, p).value;
      var t := Vec3At(s, l.next).value.0;
      && GroupPreambleAt(s, p).value.name == LineText(s, l)
      && GroupPreambleAt(s, p).value.translation == Vec3(t.x * 0.001, t.y * 0.001, t.z * 0.001)
  {
  }

  /** The node a successful CNTB opens is the node its fields describe, under the node on top. */
  lemma GroupAtNewNode(s: string, st: State)
    requires Consistent(s, st) && GroupAt(s, st).Ok?
    ensures GroupPreambleAt(s, st.p).Ok? && |st.nodes| < |GroupAt(s, st).value.nodes|
    ensures TopIs(st, ModelNode) || TopIs(st, GroupNode)
    ensures var f := GroupPreambleAt(s, st.p).value;
      GroupAt(s, st).value.nodes[|st.nodes|] ==
        Node(Some(Top(st)), Group(f.name, f.translation, f.material, InheritedTransparency(st.nodes[Top(st)].data)))
  {
    var open := Opened(s, st, GroupPreambleAt(s, st.p).value);
    var done := ChildrenFrom(s, open).value;
    assert GroupAt(s, st) == Ok(Pop(done));
    assert done.nodes[|st.nodes|] == open.nodes[|st.nodes|];
  }

  /**
   * A CNTB whose fields run to the end of the input closes silently: it
   * succeeds with no children.
   */
  lemma GroupClosesAtEnd(s: string, st: State)
    requires Consistent(s, st) && (TopIs(st, ModelNode) || TopIs(st, GroupNode))
    requires GroupPreambleAt(s, st.p).Ok? && GroupPreambleAt(s, st.p).value.next == |s|
    ensures GroupAt(s, st).Ok?
    ensures GroupAt(s, st).value.p == |s| && |GroupAt(s, st).value.nodes| == |st.nodes| + 1
    ensures GroupAt(s, st).value.geometries == st.geometries
  {
  }

  /** Inside a Group, a chunk that is not CNTE, CNTB, PRIM, OBST or INSU is an error naming it. */
  lemma UnknownChildFails(s: string, st: State, id: string, q: nat)
    requires Consistent(s, st) && TopIs(st, GroupNode) && st.p < |s|
    requires HeaderAt(s, st.p) == Some((id, q))
    requires id != "CNTE" && id != "CNTB" && GeometryTypeOf(id).None?
    ensures ChildrenFrom(s, st) == Err(CntbUnexpectedChunk(id))
  {
  }

  /**
   * A primitive chunk adds one geometry to the Group on top, with that
   * Group's transparency, the type its chunk id names and the payload of
   * the kind it read.
   */
  lemma PrimGeometryFields(s: string, st: State, id: string)
    requires Consistent(s, st) && PrimAt(s, st, id).Ok?
    ensures U32At(s, st.p).Some?
    ensures var g := PrimAt(s, st, id).value.geometries[|st.geometries|];
      var group := st.nodes[Top(st)].data;
      && g.group == Top(st) && group.Group?
      && g.transparency == group.transparency
      && GeometryTypeOf(id) == Some(g.body.geometryType)
      && KindOf(g.body.payload) == U32At(s, st.p).value.0
  {
  }

  /**
   * A successful HEAD read four whole lines in a row, and its File node,
   * with no parent, holds them as info, note, date and user, an empty
   * encoding and the caller's path; the cursor is after the fourth line.
   */
  lemma HeadFields(s: string, st: State, path: string)
    requires Consistent(s, st) && HeadAt(s, st, path).Ok?
    ensures st.stack == [] && LineAt(s, st.p).Some?
    ensures var info := LineAt(s, st.p).value;
      && LineAt(s, info.next).Some?
      && var note := LineAt(s, info.next).value;
         && LineAt(s, note.next).Some?
         && var date := LineAt(s, note.next).value;
            && LineAt(s, date.next).Some?
            && var user := LineAt(s, date.next).value;
               && HeadAt(s, st, path).value
                  == State(user.next,
                           st.nodes + [Node(None, File(LineText(s, info), LineText(s, note), LineText(s, date),
                                                       LineText(s, user), "", path))],
                           st.geometries, [|st.nodes|])
  {
  }

  /**
   * A successful MODL read two whole lines in a row, and its Model node,
   * under the File on top, holds them as project and name.
   */
  lemma ModlFields(s: string, st: State)
    requires Consistent(s, st) && ModlAt(s, st).Ok?
    ensures TopIs(st, FileNode) && LineAt(s, st.p).Some?
    ensures var project := LineAt(s, st.p).value;
      && LineAt(s, project.next).Some?
      && var name := LineAt(s, project.next).value;
         && ModlAt(s, st).value
            == State(name.next, st.nodes + [Node(Some(Top(st)), Model(LineText(s, project), LineText(s, name)))],
                     st.geometries, st.stack + [|st.nodes|])
  {
  }

  /** MODL leaves the Model on top, so a second MODL in the same file fails. */
  lemma SecondModlFails(s: string, st: State, q: nat)
    requires Consistent(s, st) && ModlAt(s, st).Ok? && q <= |s|
    ensures ModlAt(s, ModlAt(s, st).value.(p := q)) == Err(ModlWithoutFile)
  {
  }

  /** HEAD anywhere but on an empty stack fails. */
  lemma HeadNeedsEmptyStack(s: string, st: State, path: string)
    requires Consistent(s, st) && st.stack != []
    ensures HeadAt(s, st, path) == Err(HeadWithNonEmptyStack)
  {
  }

  /** A file must open with a HEAD chunk; otherwise the error quotes the id found. */
  lemma FileStartsWithHead(s: string, path: string, nodes: seq<Node>, geometries: seq<Geometry>)
    requires TreeOk(nodes) && GeometriesOk(nodes, geometries)
    ensures HeaderAt(s, 0).None? ==> RevAt(s, path, nodes, geometries) == Err(EmptyOrInvalidFile)
    ensures HeaderAt(s, 0).Some? && HeaderAt(s, 0).value.0 != "HEAD" ==>
      RevAt(s, path, nodes, geometries) == Err(ExpectedHead(HeaderAt(s, 0).value.0))
  {
  }

  /** One step of the top level: a chunk other than END: is handled by `RootChunkAt`, then reading goes on. */
  lemma TopStep(s: string, st: State, warnings: seq<Warning>, id: string, q: nat)
    requires Consistent(s, st) && TopLevel(st) && OnlyStrayCnte(warnings) && st.p < |s|
    requires HeaderAt(s, st.p) == Some((id, q)) && id != "END:"
    ensures Consistent(s, st.(p := q)) && TopLevel(st.(p := q))
    ensures var r := RootChunkAt(s, st.(p := q), id, warnings);
      TopFrom(s, st, warnings) == if r.Err? then Err(r.error) else TopFrom(s, r.value.0, r.value.1)
  {
  }

  /** A CNTE at the top level only adds a warning; reading goes on after it. */
  lemma StrayCnteWarns(s: string, st: State, warnings: seq<Warning>, q: nat)
    requires Consistent(s, st) && TopLevel(st) && OnlyStrayCnte(warnings) && st.p < |s|
    requires HeaderAt(s, st.p) == Some(("CNTE", q))
    ensures TopFrom(s, st, warnings) == TopFrom(s, st.(p := q), warnings + [UnexpectedCnteAtRoot])
  {
    TopStep(s, st, warnings, "CNTE", q);
    assert RootChunkAt(s, st.(p := q), "CNTE", warnings) == Ok((st.(p := q), warnings + [UnexpectedCnteAtRoot]));
  }

  /** PRIM, OBST or INSU at the top level is an error naming the chunk. */
  lemma RootGeometryFails(s: string, st: State, warnings: seq<Warning>, id: string, q: nat)
    requires Consistent(s, st) && TopLevel(st) && OnlyStrayCnte(warnings) && st.p < |s|
    requires HeaderAt(s, st.p) == Some((id, q)) && GeometryTypeOf(id).Some?
    ensures TopFrom(s, st, warnings) == Err(GeometryOutsideAnyGroup(id))
  {
    GeometryIdsDistinct(id);
    TopStep(s, st, warnings, id, q);
    assert RootChunkAt(s, st.(p := q), id, warnings) == Err(GeometryOutsideAnyGroup(id));
  }

  /** An id the top level does not know is an error naming it. */
  lemma UnknownRootChunkFails(s: string, st: State, warnings: seq<Warning>, id: string, q: nat)
    requires Consistent(s, st) && TopLevel(st) && OnlyStrayCnte(warnings) && st.p < |s|
    requires HeaderAt(s, st.p) == Some((id, q)) && GeometryTypeOf(id).None?
    requires id != "END:" && id != "MODL" && id != "CNTB" && id != "CNTE"
    ensures TopFrom(s, st, warnings) == Err(UnrecognizedChunk(id))
  {
    TopStep(s, st, warnings, id, q);
    assert RootChunkAt(s, st.(p := q), id, warnings) == Err(UnrecognizedChunk(id));
  }

  /** END: stops the reader: nothing after its header is read, and nothing is added. */
  lemma EndStopsReading(s: string, st: State, warnings: seq<Warning>, q: nat)
    requires Consistent(s, st) && TopLevel(st) && OnlyStrayCnte(warnings) && st.p < |s|
    requires HeaderAt(s, st.p) == Some(("END:", q))
    ensures TopFrom(s, st, warnings).Ok?
    ensures var (done, ws) := TopFrom(s, st, warnings).value;
      done.p == q && done.nodes == st.nodes && done.geometries == st.geometries && done.stack == [] && ws == warnings
  {
  }

  // ---------------------------------------------------------------- one File per file

  /** No node from index `k` on is a File. */
  predicate NoFileFrom(nodes: seq<Node>, k: nat)
  {
    forall i :: k <= i < |nodes| ==> !nodes[i].data.File?
  }

  /** Nodes appended in two rounds, neither adding a File, add no File. */
  lemma NoFileTrans(a: seq<Node>, b: seq<Node>, c: seq<Node>)
    requires a <= b <= c && NoFileFrom(b, |a|) && NoFileFrom(c, |b|)
    ensures NoFileFrom(c, |a|)
  {
    forall i | |a| <= i < |c|
      ensures !c[i].data.File?
    {
      if i < |b| {
        assert c[i] == b[i];
      }
    }
  }

  /** A CNTB adds no File: only its Group and what its children add. */
  lemma {:induction false} GroupAddsNoFile(s: string, st: State)
    requires Consistent(s, st) && GroupAt(s, st).Ok?
    ensures NoFileFrom(GroupAt(s, st).value.nodes, |st.nodes|)
    decreases |s| - st.p, 1
  {
    var open := Opened(s, st, GroupPreambleAt(s, st.p).value);
    var done := ChildrenFrom(s, open).value;
    assert GroupAt(s, st) == Ok(Pop(done));
    assert NoFileFrom(open.nodes, |st.nodes|) by {
      assert open.nodes[|st.nodes|].data.Group?;
    }
    ChildrenAddNoFile(s, open);
    NoFileTrans(st.nodes, open.nodes, done.nodes);
  }

  /** The children of a Group add no File. */
  lemma {:induction false} ChildrenAddNoFile(s: string, st: State)
    requires Consistent(s, st) && TopIs(st, GroupNode) && ChildrenFrom(s, st).Ok?
    ensures NoFileFrom(ChildrenFrom(s, st).value.nodes, |st.nodes|)
    decreases |s| - st.p, 0
  {
    if st.p < |s| {
      ChildrenStops(s, st);
      var (id, q) := HeaderAt(s, st.p).value;
      if id != "CNTE" {
        ChildrenStep(s, st, id, q);
        var c := ChildAt(s, st.(p := q), id).value;
        ChildAddsNoFile(s, st.(p := q), id);
        ChildrenAddNoFile(s, c);
        NoFileTrans(st.nodes, c.nodes, ChildrenFrom(s, c).value.nodes);
      }
    }
  }

  /** One child of a Group adds no File. */
  lemma {:induction false} ChildAddsNoFile(s: string, st: State, id: string)
    requires Consistent(s, st) && TopIs(st, GroupNode) && ChildAt(s, st, id).Ok?
    ensures NoFileFrom(ChildAt(s, st, id).value.nodes, |st.nodes|)
    decreases |s| - st.p, 2
  {
    if id == "CNTB" {
      GroupAddsNoFile(s, st);
    }
  }

  /** One top-level chunk other than END: adds no File. */
  lemma RootChunkAddsNoFile(s: string, st: State, id: string, warnings: seq<Warning>)
    requires Consistent(s, st) && TopLevel(st) && OnlyStrayCnte(warnings)
    requires RootChunkAt(s, st, id, warnings).Ok?
    ensures NoFileFrom(RootChunkAt(s, st, id, warnings).value.0.nodes, |st.nodes|)
  {
    if id == "MODL" {
      ModlFields(s, st);
    } else if id == "CNTB" {
      GroupAddsNoFile(s, st);
    }
  }

  /** The top-level chunks after HEAD add no File. */
  lemma {:induction false} TopAddsNoFile(s: string, st: State, warnings: seq<Warning>)
    requires Consistent(s, st) && TopLevel(st) && OnlyStrayCnte(warnings) && TopFrom(s, st, warnings).Ok?
    ensures NoFileFrom(TopFrom(s, st, warnings).value.0.nodes, |st.nodes|)
    decreases |s| - st.p
  {
    TopStops(s, st, warnings);
    if st.p < |s| {
      var (id, q) := HeaderAt(s, st.p).value;
      if id != "END:" {
        TopStep(s, st, warnings, id, q);
        var (st2, ws) := RootChunkAt(s, st.(p := q), id, warnings).value;
        RootChunkAddsNoFile(s, st.(p := q), id, warnings);
        TopAddsNoFile(s, st2, ws);
        NoFileTrans(st.nodes, st2.nodes, TopFrom(s, st2, ws).value.0.nodes);
      }
    }
  }

  /**
   * A whole file read successfully adds exactly one File, the root HEAD
   * opened, as the first node it adds; every later node it adds is a Model,
   * a Group or under them.
   */
  lemma RevAtOneFile(s: string, path: string, nodes: seq<Node>, geometries: seq<Geometry>)
    requires TreeOk(nodes) && GeometriesOk(nodes, geometries) && RevAt(s, path, nodes, geometries).Ok?
    ensures var st := RevAt(s, path, nodes, geometries).value.0;
      && |nodes| < |st.nodes| && st.nodes[|nodes|].data.File?
      && forall i :: |nodes| < i < |st.nodes| ==> !st.nodes[i].data.File?
  {
    var (id, q) := HeaderAt(s, 0).value;
    var st0 := State(q, nodes, geometries, []);
    var st := HeadAt(s, st0, path).value;
    HeadFields(s, st0, path);
    TopAddsNoFile(s, st, []);
  }
}
