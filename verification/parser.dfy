/**
 * The REV text reader: a context holding the input, the store it fills, the
 * cursor and the stack of open parents, and one method per chunk kind. Each
 * method does what the matching function of RevChunks says: on success the
 * new state is that function's result, on failure the store holds that
 * function's error.
 */
module RevParser {
  import opened Wrappers
  import opened RevLexer
  import opened RevErrors
  import opened RevGeometry
  import opened RevDecode
  import opened RevStore
  import opened RevChunks
  import opened RevChunkFacts

  class Context {
    const buf: string
    const path: string
    const store: Store
    var p: nat
    var stack: seq<nat>
    var warnings: seq<Warning>

    /** The reader's state as the chunk functions see it. */
    function Snapshot(): State
      reads this, store
    {
      State(p, store.nodes, store.geometries, stack)
    }

    constructor (store: Store, path: string, buf: string)
      ensures this.store == store && this.path == path && this.buf == buf
      ensures p == 0 && stack == [] && warnings == []
    {
      this.store, this.path, this.buf := store, path, buf;
      p, stack, warnings := 0, [], [];
    }

    /** `parse_head_txt`: the body of a HEAD chunk. */
    method ParseHead() returns (ok: bool)
      requires Consistent(buf, Snapshot())
      modifies this, store
      ensures ok ==> store.error == old(store.error)
      ensures var r := HeadAt(buf, old(Snapshot()), path);
        && (ok <==> r.Ok?)
        && (ok ==> Snapshot() == r.value)
        && (!ok ==> store.error == Some(r.error))
      ensures warnings == old(warnings)
    {
      if stack != [] {
        store.SetError(HeadWithNonEmptyStack);
        return false;
      }
      var f := store.NewNode(None, File("", "", "", "", "", ""));
      stack := stack + [f];
      var info := ReadLine(buf, p);
      if info.None? {
        store.SetError(HeadMissingInfo);
        return false;
      }
      var i := LineText(buf, info.value);
      store.Fill(f, File(i, "", "", "", "", ""));
      var note := ReadLine(buf, info.value.next);
      if note.None? {
        store.SetError(HeadMissingNote);
        return false;
      }
      var n := LineText(buf, note.value);
      store.Fill(f, File(i, n, "", "", "", ""));
      var date := ReadLine(buf, note.value.next);
      if date.None? {
        store.SetError(HeadMissingDate);
        return false;
      }
      var d := LineText(buf, date.value);
      store.Fill(f, File(i, n, d, "", "", ""));
      var user := ReadLine(buf, date.value.next);
      if user.None? {
        store.SetError(HeadMissingUser);
        return false;
      }
      var u := LineText(buf, user.value);
      store.Fill(f, File(i, n, d, u, "", path));
      p := user.value.next;
      return true;
    }

    /**
     * `parse_modl_txt`: the body of a MODL chunk. (The source's pop of a
     * Model on top can never run: it is reached only with the File on top.)
     */
    method ParseModl() returns (ok: bool)
      requires Consistent(buf, Snapshot())
      modifies this, store
      ensures ok ==> store.error == old(store.error)
      ensures var r := ModlAt(buf, old(Snapshot()));
        && (ok <==> r.Ok?)
        && (ok ==> Snapshot() == r.value)
        && (!ok ==> store.error == Some(r.error))
      ensures warnings == old(warnings)
    {
      if !TopIs(Snapshot(), FileNode) {
        store.SetError(ModlWithoutFile);
        return false;
      }
      var m := store.NewNode(Some(stack[|stack| - 1]), Model("", ""));
      stack := stack + [m];
      var project := ReadLine(buf, p);
      if project.None? {
        store.SetError(ModlMissingProject);
        return false;
      }
      var pr := LineText(buf, project.value);
      store.Fill(m, Model(pr, ""));
      var name := ReadLine(buf, project.value.next);
      if name.None? {
        store.SetError(ModlMissingName);
        return false;
      }
      store.Fill(m, Model(pr, LineText(buf, name.value)));
      p := name.value.next;
      return true;
    }

    /**
     * `parse_prim_txt`: the body of a PRIM, OBST or INSU chunk, whose id is
     * `id`.
     */
    method ParsePrim(id: string) returns (ok: bool)
      requires Consistent(buf, Snapshot())
      modifies this, store
      ensures ok ==> store.error == old(store.error)
      ensures var r := PrimAt(buf, old(Snapshot()), id);
        && (ok <==> r.Ok?)
        && (ok ==> Snapshot() == r.value)
        && (!ok ==> store.error == Some(r.error))
      ensures warnings == old(warnings) && stack == old(stack)
    {
      if !TopIs(Snapshot(), GroupNode) {
        store.SetError(PrimOutsideGroup);
        return false;
      }
      var kind := ReadU32(buf, p);
      if kind.None? {
        store.SetError(PrimMissingKind);
        return false;
      }
      var top := stack[|stack| - 1];
      var k := store.NewGeometry(top, store.nodes[top].data.transparency);
      var body := DecodePrimBody(buf, kind.value.1, id, kind.value.0);
      if body.Err? {
        store.SetError(body.error);
        return false;
      }
      store.SetBody(k, body.value.0);
      p := body.value.1;
      return true;
    }

    /**
     * The start of `parse_cntb_txt`: under the Model or Group on top, opens
     * a Group, reads its name line, its translation (three floats in
     * millimetres, stored in metres) and its material, and pushes it.
     */
    method OpenGroup() returns (ok: bool)
      requires Consistent(buf, Snapshot()) && (TopIs(Snapshot(), ModelNode) || TopIs(Snapshot(), GroupNode))
      modifies this, store
      ensures ok ==> store.error == old(store.error)
      ensures var r := GroupPreambleAt(buf, old(p));
        && (ok <==> r.Ok?)
        && (ok ==> Snapshot() == Opened(buf, old(Snapshot()), r.value))
        && (!ok ==> store.error == Some(r.error))
      ensures warnings == old(warnings)
    {
      ghost var nodes := store.nodes;
      var parent := stack[|stack| - 1];
      var transparency := InheritedTransparency(store.nodes[parent].data);
      var zero := Vec3(0.0, 0.0, 0.0);
      var g := store.NewNode(Some(parent), Group("", zero, 0, transparency));
      ghost var blank := Node(Some(parent), Group("", zero, 0, transparency));
      var f := ReadGroupPreamble(buf, p);
      if f.Err? {
        store.SetError(f.error);
        return false;
      }
      var data := Group(f.value.name, f.value.translation, f.value.material, transparency);
      store.Fill(g, data);
      FillLast(nodes, blank, data);
      p := f.value.next;
      stack := stack + [g];
      return true;
    }

    /**
     * `parse_cntb_txt`: the body of a CNTB chunk: the Group is opened, its
     * children are read, and it is closed again.
     */
    method ParseCntb() returns (ok: bool)
      requires Consistent(buf, Snapshot())
      modifies this, store
      ensures ok ==> store.error == old(store.error)
      ensures var r := GroupAt(buf, old(Snapshot()));
        && (ok <==> r.Ok?)
        && (ok ==> Snapshot() == r.value)
        && (!ok ==> store.error == Some(r.error))
      ensures warnings == old(warnings)
      decreases |buf| - p, 3
    {
      if !(TopIs(Snapshot(), ModelNode) || TopIs(Snapshot(), GroupNode)) {
        store.SetError(CntbWithoutParent);
        return false;
      }
      GroupAtSteps(buf, Snapshot());
      ok := OpenGroup();
      if ok {
        ok := ParseChildren();
        if ok {
          PopTop();
        }
      }
    }

    /** Closes the node on top of the stack. */
    method PopTop()
      requires |stack| > 0
      modifies this
      ensures Snapshot() == Pop(old(Snapshot())) && warnings == old(warnings)
    {
      stack := stack[..|stack| - 1];
    }

    /**
     * The loop of `parse_cntb_txt` over the children of the open Group, up
     * to its CNTE or the end of input.
     */
    method ParseChildren() returns (ok: bool)
      requires Consistent(buf, Snapshot()) && TopIs(Snapshot(), GroupNode)
      modifies this, store
      ensures ok ==> store.error == old(store.error)
      ensures var r := ChildrenFrom(buf, old(Snapshot()));
        && (ok <==> r.Ok?)
        && (ok ==> Snapshot() == r.value)
        && (!ok ==> store.error == Some(r.error))
      ensures warnings == old(warnings)
      decreases |buf| - p, 2
    {
      ghost var open := Snapshot();
      while p < |buf|
        invariant Consistent(buf, Snapshot()) && TopIs(Snapshot(), GroupNode)
        invariant stack == open.stack && open.p <= p && warnings == old(warnings)
        invariant ChildrenFrom(buf, Snapshot()) == ChildrenFrom(buf, open)
        invariant store.error == old(store.error)
        decreases |buf| - p
      {
        var closed;
        ok, closed := NextChild();
        if !ok || closed {
          return ok;
        }
      }
      ChildrenStops(buf, Snapshot());
      return true;
    }

    /**
     * One iteration of the children loop: reads a chunk header, then closes
     * the Group at its CNTE or parses the child.
     */
    method NextChild() returns (ok: bool, closed: bool)
      requires Consistent(buf, Snapshot()) && TopIs(Snapshot(), GroupNode) && p < |buf|
      modifies this, store
      ensures ok ==> store.error == old(store.error)
      ensures ok ==> Consistent(buf, Snapshot()) && TopIs(Snapshot(), GroupNode) && stack == old(stack)
      ensures warnings == old(warnings)
      ensures var r := ChildrenFrom(buf, old(Snapshot()));
        && (!ok ==> r.Err? && store.error == Some(r.error))
        && (ok && closed ==> r == Ok(Snapshot()))
        && (ok && !closed ==> old(p) < p && r == ChildrenFrom(buf, Snapshot()))
      decreases |buf| - p, 1
    {
      var h := ReadChunkHeader(buf, p);
      if h.None? {
        ChildrenStops(buf, Snapshot());
        store.SetError(CntbUnexpectedEof);
        return false, false;
      }
      if h.value.0 == "CNTE" {
        ChildrenStops(buf, Snapshot());
        Advance(h.value.1);
        return true, true;
      }
      ok := OneChild(h.value.0, h.value.1);
      closed := false;
    }

    /** A child other than CNTE, its header `id` read up to `q`. */
    method OneChild(id: string, q: nat) returns (ok: bool)
      requires Consistent(buf, Snapshot()) && TopIs(Snapshot(), GroupNode) && p < |buf|
      requires HeaderAt(buf, p) == Some((id, q)) && id != "CNTE"
      modifies this, store
      ensures ok ==> store.error == old(store.error)
      ensures ok ==> Consistent(buf, Snapshot()) && TopIs(Snapshot(), GroupNode) && stack == old(stack)
      ensures warnings == old(warnings)
      ensures var r := ChildrenFrom(buf, old(Snapshot()));
        && (!ok ==> r.Err? && store.error == Some(r.error))
        && (ok ==> old(p) < p && r == ChildrenFrom(buf, Snapshot()))
      decreases |buf| - p, 0
    {
      ghost var before := Snapshot();
      ChildrenStep(buf, before, id, q);
      Advance(q);
      ok := ParseChild(id);
    }

    /** Moves the cursor to `q`. */
    method Advance(q: nat)
      modifies this
      ensures Snapshot() == old(Snapshot()).(p := q) && stack == old(stack) && warnings == old(warnings)
    {
      p := q;
    }

    /** One child of a Group other than its CNTE, dispatched on the chunk id `id`. */
    method ParseChild(id: string) returns (ok: bool)
      requires Consistent(buf, Snapshot()) && TopIs(Snapshot(), GroupNode)
      modifies this, store
      ensures ok ==> store.error == old(store.error)
      ensures var r := ChildAt(buf, old(Snapshot()), id);
        && (ok <==> r.Ok?)
        && (ok ==> Snapshot() == r.value)
        && (!ok ==> store.error == Some(r.error))
      ensures warnings == old(warnings)
      decreases |buf| - p, 4
    {
      ChildKinds(buf, Snapshot(), id);
      if id == "CNTB" {
        ok := ParseCntb();
      } else if id == "PRIM" || id == "OBST" || id == "INSU" {
        ok := ParsePrim(id);
      } else {
        store.SetError(CntbUnexpectedChunk(id));
        ok := false;
      }
    }

    /**
     * The loop of `parseREV` over the top-level chunks after HEAD, up to END:
     * or the end of input, and the closing of the stack after it.
     */
    method ParseTop() returns (ok: bool)
      requires Consistent(buf, Snapshot()) && TopLevel(Snapshot()) && OnlyStrayCnte(warnings)
      modifies this, store
      ensures ok ==> store.error == old(store.error)
      ensures var r := TopFrom(buf, old(Snapshot()), old(warnings));
        && (ok <==> r.Ok?)
        && (ok ==> Snapshot() == r.value.0 && warnings == r.value.1)
        && (!ok ==> store.error == Some(r.error))
    {
      ghost var start := Snapshot();
      ghost var ended := false;
      while p < |buf|
        invariant Consistent(buf, Snapshot()) && TopLevel(Snapshot()) && OnlyStrayCnte(warnings)
        invariant TopFrom(buf, Snapshot(), warnings) == TopFrom(buf, start, old(warnings))
        invariant !ended && store.error == old(store.error)
        decreases |buf| - p
      {
        TopStops(buf, Snapshot(), warnings);
        var h := ReadChunkHeader(buf, p);
        if h.None? {
          store.SetError(UnexpectedEofAtRoot);
          return false;
        }
        if h.value.0 == "END:" {
          EndChunk(h.value.1);
          ended := true;
          break;
        }
        ok := OneRootChunk(h.value.0, h.value.1);
        if !ok {
          return false;
        }
      }
      if !ended {
        TopStops(buf, Snapshot(), warnings);
      }
      CloseUp();
      return true;
    }

    /** The END: chunk, its header read up to `q`: reading stops, and the Model is closed if it is on top. */
    method EndChunk(q: nat)
      requires Consistent(buf, Snapshot()) && TopLevel(Snapshot()) && OnlyStrayCnte(warnings) && p < |buf|
      requires HeaderAt(buf, p) == Some(("END:", q))
      modifies this
      ensures warnings == old(warnings)
      ensures TopFrom(buf, old(Snapshot()), old(warnings)) == Ok(Finish(Snapshot(), warnings))
    {
      TopStops(buf, Snapshot(), warnings);
      Advance(q);
      PopIfOnTop(ModelNode);
    }

    /** A top-level chunk other than END:, its header `id` read up to `q`. */
    method OneRootChunk(id: string, q: nat) returns (ok: bool)
      requires Consistent(buf, Snapshot()) && TopLevel(Snapshot()) && OnlyStrayCnte(warnings) && p < |buf|
      requires HeaderAt(buf, p) == Some((id, q)) && id != "END:"
      modifies this, store
      ensures ok ==> store.error == old(store.error)
      ensures ok ==> Consistent(buf, Snapshot()) && TopLevel(Snapshot()) && OnlyStrayCnte(warnings) && old(p) < p
      ensures var r := TopFrom(buf, old(Snapshot()), old(warnings));
        && (!ok ==> r.Err? && store.error == Some(r.error))
        && (ok ==> r == TopFrom(buf, Snapshot(), warnings))
    {
      ghost var before := Snapshot();
      Advance(q);
      TopStep(buf, before, warnings, id, q);
      ok := ParseRootChunk(id);
    }

    /**
     * The end of `parseREV`: pops the Model and then the File if they are on
     * top, and logs a warning if the stack is still not empty.
     */
    method CloseUp()
      modifies this
      ensures var (closed, ws) := Finish(old(Snapshot()), old(warnings));
        Snapshot() == closed && warnings == ws
    {
      PopIfOnTop(ModelNode);
      PopIfOnTop(FileNode);
      if stack != [] {
        warnings := warnings + [NonEmptyStackAtEnd];
      }
    }

    /** Pops the node on top of the stack if it is of kind `k`. */
    method PopIfOnTop(k: Kind)
      modifies this
      ensures Snapshot() == PopIf(old(Snapshot()), k) && warnings == old(warnings)
    {
      if TopIs(Snapshot(), k) {
        stack := stack[..|stack| - 1];
      }
    }

    /**
     * One top-level chunk after HEAD, other than END:, dispatched on the
     * chunk id `id` as the loop of `parseREV` does.
     */
    method ParseRootChunk(id: string) returns (ok: bool)
      requires Consistent(buf, Snapshot()) && TopLevel(Snapshot()) && OnlyStrayCnte(warnings)
      modifies this, store
      ensures ok ==> store.error == old(store.error)
      ensures var r := RootChunkAt(buf, old(Snapshot()), id, old(warnings));
        && (ok <==> r.Ok?)
        && (ok ==> Snapshot() == r.value.0 && warnings == r.value.1)
        && (!ok ==> store.error == Some(r.error))
    {
      RootKinds(buf, Snapshot(), id, warnings);
      if id == "MODL" {
        ok := ParseModl();
      } else if id == "CNTB" {
        ok := ParseCntb();
      } else if id == "CNTE" {
        warnings := warnings + [UnexpectedCnteAtRoot];
        ok := true;
      } else if id == "PRIM" || id == "OBST" || id == "INSU" {
        store.SetError(GeometryOutsideAnyGroup(id));
        ok := false;
      } else {
        store.SetError(UnrecognizedChunk(id));
        ok := false;
      }
    }
  }

  /**
   * `parseREV`: reads a whole REV text file into `store`. On success the
   * store holds what `RevAt` builds and the logged warnings are returned; on
   * failure the store's error is the one `RevAt` reports.
   */
  method ParseRev(store: Store, path: string, buf: string) returns (ok: bool, warnings: seq<Warning>)
    requires TreeOk(store.nodes) && GeometriesOk(store.nodes, store.geometries)
    modifies store
    ensures ok ==> store.error == old(store.error)
    ensures var r := RevAt(buf, path, old(store.nodes), old(store.geometries));
      && (ok <==> r.Ok?)
      && (ok ==> store.nodes == r.value.0.nodes && store.geometries == r.value.0.geometries && warnings == r.value.1)
      && (!ok ==> store.error == Some(r.error))
  {
    var ctx := new Context(store, path, buf);
    var h := ReadChunkHeader(buf, 0);
    if h.None? {
      store.SetError(EmptyOrInvalidFile);
      return false, [];
    }
    var id := h.value.0;
    if id != "HEAD" {
      store.SetError(ExpectedHead(id));
      return false, [];
    }
    ctx.p := h.value.1;
    ok := ctx.ParseHead();
    if !ok {
      return false, ctx.warnings;
    }
    ok := ctx.ParseTop();
    return ok, ctx.warnings;
  }
}
