/**
 * The part of the model store the REV reader fills: File, Model and Group
 * nodes, each linked to its parent by index, and the geometries hung off
 * groups. The reader only appends nodes and geometries, then fills in
 * their fields one by one; it never removes or re-links anything. The
 * store also keeps the message of the last error.
 */
module RevStore {
  import opened Wrappers
  import opened RevErrors
  import opened RevGeometry

  datatype NodeData =
    | File(info: string, note: string, date: string, user: string, encoding: string, path: string)
    | Model(project: string, name: string)
    | Group(name: string, translation: Vec3, material: nat, transparency: nat)

  datatype Node = Node(parent: Option<nat>, data: NodeData)

  /** A geometry, the index of the group node it belongs to, and the transparency it took from that group. */
  datatype Geometry = Geometry(group: nat, transparency: nat, body: GeometryBody)

  /** The kind tag of a node, as the reader tests it. */
  datatype Kind = FileNode | ModelNode | GroupNode

  function KindOfNode(d: NodeData): Kind
  {
    match d
    case File(_, _, _, _, _, _) => FileNode
    case Model(_, _) => ModelNode
    case Group(_, _, _, _) => GroupNode
  }

  /** Filling in fields never changes what kind of node a node is. */
  predicate SameKind(a: NodeData, b: NodeData)
  {
    (a.File? && b.File?) || (a.Model? && b.Model?) || (a.Group? && b.Group?)
  }

  /**
   * Where a node may hang: a File is a root, a Model sits under a File, a
   * Group under a Model or another Group, and a parent always comes first.
   */
  predicate LinkOk(nodes: seq<Node>, i: nat)
    requires i < |nodes|
  {
    match nodes[i].parent
    case None => nodes[i].data.File?
    case Some(j) =>
      j < i &&
      match nodes[i].data
      case File(_, _, _, _, _, _) => false
      case Model(_, _) => nodes[j].data.File?
      case Group(_, _, _, _) => nodes[j].data.Model? || nodes[j].data.Group?
  }

  /** Every node is linked the way `LinkOk` allows. */
  predicate TreeOk(nodes: seq<Node>)
  {
    forall i :: 0 <= i < |nodes| ==> LinkOk(nodes, i)
  }

  /** Every geometry belongs to a group node of the table. */
  predicate GeometriesOk(nodes: seq<Node>, geometries: seq<Geometry>)
  {
    forall k :: 0 <= k < |geometries| ==> geometries[k].group < |nodes| && nodes[geometries[k].group].data.Group?
  }

  class Store {
    var nodes: seq<Node>
    var geometries: seq<Geometry>
    var error: Option<Error>

    constructor ()
      ensures nodes == [] && geometries == [] && error == None
    {
      nodes, geometries, error := [], [], None;
    }

    /** `newNode`: appends a node with the given parent and initial fields. */
    method NewNode(parent: Option<nat>, data: NodeData) returns (i: nat)
      modifies this
      ensures i == |old(nodes)| && nodes == old(nodes) + [Node(parent, data)]
      ensures geometries == old(geometries) && error == old(error)
    {
      i := |nodes|;
      nodes := nodes + [Node(parent, data)];
    }

    /** Sets the fields of node `i`; its parent and kind stay. */
    method Fill(i: nat, data: NodeData)
      requires i < |nodes| && SameKind(nodes[i].data, data)
      modifies this
      ensures nodes == old(nodes)[i := Node(old(nodes)[i].parent, data)]
      ensures geometries == old(geometries) && error == old(error)
    {
      nodes := nodes[i := Node(nodes[i].parent, data)];
    }

    /** `newGeometry`: appends an empty geometry to group `group`. */
    method NewGeometry(group: nat, transparency: nat) returns (k: nat)
      modifies this
      ensures k == |old(geometries)| && geometries == old(geometries) + [Geometry(group, transparency, EmptyBody())]
      ensures nodes == old(nodes) && error == old(error)
    {
      k := |geometries|;
      geometries := geometries + [Geometry(group, transparency, EmptyBody())];
    }

    /** Stores the decoded body of geometry `k`. */
    method SetBody(k: nat, body: GeometryBody)
      requires k < |geometries|
      modifies this
      ensures geometries == old(geometries)[k := old(geometries)[k].(body := body)]
      ensures nodes == old(nodes) && error == old(error)
    {
      geometries := geometries[k := geometries[k].(body := body)];
    }

    /** `setErrorString`: records the error; the last one set wins. */
    method SetError(e: Error)
      modifies this
      ensures error == Some(e)
      ensures nodes == old(nodes) && geometries == old(geometries)
    {
      error := Some(e);
    }
  }

  /** Filling in the node just appended is the same as appending the filled-in node. */
  lemma FillLast(nodes: seq<Node>, n: Node, data: NodeData)
    ensures (nodes + [n])[|nodes| := Node(n.parent, data)] == nodes + [Node(n.parent, data)]
  {
  }

  /** Appending a node that `LinkOk` accepts keeps the table well linked. */
  lemma AppendKeepsTree(nodes: seq<Node>, n: Node)
    requires TreeOk(nodes) && LinkOk(nodes + [n], |nodes|)
    ensures TreeOk(nodes + [n])
  {
    var ns := nodes + [n];
    forall i | 0 <= i < |ns| ensures LinkOk(ns, i) {
      if i < |nodes| {
        assert LinkOk(nodes, i);
        assert ns[i] == nodes[i];
        if nodes[i].parent.Some? {
          assert ns[nodes[i].parent.value] == nodes[nodes[i].parent.value];
        }
      }
    }
  }

  /** Filling in a node's fields keeps the table well linked and its geometries attached. */
  lemma FillKeepsTree(nodes: seq<Node>, geometries: seq<Geometry>, i: nat, data: NodeData)
    requires TreeOk(nodes) && GeometriesOk(nodes, geometries)
    requires i < |nodes| && SameKind(nodes[i].data, data)
    ensures TreeOk(nodes[i := Node(nodes[i].parent, data)])
    ensures GeometriesOk(nodes[i := Node(nodes[i].parent, data)], geometries)
  {
    var ns := nodes[i := Node(nodes[i].parent, data)];
    forall j | 0 <= j < |ns| ensures LinkOk(ns, j) {
      assert LinkOk(nodes, j);
    }
  }
}
