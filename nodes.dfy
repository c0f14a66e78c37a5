/**
 * The syntax tree (src/compile/node.rs): an owned, ordered tree whose nodes
 * carry a closed `NodeData` tag, their ordered children (`branches`) and the
 * source line that introduced them.
 */
module Nodes {
  import opened Wrappers

  datatype NodeData =
    | Root
      // Metadata
    | SemVer | VM | Agent
      // Targets
    | IsStage | CostumeNum | Layer | Volume
      // Targets (stage)
    | Tempo | VideoState | VideoTransparency | TTSLanguage
      // Targets (sprite)
    | Visible | XPos | YPos | Size | Direction | RotationStyle
      // Blocks
    | Block | Uid | Opcode | Parent | Next | Input
    | Field | Mutation | Shadow | TopLevel
      // Costumes
    | Name | Path | Format | BitmapRes | CenterX | CenterY
      // Sounds
    | Rate | Samples
      // Variables
    | Variable | Value | IsCloud
      // Lists
    | Item
      // Monitors
    | Mode | Param | SpriteName | Width | Height | SliderMin | SliderMax | IsDiscrete
      // Containers introduced by `[...]` and `{...}` headers
    | Target | Monitor
      // Data
    | PrototypeData(payload: string) | BlockPtrData(payload: string) | SubstackData(payload: string)
    | DoubleData(payload: string) | PosDoubleData(payload: string) | PosIntData(payload: string)
    | IntData(payload: string) | AngleData(payload: string) | ColorData(payload: string)
    | StringData(payload: string) | BroadcastData(payload: string) | VariableData(payload: string)
    | ListData(payload: string) | NullData

  datatype Node = Node(data: NodeData, branches: seq<Node>, line: nat)

  /** The thirteen data variants, listed by name. */
  predicate IsPayloadVariant(d: NodeData) {
    || d.PrototypeData? || d.BlockPtrData? || d.SubstackData?
    || d.DoubleData? || d.PosDoubleData? || d.PosIntData?
    || d.IntData? || d.AngleData? || d.ColorData?
    || d.StringData? || d.BroadcastData? || d.VariableData?
    || d.ListData?
  }

  /** Leaf data: the payload variants and `NullData`. */
  predicate IsLeafData(d: NodeData) {
    IsPayloadVariant(d) || d.NullData?
  }

  /** The string a node tag carries, if any. */
  function Payload(d: NodeData): (p: Option<string>)
    ensures p.Some? <==> IsPayloadVariant(d)
    ensures p.Some? ==> p.value == d.payload
    ensures d.NullData? ==> p.None?
  {
    match d
    case PrototypeData(s) => Some(s)
    case BlockPtrData(s) => Some(s)
    case SubstackData(s) => Some(s)
    case DoubleData(s) => Some(s)
    case PosDoubleData(s) => Some(s)
    case PosIntData(s) => Some(s)
    case IntData(s) => Some(s)
    case AngleData(s) => Some(s)
    case ColorData(s) => Some(s)
    case StringData(s) => Some(s)
    case BroadcastData(s) => Some(s)
    case VariableData(s) => Some(s)
    case ListData(s) => Some(s)
    case _ => None
  }

  /** The derived `Default` of `NodeData`. */
  function DefaultNodeData(): (d: NodeData)
    ensures d.Root? && !IsLeafData(d) && Payload(d).None?
  {
    Root
  }

  /** The derived `Default` of `Node`: the default tag, no branches, line 0. */
  function DefaultNode(): (n: Node)
    ensures n.data == DefaultNodeData() && n.branches == [] && n.line == 0
  {
    Node(DefaultNodeData(), [], 0)
  }

  /** The structural invariant of the tree: leaf-data nodes have no children, at every depth. */
  predicate LeavesChildless(n: Node)
    decreases n
  {
    && (IsLeafData(n.data) ==> n.branches == [])
    && forall i | 0 <= i < |n.branches| :: LeavesChildless(n.branches[i])
  }

  /**
   * The derived `PartialEq`: two nodes are equal exactly when their tags,
   * their ordered children (pointwise) and their lines are equal.
   */
  lemma NodeEqualityIsStructural(a: Node, b: Node)
    ensures a == b <==>
      && a.data == b.data
      && a.line == b.line
      && |a.branches| == |b.branches|
      && forall i | 0 <= i < |a.branches| :: a.branches[i] == b.branches[i]
  {
    if a.data == b.data && a.line == b.line && |a.branches| == |b.branches|
       && forall i | 0 <= i < |a.branches| :: a.branches[i] == b.branches[i]
    {
      assert a.branches == b.branches;
    }
  }

  /** Order of children is significant: the same children in another order make another node. */
  lemma BranchOrderMatters(d: NodeData, x: Node, y: Node, line: nat)
    requires x != y
    ensures Node(d, [x, y], line) != Node(d, [y, x], line)
  {
    assert Node(d, [x, y], line).branches[0] == x;
  }
}
