/**
 * What a touch does during the selection phase: the scene walks the nodes
 * under the touch in order; each symbol button overwrites the selection, and
 * the back button leaves for the start scene at once, keeping whatever was
 * selected before it.
 */
module Selection {

  import opened Wrappers
  import opened Rules

  /** The node names the touch handler tests for; `OtherNode` is any other node. */
  datatype NodeName = SteinButton | PapierButton | SchereButton | BackButton | OtherNode

  function ButtonSymbol(n: NodeName): Option<Symbol> {
    match n
    case SteinButton => Some(Stein)
    case PapierButton => Some(Papier)
    case SchereButton => Some(Schere)
    case _ => None
  }

  /** Outcome of walking the nodes: the selection afterwards and whether the back button was hit. */
  datatype ScanResult = ScanResult(selection: Option<Symbol>, toStartScene: bool)

  /** Index of the first back button, or the number of nodes when there is none. */
  function FirstBack(nodes: seq<NodeName>): (k: nat)
    ensures k <= |nodes|
    ensures k < |nodes| ==> nodes[k] == BackButton
    ensures forall j :: 0 <= j < k ==> nodes[j] != BackButton
    decreases |nodes|
  {
    if nodes == [] then 0
    else if nodes[0] == BackButton then 0
    else 1 + FirstBack(nodes[1..])
  }

  /** The symbol of the last symbol button among the nodes, if any. */
  function LastButton(nodes: seq<NodeName>): Option<Symbol>
    decreases |nodes|
  {
    if nodes == [] then None
    else ButtonSymbol(nodes[|nodes| - 1]).OrElse(LastButton(nodes[..|nodes| - 1]))
  }

  lemma {:induction false} LastButtonCons(n: NodeName, nodes: seq<NodeName>)
    ensures LastButton([n] + nodes) == LastButton(nodes).OrElse(ButtonSymbol(n))
    decreases |nodes|
  {
    if nodes != [] {
      var k := |nodes|;
      assert ([n] + nodes)[..k] == [n] + nodes[..k - 1];
      LastButtonCons(n, nodes[..k - 1]);
    }
  }

  /**
   * The loop of the touch handler, starting from selection `sel`. The last
   * symbol button before the first back button wins; the walk reports the back
   * button when there is one.
   */
  function Scan(nodes: seq<NodeName>, sel: Option<Symbol>): (r: ScanResult)
    ensures r.toStartScene <==> BackButton in nodes
    ensures r.selection == LastButton(nodes[..FirstBack(nodes)]).OrElse(sel)
    decreases |nodes|
  {
    if nodes == [] then
      ScanResult(sel, false)
    else if nodes[0] == BackButton then
      ScanResult(sel, true)
    else
      var rest := Scan(nodes[1..], ButtonSymbol(nodes[0]).OrElse(sel));
      assert nodes[..FirstBack(nodes)] == [nodes[0]] + nodes[1..][..FirstBack(nodes[1..])];
      LastButtonCons(nodes[0], nodes[1..][..FirstBack(nodes[1..])]);
      assert nodes == [nodes[0]] + nodes[1..];
      rest
  }

  /** With no back button under the touch, the selection is the last symbol button, if any. */
  lemma LastButtonWins(nodes: seq<NodeName>, sel: Option<Symbol>)
    requires BackButton !in nodes
    ensures Scan(nodes, sel).selection == LastButton(nodes).OrElse(sel)
    ensures !Scan(nodes, sel).toStartScene
  {
    assert nodes[..FirstBack(nodes)] == nodes;
  }

  /** Buttons after the first back button are never looked at. */
  lemma NodesAfterBackIgnored(nodes: seq<NodeName>, more: seq<NodeName>, sel: Option<Symbol>)
    requires BackButton in nodes
    ensures Scan(nodes + more, sel) == Scan(nodes, sel)
  {
    var k := FirstBack(nodes);
    assert FirstBack(nodes + more) == k by {
      assert k < |nodes|;
      assert (nodes + more)[k] == BackButton;
      assert forall j :: 0 <= j < k ==> (nodes + more)[j] == nodes[j];
      FirstBackIsFirst(nodes + more, k);
    }
    assert (nodes + more)[..k] == nodes[..k];
  }

  lemma FirstBackIsFirst(nodes: seq<NodeName>, k: nat)
    requires k < |nodes| && nodes[k] == BackButton
    requires forall j :: 0 <= j < k ==> nodes[j] != BackButton
    ensures FirstBack(nodes) == k
  {
  }
}
