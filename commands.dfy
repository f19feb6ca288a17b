/** What a step returns: an update of the state and where to go next. */
module Commands {
  import opened State

  /** A `Command`'s `goto`: absent, one node name, or a list of node names. */
  datatype Goto = NoGoto | GotoNode(target: string) | GotoNodes(targets: seq<string>)

  datatype Command = Command(update: StateUpdate, goto: Goto)

  /** The node names a `goto` sends control to, in order. */
  function GotoTargets(g: Goto): (r: seq<string>)
    ensures g.NoGoto? ==> r == []
    ensures g.GotoNode? ==> r == [g.target]
    ensures g.GotoNodes? ==> r == g.targets
  {
    match g
    case NoGoto => []
    case GotoNode(t) => [t]
    case GotoNodes(ts) => ts
  }
}
