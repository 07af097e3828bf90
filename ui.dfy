/**
 * The parts of the rendered output that the model keeps: positions and
 * edges of the React Flow topology views, and the badges of the dashboards.
 */
module Ui {

  /** A node position on the topology canvas. */
  datatype Position = Position(x: real, y: real)

  /** A topology edge: its id, the ids of its end nodes, and whether it is animated. */
  datatype Edge = Edge(id: string, source: string, target: string, animated: bool)

  /** A status badge: its variant (`default` when none is given), its extra classes and its text. */
  datatype Badge = Badge(variant: string, className: string, text: string)
}
