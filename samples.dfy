/** The objects and the boxes the docstrings of the module build their examples from. */
module Samples {
  import opened Types
  import opened Diagrams

  const x: Ty := ["x"]
  const y: Ty := ["y"]
  const z: Ty := ["z"]
  const w: Ty := ["w"]

  /** `Box(name, dom, cod)` seen as a diagram. */
  function B(name: string, dom: Ty, cod: Ty): Diagram {
    BoxDiagram(Box(name, dom, cod, false))
  }
}
