/** The values the engine passes around: the parser's position map, the
    0-based position records it is sorted into, and extracted blocks. */
module FuncPositions {

  /** None stands for a run the Go code abandons with an index-out-of-range panic. */
  datatype Option<T> = None | Some(value: T)

  /** Test-function name to its 1-based (start line, end line), as the parser reports them. */
  type Positions = map<string, (int, int)>

  /** `order` lists every key of `pos` exactly once: one possible iteration
      order of a Go map. */
  predicate Enumerates(order: seq<string>, pos: Positions) {
    && (forall n :: n in pos ==> n in order)
    && (forall k :: 0 <= k < |order| ==> order[k] in pos)
    && (forall p, q :: 0 <= p < q < |order| ==> order[p] != order[q])
  }

  /** funcPos: a test function's name with 0-based first and last lines. */
  datatype FuncPos = FuncPos(name: string, startLine: int, endLine: int)

  /** TestFunction: a test function's name and the lines of its block. */
  datatype TestFunction = TestFunction(name: string, lines: seq<string>)
}
