/**
 * The two graphs the runner works with. StaticFlow is the control-flow graph of the
 * program text, used read-only; DynamicFlow is the execution graph the runner grows,
 * whose vertices are version keys of the machine state and whose edges carry the state
 * update of one executed line.
 */
module Flow {
  import opened Wrappers
  import opened Opcodes

  /** A parsed line: its mnemonic and operand strings. */
  datatype LineContent = LineContent(mnemonic: Mnemonic, args: seq<string>)

  /** The successors of a line; -1 where there is none. */
  datatype NextLines = NextLines(regular: int, branch: int)

  /** A predecessor of a line and whether it reaches the line by its branch. */
  datatype PrevLine = PrevLine(lineNumber: int, isBranch: bool)

  /** One line of the control-flow graph. */
  datatype CfgLine = CfgLine(content: LineContent, next: NextLines, prev: seq<PrevLine>)

  /**
   * The control-flow graph: the lines it holds, the last line number of the program,
   * and the deterministic naming of the state key that belongs to a line.
   */
  datatype StaticFlow = StaticFlow(lines: map<int, CfgLine>, lastLineNumber: int, keyOf: int -> Key)
  {
    predicate HasLine(lineNumber: int) {
      lineNumber in lines
    }

    /** The content of a line; a line number the graph does not hold reads as an empty line. */
    function Content(lineNumber: int): LineContent {
      if lineNumber in lines then lines[lineNumber].content else LineContent(NONE, [])
    }

    function Next(lineNumber: int): NextLines {
      if lineNumber in lines then lines[lineNumber].next else NextLines(-1, -1)
    }

    function Prev(lineNumber: int): seq<PrevLine> {
      if lineNumber in lines then lines[lineNumber].prev else []
    }

    predicate HasPrev(lineNumber: int) {
      |Prev(lineNumber)| > 0
    }

    function Key(lineNumber: int): Key {
      keyOf(lineNumber)
    }
  }

  /** A vertex of the execution graph: the line it stands before and the step it was reached at. */
  datatype Vertex = Vertex(lineNumber: int, step: int)

  /** An edge of the execution graph; the update is absent where the handler produced none. */
  datatype Edge = Edge(isBranch: bool, update: Option<StateUpdate>, from: Key, to: Key)

  /** The identity of an edge: its end points and whether it is a branch. */
  datatype EdgeId = EdgeId(from: Key, to: Key, isBranch: bool)

  function IdOf(e: Edge): EdgeId {
    EdgeId(e.from, e.to, e.isBranch)
  }

  ghost function Ids(edges: set<Edge>): set<EdgeId> {
    set e | e in edges :: IdOf(e)
  }

  /** No two edges share end points and branch flag. */
  ghost predicate UniqueIds(edges: set<Edge>) {
    forall e1, e2 :: e1 in edges && e2 in edges && IdOf(e1) == IdOf(e2) ==> e1 == e2
  }

  /** Adding an edge adds exactly its identity. */
  lemma {:induction false} IdsAdd(edges: set<Edge>, e: Edge)
    ensures Ids(edges + {e}) == Ids(edges) + {IdOf(e)}
  {
  }

  /** Adding an edge with a new identity keeps identities unique and adds exactly that identity. */
  lemma {:induction false} AddNewId(edges: set<Edge>, e: Edge)
    requires UniqueIds(edges) && IdOf(e) !in Ids(edges)
    ensures UniqueIds(edges + {e})
    ensures Ids(edges + {e}) == Ids(edges) + {IdOf(e)}
  {
  }

  /**
   * The execution graph. Vertices are keyed by version key; adding a vertex under a key
   * that is already present leaves the existing vertex as it is.
   */
  class DynamicFlow {
    const rootKey: Key
    var vertices: map<Key, Vertex>
    var edges: set<Edge>

    constructor(rootKey: Key)
      ensures this.rootKey == rootKey && vertices == map[] && edges == {}
    {
      this.rootKey := rootKey;
      vertices := map[];
      edges := {};
    }

    /** Adds a vertex; first wins: a key already present keeps its line and step. */
    method AddVertex(key: Key, lineNumber: int, step: int)
      modifies this
      ensures vertices == if key in old(vertices) then old(vertices) else old(vertices)[key := Vertex(lineNumber, step)]
      ensures edges == old(edges)
    {
      if key !in vertices {
        vertices := vertices[key := Vertex(lineNumber, step)];
      }
    }

    /** Adds an edge. */
    method AddEdge(isBranch: bool, update: Option<StateUpdate>, from: Key, to: Key)
      modifies this
      ensures edges == old(edges) + {Edge(isBranch, update, from, to)}
      ensures vertices == old(vertices)
    {
      edges := edges + {Edge(isBranch, update, from, to)};
    }

    function Step(key: Key): int
      reads this
      requires key in vertices
    {
      vertices[key].step
    }

    function LineNumber(key: Key): int
      reads this
      requires key in vertices
    {
      vertices[key].lineNumber
    }

    /** Whether an edge with these end points and branch flag is present. */
    function HasEdge(from: Key, to: Key, isBranch: bool): (r: bool)
      reads this
      ensures r <==> EdgeId(from, to, isBranch) in Ids(edges)
    {
      exists e :: e in edges && IdOf(e) == EdgeId(from, to, isBranch)
    }
  }
}
