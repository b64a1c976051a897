/**
 * The runner: executing one line of the program through its handler, collecting the
 * registers, flags and memory a range of lines uses, and growing the execution graph
 * forward from a line or backward to it.
 */
module Runner {
  import opened Wrappers
  import opened Opcodes
  import opened Flow

  /**
   * Executes the handler created for a line with the given keys. A halted handler yields
   * no update on either successor; otherwise the handler's own updates are returned.
   */
  function Execute(sem: Semantics, flow: StaticFlow, lineNumber: int, keys: Keys): Updates {
    var content := flow.Content(lineNumber);
    var op := InstantiateOpcode(content.mnemonic, content.args, keys);
    if sem.isHalted(op) then Updates(None, None) else sem.execute(op)
  }

  // ---------------------------------------------------------------------------------
  // Usage of registers, flags and memory
  // ---------------------------------------------------------------------------------

  /** The registers (widened to 64 bits), flags and memory use collected over some lines. */
  datatype Usage = Usage(regs: set<Rn>, flags: set<Flag>, mem: bool)

  /** Which parts of the machine state a simulation keeps track of. */
  datatype StateConfig = StateConfig(flagsOn: set<Flag>, regsOn: set<Rn>, mem: bool)

  /** The handler of a line created with the empty keys, as the usage scan creates it. */
  function UsageHandler(flow: StaticFlow, lineNumber: int): OpcodeBase {
    var content := flow.Content(lineNumber);
    InstantiateOpcode(content.mnemonic, content.args, Keys("", "", ""))
  }

  /** The 64-bit registers one line reads or writes. */
  function LineRegs(sem: Semantics, flow: StaticFlow, lineNumber: int): set<Rn> {
    var u := sem.usage(UsageHandler(flow, lineNumber));
    set r | r in u.regsRead + u.regsWrite :: sem.to64(r)
  }

  /** The flags one line reads or writes. */
  function LineFlags(sem: Semantics, flow: StaticFlow, lineNumber: int): set<Flag> {
    var u := sem.usage(UsageHandler(flow, lineNumber));
    u.flagsRead + u.flagsWrite
  }

  /** Whether one line reads or writes memory. */
  predicate LineMem(sem: Semantics, flow: StaticFlow, lineNumber: int) {
    sem.usage(UsageHandler(flow, lineNumber)).memReadWrite
  }

  /** The usage of one line. */
  function LineUsage(sem: Semantics, flow: StaticFlow, lineNumber: int): Usage {
    Usage(LineRegs(sem, flow, lineNumber), LineFlags(sem, flow, lineNumber), LineMem(sem, flow, lineNumber))
  }

  function Join(u: Usage, v: Usage): Usage {
    Usage(u.regs + v.regs, u.flags + v.flags, u.mem || v.mem)
  }

  /** The usage accumulated over the lines begin..end inclusive, line by line in increasing order. */
  function UsageOver(sem: Semantics, flow: StaticFlow, begin: int, end: int): Usage
    decreases end - begin
  {
    if end < begin then Usage({}, {}, false)
    else Join(UsageOver(sem, flow, begin, end - 1), LineUsage(sem, flow, end))
  }

  /** A register, flag or memory use is collected exactly when some line of the range has it. */
  lemma {:induction false} UsageOverMembers(sem: Semantics, flow: StaticFlow, begin: int, end: int)
    ensures var u := UsageOver(sem, flow, begin, end);
            (forall r :: r in u.regs <==> exists l :: begin <= l <= end && r in LineRegs(sem, flow, l)) &&
            (forall f :: f in u.flags <==> exists l :: begin <= l <= end && f in LineFlags(sem, flow, l)) &&
            (u.mem <==> exists l :: begin <= l <= end && LineMem(sem, flow, l))
    decreases end - begin
  {
    if end >= begin {
      UsageOverMembers(sem, flow, begin, end - 1);
      var prev, line := UsageOver(sem, flow, begin, end - 1), LineUsage(sem, flow, end);
      assert UsageOver(sem, flow, begin, end) == Usage(prev.regs + line.regs, prev.flags + line.flags, prev.mem || line.mem);
    }
  }

  /** Scanning a range equals scanning its two halves and joining the results. */
  lemma {:induction false} UsageOverSplit(sem: Semantics, flow: StaticFlow, begin: int, mid: int, end: int)
    requires begin - 1 <= mid <= end
    ensures UsageOver(sem, flow, begin, end) == Join(UsageOver(sem, flow, begin, mid), UsageOver(sem, flow, mid + 1, end))
    decreases end - mid
  {
    if mid < end {
      UsageOverSplit(sem, flow, begin, mid, end - 1);
    }
  }

  /**
   * Collects the 64-bit registers, the flags and the memory use of every line from
   * begin to end inclusive; an empty range collects nothing.
   */
  method GetUsage(sem: Semantics, flow: StaticFlow, begin: int, end: int) returns (regs: set<Rn>, flags: set<Flag>, mem: bool)
    ensures Usage(regs, flags, mem) == UsageOver(sem, flow, begin, end)
  {
    regs, flags, mem := {}, {}, false;
    var lineNumber := begin;
    while lineNumber <= end
      invariant begin <= lineNumber && (lineNumber <= end + 1 || lineNumber == begin)
      invariant Usage(regs, flags, mem) == UsageOver(sem, flow, begin, lineNumber - 1)
      decreases end - lineNumber
    {
      var op := UsageHandler(flow, lineNumber);
      var u := sem.usage(op);
      flags := flags + (u.flagsRead + u.flagsWrite);
      regs := regs + (set r | r in u.regsRead :: sem.to64(r));
      regs := regs + (set r | r in u.regsWrite :: sem.to64(r));
      mem := mem || u.memReadWrite;
      lineNumber := lineNumber + 1;
    }
  }

  /**
   * The state configuration with exactly the used parts switched on. Whatever range is
   * asked for, the whole program, lines 0 to the last line, is scanned.
   */
  method GetUsageStateConfig(sem: Semantics, flow: StaticFlow, begin: int, end: int) returns (config: StateConfig)
    ensures var u := UsageOver(sem, flow, 0, flow.lastLineNumber);
            config == StateConfig(u.flags, u.regs, u.mem)
  {
    var regs, flags, mem := GetUsage(sem, flow, 0, flow.lastLineNumber);
    config := StateConfig({}, {}, false);
    config := config.(flagsOn := config.flagsOn + flags);
    config := config.(regsOn := config.regsOn + regs);
    config := config.(mem := mem);
  }

  // ---------------------------------------------------------------------------------
  // Growing the execution graph
  // ---------------------------------------------------------------------------------

  /**
   * A disagreement between an executed outcome and the control-flow graph at the vertex
   * `from`, which stands before `line`: either an update was computed for a successor the
   * graph does not have, or the graph has a successor for which no update was computed.
   */
  datatype Mismatch = Mismatch(from: Key, line: int, updateComputed: bool)

  /**
   * How a construction ends: the start line is unusable, the graph was built (with the
   * mismatches that were reported and skipped on the way), or construction was abandoned
   * by an exception at a mismatch.
   */
  datatype Construction =
    | MissingStart
    | Built(graph: DynamicFlow, warnings: seq<Mismatch>)
    | Thrown(at: Mismatch)

  /** The keys a line is executed with going forward: its own key and those of its two successors. */
  function ForwardKeys(flow: StaticFlow, lineNumber: int): Keys {
    var next := flow.Next(lineNumber);
    Keys(flow.Key(lineNumber), flow.Key(next.regular), flow.Key(next.branch))
  }

  /** The updates a line yields going forward. */
  function Outcome(sem: Semantics, flow: StaticFlow, lineNumber: int): Updates {
    Execute(sem, flow, lineNumber, ForwardKeys(flow, lineNumber))
  }

  /** The updates of every line going forward, as one function. */
  function Outcomes(sem: Semantics, flow: StaticFlow): int -> Updates {
    l => Outcome(sem, flow, l)
  }

  /** A vertex is expanded when its step is within the bound and its line exists. */
  predicate Expandable(flow: StaticFlow, maxSteps: int, v: Vertex) {
    v.step <= maxSteps && flow.HasLine(v.lineNumber)
  }

  function Successor(flow: StaticFlow, lineNumber: int, isBranch: bool): int {
    if isBranch then flow.Next(lineNumber).branch else flow.Next(lineNumber).regular
  }

  function Select(u: Updates, isBranch: bool): Option<StateUpdate> {
    if isBranch then u.branch else u.regular
  }

  /** An update was computed for the successor and the control-flow graph has that successor. */
  predicate Continues(out: int -> Updates, flow: StaticFlow, lineNumber: int, isBranch: bool) {
    Select(out(lineNumber), isBranch).Some? && Successor(flow, lineNumber, isBranch) != -1
  }

  /** Exactly one of the outcome and the control-flow graph has the successor. */
  predicate Disagrees(out: int -> Updates, flow: StaticFlow, lineNumber: int, isBranch: bool) {
    Select(out(lineNumber), isBranch).Some? != (Successor(flow, lineNumber, isBranch) != -1)
  }

  /** The edge a line contributes going forward on one side. */
  function ForwardEdge(out: int -> Updates, flow: StaticFlow, lineNumber: int, isBranch: bool): Edge {
    Edge(isBranch, Select(out(lineNumber), isBranch),
         flow.Key(lineNumber), flow.Key(Successor(flow, lineNumber, isBranch)))
  }

  /** The edges forward construction can add: one per line and side. */
  ghost function ForwardUniverse(out: int -> Updates, flow: StaticFlow): set<EdgeId> {
    (set l | l in flow.lines :: IdOf(ForwardEdge(out, flow, l, true))) +
    (set l | l in flow.lines :: IdOf(ForwardEdge(out, flow, l, false)))
  }

  /**
   * What every stage of forward construction satisfies: the root stands before the start
   * line at step 0; every vertex is keyed by the key of its line and its step is 0 or at
   * most one past the bound; every edge is the executed step of its source's line, which
   * was expandable and whose outcome agreed with the control-flow graph on that side;
   * every vertex other than the root was discovered by an edge from a vertex one step
   * earlier.
   */
  ghost predicate ForwardSound(out: int -> Updates, flow: StaticFlow, start: int, maxSteps: int,
                               vertices: map<Key, Vertex>, edges: set<Edge>) {
    && flow.Key(start) in vertices && vertices[flow.Key(start)] == Vertex(start, 0)
    && VerticesSound(flow, maxSteps, vertices)
    && EdgesSound(out, flow, maxSteps, vertices, edges)
    && AllDiscovered(flow, vertices, edges, flow.Key(start), true)
  }

  /**
   * The vertex k was discovered through the edge e: going forward e leads into k, going
   * backward e leaves k, and the vertex at e's other end is one step earlier than k and
   * stands at the line from which e's side leads to k's line.
   */
  predicate DiscoveredBy(flow: StaticFlow, vertices: map<Key, Vertex>, e: Edge, k: Key, forward: bool)
    requires k in vertices
  {
    Joins(e, Finder(e, forward), k, forward) &&
    Finder(e, forward) in vertices && vertices[Finder(e, forward)].step + 1 == vertices[k].step &&
    LineStep(flow, vertices, e, Finder(e, forward), k, forward)
  }

  /**
   * Taken forward or backward, the side of e leads from the line of the vertex a to the
   * line of the vertex b: going forward b's line is that side's successor of a's line,
   * going backward b's line precedes a's line on that side.
   */
  predicate LineStep(flow: StaticFlow, vertices: map<Key, Vertex>, e: Edge, a: Key, b: Key, forward: bool)
    requires a in vertices && b in vertices
  {
    if forward then vertices[b].lineNumber == Successor(flow, vertices[a].lineNumber, e.isBranch)
    else PrevLine(vertices[b].lineNumber, e.isBranch) in flow.Prev(vertices[a].lineNumber)
  }

  /** The end of e that discovers the other: its source going forward, its target going backward. */
  function Finder(e: Edge, forward: bool): Key {
    if forward then e.from else e.to
  }

  /** Taken forward or backward, the edge e leads from a to b. */
  predicate Joins(e: Edge, a: Key, b: Key, forward: bool) {
    if forward then e.from == a && e.to == b else e.to == a && e.from == b
  }

  /** The vertex k was discovered through one of the edges. */
  ghost predicate Discovered(flow: StaticFlow, vertices: map<Key, Vertex>, edges: set<Edge>, k: Key, forward: bool)
    requires k in vertices
  {
    exists e | e in edges :: DiscoveredBy(flow, vertices, e, k, forward)
  }

  /**
   * Every vertex other than the root was discovered through one of the edges. The
   * quantifier fires only on Discovered, so that the discoverer a proof obtains does not
   * set off a search for its own discoverer in turn.
   */
  ghost predicate AllDiscovered(flow: StaticFlow, vertices: map<Key, Vertex>, edges: set<Edge>, root: Key, forward: bool) {
    forall k {:trigger Discovered(flow, vertices, edges, k, forward)} | k in vertices && k != root ::
      Discovered(flow, vertices, edges, k, forward)
  }

  /** Adding an edge and at most the vertex it discovers keeps every vertex discovered. */
  lemma {:induction false} DiscoveredGrows(flow: StaticFlow, vertices: map<Key, Vertex>, edges: set<Edge>, root: Key, forward: bool,
                                           vertices': map<Key, Vertex>, edges': set<Edge>, e: Edge)
    requires AllDiscovered(flow, vertices, edges, root, forward)
    requires forall j | j in vertices :: j in vertices' && vertices'[j] == vertices[j]
    requires edges' == edges + {e}
    requires forall j | j in vertices' && j !in vertices :: DiscoveredBy(flow, vertices', e, j, forward)
    ensures AllDiscovered(flow, vertices', edges', root, forward)
  {
    forall j | j in vertices' && j != root ensures Discovered(flow, vertices', edges', j, forward) {
      if j in vertices {
        assert Discovered(flow, vertices, edges, j, forward);
        var d :| d in edges && DiscoveredBy(flow, vertices, d, j, forward);
        assert DiscoveredBy(flow, vertices', d, j, forward);
      } else {
        assert DiscoveredBy(flow, vertices', e, j, forward);
      }
    }
  }

  /**
   * A path from step 0: the i-th key is a vertex at step i, and the i-th edge, taken
   * forward or backward, leads from the i-th key to the next and, on its side, from the
   * line of the i-th vertex to the line of the next.
   */
  ghost predicate StepPath(flow: StaticFlow, vertices: map<Key, Vertex>, edges: set<Edge>, forward: bool,
                           path: seq<Key>, via: seq<Edge>) {
    && |via| + 1 == |path|
    && (forall i | 0 <= i < |path| :: path[i] in vertices && vertices[path[i]].step == i)
    && (forall i | 0 <= i < |via| ::
          via[i] in edges && Joins(via[i], path[i], path[i + 1], forward) &&
          LineStep(flow, vertices, via[i], path[i], path[i + 1], forward))
  }

  /** A path extended by an edge into a vertex one step later than its end is a path. */
  lemma {:induction false} ExtendPath(flow: StaticFlow, vertices: map<Key, Vertex>, edges: set<Edge>, forward: bool,
                                      path: seq<Key>, via: seq<Edge>, k: Key, e: Edge)
    requires StepPath(flow, vertices, edges, forward, path, via)
    requires k in vertices && vertices[k].step == |path|
    requires e in edges && Joins(e, path[|path| - 1], k, forward) && LineStep(flow, vertices, e, path[|path| - 1], k, forward)
    ensures StepPath(flow, vertices, edges, forward, path + [k], via + [e])
  {
    var path', via' := path + [k], via + [e];
    forall i | 0 <= i < |path'| ensures path'[i] in vertices && vertices[path'[i]].step == i {
      if i < |path| {
        assert path'[i] == path[i];
      }
    }
    forall i | 0 <= i < |via'|
      ensures via'[i] in edges && Joins(via'[i], path'[i], path'[i + 1], forward) &&
              LineStep(flow, vertices, via'[i], path'[i], path'[i + 1], forward)
    {
      if i < |via| {
        assert via'[i] == via[i] && path'[i] == path[i] && path'[i + 1] == path[i + 1];
      } else {
        assert via'[i] == e && path'[i] == path[|path| - 1] && path'[i + 1] == k;
      }
    }
  }

  /**
   * Every vertex is reached from the root: when every other vertex was discovered and
   * steps are not negative, a vertex at step n ends a path of n edges from the root.
   */
  lemma {:induction false} Reached(flow: StaticFlow, vertices: map<Key, Vertex>, edges: set<Edge>, root: Key, forward: bool, k: Key)
    returns (path: seq<Key>, via: seq<Edge>)
    requires root in vertices && vertices[root].step == 0
    requires forall j | j in vertices :: 0 <= vertices[j].step
    requires AllDiscovered(flow, vertices, edges, root, forward)
    requires k in vertices
    ensures StepPath(flow, vertices, edges, forward, path, via)
    ensures |path| == vertices[k].step + 1 && path[0] == root && path[|path| - 1] == k
    decreases vertices[k].step
  {
    if k == root {
      path, via := [root], [];
    } else {
      assert Discovered(flow, vertices, edges, k, forward);
      var e :| e in edges && DiscoveredBy(flow, vertices, e, k, forward);
      var before, beforeVia := Reached(flow, vertices, edges, root, forward, Finder(e, forward));
      ExtendPath(flow, vertices, edges, forward, before, beforeVia, k, e);
      path, via := before + [k], beforeVia + [e];
    }
  }

  /**
   * Every vertex of a sound forward graph is reached from the start key: a vertex at step
   * n ends a path of n edges, taken forward, whose i-th key is a vertex at step i.
   */
  lemma {:induction false} ForwardReached(out: int -> Updates, flow: StaticFlow, start: int, maxSteps: int,
                                          vertices: map<Key, Vertex>, edges: set<Edge>, k: Key)
    returns (path: seq<Key>, via: seq<Edge>)
    requires ForwardSound(out, flow, start, maxSteps, vertices, edges)
    requires k in vertices
    ensures StepPath(flow, vertices, edges, true, path, via)
    ensures |via| == vertices[k].step && path[0] == flow.Key(start) && path[|path| - 1] == k
  {
    path, via := Reached(flow, vertices, edges, flow.Key(start), true, k);
  }

  /**
   * A run of the control-flow graph from the line start, taken forward or backward: each
   * line is the successor of the line before it, or precedes it, on the recorded side.
   */
  ghost predicate FlowPath(flow: StaticFlow, start: int, forward: bool, lines: seq<int>, sides: seq<bool>) {
    && |lines| == |sides| + 1 && lines[0] == start
    && forall i | 0 <= i < |sides| ::
         if forward then lines[i + 1] == Successor(flow, lines[i], sides[i])
         else PrevLine(lines[i + 1], sides[i]) in flow.Prev(lines[i])
  }

  /** The lines of the vertices of a path from the vertex at the start line, with the sides of its edges, are a run. */
  lemma {:induction false} LinesOf(flow: StaticFlow, start: int, vertices: map<Key, Vertex>, edges: set<Edge>, forward: bool,
                                   path: seq<Key>, via: seq<Edge>)
    returns (lines: seq<int>, sides: seq<bool>)
    requires StepPath(flow, vertices, edges, forward, path, via)
    requires vertices[path[0]].lineNumber == start
    ensures FlowPath(flow, start, forward, lines, sides)
    ensures |sides| == |via| && lines[|lines| - 1] == vertices[path[|path| - 1]].lineNumber
  {
    lines := seq(|path|, i requires 0 <= i < |path| && path[i] in vertices => vertices[path[i]].lineNumber);
    sides := seq(|via|, i requires 0 <= i < |via| => via[i].isBranch);
    forall i | 0 <= i < |sides|
      ensures if forward then lines[i + 1] == Successor(flow, lines[i], sides[i])
              else PrevLine(lines[i + 1], sides[i]) in flow.Prev(lines[i])
    {
      assert LineStep(flow, vertices, via[i], path[i], path[i + 1], forward);
    }
  }

  /**
   * The line of every vertex of a sound forward graph is reached from the start line by a
   * run of as many successors as the vertex's step.
   */
  lemma {:induction false} ForwardLineReached(out: int -> Updates, flow: StaticFlow, start: int, maxSteps: int,
                                              vertices: map<Key, Vertex>, edges: set<Edge>, k: Key)
    returns (lines: seq<int>, sides: seq<bool>)
    requires ForwardSound(out, flow, start, maxSteps, vertices, edges)
    requires k in vertices
    ensures FlowPath(flow, start, true, lines, sides)
    ensures |sides| == vertices[k].step && lines[|lines| - 1] == vertices[k].lineNumber
  {
    var path, via := ForwardReached(out, flow, start, maxSteps, vertices, edges, k);
    lines, sides := LinesOf(flow, start, vertices, edges, true, path, via);
  }

  ghost predicate VerticesSound(flow: StaticFlow, maxSteps: int, vertices: map<Key, Vertex>) {
    forall k | k in vertices ::
      k == flow.Key(vertices[k].lineNumber) && 0 <= vertices[k].step &&
      (vertices[k].step == 0 || vertices[k].step <= maxSteps + 1)
  }

  ghost predicate EdgesSound(out: int -> Updates, flow: StaticFlow, maxSteps: int,
                             vertices: map<Key, Vertex>, edges: set<Edge>) {
    forall e | e in edges :: EdgeSound(out, flow, maxSteps, vertices, e)
  }

  ghost predicate EdgeSound(out: int -> Updates, flow: StaticFlow, maxSteps: int, vertices: map<Key, Vertex>, e: Edge) {
    e.from in vertices && e.to in vertices &&
    Expandable(flow, maxSteps, vertices[e.from]) &&
    Continues(out, flow, vertices[e.from].lineNumber, e.isBranch) &&
    e == ForwardEdge(out, flow, vertices[e.from].lineNumber, e.isBranch)
  }

  /** Every reported mismatch is a genuine branch mismatch at an expandable vertex. */
  ghost predicate WarningsSound(out: int -> Updates, flow: StaticFlow, maxSteps: int,
                                vertices: map<Key, Vertex>, warnings: seq<Mismatch>) {
    forall w | w in warnings ::
      w.from in vertices && vertices[w.from].lineNumber == w.line &&
      Expandable(flow, maxSteps, vertices[w.from]) &&
      Disagrees(out, flow, w.line, true) &&
      w.updateComputed == out(w.line).branch.Some?
  }

  /**
   * A vertex is done when it is not expandable, or its agreeing outcomes are edges, its
   * branch mismatch (if any) is reported and its regular outcome agrees with the graph.
   */
  ghost predicate Expanded(out: int -> Updates, flow: StaticFlow, maxSteps: int, vertices: map<Key, Vertex>,
                           edges: set<Edge>, warnings: seq<Mismatch>, k: Key)
    requires k in vertices
  {
    var l := vertices[k].lineNumber;
    Expandable(flow, maxSteps, vertices[k]) ==>
      && (Continues(out, flow, l, true) ==> ForwardEdge(out, flow, l, true) in edges)
      && (Continues(out, flow, l, false) ==> ForwardEdge(out, flow, l, false) in edges)
      && (Disagrees(out, flow, l, true) ==> Mismatch(k, l, out(l).branch.Some?) in warnings)
      && !Disagrees(out, flow, l, false)
  }

  /** Two edges of a sound forward graph with the same end points and side are the same edge. */
  lemma {:induction false} ForwardSoundUnique(out: int -> Updates, flow: StaticFlow, start: int, maxSteps: int,
                           vertices: map<Key, Vertex>, edges: set<Edge>)
    requires ForwardSound(out, flow, start, maxSteps, vertices, edges)
    ensures UniqueIds(edges)
  {
  }

  /** Adding an identity of the universe that was missing shrinks what is missing. */
  lemma {:induction false} FewerMissing(universe: set<EdgeId>, ids: set<EdgeId>, id: EdgeId)
    requires id in universe && id !in ids
    ensures universe - (ids + {id}) < universe - ids
  {
    assert id in universe - ids;
  }

  /** The graph grew: old vertices are kept as they were, old edges and warnings are kept. */
  ghost predicate Grows(vertices: map<Key, Vertex>, edges: set<Edge>, warnings: seq<Mismatch>,
                        vertices': map<Key, Vertex>, edges': set<Edge>, warnings': seq<Mismatch>) {
    && (forall k | k in vertices :: k in vertices' && vertices'[k] == vertices[k])
    && edges <= edges'
    && (forall w | w in warnings :: w in warnings')
  }

  /** Expanded vertices stay expanded as the graph grows. */
  lemma {:induction false} ExpandedGrows(out: int -> Updates, flow: StaticFlow, maxSteps: int,
                      vertices: map<Key, Vertex>, edges: set<Edge>, warnings: seq<Mismatch>,
                      vertices': map<Key, Vertex>, edges': set<Edge>, warnings': seq<Mismatch>, done: set<Key>)
    requires Grows(vertices, edges, warnings, vertices', edges', warnings')
    requires AllExpanded(out, flow, maxSteps, vertices, edges, warnings, done)
    ensures AllExpanded(out, flow, maxSteps, vertices', edges', warnings', done)
  {
    forall k | k in done
      ensures k in vertices' && Expanded(out, flow, maxSteps, vertices', edges', warnings', k)
    {
      assert Expanded(out, flow, maxSteps, vertices, edges, warnings, k);
    }
  }

  /**
   * Adding the edge of an expandable vertex's agreeing side, with its successor at the
   * next step unless that key is already a vertex, keeps the graph sound and adds an
   * identity the graph did not have.
   */
  lemma {:induction false} AddSide(out: int -> Updates, flow: StaticFlow, start: int, maxSteps: int,
                vertices: map<Key, Vertex>, edges: set<Edge>, k: Key, isBranch: bool,
                vertices': map<Key, Vertex>, edges': set<Edge>)
    requires ForwardSound(out, flow, start, maxSteps, vertices, edges)
    requires k in vertices && Expandable(flow, maxSteps, vertices[k])
    requires Continues(out, flow, vertices[k].lineNumber, isBranch)
    requires var e := ForwardEdge(out, flow, vertices[k].lineNumber, isBranch);
             && IdOf(e) !in Ids(edges)
             && edges' == edges + {e}
             && vertices' == if e.to in vertices then vertices
                              else vertices[e.to := Vertex(Successor(flow, vertices[k].lineNumber, isBranch), vertices[k].step + 1)]
    ensures ForwardSound(out, flow, start, maxSteps, vertices', edges')
    ensures ForwardUniverse(out, flow) - Ids(edges') < ForwardUniverse(out, flow) - Ids(edges)
  {
    var l := vertices[k].lineNumber;
    var e := ForwardEdge(out, flow, l, isBranch);
    assert forall j | j in vertices :: j in vertices' && vertices'[j] == vertices[j];
    assert vertices'[flow.Key(start)] == Vertex(start, 0);
    assert VerticesSound(flow, maxSteps, vertices') by {
      forall j | j in vertices'
        ensures j == flow.Key(vertices'[j].lineNumber) && 0 <= vertices'[j].step &&
                (vertices'[j].step == 0 || vertices'[j].step <= maxSteps + 1)
      {
      }
    }
    assert EdgesSound(out, flow, maxSteps, vertices', edges') by {
      forall d | d in edges' ensures EdgeSound(out, flow, maxSteps, vertices', d) {
        if d != e {
          assert EdgeSound(out, flow, maxSteps, vertices, d);
        }
      }
    }
    DiscoveredGrows(flow, vertices, edges, flow.Key(start), true, vertices', edges', e);
    assert IdOf(e) in ForwardUniverse(out, flow);
    assert Ids(edges') == Ids(edges) + {IdOf(e)};
    FewerMissing(ForwardUniverse(out, flow), Ids(edges), IdOf(e));
  }

  /** In a sound graph, an edge present with the end points and side of an expansion is that expansion's edge. */
  lemma {:induction false} PresentSide(out: int -> Updates, flow: StaticFlow, start: int, maxSteps: int,
                    vertices: map<Key, Vertex>, edges: set<Edge>, k: Key, isBranch: bool)
    requires ForwardSound(out, flow, start, maxSteps, vertices, edges)
    requires k in vertices
    requires IdOf(ForwardEdge(out, flow, vertices[k].lineNumber, isBranch)) in Ids(edges)
    ensures ForwardEdge(out, flow, vertices[k].lineNumber, isBranch) in edges
  {
    var e := ForwardEdge(out, flow, vertices[k].lineNumber, isBranch);
    var e0 :| e0 in edges && IdOf(e0) == IdOf(e);
  }

  /**
   * The invariant of the forward worklist loop: the graph is sound, the reported
   * mismatches are genuine, every key on the worklist is a vertex, every vertex is on the
   * worklist, expanded (in `done`) or being expanded (in `pending`), and the keys in
   * `done` are expanded vertices.
   */
  ghost predicate ForwardInv(out: int -> Updates, flow: StaticFlow, start: int, maxSteps: int,
                             vertices: map<Key, Vertex>, edges: set<Edge>, warnings: seq<Mismatch>,
                             stack: seq<Key>, done: set<Key>, pending: set<Key>) {
    && ForwardSound(out, flow, start, maxSteps, vertices, edges)
    && WarningsSound(out, flow, maxSteps, vertices, warnings)
    && (forall i | 0 <= i < |stack| :: stack[i] in vertices)
    && (forall k {:trigger k in vertices} | k in vertices :: k in stack || k in done || k in pending)
    && AllExpanded(out, flow, maxSteps, vertices, edges, warnings, done)
  }

  ghost predicate AllExpanded(out: int -> Updates, flow: StaticFlow, maxSteps: int, vertices: map<Key, Vertex>,
                              edges: set<Edge>, warnings: seq<Mismatch>, done: set<Key>) {
    && (forall k | k in done :: k in vertices)
    && (forall k {:trigger Expanded(out, flow, maxSteps, vertices, edges, warnings, k)} | k in done && k in vertices ::
          Expanded(out, flow, maxSteps, vertices, edges, warnings, k))
  }

  /** The part of a construction's state that one expansion changes: vertices, edges and worklist. */
  datatype Growth = Growth(vertices: map<Key, Vertex>, edges: set<Edge>, stack: seq<Key>)

  /**
   * Discovering a key through an edge: the vertex is added unless its key is present (the
   * first vertex under a key wins), the edge is added and the key is scheduled.
   */
  function Discover(st: Growth, key: Key, v: Vertex, e: Edge): Growth {
    Growth(if key in st.vertices then st.vertices else st.vertices[key := v], st.edges + {e}, st.stack + [key])
  }

  /**
   * Handling one side of an expansion: when an update was computed, the successor exists
   * and no edge with these end points and side is present, the successor is discovered at
   * nextStep through the edge; otherwise nothing changes.
   */
  ghost function HandleSide(isBranch: bool, nextLineNumber: int, nextStep: int, update: Option<StateUpdate>,
                            prevKey: Key, nextKey: Key, st: Growth): Growth {
    if update.Some? && nextLineNumber != -1 && EdgeId(prevKey, nextKey, isBranch) !in Ids(st.edges) then
      Discover(st, nextKey, Vertex(nextLineNumber, nextStep), Edge(isBranch, update, prevKey, nextKey))
    else
      st
  }

  /** Handling one side of the expansion of the vertex v under key k, with k's outcome and successor. */
  ghost function ExpandSide(out: int -> Updates, flow: StaticFlow, k: Key, v: Vertex, isBranch: bool, st: Growth): Growth {
    var next := Successor(flow, v.lineNumber, isBranch);
    HandleSide(isBranch, next, v.step + 1, Select(out(v.lineNumber), isBranch), k, flow.Key(next), st)
  }

  /** The vertices, edges and worklist after handling a side are those HandleSide gives. */
  ghost predicate Handled(isBranch: bool, nextLineNumber: int, nextStep: int, update: Option<StateUpdate>,
                          prevKey: Key, nextKey: Key,
                          vertices: map<Key, Vertex>, edges: set<Edge>, stack: seq<Key>,
                          vertices': map<Key, Vertex>, edges': set<Edge>, stack': seq<Key>) {
    Growth(vertices', edges', stack') ==
      HandleSide(isBranch, nextLineNumber, nextStep, update, prevKey, nextKey, Growth(vertices, edges, stack))
  }

  /** Handling a side only ever adds: vertices keep their line and step, edges stay, and a new vertex is on the worklist. */
  lemma {:induction false} HandledGrows(isBranch: bool, nextLineNumber: int, nextStep: int, update: Option<StateUpdate>,
                     prevKey: Key, nextKey: Key,
                     vertices: map<Key, Vertex>, edges: set<Edge>, stack: seq<Key>,
                     vertices': map<Key, Vertex>, edges': set<Edge>, stack': seq<Key>)
    requires Handled(isBranch, nextLineNumber, nextStep, update, prevKey, nextKey,
                     vertices, edges, stack, vertices', edges', stack')
    ensures forall j | j in vertices :: j in vertices' && vertices'[j] == vertices[j]
    ensures edges <= edges'
    ensures forall j | j in vertices' && j !in vertices :: j in stack'
    ensures forall j | j in stack :: j in stack'
    ensures (forall i | 0 <= i < |stack| :: stack[i] in vertices) ==>
            (forall i | 0 <= i < |stack'| :: stack'[i] in vertices')
    ensures (edges' == edges && stack' == stack) || edges' == edges + {Edge(isBranch, update, prevKey, nextKey)}
  {
  }

  /** Handling one side of the expansion of k as the forward construction does it keeps the graph sound. */
  lemma {:induction false} SideStep(out: int -> Updates, flow: StaticFlow, start: int, maxSteps: int,
                 vertices: map<Key, Vertex>, edges: set<Edge>, stack: seq<Key>, k: Key, isBranch: bool,
                 vertices': map<Key, Vertex>, edges': set<Edge>, stack': seq<Key>)
    requires ForwardSound(out, flow, start, maxSteps, vertices, edges)
    requires k in vertices && Expandable(flow, maxSteps, vertices[k])
    requires var l := vertices[k].lineNumber;
             Handled(isBranch, Successor(flow, l, isBranch), vertices[k].step + 1,
                     Select(out(l), isBranch), k, flow.Key(Successor(flow, l, isBranch)),
                     vertices, edges, stack, vertices', edges', stack')
    ensures ForwardSound(out, flow, start, maxSteps, vertices', edges')
    ensures Continues(out, flow, vertices[k].lineNumber, isBranch) ==>
              ForwardEdge(out, flow, vertices[k].lineNumber, isBranch) in edges'
    ensures (edges' == edges && stack' == stack) ||
            ForwardUniverse(out, flow) - Ids(edges') < ForwardUniverse(out, flow) - Ids(edges)
  {
    var l := vertices[k].lineNumber;
    var e := ForwardEdge(out, flow, l, isBranch);
    assert k == flow.Key(l);
    assert IdOf(e) == EdgeId(k, flow.Key(Successor(flow, l, isBranch)), isBranch);
    if Continues(out, flow, l, isBranch) && IdOf(e) !in Ids(edges) {
      assert vertices' == (if e.to in vertices then vertices
                           else vertices[e.to := Vertex(Successor(flow, l, isBranch), vertices[k].step + 1)]);
      assert edges' == edges + {e};
      AddSide(out, flow, start, maxSteps, vertices, edges, k, isBranch, vertices', edges');
    } else {
      assert vertices' == vertices && edges' == edges;
      if Continues(out, flow, l, isBranch) {
        PresentSide(out, flow, start, maxSteps, vertices, edges, k, isBranch);
      }
    }
  }

  /** The branch side of the expansion of k is done: its edge is present or its mismatch reported. */
  ghost predicate BranchDone(out: int -> Updates, flow: StaticFlow, vertices: map<Key, Vertex>, edges: set<Edge>,
                             warnings: seq<Mismatch>, k: Key)
    requires k in vertices
  {
    var l := vertices[k].lineNumber;
    && (Continues(out, flow, l, true) ==> ForwardEdge(out, flow, l, true) in edges)
    && (Disagrees(out, flow, l, true) ==> Mismatch(k, l, out(l).branch.Some?) in warnings)
  }

  /** Handling the branch side keeps the loop invariant and completes that side. */
  lemma {:induction false} BranchStep(out: int -> Updates, flow: StaticFlow, start: int, maxSteps: int,
                   vertices: map<Key, Vertex>, edges: set<Edge>, warnings: seq<Mismatch>, stack: seq<Key>,
                   done: set<Key>, k: Key, next: int, nextStep: int, update: Option<StateUpdate>, nextKey: Key,
                   vertices': map<Key, Vertex>, edges': set<Edge>, warnings': seq<Mismatch>, stack': seq<Key>)
    requires ForwardInv(out, flow, start, maxSteps, vertices, edges, warnings, stack, done, {k})
    requires k in vertices && Expandable(flow, maxSteps, vertices[k])
    requires next == Successor(flow, vertices[k].lineNumber, true)
    requires update == out(vertices[k].lineNumber).branch
    requires nextKey == flow.Key(next)
    requires update.Some? != (next != -1) ==>
               warnings' == warnings + [Mismatch(k, vertices[k].lineNumber, update.Some?)]
    requires update.Some? == (next != -1) ==> warnings' == warnings
    requires nextStep == vertices[k].step + 1
    requires Handled(true, next, nextStep, update, k, nextKey,
                     vertices, edges, stack, vertices', edges', stack')
    ensures ForwardInv(out, flow, start, maxSteps, vertices', edges', warnings', stack', done, {k})
    ensures k in vertices' && vertices'[k] == vertices[k]
    ensures BranchDone(out, flow, vertices', edges', warnings', k)
    ensures (edges' == edges && stack' == stack) ||
            ForwardUniverse(out, flow) - Ids(edges') < ForwardUniverse(out, flow) - Ids(edges)
  {
    HandledGrows(true, next, nextStep, update, k, nextKey,
                 vertices, edges, stack, vertices', edges', stack');
    SideStep(out, flow, start, maxSteps, vertices, edges, stack, k, true, vertices', edges', stack');
    ExpandedGrows(out, flow, maxSteps, vertices, edges, warnings, vertices', edges', warnings', done);
  }

  /** Handling the regular side, when it agrees with the control-flow graph, completes the expansion of k. */
  lemma {:induction false} RegularStep(out: int -> Updates, flow: StaticFlow, start: int, maxSteps: int,
                    vertices: map<Key, Vertex>, edges: set<Edge>, warnings: seq<Mismatch>, stack: seq<Key>,
                    done: set<Key>, k: Key, next: int, nextStep: int, update: Option<StateUpdate>, nextKey: Key,
                    vertices': map<Key, Vertex>, edges': set<Edge>, stack': seq<Key>)
    requires ForwardInv(out, flow, start, maxSteps, vertices, edges, warnings, stack, done, {k})
    requires k in vertices && Expandable(flow, maxSteps, vertices[k])
    requires BranchDone(out, flow, vertices, edges, warnings, k)
    requires next == Successor(flow, vertices[k].lineNumber, false)
    requires update == out(vertices[k].lineNumber).regular
    requires nextKey == flow.Key(next)
    requires update.Some? == (next != -1)
    requires nextStep == vertices[k].step + 1
    requires Handled(false, next, nextStep, update, k, nextKey,
                     vertices, edges, stack, vertices', edges', stack')
    ensures ForwardInv(out, flow, start, maxSteps, vertices', edges', warnings, stack', done + {k}, {})
    ensures (edges' == edges && stack' == stack) ||
            ForwardUniverse(out, flow) - Ids(edges') < ForwardUniverse(out, flow) - Ids(edges)
  {
    HandledGrows(false, next, nextStep, update, k, nextKey,
                 vertices, edges, stack, vertices', edges', stack');
    SideStep(out, flow, start, maxSteps, vertices, edges, stack, k, false, vertices', edges', stack');
    CompleteExpansion(out, flow, start, maxSteps, vertices, edges, warnings, stack, done, k, vertices', edges', stack');
  }

  /** Popping the last key of the worklist puts it in expansion. */
  lemma {:induction false} PopStep(out: int -> Updates, flow: StaticFlow, start: int, maxSteps: int,
                vertices: map<Key, Vertex>, edges: set<Edge>, warnings: seq<Mismatch>, stack: seq<Key>,
                done: set<Key>)
    requires ForwardInv(out, flow, start, maxSteps, vertices, edges, warnings, stack, done, {})
    requires |stack| > 0
    ensures stack[|stack| - 1] in vertices
    ensures ForwardInv(out, flow, start, maxSteps, vertices, edges, warnings, stack[..|stack| - 1], done,
                       {stack[|stack| - 1]})
  {
    var rest := stack[..|stack| - 1];
    assert forall j | j in stack :: j in rest || j == stack[|stack| - 1];
  }

  /** The updates of a vertex's line, executed with the vertex's key, are the line's forward outcome. */
  lemma {:induction false} OutcomeOfVertex(sem: Semantics, flow: StaticFlow, lineNumber: int)
    ensures Outcomes(sem, flow)(lineNumber) ==
            Execute(sem, flow, lineNumber, Keys(flow.Key(lineNumber), flow.Key(flow.Next(lineNumber).regular),
                                                flow.Key(flow.Next(lineNumber).branch)))
  {
  }

  /** The graph after the regular side of k is handled satisfies the loop invariant with k done. */
  lemma {:induction false} CompleteExpansion(out: int -> Updates, flow: StaticFlow, start: int, maxSteps: int,
                          vertices: map<Key, Vertex>, edges: set<Edge>, warnings: seq<Mismatch>, stack: seq<Key>,
                          done: set<Key>, k: Key,
                          vertices': map<Key, Vertex>, edges': set<Edge>, stack': seq<Key>)
    requires ForwardInv(out, flow, start, maxSteps, vertices, edges, warnings, stack, done, {k})
    requires k in vertices
    requires BranchDone(out, flow, vertices, edges, warnings, k)
    requires !Disagrees(out, flow, vertices[k].lineNumber, false)
    requires ForwardSound(out, flow, start, maxSteps, vertices', edges')
    requires Continues(out, flow, vertices[k].lineNumber, false) ==>
               ForwardEdge(out, flow, vertices[k].lineNumber, false) in edges'
    requires forall j | j in vertices :: j in vertices' && vertices'[j] == vertices[j]
    requires edges <= edges'
    requires forall j | j in vertices' && j !in vertices :: j in stack'
    requires forall j | j in stack :: j in stack'
    requires forall i | 0 <= i < |stack'| :: stack'[i] in vertices'
    ensures ForwardInv(out, flow, start, maxSteps, vertices', edges', warnings, stack', done + {k}, {})
  {
    ExpandedGrows(out, flow, maxSteps, vertices, edges, warnings, vertices', edges', warnings, done);
    WarningsKept(out, flow, maxSteps, vertices, warnings, vertices');
    FinishExpansion(out, flow, maxSteps, vertices, edges, warnings, k, vertices', edges');
    CoveredStep(vertices, stack, done, k, vertices', stack');
  }

  /** The branch side done and the regular side's edge present (where it agrees) make k expanded. */
  lemma {:induction false} FinishExpansion(out: int -> Updates, flow: StaticFlow, maxSteps: int,
                        vertices: map<Key, Vertex>, edges: set<Edge>, warnings: seq<Mismatch>, k: Key,
                        vertices': map<Key, Vertex>, edges': set<Edge>)
    requires k in vertices && k in vertices' && vertices'[k] == vertices[k] && edges <= edges'
    requires BranchDone(out, flow, vertices, edges, warnings, k)
    requires !Disagrees(out, flow, vertices[k].lineNumber, false)
    requires Continues(out, flow, vertices[k].lineNumber, false) ==>
               ForwardEdge(out, flow, vertices[k].lineNumber, false) in edges'
    ensures Expanded(out, flow, maxSteps, vertices', edges', warnings, k)
  {
  }

  /** Once k is done, every vertex is still on the worklist or done. */
  lemma {:induction false} CoveredStep(vertices: map<Key, Vertex>, stack: seq<Key>, done: set<Key>, k: Key,
                    vertices': map<Key, Vertex>, stack': seq<Key>)
    requires forall j | j in vertices :: j in stack || j in done || j in {k}
    requires forall j | j in vertices' && j !in vertices :: j in stack'
    requires forall j | j in stack :: j in stack'
    ensures forall j | j in vertices' :: j in stack' || j in done + {k} || j in {}
  {
  }

  /** Reported mismatches stay genuine when vertices are only added. */
  lemma {:induction false} WarningsKept(out: int -> Updates, flow: StaticFlow, maxSteps: int,
                     vertices: map<Key, Vertex>, warnings: seq<Mismatch>, vertices': map<Key, Vertex>)
    requires WarningsSound(out, flow, maxSteps, vertices, warnings)
    requires forall j | j in vertices :: j in vertices' && vertices'[j] == vertices[j]
    ensures WarningsSound(out, flow, maxSteps, vertices', warnings)
  {
  }

  /** A popped vertex that is not expandable is done as it is. */
  lemma {:induction false} NotExpandable(out: int -> Updates, flow: StaticFlow, start: int, maxSteps: int,
                      vertices: map<Key, Vertex>, edges: set<Edge>, warnings: seq<Mismatch>, stack: seq<Key>,
                      done: set<Key>, k: Key)
    requires ForwardInv(out, flow, start, maxSteps, vertices, edges, warnings, stack, done, {k})
    requires k in vertices && !Expandable(flow, maxSteps, vertices[k])
    ensures ForwardInv(out, flow, start, maxSteps, vertices, edges, warnings, stack, done + {k}, {})
  {
    assert Expanded(out, flow, maxSteps, vertices, edges, warnings, k);
  }

  /**
   * The branch side of one expansion: a computed update the graph has no branch for, or a
   * branch the handler computed no update for, is reported and skipped; otherwise the
   * side is handled.
   */
  method HandleBranch(g: DynamicFlow, currentLineNumber: int, nextLineNumber: int, nextStep: int,
                      update: Option<StateUpdate>, prevKey: Key, nextKey: Key,
                      stack: seq<Key>, warnings: seq<Mismatch>)
    returns (stack': seq<Key>, warnings': seq<Mismatch>)
    modifies g
    ensures update.Some? != (nextLineNumber != -1) ==>
              warnings' == warnings + [Mismatch(prevKey, currentLineNumber, update.Some?)]
    ensures update.Some? == (nextLineNumber != -1) ==> warnings' == warnings
    ensures Handled(true, nextLineNumber, nextStep, update, prevKey, nextKey,
                    old(g.vertices), old(g.edges), stack, g.vertices, g.edges, stack')
  {
    stack', warnings' := stack, warnings;
    if update.Some? {
      if nextLineNumber == -1 {
        warnings' := warnings + [Mismatch(prevKey, currentLineNumber, true)];
        return;
      }
      if !g.HasEdge(prevKey, nextKey, true) {
        g.AddVertex(nextKey, nextLineNumber, nextStep);
        g.AddEdge(true, update, prevKey, nextKey);
        stack' := stack + [nextKey];
      }
    } else if nextLineNumber != -1 {
      warnings' := warnings + [Mismatch(prevKey, currentLineNumber, false)];
      return;
    }
  }

  /**
   * The regular side of one expansion: as the branch side, except that a mismatch throws
   * instead of being reported and skipped.
   */
  method HandleRegular(g: DynamicFlow, currentLineNumber: int, nextLineNumber: int, nextStep: int,
                       update: Option<StateUpdate>, prevKey: Key, nextKey: Key, stack: seq<Key>)
    returns (stack': seq<Key>, thrown: Option<Mismatch>)
    modifies g
    ensures thrown.Some? <==> update.Some? != (nextLineNumber != -1)
    ensures thrown.Some? ==> thrown.value == Mismatch(prevKey, currentLineNumber, update.Some?)
    ensures Handled(false, nextLineNumber, nextStep, update, prevKey, nextKey,
                    old(g.vertices), old(g.edges), stack, g.vertices, g.edges, stack')
  {
    stack', thrown := stack, None;
    if update.Some? {
      if nextLineNumber == -1 {
        thrown := Some(Mismatch(prevKey, currentLineNumber, true));
        return;
      }
      if !g.HasEdge(prevKey, nextKey, false) {
        g.AddVertex(nextKey, nextLineNumber, nextStep);
        g.AddEdge(false, update, prevKey, nextKey);
        stack' := stack + [nextKey];
      }
    } else if nextLineNumber != -1 {
      thrown := Some(Mismatch(prevKey, currentLineNumber, false));
      return;
    }
  }

  /**
   * A finished forward graph: sound, with unique edge identities and genuine reported
   * mismatches, and every vertex expanded.
   */
  ghost predicate ForwardComplete(out: int -> Updates, flow: StaticFlow, start: int, maxSteps: int,
                                  vertices: map<Key, Vertex>, edges: set<Edge>, warnings: seq<Mismatch>) {
    && ForwardSound(out, flow, start, maxSteps, vertices, edges)
    && UniqueIds(edges)
    && WarningsSound(out, flow, maxSteps, vertices, warnings)
    && (forall k {:trigger Expanded(out, flow, maxSteps, vertices, edges, warnings, k)} | k in vertices ::
          Expanded(out, flow, maxSteps, vertices, edges, warnings, k))
  }

  /**
   * A line whose handler halts going forward ends every path through it in a finished
   * forward graph: no edge leaves its vertex; when the vertex was expanded, the line has
   * no regular successor, and a branch successor of it was reported as a mismatch.
   */
  lemma {:induction false} HaltedLine(sem: Semantics, flow: StaticFlow, start: int, maxSteps: int,
                                      vertices: map<Key, Vertex>, edges: set<Edge>, warnings: seq<Mismatch>, k: Key)
    requires ForwardComplete(Outcomes(sem, flow), flow, start, maxSteps, vertices, edges, warnings)
    requires k in vertices
    requires var l := vertices[k].lineNumber;
             var content := flow.Content(l);
             sem.isHalted(InstantiateOpcode(content.mnemonic, content.args, ForwardKeys(flow, l)))
    ensures forall e | e in edges :: e.from != k
    ensures var l := vertices[k].lineNumber;
            Expandable(flow, maxSteps, vertices[k]) ==>
              && flow.Next(l).regular == -1
              && (flow.Next(l).branch != -1 ==> Mismatch(k, l, false) in warnings)
  {
    var out := Outcomes(sem, flow);
    var l := vertices[k].lineNumber;
    assert out(l) == Updates(None, None);
    forall e | e in edges ensures e.from != k {
      assert EdgeSound(out, flow, maxSteps, vertices, e);
    }
    assert Expanded(out, flow, maxSteps, vertices, edges, warnings, k);
  }

  /**
   * A thrown mismatch is a regular-side mismatch of an existing line, thrown at the key of
   * an expandable vertex of that line in a sound partial forward graph.
   */
  ghost predicate ThrownAt(out: int -> Updates, flow: StaticFlow, start: int, maxSteps: int, m: Mismatch) {
    && flow.HasLine(m.line) && m.from == flow.Key(m.line)
    && Disagrees(out, flow, m.line, false)
    && m.updateComputed == out(m.line).regular.Some?
    && exists vertices: map<Key, Vertex>, edges: set<Edge> :: ForwardSound(out, flow, start, maxSteps, vertices, edges) &&
         m.from in vertices && vertices[m.from].lineNumber == m.line && Expandable(flow, maxSteps, vertices[m.from])
  }

  /**
   * A thrown mismatch is at a line the construction reached: a run of at most maxSteps
   * successors from the start line ends at it.
   */
  lemma {:induction false} ThrownReached(out: int -> Updates, flow: StaticFlow, start: int, maxSteps: int, m: Mismatch)
    returns (lines: seq<int>, sides: seq<bool>)
    requires ThrownAt(out, flow, start, maxSteps, m)
    ensures FlowPath(flow, start, true, lines, sides) && lines[|lines| - 1] == m.line && |sides| <= maxSteps
  {
    var vertices: map<Key, Vertex>, edges: set<Edge> :| ForwardSound(out, flow, start, maxSteps, vertices, edges) &&
      m.from in vertices && vertices[m.from].lineNumber == m.line && Expandable(flow, maxSteps, vertices[m.from]);
    lines, sides := ForwardLineReached(out, flow, start, maxSteps, vertices, edges, m.from);
  }

  /** With the worklist empty, every vertex is done, so the graph is finished. */
  lemma {:induction false} ForwardFinished(out: int -> Updates, flow: StaticFlow, start: int, maxSteps: int,
                        vertices: map<Key, Vertex>, edges: set<Edge>, warnings: seq<Mismatch>, done: set<Key>)
    requires ForwardInv(out, flow, start, maxSteps, vertices, edges, warnings, [], done, {})
    ensures ForwardComplete(out, flow, start, maxSteps, vertices, edges, warnings)
  {
    ForwardSoundUnique(out, flow, start, maxSteps, vertices, edges);
  }

  /** The reported mismatches after the branch side of the expansion of k, whose line is l. */
  function BranchWarnings(out: int -> Updates, flow: StaticFlow, k: Key, l: int, warnings: seq<Mismatch>): seq<Mismatch> {
    if Disagrees(out, flow, l, true) then warnings + [Mismatch(k, l, out(l).branch.Some?)] else warnings
  }

  /** The whole expansion of the vertex v under key k: its branch side, then its regular side. */
  ghost function Expansion(out: int -> Updates, flow: StaticFlow, k: Key, v: Vertex, st: Growth): Growth {
    ExpandSide(out, flow, k, v, false, ExpandSide(out, flow, k, v, true, st))
  }

  /** An expansion is the branch side handled, then the regular side. */
  lemma {:induction false} ExpansionSides(out: int -> Updates, flow: StaticFlow, k: Key, v: Vertex, st: Growth, st': Growth)
    requires st' == Expansion(out, flow, k, v, st)
    ensures var l := v.lineNumber;
            var next, nextBranch := Successor(flow, l, false), Successor(flow, l, true);
            var branched := ExpandSide(out, flow, k, v, true, st);
            && Handled(true, nextBranch, v.step + 1, out(l).branch, k, flow.Key(nextBranch),
                       st.vertices, st.edges, st.stack, branched.vertices, branched.edges, branched.stack)
            && Handled(false, next, v.step + 1, out(l).regular, k, flow.Key(next),
                       branched.vertices, branched.edges, branched.stack, st'.vertices, st'.edges, st'.stack)
  {
  }

  /**
   * An expansion whose regular side agrees with the control-flow graph keeps the loop
   * invariant, puts the expanded key with the done ones, and adds an edge identity unless
   * it changes neither the edges nor the worklist.
   */
  lemma {:induction false} ExpandStep(out: int -> Updates, flow: StaticFlow, start: int, maxSteps: int,
                                      vertices: map<Key, Vertex>, edges: set<Edge>, warnings: seq<Mismatch>,
                                      stack: seq<Key>, done: set<Key>, k: Key,
                                      vertices': map<Key, Vertex>, edges': set<Edge>, warnings': seq<Mismatch>,
                                      stack': seq<Key>)
    requires ForwardInv(out, flow, start, maxSteps, vertices, edges, warnings, stack, done, {k})
    requires k in vertices && Expandable(flow, maxSteps, vertices[k])
    requires !Disagrees(out, flow, vertices[k].lineNumber, false)
    requires warnings' == BranchWarnings(out, flow, k, vertices[k].lineNumber, warnings)
    requires Growth(vertices', edges', stack') == Expansion(out, flow, k, vertices[k], Growth(vertices, edges, stack))
    ensures ForwardInv(out, flow, start, maxSteps, vertices', edges', warnings', stack', done + {k}, {})
    ensures (edges' == edges && stack' == stack) ||
            ForwardUniverse(out, flow) - Ids(edges') < ForwardUniverse(out, flow) - Ids(edges)
  {
    var v := vertices[k];
    var l := v.lineNumber;
    var branched := ExpandSide(out, flow, k, v, true, Growth(vertices, edges, stack));
    var next, nextBranch := Successor(flow, l, false), Successor(flow, l, true);
    ExpansionSides(out, flow, k, v, Growth(vertices, edges, stack), Growth(vertices', edges', stack'));
    BranchStep(out, flow, start, maxSteps, vertices, edges, warnings, stack, done, k,
               nextBranch, v.step + 1, out(l).branch, flow.Key(nextBranch),
               branched.vertices, branched.edges, warnings', branched.stack);
    RegularStep(out, flow, start, maxSteps, branched.vertices, branched.edges, warnings', branched.stack, done, k,
                next, v.step + 1, out(l).regular, flow.Key(next), vertices', edges', stack');
  }

  /** A regular-side mismatch at an expandable vertex of a sound forward graph is what a throw reports. */
  lemma {:induction false} ThrownStep(out: int -> Updates, flow: StaticFlow, start: int, maxSteps: int,
                                      vertices: map<Key, Vertex>, edges: set<Edge>, k: Key)
    requires ForwardSound(out, flow, start, maxSteps, vertices, edges)
    requires k in vertices && Expandable(flow, maxSteps, vertices[k])
    requires Disagrees(out, flow, vertices[k].lineNumber, false)
    ensures var l := vertices[k].lineNumber;
            ThrownAt(out, flow, start, maxSteps, Mismatch(k, l, out(l).regular.Some?))
  {
  }

  /**
   * The expansion of one popped vertex: the line is executed with the vertex's key and its
   * successors' keys, then the branch side is handled and then the regular side, which
   * throws on a mismatch. The new state is the expansion of the vertex; a throw leaves the
   * state after the branch side.
   */
  method Expand(sem: Semantics, flow: StaticFlow, g: DynamicFlow, ghost out: int -> Updates,
                prevKey: Key, stack: seq<Key>, warnings: seq<Mismatch>)
    returns (stack': seq<Key>, warnings': seq<Mismatch>, thrown: Option<Mismatch>)
    modifies g
    requires out == Outcomes(sem, flow)
    requires prevKey in g.vertices && prevKey == flow.Key(g.vertices[prevKey].lineNumber)
    ensures var v := old(g.vertices[prevKey]);
            var l := v.lineNumber;
            var branched := ExpandSide(out, flow, prevKey, v, true, Growth(old(g.vertices), old(g.edges), stack));
            && warnings' == BranchWarnings(out, flow, prevKey, l, warnings)
            && (thrown.Some? <==> Disagrees(out, flow, l, false))
            && (thrown.Some? ==> thrown.value == Mismatch(prevKey, l, out(l).regular.Some?) &&
                                 g.vertices == branched.vertices && g.edges == branched.edges)
            && (thrown.None? ==>
                  Growth(g.vertices, g.edges, stack') == Expansion(out, flow, prevKey, v, Growth(old(g.vertices), old(g.edges), stack)))
  {
    var step := g.Step(prevKey);
    var currentLineNumber := g.LineNumber(prevKey);
    var nextLineNumber := flow.Next(currentLineNumber);
    var nextKey, nextKeyBranch := flow.Key(nextLineNumber.regular), flow.Key(nextLineNumber.branch);
    OutcomeOfVertex(sem, flow, currentLineNumber);
    var updates := Execute(sem, flow, currentLineNumber, Keys(prevKey, nextKey, nextKeyBranch));
    assert updates == out(currentLineNumber);
    var nextStep := step + 1;
    ghost var v := g.vertices[prevKey];
    ghost var st := Growth(g.vertices, g.edges, stack);
    stack', warnings' := HandleBranch(g, currentLineNumber, nextLineNumber.branch, nextStep, updates.branch,
                                      prevKey, nextKeyBranch, stack, warnings);
    ghost var branched := ExpandSide(out, flow, prevKey, v, true, st);
    assert Growth(g.vertices, g.edges, stack') == branched;
    stack', thrown := HandleRegular(g, currentLineNumber, nextLineNumber.regular, nextStep, updates.regular,
                                    prevKey, nextKey, stack');
  }

  /**
   * One round of the forward worklist loop: the last key is popped and its vertex, when
   * its step is within the bound and its line exists, is expanded; otherwise it is done.
   */
  method ForwardRound(sem: Semantics, flow: StaticFlow, g: DynamicFlow, ghost out: int -> Updates,
                      start: int, maxSteps: int, ghost done: set<Key>, stack: seq<Key>, warnings: seq<Mismatch>)
    returns (stack': seq<Key>, warnings': seq<Mismatch>, thrown: Option<Mismatch>)
    modifies g
    requires out == Outcomes(sem, flow)
    requires |stack| > 0
    requires ForwardInv(out, flow, start, maxSteps, g.vertices, g.edges, warnings, stack, done, {})
    ensures thrown.None? ==>
              ForwardInv(out, flow, start, maxSteps, g.vertices, g.edges, warnings', stack', done + {stack[|stack| - 1]}, {})
    ensures thrown.None? ==>
              (g.edges == old(g.edges) && |stack'| < |stack|) ||
              ForwardUniverse(out, flow) - Ids(g.edges) < ForwardUniverse(out, flow) - Ids(old(g.edges))
    ensures thrown.Some? ==> ThrownAt(out, flow, start, maxSteps, thrown.value)
  {
    var prevKey := stack[|stack| - 1];
    PopStep(out, flow, start, maxSteps, g.vertices, g.edges, warnings, stack, done);
    stack', warnings', thrown := stack[..|stack| - 1], warnings, None;
    if g.Step(prevKey) <= maxSteps && flow.HasLine(g.LineNumber(prevKey)) {
      ghost var vertices, edges := g.vertices, g.edges;
      var rest := stack';
      stack', warnings', thrown := Expand(sem, flow, g, out, prevKey, rest, warnings);
      if thrown.Some? {
        ThrownStep(out, flow, start, maxSteps, vertices, edges, prevKey);
        return;
      }
      ExpandStep(out, flow, start, maxSteps, vertices, edges, warnings, rest, done, prevKey,
                 g.vertices, g.edges, warnings', stack');
    } else {
      NotExpandable(out, flow, start, maxSteps, g.vertices, g.edges, warnings, stack', done, prevKey);
    }
  }

  /**
   * Forward construction from a start line, depth first from a worklist of keys. A key is
   * expanded when its step is within maxSteps and its line exists: the line is executed
   * with its own key and its successors' keys, then the branch side and the regular side
   * are handled, each adding its successor at the next step.
   */
  method ConstructForward(sem: Semantics, flow: StaticFlow, start: int, maxSteps: int) returns (r: Construction)
    ensures r.MissingStart? <==> !flow.HasLine(start)
    ensures r.Built? ==>
              && fresh(r.graph)
              && r.graph.rootKey == flow.Key(start)
              && ForwardComplete(Outcomes(sem, flow), flow, start, maxSteps, r.graph.vertices, r.graph.edges, r.warnings)
    ensures r.Thrown? ==> ThrownAt(Outcomes(sem, flow), flow, start, maxSteps, r.at)
  {
    if !flow.HasLine(start) {
      return MissingStart;
    }
    var rootKey := flow.Key(start);
    var stack := [rootKey];
    var g := new DynamicFlow(rootKey);
    g.AddVertex(rootKey, start, 0);
    var warnings := [];
    ghost var out := Outcomes(sem, flow);
    ghost var done: set<Key> := {};

    while |stack| > 0
      invariant g.rootKey == rootKey
      invariant ForwardInv(out, flow, start, maxSteps, g.vertices, g.edges, warnings, stack, done, {})
      decreases ForwardUniverse(out, flow) - Ids(g.edges), |stack|
    {
      ghost var popped := stack[|stack| - 1];
      var thrown;
      stack, warnings, thrown := ForwardRound(sem, flow, g, out, start, maxSteps, done, stack, warnings);
      if thrown.Some? {
        return Thrown(thrown.value);
      }
      done := done + {popped};
    }
    ForwardFinished(out, flow, start, maxSteps, g.vertices, g.edges, warnings, done);
    return Built(g, warnings);
  }

  // ---------------------------------------------------------------------------------
  // Backward construction
  // ---------------------------------------------------------------------------------

  /**
   * The updates a predecessor line yields going backward: it is executed with its own key
   * as the previous key and the key of the line it precedes as both next keys.
   */
  function BackOutcome(sem: Semantics, flow: StaticFlow, prevLine: int, nextLine: int): Updates {
    var nextKey := flow.Key(nextLine);
    Execute(sem, flow, prevLine, Keys(flow.Key(prevLine), nextKey, nextKey))
  }

  /** The updates of every pair of lines going backward, as one function. */
  function BackOutcomes(sem: Semantics, flow: StaticFlow): (int, int) -> Updates {
    (prevLine, nextLine) => BackOutcome(sem, flow, prevLine, nextLine)
  }

  /** The edge a predecessor contributes to the line it precedes; the update may be absent. */
  function BackwardEdge(back: (int, int) -> Updates, flow: StaticFlow, p: PrevLine, lineNumber: int): Edge {
    Edge(p.isBranch, Select(back(p.lineNumber, lineNumber), p.isBranch),
         flow.Key(p.lineNumber), flow.Key(lineNumber))
  }

  /** The identity of the edge from a predecessor to the line it precedes. */
  function BackwardId(flow: StaticFlow, p: PrevLine, lineNumber: int): EdgeId {
    EdgeId(flow.Key(p.lineNumber), flow.Key(lineNumber), p.isBranch)
  }

  /** The edges backward construction can add: one per line and existing predecessor. */
  ghost function BackwardUniverse(flow: StaticFlow): set<EdgeId> {
    set l, i | l in flow.lines && 0 <= i < |flow.Prev(l)| :: BackwardId(flow, flow.Prev(l)[i], l)
  }

  /** Some existing predecessor of the line contributes exactly this edge. */
  ghost predicate FromPredecessor(back: (int, int) -> Updates, flow: StaticFlow, lineNumber: int, e: Edge) {
    exists i | 0 <= i < |flow.Prev(lineNumber)| ::
      flow.HasLine(flow.Prev(lineNumber)[i].lineNumber) &&
      e == BackwardEdge(back, flow, flow.Prev(lineNumber)[i], lineNumber)
  }

  /**
   * What every stage of backward construction satisfies: the root stands before the start
   * line at step 0; every vertex is keyed by the key of its line, which exists, and its
   * step is 0 or at most one past the bound; every edge joins two vertices and is the step
   * of an existing predecessor into the line of a vertex within the bound; no two edges
   * share end points and side; every vertex other than the root was discovered by an edge
   * from it into a vertex one step earlier.
   */
  ghost predicate BackwardSound(back: (int, int) -> Updates, flow: StaticFlow, start: int, maxSteps: int,
                                vertices: map<Key, Vertex>, edges: set<Edge>) {
    && flow.Key(start) in vertices && vertices[flow.Key(start)] == Vertex(start, 0)
    && VerticesSound(flow, maxSteps, vertices)
    && (forall k | k in vertices :: flow.HasLine(vertices[k].lineNumber))
    && (forall e | e in edges :: BackEdgeSound(back, flow, maxSteps, vertices, e))
    && UniqueIds(edges)
    && AllDiscovered(flow, vertices, edges, flow.Key(start), false)
  }

  /**
   * Every vertex of a sound backward graph reaches the start key: a vertex at step n
   * starts a path of n edges, taken backward from the start key, whose i-th key is a
   * vertex at step i.
   */
  lemma {:induction false} BackwardReached(back: (int, int) -> Updates, flow: StaticFlow, start: int, maxSteps: int,
                                           vertices: map<Key, Vertex>, edges: set<Edge>, k: Key)
    returns (path: seq<Key>, via: seq<Edge>)
    requires BackwardSound(back, flow, start, maxSteps, vertices, edges)
    requires k in vertices
    ensures StepPath(flow, vertices, edges, false, path, via)
    ensures |via| == vertices[k].step && path[0] == flow.Key(start) && path[|path| - 1] == k
  {
    path, via := Reached(flow, vertices, edges, flow.Key(start), false, k);
  }

  /**
   * The line of every vertex of a sound backward graph reaches the start line by a run of
   * as many predecessors as the vertex's step.
   */
  lemma {:induction false} BackwardLineReached(back: (int, int) -> Updates, flow: StaticFlow, start: int, maxSteps: int,
                                               vertices: map<Key, Vertex>, edges: set<Edge>, k: Key)
    returns (lines: seq<int>, sides: seq<bool>)
    requires BackwardSound(back, flow, start, maxSteps, vertices, edges)
    requires k in vertices
    ensures FlowPath(flow, start, false, lines, sides)
    ensures |sides| == vertices[k].step && lines[|lines| - 1] == vertices[k].lineNumber
  {
    var path, via := BackwardReached(back, flow, start, maxSteps, vertices, edges, k);
    lines, sides := LinesOf(flow, start, vertices, edges, false, path, via);
  }

  ghost predicate BackEdgeSound(back: (int, int) -> Updates, flow: StaticFlow, maxSteps: int,
                                vertices: map<Key, Vertex>, e: Edge) {
    && e.from in vertices && e.to in vertices
    && vertices[e.to].step <= maxSteps
    && FromPredecessor(back, flow, vertices[e.to].lineNumber, e)
  }

  /**
   * A vertex is done going backward when its step is beyond the bound, or every existing
   * predecessor of its line has an edge into it.
   */
  ghost predicate BackExpanded(flow: StaticFlow, maxSteps: int, vertices: map<Key, Vertex>,
                               edges: set<Edge>, k: Key)
    requires k in vertices
  {
    var l := vertices[k].lineNumber;
    vertices[k].step <= maxSteps ==>
      forall i | 0 <= i < |flow.Prev(l)| && flow.HasLine(flow.Prev(l)[i].lineNumber) ::
        BackwardId(flow, flow.Prev(l)[i], l) in Ids(edges)
  }

  /** A finished backward graph: sound, and every vertex done. */
  ghost predicate BackwardComplete(back: (int, int) -> Updates, flow: StaticFlow, start: int, maxSteps: int,
                                   vertices: map<Key, Vertex>, edges: set<Edge>) {
    && BackwardSound(back, flow, start, maxSteps, vertices, edges)
    && (forall k {:trigger BackExpanded(flow, maxSteps, vertices, edges, k)} | k in vertices ::
          BackExpanded(flow, maxSteps, vertices, edges, k))
  }

  /** The invariant of the backward worklist loop, as the forward one. */
  ghost predicate BackwardInv(back: (int, int) -> Updates, flow: StaticFlow, start: int, maxSteps: int,
                              vertices: map<Key, Vertex>, edges: set<Edge>,
                              stack: seq<Key>, done: set<Key>, pending: set<Key>) {
    && BackwardSound(back, flow, start, maxSteps, vertices, edges)
    && (forall i | 0 <= i < |stack| :: stack[i] in vertices)
    && (forall k {:trigger k in vertices} | k in vertices :: k in stack || k in done || k in pending)
    && (forall k | k in done :: k in vertices)
    && (forall k {:trigger BackExpanded(flow, maxSteps, vertices, edges, k)} | k in done && k in vertices ::
          BackExpanded(flow, maxSteps, vertices, edges, k))
  }

  /** Backward expanded vertices stay expanded as the graph grows. */
  lemma {:induction false} BackExpandedGrows(flow: StaticFlow, maxSteps: int, vertices: map<Key, Vertex>, edges: set<Edge>,
                          vertices': map<Key, Vertex>, edges': set<Edge>, done: set<Key>)
    requires forall j | j in vertices :: j in vertices' && vertices'[j] == vertices[j]
    requires Ids(edges) <= Ids(edges')
    requires forall k | k in done :: k in vertices
    requires forall k {:trigger BackExpanded(flow, maxSteps, vertices, edges, k)} | k in done && k in vertices ::
               BackExpanded(flow, maxSteps, vertices, edges, k)
    ensures forall k | k in done :: k in vertices'
    ensures forall k {:trigger BackExpanded(flow, maxSteps, vertices', edges', k)} | k in done && k in vertices' ::
              BackExpanded(flow, maxSteps, vertices', edges', k)
  {
    forall k | k in done && k in vertices' ensures BackExpanded(flow, maxSteps, vertices', edges', k) {
      assert BackExpanded(flow, maxSteps, vertices, edges, k);
    }
  }

  /**
   * Adding the edge from an existing predecessor into an expandable vertex, whose identity
   * is new, with the predecessor's vertex at the next step unless its key is present,
   * keeps the backward graph sound and adds exactly that identity.
   */
  lemma {:induction false} BackSoundAdd(back: (int, int) -> Updates, flow: StaticFlow, start: int, maxSteps: int,
                     vertices: map<Key, Vertex>, edges: set<Edge>, nextKey: Key, i: int,
                     vertices': map<Key, Vertex>, edges': set<Edge>)
    requires BackwardSound(back, flow, start, maxSteps, vertices, edges)
    requires nextKey in vertices && vertices[nextKey].step <= maxSteps
    requires var l := vertices[nextKey].lineNumber;
             && 0 <= i < |flow.Prev(l)|
             && flow.HasLine(flow.Prev(l)[i].lineNumber)
             && BackwardId(flow, flow.Prev(l)[i], l) !in Ids(edges)
             && var p := flow.Prev(l)[i];
                var prevKey := flow.Key(p.lineNumber);
                && vertices' == (if prevKey in vertices then vertices
                                 else vertices[prevKey := Vertex(p.lineNumber, vertices[nextKey].step + 1)])
                && edges' == edges + {Edge(p.isBranch, Select(back(p.lineNumber, l), p.isBranch), prevKey, nextKey)}
    ensures BackwardSound(back, flow, start, maxSteps, vertices', edges')
    ensures Ids(edges') == Ids(edges) + {BackwardId(flow, flow.Prev(vertices[nextKey].lineNumber)[i], vertices[nextKey].lineNumber)}
  {
    var l := vertices[nextKey].lineNumber;
    var p := flow.Prev(l)[i];
    var e := BackwardEdge(back, flow, p, l);
    assert nextKey == flow.Key(l);
    assert forall j | j in vertices :: j in vertices' && vertices'[j] == vertices[j];
    assert VerticesSound(flow, maxSteps, vertices') by {
      forall j | j in vertices'
        ensures j == flow.Key(vertices'[j].lineNumber) && 0 <= vertices'[j].step &&
                (vertices'[j].step == 0 || vertices'[j].step <= maxSteps + 1)
      {
      }
    }
    assert forall d | d in edges' :: BackEdgeSound(back, flow, maxSteps, vertices', d) by {
      forall d | d in edges' ensures BackEdgeSound(back, flow, maxSteps, vertices', d) {
        if d == e {
          assert FromPredecessor(back, flow, l, d);
        } else {
          assert BackEdgeSound(back, flow, maxSteps, vertices, d);
        }
      }
    }
    assert p in flow.Prev(l);
    DiscoveredGrows(flow, vertices, edges, flow.Key(start), false, vertices', edges', e);
    AddNewId(edges, e);
  }

  /**
   * A stage of the backward expansion of the vertex v under nextKey: the loop invariant
   * holds with nextKey in expansion, and the vertex, within the bound, is still there.
   */
  ghost predicate BackStage(back: (int, int) -> Updates, flow: StaticFlow, start: int, maxSteps: int,
                            done: set<Key>, nextKey: Key, v: Vertex, st: Growth) {
    && BackwardInv(back, flow, start, maxSteps, st.vertices, st.edges, st.stack, done, {nextKey})
    && nextKey in st.vertices && st.vertices[nextKey] == v && v.step <= maxSteps
  }

  /** Handling predecessor i of the line of a vertex in backward expansion keeps the stage. */
  lemma {:induction false} BackAddStep(back: (int, int) -> Updates, flow: StaticFlow, start: int, maxSteps: int,
                                       done: set<Key>, nextKey: Key, v: Vertex, st: Growth, i: int)
    requires BackStage(back, flow, start, maxSteps, done, nextKey, v, st)
    requires 0 <= i < |flow.Prev(v.lineNumber)|
    ensures BackStage(back, flow, start, maxSteps, done, nextKey, v,
                      BackAdd(back, flow, v.lineNumber, v.step + 1, flow.Prev(v.lineNumber)[i], st))
  {
    var l := v.lineNumber;
    var p := flow.Prev(l)[i];
    var r := BackAdd(back, flow, l, v.step + 1, p, st);
    if flow.HasLine(p.lineNumber) && BackwardId(flow, p, l) !in Ids(st.edges) {
      var prevKey := flow.Key(p.lineNumber);
      assert nextKey == flow.Key(l);
      BackSoundAdd(back, flow, start, maxSteps, st.vertices, st.edges, nextKey, i, r.vertices, r.edges);
      BackExpandedGrows(flow, maxSteps, st.vertices, st.edges, r.vertices, r.edges, done);
      ScheduledStep(st.vertices, st.stack, done, {nextKey}, prevKey, r.vertices, r.stack);
    }
  }

  /** Scheduling a key that is (now) a vertex keeps every vertex scheduled, done or in expansion. */
  lemma {:induction false} ScheduledStep(vertices: map<Key, Vertex>, stack: seq<Key>, done: set<Key>, pending: set<Key>, key: Key,
                      vertices': map<Key, Vertex>, stack': seq<Key>)
    requires forall i | 0 <= i < |stack| :: stack[i] in vertices
    requires forall k {:trigger k in vertices} | k in vertices :: k in stack || k in done || k in pending
    requires forall k | k in vertices' :: k in vertices || k == key
    requires forall k | k in vertices :: k in vertices'
    requires key in vertices' && stack' == stack + [key]
    ensures forall i | 0 <= i < |stack'| :: stack'[i] in vertices'
    ensures forall k {:trigger k in vertices'} | k in vertices' :: k in stack' || k in done || k in pending
  {
    assert forall j | j in stack :: j in stack';
  }

  /** Adding the identity of an existing predecessor's edge shrinks what is missing of the backward universe. */
  lemma {:induction false} BackFewerMissing(flow: StaticFlow, l: int, i: int, edges: set<Edge>, edges': set<Edge>)
    requires flow.HasLine(l) && 0 <= i < |flow.Prev(l)|
    requires BackwardId(flow, flow.Prev(l)[i], l) !in Ids(edges)
    requires Ids(edges') == Ids(edges) + {BackwardId(flow, flow.Prev(l)[i], l)}
    ensures BackwardUniverse(flow) - Ids(edges') < BackwardUniverse(flow) - Ids(edges)
  {
    var id := BackwardId(flow, flow.Prev(l)[i], l);
    assert id in BackwardUniverse(flow);
    assert id in BackwardUniverse(flow) - Ids(edges);
  }

  /** Popping the last key of the backward worklist puts it in expansion. */
  lemma {:induction false} BackPopStep(back: (int, int) -> Updates, flow: StaticFlow, start: int, maxSteps: int,
                    vertices: map<Key, Vertex>, edges: set<Edge>, stack: seq<Key>, done: set<Key>)
    requires BackwardInv(back, flow, start, maxSteps, vertices, edges, stack, done, {})
    requires |stack| > 0
    ensures stack[|stack| - 1] in vertices
    ensures BackwardInv(back, flow, start, maxSteps, vertices, edges, stack[..|stack| - 1], done,
                        {stack[|stack| - 1]})
  {
    var rest := stack[..|stack| - 1];
    assert forall j | j in stack :: j in rest || j == stack[|stack| - 1];
  }

  /** A vertex in expansion that is backward expanded can be put with the done ones. */
  lemma {:induction false} BackDoneStep(back: (int, int) -> Updates, flow: StaticFlow, start: int, maxSteps: int,
                     vertices: map<Key, Vertex>, edges: set<Edge>, stack: seq<Key>, done: set<Key>, k: Key)
    requires BackwardInv(back, flow, start, maxSteps, vertices, edges, stack, done, {k})
    requires k in vertices && BackExpanded(flow, maxSteps, vertices, edges, k)
    ensures BackwardInv(back, flow, start, maxSteps, vertices, edges, stack, done + {k}, {})
  {
  }

  /** With the backward worklist empty, every vertex is done, so the graph is finished. */
  lemma {:induction false} BackwardFinished(back: (int, int) -> Updates, flow: StaticFlow, start: int, maxSteps: int,
                         vertices: map<Key, Vertex>, edges: set<Edge>, done: set<Key>)
    requires BackwardInv(back, flow, start, maxSteps, vertices, edges, [], done, {})
    ensures BackwardComplete(back, flow, start, maxSteps, vertices, edges)
  {
  }

  /** The updates of a predecessor, executed with the vertex's key as both next keys, are its backward outcome. */
  lemma {:induction false} BackOutcomeOfVertex(sem: Semantics, flow: StaticFlow, prevLine: int, nextLine: int)
    ensures BackOutcomes(sem, flow)(prevLine, nextLine) ==
            Execute(sem, flow, prevLine, Keys(flow.Key(prevLine), flow.Key(nextLine), flow.Key(nextLine)))
  {
  }

  /**
   * One predecessor p of a line, going backward from the vertex at that line: when p's line
   * exists and no edge with p's key, the line's key and p's side is present, p's key is
   * discovered at nextStep through p's edge into the line.
   */
  ghost function BackAdd(back: (int, int) -> Updates, flow: StaticFlow, lineNumber: int, nextStep: int,
                         p: PrevLine, st: Growth): Growth {
    if flow.HasLine(p.lineNumber) && BackwardId(flow, p, lineNumber) !in Ids(st.edges) then
      Discover(st, flow.Key(p.lineNumber), Vertex(p.lineNumber, nextStep), BackwardEdge(back, flow, p, lineNumber))
    else
      st
  }

  /** The predecessors ps handled one after the other, first to last. */
  ghost function BackFold(back: (int, int) -> Updates, flow: StaticFlow, lineNumber: int, nextStep: int,
                          ps: seq<PrevLine>, st: Growth): Growth
    decreases |ps|
  {
    if |ps| == 0 then st
    else BackAdd(back, flow, lineNumber, nextStep, ps[|ps| - 1], BackFold(back, flow, lineNumber, nextStep, ps[..|ps| - 1], st))
  }

  /** Handling the first i + 1 predecessors is handling the first i, then predecessor i. */
  lemma {:induction false} BackFoldSnoc(back: (int, int) -> Updates, flow: StaticFlow, lineNumber: int, nextStep: int,
                                        ps: seq<PrevLine>, i: int, st: Growth)
    requires 0 <= i < |ps|
    ensures BackFold(back, flow, lineNumber, nextStep, ps[..i + 1], st) ==
            BackAdd(back, flow, lineNumber, nextStep, ps[i], BackFold(back, flow, lineNumber, nextStep, ps[..i], st))
  {
    assert ps[..i + 1][..i] == ps[..i];
  }

  /** Handling all the predecessors is handling the whole prefix. */
  lemma {:induction false} BackFoldWhole(back: (int, int) -> Updates, flow: StaticFlow, lineNumber: int, nextStep: int,
                                         ps: seq<PrevLine>, st: Growth)
    ensures BackFold(back, flow, lineNumber, nextStep, ps[..|ps|], st) == BackFold(back, flow, lineNumber, nextStep, ps, st)
  {
    assert ps[..|ps|] == ps;
  }

  /** Some existing predecessor among ps contributes exactly the edge e into the line. */
  ghost predicate FromAmong(back: (int, int) -> Updates, flow: StaticFlow, lineNumber: int, ps: seq<PrevLine>, e: Edge) {
    exists i | 0 <= i < |ps| :: flow.HasLine(ps[i].lineNumber) && e == BackwardEdge(back, flow, ps[i], lineNumber)
  }

  /**
   * What handling the predecessors ps of a line adds: vertices already present are kept;
   * each new vertex is at nextStep, is scheduled and has an edge into the line's key; each
   * new edge is the edge of an existing predecessor among ps; and every existing
   * predecessor among ps has an edge identity into the line.
   */
  lemma {:induction false} BackFoldAdds(back: (int, int) -> Updates, flow: StaticFlow, lineNumber: int, nextStep: int,
                                        ps: seq<PrevLine>, st: Growth)
    ensures var r := BackFold(back, flow, lineNumber, nextStep, ps, st);
            && (forall k | k in st.vertices :: k in r.vertices && r.vertices[k] == st.vertices[k])
            && st.edges <= r.edges
            && (forall k | k in st.stack :: k in r.stack)
            && (forall k | k in r.vertices && k !in st.vertices ::
                  r.vertices[k].step == nextStep && k in r.stack &&
                  exists e | e in r.edges :: e.from == k && e.to == flow.Key(lineNumber))
            && (forall e | e in r.edges && e !in st.edges :: FromAmong(back, flow, lineNumber, ps, e))
            && (forall i | 0 <= i < |ps| && flow.HasLine(ps[i].lineNumber) :: BackwardId(flow, ps[i], lineNumber) in Ids(r.edges))
    decreases |ps|
  {
    if |ps| > 0 {
      var n := |ps| - 1;
      var p := ps[n];
      var r0 := BackFold(back, flow, lineNumber, nextStep, ps[..n], st);
      BackFoldAdds(back, flow, lineNumber, nextStep, ps[..n], st);
      var r := BackAdd(back, flow, lineNumber, nextStep, p, r0);
      var e := BackwardEdge(back, flow, p, lineNumber);
      assert r.edges == r0.edges || r.edges == r0.edges + {e};
      assert forall i | 0 <= i < n :: ps[..n][i] == ps[i];
      forall k | k in r.vertices && k !in st.vertices
        ensures r.vertices[k].step == nextStep && k in r.stack &&
                exists d | d in r.edges :: d.from == k && d.to == flow.Key(lineNumber)
      {
        if k in r0.vertices {
          var d :| d in r0.edges && d.from == k && d.to == flow.Key(lineNumber);
          assert d in r.edges;
        } else {
          assert e in r.edges && e.from == k;
        }
      }
      forall d | d in r.edges && d !in st.edges ensures FromAmong(back, flow, lineNumber, ps, d) {
        if d in r0.edges {
          var i :| 0 <= i < n && flow.HasLine(ps[..n][i].lineNumber) && d == BackwardEdge(back, flow, ps[..n][i], lineNumber);
          assert ps[..n][i] == ps[i];
        } else {
          assert flow.HasLine(ps[n].lineNumber) && d == BackwardEdge(back, flow, ps[n], lineNumber);
        }
      }
      forall i | 0 <= i < |ps| && flow.HasLine(ps[i].lineNumber) ensures BackwardId(flow, ps[i], lineNumber) in Ids(r.edges) {
        var id := BackwardId(flow, ps[i], lineNumber);
        if i < n {
          assert ps[..n][i] == ps[i];
        }
        if id in Ids(r0.edges) {
          var d :| d in r0.edges && IdOf(d) == id;
          assert d in r.edges;
        } else {
          assert i == n && IdOf(e) == id && e in r.edges;
        }
      }
    }
  }

  /**
   * Handling the first n predecessors of a line either changes neither the edges nor the
   * worklist, or adds an edge identity that was missing of the backward universe.
   */
  lemma {:induction false} BackFoldProgress(back: (int, int) -> Updates, flow: StaticFlow, lineNumber: int, nextStep: int,
                                            n: int, st: Growth)
    requires 0 <= n <= |flow.Prev(lineNumber)|
    ensures var r := BackFold(back, flow, lineNumber, nextStep, flow.Prev(lineNumber)[..n], st);
            (r.edges == st.edges && r.stack == st.stack) ||
            BackwardUniverse(flow) - Ids(r.edges) < BackwardUniverse(flow) - Ids(st.edges)
    decreases n
  {
    var ps := flow.Prev(lineNumber);
    if n == 0 {
      assert ps[..0] == [];
    } else {
      BackFoldProgress(back, flow, lineNumber, nextStep, n - 1, st);
      BackFoldSnoc(back, flow, lineNumber, nextStep, ps, n - 1, st);
      var r0 := BackFold(back, flow, lineNumber, nextStep, ps[..n - 1], st);
      var p := ps[n - 1];
      if flow.HasLine(p.lineNumber) && BackwardId(flow, p, lineNumber) !in Ids(r0.edges) {
        var e := BackwardEdge(back, flow, p, lineNumber);
        IdsAdd(r0.edges, e);
        BackFewerMissing(flow, lineNumber, n - 1, r0.edges, r0.edges + {e});
      }
    }
  }

  /** Handling the first n predecessors of the line of a vertex in backward expansion keeps the stage. */
  lemma {:induction false} BackFoldInv(back: (int, int) -> Updates, flow: StaticFlow, start: int, maxSteps: int,
                                       done: set<Key>, nextKey: Key, v: Vertex, st: Growth, n: int)
    requires BackStage(back, flow, start, maxSteps, done, nextKey, v, st)
    requires 0 <= n <= |flow.Prev(v.lineNumber)|
    ensures BackStage(back, flow, start, maxSteps, done, nextKey, v,
                      BackFold(back, flow, v.lineNumber, v.step + 1, flow.Prev(v.lineNumber)[..n], st))
    decreases n
  {
    var ps := flow.Prev(v.lineNumber);
    if n == 0 {
      assert ps[..0] == [];
    } else {
      BackFoldInv(back, flow, start, maxSteps, done, nextKey, v, st, n - 1);
      BackFoldSnoc(back, flow, v.lineNumber, v.step + 1, ps, n - 1, st);
      var r0 := BackFold(back, flow, v.lineNumber, v.step + 1, ps[..n - 1], st);
      BackAddStep(back, flow, start, maxSteps, done, nextKey, v, r0, n - 1);
    }
  }

  /**
   * The backward expansion of a vertex within the bound, from a stage of it, keeps the
   * loop invariant with the vertex done.
   */
  lemma {:induction false} BackExpandStep(back: (int, int) -> Updates, flow: StaticFlow, start: int, maxSteps: int,
                                          done: set<Key>, nextKey: Key, v: Vertex, st: Growth, r: Growth)
    requires BackStage(back, flow, start, maxSteps, done, nextKey, v, st)
    requires r == BackFold(back, flow, v.lineNumber, v.step + 1, flow.Prev(v.lineNumber), st)
    ensures BackwardInv(back, flow, start, maxSteps, r.vertices, r.edges, r.stack, done + {nextKey}, {})
  {
    var ps := flow.Prev(v.lineNumber);
    BackFoldWhole(back, flow, v.lineNumber, v.step + 1, ps, st);
    BackFoldInv(back, flow, start, maxSteps, done, nextKey, v, st, |ps|);
    BackFoldCovers(back, flow, v.lineNumber, v.step + 1, ps, st);
    BackStageDone(back, flow, start, maxSteps, done, nextKey, v, r);
  }

  /** After handling the predecessors ps, every existing one among them has an edge identity into the line. */
  lemma {:induction false} BackFoldCovers(back: (int, int) -> Updates, flow: StaticFlow, lineNumber: int, nextStep: int,
                                          ps: seq<PrevLine>, st: Growth)
    ensures var r := BackFold(back, flow, lineNumber, nextStep, ps, st);
            forall i | 0 <= i < |ps| && flow.HasLine(ps[i].lineNumber) :: BackwardId(flow, ps[i], lineNumber) in Ids(r.edges)
  {
    BackFoldAdds(back, flow, lineNumber, nextStep, ps, st);
  }

  /** A stage in which every existing predecessor of the vertex's line has an edge into it ends the expansion. */
  lemma {:induction false} BackStageDone(back: (int, int) -> Updates, flow: StaticFlow, start: int, maxSteps: int,
                                         done: set<Key>, nextKey: Key, v: Vertex, st: Growth)
    requires BackStage(back, flow, start, maxSteps, done, nextKey, v, st)
    requires forall i | 0 <= i < |flow.Prev(v.lineNumber)| && flow.HasLine(flow.Prev(v.lineNumber)[i].lineNumber) ::
               BackwardId(flow, flow.Prev(v.lineNumber)[i], v.lineNumber) in Ids(st.edges)
    ensures BackwardInv(back, flow, start, maxSteps, st.vertices, st.edges, st.stack, done + {nextKey}, {})
  {
    assert BackExpanded(flow, maxSteps, st.vertices, st.edges, nextKey);
    BackDoneStep(back, flow, start, maxSteps, st.vertices, st.edges, st.stack, done, nextKey);
  }

  /**
   * The backward expansion of a vertex either changes neither the edges nor the worklist,
   * or adds an edge identity that was missing of the backward universe.
   */
  lemma {:induction false} BackExpandProgress(back: (int, int) -> Updates, flow: StaticFlow, v: Vertex, st: Growth,
                                              vertices': map<Key, Vertex>, edges': set<Edge>, stack': seq<Key>)
    requires Growth(vertices', edges', stack') == BackFold(back, flow, v.lineNumber, v.step + 1, flow.Prev(v.lineNumber), st)
    ensures (edges' == st.edges && stack' == st.stack) ||
            BackwardUniverse(flow) - Ids(edges') < BackwardUniverse(flow) - Ids(st.edges)
  {
    var ps := flow.Prev(v.lineNumber);
    BackFoldWhole(back, flow, v.lineNumber, v.step + 1, ps, st);
    BackFoldProgress(back, flow, v.lineNumber, v.step + 1, |ps|, st);
  }

  /**
   * One predecessor of the line of a vertex in backward expansion: when the predecessor's
   * line exists and no edge with its key, the vertex's key and its side is present, the
   * predecessor is executed with its own key and the vertex's key, and its vertex (unless
   * its key is present), its edge and its key are added.
   */
  method AddPredecessor(sem: Semantics, flow: StaticFlow, g: DynamicFlow, ghost back: (int, int) -> Updates,
                        nextKey: Key, currentLineNumber: int, nextStep: int, prev: PrevLine, stack: seq<Key>)
    returns (stack': seq<Key>)
    modifies g
    requires back == BackOutcomes(sem, flow)
    requires nextKey == flow.Key(currentLineNumber)
    ensures Growth(g.vertices, g.edges, stack') ==
            BackAdd(back, flow, currentLineNumber, nextStep, prev, Growth(old(g.vertices), old(g.edges), stack))
  {
    stack' := stack;
    if flow.HasLine(prev.lineNumber) {
      var prevKey := flow.Key(prev.lineNumber);
      if !g.HasEdge(prevKey, nextKey, prev.isBranch) {
        BackOutcomeOfVertex(sem, flow, prev.lineNumber, currentLineNumber);
        var updates := Execute(sem, flow, prev.lineNumber, Keys(prevKey, nextKey, nextKey));
        assert updates == back(prev.lineNumber, currentLineNumber);
        var update := if prev.isBranch then updates.branch else updates.regular;
        g.AddVertex(prevKey, prev.lineNumber, nextStep);
        g.AddEdge(prev.isBranch, update, prevKey, nextKey);
        stack' := stack + [prevKey];
      }
    }
  }

  /**
   * The backward expansion of one popped vertex: every predecessor of its line, first to
   * last, is handled as AddPredecessor does.
   */
  method ExpandBackward(sem: Semantics, flow: StaticFlow, g: DynamicFlow, ghost back: (int, int) -> Updates,
                        nextKey: Key, stack: seq<Key>)
    returns (stack': seq<Key>)
    modifies g
    requires back == BackOutcomes(sem, flow)
    requires nextKey in g.vertices && nextKey == flow.Key(g.vertices[nextKey].lineNumber)
    ensures var v := old(g.vertices[nextKey]);
            Growth(g.vertices, g.edges, stack') ==
            BackFold(back, flow, v.lineNumber, v.step + 1, flow.Prev(v.lineNumber), Growth(old(g.vertices), old(g.edges), stack))
  {
    var step := g.Step(nextKey);
    var nextStep := step + 1;
    var currentLineNumber := g.LineNumber(nextKey);
    var prevs := flow.Prev(currentLineNumber);
    ghost var st := Growth(g.vertices, g.edges, stack);
    BackFoldWhole(back, flow, currentLineNumber, nextStep, prevs, st);
    stack' := stack;
    for i := 0 to |prevs|
      invariant Growth(g.vertices, g.edges, stack') == BackFold(back, flow, currentLineNumber, nextStep, prevs[..i], st)
    {
      BackFoldSnoc(back, flow, currentLineNumber, nextStep, prevs, i, st);
      stack' := AddPredecessor(sem, flow, g, back, nextKey, currentLineNumber, nextStep, prevs[i], stack');
    }
  }

  /**
   * One round of the backward worklist loop: the last key is popped and its vertex, when
   * its step is within the bound, is expanded; otherwise it is done.
   */
  method BackwardRound(sem: Semantics, flow: StaticFlow, g: DynamicFlow, ghost back: (int, int) -> Updates,
                       start: int, maxSteps: int, ghost done: set<Key>, stack: seq<Key>)
    returns (stack': seq<Key>)
    modifies g
    requires back == BackOutcomes(sem, flow)
    requires |stack| > 0
    requires BackwardInv(back, flow, start, maxSteps, g.vertices, g.edges, stack, done, {})
    ensures BackwardInv(back, flow, start, maxSteps, g.vertices, g.edges, stack', done + {stack[|stack| - 1]}, {})
    ensures (g.edges == old(g.edges) && |stack'| < |stack|) ||
            BackwardUniverse(flow) - Ids(g.edges) < BackwardUniverse(flow) - Ids(old(g.edges))
  {
    var nextKey := stack[|stack| - 1];
    BackPopStep(back, flow, start, maxSteps, g.vertices, g.edges, stack, done);
    stack' := stack[..|stack| - 1];
    if g.Step(nextKey) <= maxSteps {
      ghost var vertices, edges, rest, v := g.vertices, g.edges, stack', g.vertices[nextKey];
      stack' := ExpandBackward(sem, flow, g, back, nextKey, stack');
      BackExpandStep(back, flow, start, maxSteps, done, nextKey, v, Growth(vertices, edges, rest), Growth(g.vertices, g.edges, stack'));
      BackExpandProgress(back, flow, v, Growth(vertices, edges, rest), g.vertices, g.edges, stack');
    } else {
      BackDoneStep(back, flow, start, maxSteps, g.vertices, g.edges, stack', done, nextKey);
    }
  }

  /**
   * Backward construction towards a start line, depth first from a worklist of keys. A key
   * is expanded when its step is within maxSteps: every existing predecessor of its line is
   * executed into it, each adding its own key at the next step. No mismatch is checked.
   */
  method ConstructBackward(sem: Semantics, flow: StaticFlow, start: int, maxSteps: int) returns (r: Construction)
    ensures r.MissingStart? <==> !flow.HasPrev(start)
    ensures r.Built? ==>
              && fresh(r.graph)
              && r.graph.rootKey == flow.Key(start)
              && r.warnings == []
              && BackwardComplete(BackOutcomes(sem, flow), flow, start, maxSteps, r.graph.vertices, r.graph.edges)
    ensures !r.Thrown?
  {
    if !flow.HasPrev(start) {
      return MissingStart;
    }
    var rootKey := flow.Key(start);
    var stack := [rootKey];
    var g := new DynamicFlow(rootKey);
    g.AddVertex(rootKey, start, 0);
    ghost var back := BackOutcomes(sem, flow);
    ghost var done: set<Key> := {};

    while |stack| > 0
      invariant g.rootKey == rootKey
      invariant BackwardInv(back, flow, start, maxSteps, g.vertices, g.edges, stack, done, {})
      decreases BackwardUniverse(flow) - Ids(g.edges), |stack|
    {
      ghost var popped := stack[|stack| - 1];
      stack := BackwardRound(sem, flow, g, back, start, maxSteps, done, stack);
      done := done + {popped};
    }
    BackwardFinished(back, flow, start, maxSteps, g.vertices, g.edges, done);
    return Built(g, []);
  }
}
