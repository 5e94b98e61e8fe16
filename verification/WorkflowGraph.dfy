// The walk over callable workflows (scripts/workflow_contracts.py:216-243).
module WorkflowGraph {
  import opened Wrappers

  // A job calls a local workflow, or runs steps, with or without the timeout it needs.
  datatype Job = Call(target: string) | Steps(timed: bool)

  // `callable`: has the workflow_call trigger; `foreign`: has a trigger other than
  // workflow_call and workflow_dispatch.
  datatype Workflow = Workflow(callable: bool, foreign: bool, jobs: seq<Job>)

  type Graph = map<string, Workflow>

  datatype Error =
    | Recursive(chain: seq<string>, filename: string)
    | Missing(filename: string)
    | NotCallable(filename: string)
    | ForeignTrigger(filename: string)
    | NoTimeout(filename: string)

  predicate Edge(g: Graph, a: string, b: string) {
    a in g && Call(b) in g[a].jobs
  }

  predicate Passes(w: Workflow) {
    w.callable && !w.foreign && Steps(false) !in w.jobs
  }

  // ---- paths ----

  ghost predicate IsPath(g: Graph, p: seq<string>) {
    p != [] && forall i :: 0 < i < |p| ==> Edge(g, p[i - 1], p[i])
  }

  ghost predicate Joins(g: Graph, p: seq<string>, a: string, b: string) {
    IsPath(g, p) && p[0] == a && p[|p| - 1] == b
  }

  ghost predicate Reaches(g: Graph, a: string, b: string) {
    exists p :: Joins(g, p, a, b)
  }

  ghost predicate Reachable(g: Graph, roots: seq<string>, n: string) {
    exists r :: r in roots && Reaches(g, r, n)
  }

  ghost predicate OnCycle(g: Graph, n: string) {
    exists p :: |p| >= 2 && Joins(g, p, n, n)
  }

  ghost predicate GoodNode(g: Graph, n: string) {
    n in g && Passes(g[n]) && !OnCycle(g, n)
  }

  // What validate_graph promises: everything reachable exists, passes, and is on no cycle.
  ghost predicate GoodGraph(g: Graph, roots: seq<string>) {
    forall n :: Reachable(g, roots, n) ==> GoodNode(g, n)
  }

  lemma PathJoin(g: Graph, p: seq<string>, q: seq<string>, a: string, b: string, c: string)
    requires Joins(g, p, a, b) && Joins(g, q, b, c)
    ensures Joins(g, p + q[1..], a, c) && |p + q[1..]| == |p| + |q| - 1
  {
    var r := p + q[1..];
    forall i | 0 < i < |r| ensures Edge(g, r[i - 1], r[i]) {
      if i < |p| {
        assert r[i - 1] == p[i - 1];
      } else {
        assert r[i] == q[i - |p| + 1] && r[i - 1] == q[i - |p|];
      }
    }
  }

  lemma ReachSelf(g: Graph, a: string)
    ensures Reaches(g, a, a)
  {
    assert Joins(g, [a], a, a);
  }

  lemma ReachEdge(g: Graph, roots: seq<string>, a: string, b: string)
    requires Reachable(g, roots, a) && Edge(g, a, b)
    ensures Reachable(g, roots, b)
  {
    var r :| r in roots && Reaches(g, r, a);
    var p :| Joins(g, p, r, a);
    assert Joins(g, [a, b], a, b);
    PathJoin(g, p, [a, b], r, a, b);
    assert Reaches(g, r, b);
  }

  lemma ReachRoot(g: Graph, roots: seq<string>, r: string)
    requires r in roots
    ensures Reachable(g, roots, r)
  {
    ReachSelf(g, r);
  }

  // ---- the finished workflows ----

  // In finishing order: each exists, passes, and calls only earlier ones.
  ghost predicate Finished(g: Graph, order: seq<string>) {
    forall i :: 0 <= i < |order| ==>
      order[i] in g && Passes(g[order[i]]) && forall b :: Edge(g, order[i], b) ==> b in order[..i]
  }

  function Elements(s: seq<string>): set<string> { set x | x in s }

  lemma FinishedAppend(g: Graph, order: seq<string>, n: string)
    requires Finished(g, order) && n in g && Passes(g[n]) && forall b :: Edge(g, n, b) ==> b in order
    ensures Finished(g, order + [n]) && Elements(order + [n]) == Elements(order) + {n}
  {
    var next := order + [n];
    assert next[..|order|] == order;
    forall i | 0 <= i < |next|
      ensures next[i] in g && Passes(g[next[i]]) && forall b :: Edge(g, next[i], b) ==> b in next[..i]
    {
      assert i < |order| ==> next[..i] == order[..i];
    }
  }

  // Along any path from a finished workflow the finishing position falls.
  lemma {:induction false} PathFalls(g: Graph, order: seq<string>, p: seq<string>, i: nat)
    requires Finished(g, order) && IsPath(g, p) && i < |order| && order[i] == p[0]
    ensures forall n :: n in p ==> n in order
    ensures |p| > 1 ==> p[|p| - 1] in order[..i]
    decreases |p|
  {
    if |p| > 1 {
      assert Edge(g, p[0], p[1]);
      var j :| 0 <= j < i && order[j] == p[1];
      assert IsPath(g, p[1..]) by {
        forall k | 0 < k < |p[1..]| ensures Edge(g, p[1..][k - 1], p[1..][k]) { assert Edge(g, p[k], p[k + 1]); }
      }
      PathFalls(g, order, p[1..], j);
      assert p == [p[0]] + p[1..];
      assert forall n :: n in order[..j] ==> n in order[..i];
      if |p| == 2 {
        assert p[1] == order[..i][j];
      }
    }
  }

  ghost predicate FirstAt(order: seq<string>, n: string, i: nat) {
    i < |order| && order[i] == n && n !in order[..i]
  }

  lemma {:induction false} First(order: seq<string>, n: string) returns (i: nat)
    requires n in order
    ensures FirstAt(order, n, i)
    decreases |order|
  {
    if n in order[..|order| - 1] {
      i := First(order[..|order| - 1], n);
      assert order[..|order| - 1][..i] == order[..i];
    } else {
      i := |order| - 1;
    }
  }

  lemma FinishedGood(g: Graph, order: seq<string>, n: string)
    requires Finished(g, order) && n in order
    ensures GoodNode(g, n)
  {
    var i := First(order, n);
    if OnCycle(g, n) {
      var p :| |p| >= 2 && Joins(g, p, n, n);
      PathFalls(g, order, p, i);
    }
  }

  lemma FinishedClosed(g: Graph, order: seq<string>, roots: seq<string>, n: string)
    requires Finished(g, order) && (forall r :: r in roots ==> r in order) && Reachable(g, roots, n)
    ensures n in order
  {
    var r :| r in roots && Reaches(g, r, n);
    var p :| Joins(g, p, r, n);
    var i := First(order, r);
    PathFalls(g, order, p, i);
    assert p[|p| - 1] in p;
  }

  // ---- the walk ----

  // What an error proves about the graph.
  ghost predicate Witness(g: Graph, roots: seq<string>, e: Error) {
    match e
    case Recursive(chain, filename) =>
      && Reachable(g, roots, filename)
      && exists k :: 0 <= k < |chain| && chain[k] == filename && IsPath(g, chain[k..] + [filename])
    case Missing(n) => Reachable(g, roots, n) && n !in g
    case NotCallable(n) => Reachable(g, roots, n) && n in g && !g[n].callable
    case ForeignTrigger(n) => Reachable(g, roots, n) && n in g && g[n].foreign
    case NoTimeout(n) => Reachable(g, roots, n) && n in g && Steps(false) in g[n].jobs
  }

  lemma WitnessRefutes(g: Graph, roots: seq<string>, e: Error)
    requires Witness(g, roots, e)
    ensures !GoodGraph(g, roots)
  {
    if e.Recursive? {
      var k :| 0 <= k < |e.chain| && e.chain[k] == e.filename && IsPath(g, e.chain[k..] + [e.filename]);
      var p := e.chain[k..] + [e.filename];
      assert Joins(g, p, e.filename, e.filename) && |p| >= 2;
      assert OnCycle(g, e.filename);
    } else {
      assert !GoodNode(g, e.filename);
    }
  }

  ghost predicate ChainTo(g: Graph, chain: seq<string>, filename: string) {
    IsPath(g, chain + [filename])
  }

  lemma ChainCycle(g: Graph, roots: seq<string>, chain: seq<string>, filename: string)
    requires ChainTo(g, chain, filename) && filename in chain && Reachable(g, roots, filename)
    ensures Witness(g, roots, Recursive(chain, filename))
  {
    var k :| 0 <= k < |chain| && chain[k] == filename;
    var p := chain + [filename];
    assert chain[k..] + [filename] == p[k..];
    forall i | 0 < i < |p[k..]| ensures Edge(g, p[k..][i - 1], p[k..][i]) {
      assert Edge(g, p[k + i - 1], p[k + i]);
    }
  }

  lemma ChainGrows(g: Graph, chain: seq<string>, filename: string, target: string)
    requires ChainTo(g, chain, filename) && Edge(g, filename, target)
    ensures ChainTo(g, chain + [filename], target)
  {
    var p := chain + [filename];
    forall i | 0 < i < |p + [target]| ensures Edge(g, (p + [target])[i - 1], (p + [target])[i]) {
      if i < |p| {
        assert Edge(g, p[i - 1], p[i]);
      }
    }
  }

  // Visited workflows are the finished ones and those on the chain, all reachable.
  ghost predicate Progress(g: Graph, visited: set<string>, order: seq<string>, roots: seq<string>, chain: seq<string>) {
    && Finished(g, order) && visited == Elements(order) + Elements(chain)
    && (forall n :: n in chain ==> n in g && n !in order)
    && (forall n :: n in visited ==> Reachable(g, roots, n))
  }

  lemma Enter(g: Graph, visited: set<string>, order: seq<string>, roots: seq<string>, chain: seq<string>, filename: string)
    requires Progress(g, visited, order, roots, chain) && filename in g && filename !in visited && Reachable(g, roots, filename)
    ensures Progress(g, visited + {filename}, order, roots, chain + [filename])
  {
    hide Reachable, Finished;
    assert Elements(chain + [filename]) == Elements(chain) + {filename};
  }

  lemma Leave(g: Graph, visited: set<string>, order: seq<string>, roots: seq<string>, chain: seq<string>, filename: string)
    requires Progress(g, visited, order, roots, chain + [filename]) && filename !in chain && Passes(g[filename])
    requires forall job :: job in g[filename].jobs && job.Call? ==> job.target in order
    ensures Progress(g, visited, order + [filename], roots, chain)
  {
    hide Reachable;
    FinishedAppend(g, order, filename);
    assert Elements(chain + [filename]) == Elements(chain) + {filename};
    assert filename in chain + [filename];
    assert forall n :: n in chain ==> n in chain + [filename];
  }

  lemma VisitedIs(g: Graph, visited: set<string>, order: seq<string>, roots: seq<string>, chain: seq<string>, filename: string)
    requires Progress(g, visited, order, roots, chain) && filename !in chain
    ensures filename in visited <==> filename in order
  {
    hide Reachable, Finished;
  }

  class Walk {
    const workflows: Graph
    var visited: set<string>
    ghost var order: seq<string>

    constructor (g: Graph)
      ensures workflows == g && visited == {} && order == []
    {
      workflows, visited, order := g, {}, [];
    }

    ghost predicate Valid(roots: seq<string>, chain: seq<string>)
      reads this
    {
      Progress(workflows, visited, order, roots, chain)
    }

    // _callable_workflow
    method CallableWorkflow(filename: string, chain: seq<string>, ghost roots: seq<string>) returns (r: Option<Error>)
      requires Valid(roots, chain) && ChainTo(workflows, chain, filename) && Reachable(workflows, roots, filename)
      modifies this
      ensures r.None? ==> Valid(roots, chain) && filename in order && old(order) <= order
      ensures r.Some? ==> Witness(workflows, roots, r.value)
      decreases |workflows.Keys - Elements(chain)|, 0
    {
      hide IsPath, Reachable, Progress;
      if filename in chain {
        ChainCycle(workflows, roots, chain, filename);
        return Some(Recursive(chain, filename));
      }
      VisitedIs(workflows, visited, order, roots, chain, filename);
      if filename in visited {
        return None;
      }
      if filename !in workflows {
        return Some(Missing(filename));
      }
      var workflow := workflows[filename];
      if !workflow.callable {
        return Some(NotCallable(filename));
      }
      if workflow.foreign {
        return Some(ForeignTrigger(filename));
      }
      Enter(workflows, visited, order, roots, chain, filename);
      visited := visited + {filename};
      Shrinks(workflows, chain, filename);
      r := VisitJobs(filename, chain, roots);
      if r.None? {
        Leave(workflows, visited, order, roots, chain, filename);
        order := order + [filename];
      }
    }

    // The jobs of a workflow that is now on the chain.
    method VisitJobs(filename: string, chain: seq<string>, ghost roots: seq<string>) returns (r: Option<Error>)
      requires filename in workflows && Valid(roots, chain + [filename]) && ChainTo(workflows, chain, filename)
      requires Reachable(workflows, roots, filename)
      modifies this
      ensures r.None? ==> Valid(roots, chain + [filename]) && old(order) <= order
      ensures r.None? ==> forall job :: job in workflows[filename].jobs ==> job != Steps(false) && (job.Call? ==> job.target in order)
      ensures r.Some? ==> Witness(workflows, roots, r.value)
      decreases |workflows.Keys - Elements(chain + [filename])|, 1
    {
      hide IsPath, Finished, ChainTo, Reachable, Valid;
      var jobs := workflows[filename].jobs;
      var i := 0;
      while i < |jobs|
        invariant i <= |jobs| && Valid(roots, chain + [filename]) && old(order) <= order
        invariant forall k :: 0 <= k < i ==> jobs[k] != Steps(false) && (jobs[k].Call? ==> jobs[k].target in order)
      {
        var job := jobs[i];
        if job.Call? {
          ReachEdge(workflows, roots, filename, job.target);
          ChainGrows(workflows, chain, filename, job.target);
          ghost var before := order;
          r := CallableWorkflow(job.target, chain + [filename], roots);
          if r.Some? {
            return r;
          }
          assert forall n :: n in before ==> n in order;
        } else if !job.timed {
          return Some(NoTimeout(filename));
        }
        i := i + 1;
      }
      return None;
    }

    // validate_graph: succeeds exactly on good graphs, with exactly the reachable
    // workflows; an error names a real defect, and a recursion error a real cycle.
    method ValidateGraph(validators: seq<string>) returns (r: Result<set<string>, Error>)
      requires visited == {} && order == []
      modifies this
      ensures r.Ok? <==> GoodGraph(workflows, validators)
      ensures r.Ok? ==> forall n :: n in r.value <==> Reachable(workflows, validators, n)
      ensures r.Err? ==> Witness(workflows, validators, r.error)
    {
      var i := 0;
      while i < |validators|
        invariant i <= |validators| && Valid(validators, [])
        invariant forall k :: 0 <= k < i ==> validators[k] in order
      {
        ReachRoot(workflows, validators, validators[i]);
        ghost var before := order;
        var e := CallableWorkflow(validators[i], [], validators);
        if e.Some? {
          WitnessRefutes(workflows, validators, e.value);
          return Err(e.value);
        }
        assert forall n :: n in before ==> n in order;
        i := i + 1;
      }
      WholeGraph(workflows, order, validators);
      assert visited == Elements(order);
      return Ok(visited);
    }
  }

  lemma Shrinks(g: Graph, chain: seq<string>, filename: string)
    requires filename in g && filename !in chain
    ensures |g.Keys - Elements(chain + [filename])| < |g.Keys - Elements(chain)|
  {
    assert Elements(chain + [filename]) == Elements(chain) + {filename};
    assert g.Keys - Elements(chain + [filename]) == (g.Keys - Elements(chain)) - {filename};
  }

  lemma WholeGraph(g: Graph, order: seq<string>, roots: seq<string>)
    requires Finished(g, order) && forall r :: r in roots ==> r in order
    ensures GoodGraph(g, roots) && forall n :: Reachable(g, roots, n) ==> n in order
  {
    forall n | Reachable(g, roots, n) ensures GoodNode(g, n) && n in order {
      FinishedClosed(g, order, roots, n);
      FinishedGood(g, order, n);
    }
  }
}
