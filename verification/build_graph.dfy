/** Bounded-parallel execution of a dependency graph, with steps finishing in any order. */
module BuildGraph {
  import opened Wrappers

  datatype Node = Node(id: string, deps: seq<string>)

  /** What an observer sees: steps start, finish or fail, and the scheduler waits for the next one to settle. */
  datatype Event = Start(id: string) | Finish(id: string) | Fail(id: string) | Wait

  /** Everything observed so far, oldest first. */
  datatype Run = Begin | Then(before: Run, e: Event)

  datatype Verdict = Completed | Unresolved(pending: seq<string>) | StepFailed(id: string)

  // ---- Graphs --------------------------------------------------------------------------------

  function Ids(graph: seq<Node>): set<string> {
    set n | n in graph :: n.id
  }

  ghost predicate UniqueIds(graph: seq<Node>) {
    forall i, j :: 0 <= i < j < |graph| ==> graph[i].id != graph[j].id
  }

  /** The index built from the graph: a later node with the same id wins. */
  function ById(graph: seq<Node>): (index: map<string, Node>)
    ensures index.Keys == Ids(graph)
    ensures forall id :: id in index ==> index[id].id == id && index[id] in graph
  {
    if graph == [] then map[]
    else
      var last := graph[|graph| - 1];
      var front := graph[..|graph| - 1];
      assert graph == front + [last];
      ById(front)[last.id := last]
  }

  /** Every member waits for another member or for something that is no node at all. */
  ghost predicate Stuck(graph: seq<Node>, ids: set<string>) {
    forall id :: id in ids ==>
      id in ById(graph) && exists d :: d in ById(graph)[id].deps && (d in ids || d !in Ids(graph))
  }

  /** Ids are unique and no set of nodes is stuck: the graph is closed under deps and has no cycle. */
  ghost predicate Schedulable(graph: seq<Node>) {
    UniqueIds(graph) && forall ids :: Stuck(graph, ids) ==> ids == {}
  }

  // ---- Runs ----------------------------------------------------------------------------------

  /** `running` holds the slots in use: a failed step keeps its slot. */
  datatype State = State(running: set<string>, failed: set<string>, done: set<string>)

  const Idle := State({}, {}, {})

  predicate Ready(graph: seq<Node>, id: string, done: set<string>) {
    id in ById(graph) && forall d :: d in ById(graph)[id].deps ==> d in done
  }

  /**
   * What may happen next: a start respects deps and the limit, and the scheduler never waits while it could start
   * something.
   */
  ghost predicate MayFollow(graph: seq<Node>, limit: nat, s: State, e: Event) {
    match e
    case Start(id) => Ready(graph, id, s.done) && id !in s.running + s.done && |s.running| < limit
    case Finish(id) => id in s.running - s.failed
    case Fail(id) => id in s.running - s.failed
    case Wait =>
      s.running != {} &&
      (|s.running| >= limit || forall id :: Ready(graph, id, s.done) ==> id in s.running + s.done)
  }

  function Next(s: State, e: Event): State {
    match e
    case Start(id) => s.(running := s.running + {id})
    case Finish(id) => s.(running := s.running - {id}, done := s.done + {id})
    case Fail(id) => s.(failed := s.failed + {id})
    case Wait => s
  }

  function After(run: Run): State {
    match run
    case Begin => Idle
    case Then(before, e) => Next(After(before), e)
  }

  ghost predicate Legal(graph: seq<Node>, limit: nat, run: Run) {
    match run
    case Begin => true
    case Then(before, e) => Legal(graph, limit, before) && MayFollow(graph, limit, After(before), e)
  }

  /** What holds in every state of a legal run: the limit, and that only nodes whose deps are done were ever started. */
  ghost predicate Sound(graph: seq<Node>, limit: nat, s: State) {
    && |s.running| <= limit
    && s.running !! s.done
    && s.failed <= s.running
    && s.running + s.done <= Ids(graph)
    && forall id :: id in s.running + s.done ==> Ready(graph, id, s.done)
  }

  lemma {:induction false} SoundStep(graph: seq<Node>, limit: nat, s: State, e: Event)
    requires Sound(graph, limit, s) && MayFollow(graph, limit, s, e)
    ensures Sound(graph, limit, Next(s, e))
  {
    var t := Next(s, e);
    forall id | id in t.running + t.done ensures Ready(graph, id, t.done) {
      assert Ready(graph, id, s.done);
    }
  }

  lemma {:induction false} LegalIsSound(graph: seq<Node>, limit: nat, run: Run)
    requires Legal(graph, limit, run)
    ensures Sound(graph, limit, After(run))
  {
    match run
    case Begin =>
    case Then(before, e) =>
      LegalIsSound(graph, limit, before);
      SoundStep(graph, limit, After(before), e);
  }

  predicate Seen(e: Event, run: Run) {
    run.Then? && (run.e == e || Seen(e, run.before))
  }

  /** `early` is a moment of `run`. */
  predicate Moment(early: Run, run: Run) {
    early == run || (run.Then? && Moment(early, run.before))
  }

  /** The moments of a run are itself and the moments of what came before its last event. */
  lemma {:induction false} MomentsOfARun(run: Run, e: Event, early: Run)
    ensures Moment(run, run) && !Moment(Then(Begin, e), Begin)
    ensures Moment(early, Then(run, e)) <==> early == Then(run, e) || Moment(early, run)
  {
  }

  lemma {:induction false} MomentIsLegal(graph: seq<Node>, limit: nat, early: Run, run: Run)
    requires Legal(graph, limit, run) && Moment(early, run)
    ensures Legal(graph, limit, early)
  {
    if early != run {
      MomentIsLegal(graph, limit, early, run.before);
    }
  }

  /** The state remembers exactly what was seen. */
  lemma {:induction false} StateRemembers(graph: seq<Node>, limit: nat, run: Run, id: string)
    requires Legal(graph, limit, run)
    ensures id in After(run).done <==> Seen(Finish(id), run)
    ensures id in After(run).running + After(run).done <==> Seen(Start(id), run)
    ensures id in After(run).failed <==> Seen(Fail(id), run)
  {
    if run.Then? {
      StateRemembers(graph, limit, run.before, id);
    }
  }

  /**
   * At every moment of every run, a node that starts has all its dependencies finished and was not
   * started before, and the occupied slots stay within the limit.
   */
  lemma {:induction false} StartsAfterItsDeps(graph: seq<Node>, limit: nat, run: Run, early: Run)
    requires Legal(graph, limit, run) && Moment(early, run)
    ensures |After(early).running| <= limit
    ensures early.Then? && early.e.Start? ==>
      && early.e.id in ById(graph)
      && (forall d :: d in ById(graph)[early.e.id].deps ==> Seen(Finish(d), early.before))
      && !Seen(early.e, early.before)
  {
    MomentIsLegal(graph, limit, early, run);
    LegalIsSound(graph, limit, early);
    if early.Then? && early.e.Start? {
      StateRemembers(graph, limit, early.before, early.e.id);
      forall d | d in ById(graph)[early.e.id].deps ensures Seen(Finish(d), early.before) {
        StateRemembers(graph, limit, early.before, d);
      }
    }
  }

  // ---- Which graphs can be built --------------------------------------------------------------

  /** No node of a stuck set ever starts: the first of them to start would have had nothing to wait for. */
  lemma {:induction false} NothingStuckStarts(graph: seq<Node>, limit: nat, run: Run, ids: set<string>)
    requires Legal(graph, limit, run) && Stuck(graph, ids)
    ensures ids !! After(run).running + After(run).done
  {
    if run.Then? {
      NothingStuckStarts(graph, limit, run.before, ids);
      LegalIsSound(graph, limit, run.before);
    }
  }

  /** A rank that drops along every dependency makes a graph with unique ids and known deps schedulable. */
  lemma {:induction false} RankedIsSchedulable(graph: seq<Node>, rank: map<string, nat>)
    requires UniqueIds(graph) && Ids(graph) <= rank.Keys
    requires forall n, d :: n in graph && d in n.deps ==> d in Ids(graph) && rank[d] < rank[n.id]
    ensures Schedulable(graph)
  {
    forall ids | Stuck(graph, ids) ensures ids == {} {
      if ids != {} {
        var id :| id in ids;
        NoneOfRank(graph, rank, ids, rank[id]);
      }
    }
  }

  lemma {:induction false} NoneOfRank(graph: seq<Node>, rank: map<string, nat>, ids: set<string>, k: nat)
    requires Ids(graph) <= rank.Keys && Stuck(graph, ids)
    requires forall n, d :: n in graph && d in n.deps ==> d in Ids(graph) && rank[d] < rank[n.id]
    ensures forall id :: id in ids ==> id in Ids(graph) && rank[id] != k
    decreases k
  {
    forall id | id in ids ensures id in Ids(graph) && rank[id] != k {
      var d :| d in ById(graph)[id].deps && (d in ids || d !in Ids(graph));
      if rank[d] < k {
        NoneOfRank(graph, rank, ids, rank[d]);
      }
    }
  }

  // ---- The scheduler -------------------------------------------------------------------------

  /** `new Set(ids)`: each id once, where it first appeared. */
  function Distinct(graph: seq<Node>): (ids: seq<string>)
    ensures forall id :: id in ids <==> id in Ids(graph)
    ensures forall i, j :: 0 <= i < j < |ids| ==> ids[i] != ids[j]
    ensures |ids| <= |graph|
    ensures |ids| == |graph| <==> UniqueIds(graph)
  {
    if graph == [] then []
    else
      var last := graph[|graph| - 1];
      var front := graph[..|graph| - 1];
      assert graph == front + [last];
      assert Ids(graph) == Ids(front) + {last.id};
      var ids := Distinct(front);
      assert last.id in Ids(front) <==> exists i :: 0 <= i < |front| && graph[i].id == last.id by {
        assert last.id in Ids(front) ==> exists n :: n in front && n.id == last.id;
      }
      if last.id in ids then ids else ids + [last.id]
  }

  function Without(ids: seq<string>, id: string): (rest: seq<string>)
    ensures forall x :: x in rest <==> x in ids && x != id
  {
    if ids == [] then []
    else if ids[0] == id then Without(ids[1..], id)
    else [ids[0]] + Without(ids[1..], id)
  }

  lemma {:induction false} WithoutStaysDistinct(ids: seq<string>, id: string)
    requires forall i, j :: 0 <= i < j < |ids| ==> ids[i] != ids[j]
    ensures forall i, j :: 0 <= i < j < |Without(ids, id)| ==> Without(ids, id)[i] != Without(ids, id)[j]
  {
    if ids != [] {
      WithoutStaysDistinct(ids[1..], id);
      var rest := Without(ids[1..], id);
      forall k | 0 <= k < |rest| ensures rest[k] != ids[0] {
        assert rest[k] in rest;
      }
    }
  }

  /** A run that has finished every node of a graph with unique ids shows that the graph is schedulable. */
  lemma {:induction false} DoneMeansSchedulable(graph: seq<Node>, limit: nat, run: Run)
    requires Legal(graph, limit, run) && |After(run).done| >= |graph|
    ensures After(run) == State({}, {}, Ids(graph)) && Schedulable(graph)
  {
    LegalIsSound(graph, limit, run);
    AllDone(graph, After(run).done);
    assert After(run).running == {};
    forall ids | Stuck(graph, ids) ensures ids == {} {
      NothingStuckStarts(graph, limit, run, ids);
      assert ids <= Ids(graph);
    }
  }

  lemma {:induction false} AllDone(graph: seq<Node>, done: set<string>)
    requires done <= Ids(graph) && |done| >= |graph|
    ensures done == Ids(graph) && UniqueIds(graph)
  {
    DistinctSize(Distinct(graph));
    assert Ids(graph) == set id | id in Distinct(graph);
    SubsetSize(done, Ids(graph));
  }

  lemma {:induction false} SubsetSize(a: set<string>, b: set<string>)
    requires a <= b
    ensures |a| <= |b|
    ensures |a| == |b| ==> a == b
  {
    if a != {} {
      var x :| x in a;
      SubsetSize(a - {x}, b - {x});
    }
  }

  lemma {:induction false} DistinctSize(ids: seq<string>)
    requires forall i, j :: 0 <= i < j < |ids| ==> ids[i] != ids[j]
    ensures |set id | id in ids| == |ids|
  {
    if ids != [] {
      DistinctSize(ids[1..]);
      assert (set id | id in ids) == {ids[0]} + set id | id in ids[1..];
    }
  }

  /** The pending ids are the nodes neither running nor done, each once. */
  ghost predicate Matches(graph: seq<Node>, pending: seq<string>, running: set<string>, done: set<string>) {
    && (forall id :: id in pending <==> id in Ids(graph) && id !in running && id !in done)
    && (forall i, j :: 0 <= i < j < |pending| ==> pending[i] != pending[j])
  }

  lemma {:induction false} MatchesAfterStart(graph: seq<Node>, pending: seq<string>, running: set<string>,
      done: set<string>, id: string)
    requires Matches(graph, pending, running, done) && id in pending
    ensures Matches(graph, Without(pending, id), running + {id}, done)
  {
    hide Ids;
    WithoutStaysDistinct(pending, id);
  }

  lemma {:induction false} StartIsLegal(graph: seq<Node>, limit: nat, run: Run, running: set<string>,
      failed: set<string>, done: set<string>, id: string)
    requires Legal(graph, limit, run) && After(run) == State(running, failed, done)
    requires Ready(graph, id, done) && id !in running && id !in done && |running| < limit
    ensures Legal(graph, limit, Then(run, Start(id))) &&
      After(Then(run, Start(id))) == State(running + {id}, failed, done)
  {
    hide Ready;
  }

  /** Walks the pending ids in order and starts what is ready, until the slots are full. */
  method StartReady(graph: seq<Node>, limit: nat, byId: map<string, Node>, pending0: seq<string>,
      running0: set<string>, done: set<string>, ghost failed: set<string>, ghost run0: Run)
    returns (pending: seq<string>, running: set<string>, ghost run: Run)
    requires byId == ById(graph)
    requires Legal(graph, limit, run0) && After(run0) == State(running0, failed, done)
    requires Matches(graph, pending0, running0, done)
    ensures Legal(graph, limit, run) && After(run) == State(running, failed, done)
    ensures Matches(graph, pending, running, done)
    ensures |running| >= limit || forall id :: id in pending ==> !Ready(graph, id, done)
  {
    hide Matches, ById, Ids, Legal, After, Without;
    pending, running, run := pending0, running0, run0;
    PendingFacts(graph, pending, running, done);
    for i := 0 to |pending0|
      invariant Legal(graph, limit, run) && After(run) == State(running, failed, done)
      invariant Matches(graph, pending, running, done)
      invariant forall k :: i <= k < |pending0| ==> pending0[k] in pending
      invariant forall id :: id in pending ==> id in pending0
      invariant forall k :: 0 <= k < i && pending0[k] in pending ==> !Ready(graph, pending0[k], done)
    {
      if |running| >= limit {
        return;
      }
      var id := pending0[i];
      PendingFacts(graph, pending, running, done);
      if forall d :: d in byId[id].deps ==> d in done {
        MatchesAfterStart(graph, pending, running, done, id);
        StartIsLegal(graph, limit, run, running, failed, done, id);
        pending := Without(pending, id);
        running := running + {id};
        run := Then(run, Start(id));
      }
    }
  }

  lemma {:induction false} PendingFacts(graph: seq<Node>, pending: seq<string>, running: set<string>, done: set<string>)
    requires Matches(graph, pending, running, done)
    ensures forall id :: id in pending ==> id in ById(graph) && id !in running && id !in done
    ensures forall i, j :: 0 <= i < j < |pending| ==> pending[i] != pending[j]
  {
  }

  /** Some running step that has not failed yet finishes or fails. */
  method SettleOne(graph: seq<Node>, limit: nat, running0: set<string>, failed0: set<string>, done0: set<string>,
      ghost run0: Run)
    returns (running: set<string>, failed: set<string>, done: set<string>, id: string, ghost run: Run)
    requires Legal(graph, limit, run0) && After(run0) == State(running0, failed0, done0)
    requires running0 - failed0 != {}
    ensures Legal(graph, limit, run) && After(run) == State(running, failed, done)
    ensures id in running0 && (id in failed || id in done)
    ensures id !in failed ==> failed == failed0
    ensures failed0 <= failed && running - failed < running0 - failed0
    ensures done0 <= done && forall x :: x in running || x in done <==> x in running0 || x in done0
  {
    running, failed, done := running0, failed0, done0;
    id :| id in running0 - failed0;
    var fails := *;
    if fails {
      failed, run := failed + {id}, Then(run0, Fail(id));
    } else {
      running, done, run := running - {id}, done + {id}, Then(run0, Finish(id));
    }
  }

  /**
   * Waits for the next step to settle. A step that had failed earlier rejects the wait at once; otherwise
   * some running step settles, and any number of others may settle before the scheduler looks again.
   */
  method Settle(graph: seq<Node>, limit: nat, running0: set<string>, failed0: set<string>, done0: set<string>,
      ghost run0: Run)
    returns (running: set<string>, failed: set<string>, done: set<string>, rejected: Option<string>, ghost run: Run)
    requires Legal(graph, limit, run0) && After(run0) == State(running0, failed0, done0)
    requires MayFollow(graph, limit, After(run0), Wait)
    ensures Legal(graph, limit, run) && After(run) == State(running, failed, done)
    ensures rejected.Some? ==> rejected.value in failed
    ensures rejected.None? ==> done0 < done
    ensures forall x :: x in running || x in done <==> x in running0 || x in done0
  {
    LegalIsSound(graph, limit, run0);
    hide Ready, MayFollow, Sound;
    running, failed, done, rejected, run := running0, failed0, done0, None, Then(run0, Wait);
    var id;
    if failed != {} {
      id :| id in failed;
      return running, failed, done, Some(id), run;
    }
    running, failed, done, id, run := SettleOne(graph, limit, running, failed, done, run);
    if id in failed {
      return running, failed, done, Some(id), run;
    }
    assert id in done && id !in done0;
    var others: int :| 0 <= others;
    for i := 0 to others
      invariant Legal(graph, limit, run) && After(run) == State(running, failed, done)
      invariant done0 < done
      invariant forall x :: x in running || x in done <==> x in running0 || x in done0
    {
      if running - failed == {} {
        break;
      }
      running, failed, done, id, run := SettleOne(graph, limit, running, failed, done, run);
    }
  }

  /** After a failure: waits until every step still running has finished or failed, and starts none. */
  method SettleAll(graph: seq<Node>, limit: nat, running0: set<string>, failed0: set<string>, done0: set<string>,
      ghost run0: Run)
    returns (running: set<string>, failed: set<string>, done: set<string>, ghost run: Run)
    requires Legal(graph, limit, run0) && After(run0) == State(running0, failed0, done0)
    ensures Legal(graph, limit, run) && After(run) == State(running, failed, done)
    ensures running <= failed && failed0 <= failed
    ensures forall x :: x in running || x in done <==> x in running0 || x in done0
  {
    running, failed, done, run := running0, failed0, done0, run0;
    while running - failed != {}
      invariant Legal(graph, limit, run) && After(run) == State(running, failed, done)
      invariant failed0 <= failed
      invariant forall x :: x in running || x in done <==> x in running0 || x in done0
      decreases running - failed
    {
      var id;
      running, failed, done, id, run := SettleOne(graph, limit, running, failed, done, run);
    }
    assert forall x :: x in running ==> x in failed || x in running - failed;
  }

  lemma {:induction false} InitiallyPending(graph: seq<Node>)
    ensures Matches(graph, Distinct(graph), {}, {})
  {
  }

  lemma {:induction false} StillMatches(graph: seq<Node>, pending: seq<string>, running0: set<string>,
      done0: set<string>, running: set<string>, done: set<string>)
    requires Matches(graph, pending, running0, done0)
    requires forall id :: id in running || id in done <==> id in running0 || id in done0
    ensures Matches(graph, pending, running, done)
  {
  }

  lemma {:induction false} WaitIsAllowed(graph: seq<Node>, limit: nat, pending: seq<string>, running: set<string>,
      failed: set<string>, done: set<string>)
    requires Matches(graph, pending, running, done) && running != {}
    requires |running| >= limit || forall id :: id in pending ==> !Ready(graph, id, done)
    ensures MayFollow(graph, limit, State(running, failed, done), Wait)
  {
  }

  lemma {:induction false} FailedIsNode(graph: seq<Node>, limit: nat, run: Run, id: string)
    requires Legal(graph, limit, run) && id in After(run).failed
    ensures id in Ids(graph) && After(run).failed <= After(run).running
  {
    LegalIsSound(graph, limit, run);
  }

  lemma {:induction false} PendingAreNodes(graph: seq<Node>, pending: seq<string>, running: set<string>,
      done: set<string>)
    requires Matches(graph, pending, running, done)
    ensures forall id :: id in pending ==> id in Ids(graph)
  {
  }

  /**
   * Runs the graph with at most `max(1, cores)` steps at once. Which step settles next, whether it fails,
   * and how many others settle before the scheduler looks again is arbitrary, so the contract covers
   * every order of completion. A graph gives up as unresolved only if it could never have been built. A failure
   * is reported once nothing is in flight any more: every slot still in use belongs to a failed step.
   */
  method RunGraph(graph: seq<Node>, cores: int) returns (verdict: Verdict, ghost run: Run)
    ensures verdict.Completed? ==> Schedulable(graph)
    ensures verdict.Unresolved? ==> !Schedulable(graph) && forall id :: id in verdict.pending ==> id in Ids(graph)
    ensures verdict.StepFailed? ==> verdict.id in Ids(graph)
    ensures Legal(graph, if cores < 1 then 1 else cores, run)
    ensures verdict.Completed? ==> After(run) == State({}, {}, Ids(graph))
    ensures verdict.StepFailed? ==> verdict.id in After(run).failed && After(run).running == After(run).failed
    ensures verdict.Unresolved? ==>
      && After(run).running == {}
      && Matches(graph, verdict.pending, {}, After(run).done)
      && Stuck(graph, Ids(graph) - After(run).done)
      && (UniqueIds(graph) ==> verdict.pending != [])
  {
    hide Matches, Ready, Schedulable, Stuck, MayFollow, Sound, Ids;
    var limit: nat := if cores < 1 then 1 else cores;
    InitiallyPending(graph);
    var done: set<string>, running: set<string>, failed: set<string> := {}, {}, {};
    var pending := Distinct(graph);
    var byId := ById(graph);
    run := Begin;
    while |done| < |graph|
      invariant Legal(graph, limit, run) && After(run) == State(running, failed, done)
      invariant Matches(graph, pending, running, done)
      decreases |graph| - |done|
    {
      pending, running, run := StartReady(graph, limit, byId, pending, running, done, failed, run);
      if |running| == 0 {
        NothingCanStart(graph, limit, run, pending);
        PendingAreNodes(graph, pending, running, done);
        return Unresolved(pending), run;
      }
      WaitIsAllowed(graph, limit, pending, running, failed, done);
      ghost var before, was := done, running;
      var rejected;
      running, failed, done, rejected, run := Settle(graph, limit, running, failed, done, run);
      if rejected.Some? {
        running, failed, done, run := SettleAll(graph, limit, running, failed, done, run);
        FailedIsNode(graph, limit, run, rejected.value);
        return StepFailed(rejected.value), run;
      }
      SubsetSize(before, done);
      StillMatches(graph, pending, was, before, running, done);
    }
    DoneMeansSchedulable(graph, limit, run);
    return Completed, run;
  }

  /** With nothing running and nothing ready, the pending nodes wait on each other or on unknown ids. */
  lemma {:induction false} NothingCanStart(graph: seq<Node>, limit: nat, run: Run, pending: seq<string>)
    requires Legal(graph, limit, run) && After(run).running == {}
    requires Matches(graph, pending, {}, After(run).done) && |After(run).done| < |graph|
    requires forall id :: id in pending ==> !Ready(graph, id, After(run).done)
    ensures Stuck(graph, Ids(graph) - After(run).done) && !Schedulable(graph)
    ensures UniqueIds(graph) ==> pending != []
  {
    var done := After(run).done;
    var left := Ids(graph) - done;
    assert Stuck(graph, left) by {
      forall id | id in left ensures exists d :: d in ById(graph)[id].deps && (d in left || d !in Ids(graph)) {
        assert id in pending;
      }
    }
    if UniqueIds(graph) {
      SomethingLeft(graph, done);
      var id :| id in Ids(graph) && id !in done;
      assert id in pending;
    }
  }

  lemma {:induction false} SomethingLeft(graph: seq<Node>, done: set<string>)
    requires UniqueIds(graph) && |done| < |graph|
    ensures exists id :: id in Ids(graph) && id !in done
  {
    DistinctSize(Distinct(graph));
    assert Ids(graph) == set id | id in Distinct(graph);
    if Ids(graph) <= done {
      SubsetSize(Ids(graph), done);
    }
  }
}
