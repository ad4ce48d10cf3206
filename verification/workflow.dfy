/**
 * `ResearchAssistant`: the fixed node graph of the research workflow, the
 * cache-based route out of `check_cache`, and the default question of `run`.
 */
module Workflow {
  import opened Wrappers

  datatype Node =
    | Fetch | CheckCache | LoadFromCache | Parse | Summarize | StoreVector
    | RetrieveContext | GenerateAnswer | CheckHallucination | CheckConsistency | ComprehensiveCheck
    | End

  datatype Route = UseCache | ProcessNew

  const DefaultQuestion: string := "What are the main contributions of this paper?"

  /**
   * `_route_based_on_cache`: a flag missing from the state (`None` here)
   * counts as false.
   */
  function RouteOf(paperCached: Option<bool>, paperCurrent: Option<bool>): (r: Route)
    ensures r == UseCache <==> paperCached == Some(true) && paperCurrent == Some(true)
  {
    if paperCached.GetOr(false) && paperCurrent.GetOr(false) then UseCache else ProcessNew
  }

  /** The edges: `check_cache` is the only node whose successor depends on the route. */
  function Next(n: Node, route: Route): (m: Node)
    ensures n == End <==> m == n
    ensures n != End ==> Distance(m) < Distance(n)
  {
    match n
    case Fetch => CheckCache
    case CheckCache => if route == UseCache then LoadFromCache else Parse
    case LoadFromCache => RetrieveContext
    case Parse => Summarize
    case Summarize => StoreVector
    case StoreVector => RetrieveContext
    case RetrieveContext => GenerateAnswer
    case GenerateAnswer => CheckHallucination
    case CheckHallucination => CheckConsistency
    case CheckConsistency => ComprehensiveCheck
    case ComprehensiveCheck => End
    case End => End
  }

  /** Steps left to `End`; every edge out of a node other than `End` lowers it. */
  function Distance(n: Node): nat {
    match n
    case Fetch => 11
    case CheckCache => 10
    case Parse => 9
    case Summarize => 8
    case StoreVector => 7
    case LoadFromCache => 6
    case RetrieveContext => 5
    case GenerateAnswer => 4
    case CheckHallucination => 3
    case CheckConsistency => 2
    case ComprehensiveCheck => 1
    case End => 0
  }

  /** The nodes visited from `n` up to and including `End`. */
  function Walk(n: Node, route: Route): (path: seq<Node>)
    ensures |path| > 0 && path[0] == n && path[|path| - 1] == End
    decreases Distance(n)
  {
    if n == End then [End]
    else
      assert Distance(Next(n, route)) < Distance(n);
      [n] + Walk(Next(n, route), route)
  }

  /** Every node but `check_cache` has the same successor on both routes. */
  lemma OnlyCheckCacheBranches(n: Node)
    ensures n != CheckCache <==> Next(n, UseCache) == Next(n, ProcessNew)
  {
  }

  function Count(path: seq<Node>, n: Node): nat {
    if path == [] then 0 else (if path[0] == n then 1 else 0) + Count(path[1..], n)
  }

  /** The two complete runs, node by node. */
  lemma Paths()
    ensures Walk(Fetch, UseCache)
            == [Fetch, CheckCache, LoadFromCache, RetrieveContext, GenerateAnswer,
                CheckHallucination, CheckConsistency, ComprehensiveCheck, End]
    ensures Walk(Fetch, ProcessNew)
            == [Fetch, CheckCache, Parse, Summarize, StoreVector, RetrieveContext, GenerateAnswer,
                CheckHallucination, CheckConsistency, ComprehensiveCheck, End]
  {
    CachedPath();
    NewPaperPath();
  }

  lemma CachedPath()
    ensures Walk(Fetch, UseCache)
            == [Fetch, CheckCache, LoadFromCache, RetrieveContext, GenerateAnswer,
                CheckHallucination, CheckConsistency, ComprehensiveCheck, End]
  {
    SharedTail(UseCache);
    var t := Walk(RetrieveContext, UseCache);
    WalkStep(LoadFromCache, UseCache, t);
    WalkStep(CheckCache, UseCache, [LoadFromCache] + t);
    WalkStep(Fetch, UseCache, [CheckCache] + ([LoadFromCache] + t));
  }

  lemma NewPaperPath()
    ensures Walk(Fetch, ProcessNew)
            == [Fetch, CheckCache, Parse, Summarize, StoreVector, RetrieveContext, GenerateAnswer,
                CheckHallucination, CheckConsistency, ComprehensiveCheck, End]
  {
    SharedTail(ProcessNew);
    var t := Walk(RetrieveContext, ProcessNew);
    WalkStep(StoreVector, ProcessNew, t);
    WalkStep(Summarize, ProcessNew, [StoreVector] + t);
    WalkStep(Parse, ProcessNew, [Summarize] + ([StoreVector] + t));
    WalkStep(CheckCache, ProcessNew, [Parse] + ([Summarize] + ([StoreVector] + t)));
    WalkStep(Fetch, ProcessNew, [CheckCache] + ([Parse] + ([Summarize] + ([StoreVector] + t))));
  }

  /** One edge of a walk: from a node other than `End`, the walk goes on from its successor. */
  lemma WalkStep(n: Node, route: Route, rest: seq<Node>)
    requires n != End && Walk(Next(n, route), route) == rest
    ensures Walk(n, route) == [n] + rest
  {
  }

  /** From `retrieve_context` on, both routes run the same nodes. */
  lemma SharedTail(route: Route)
    ensures Walk(RetrieveContext, route)
            == [RetrieveContext, GenerateAnswer, CheckHallucination, CheckConsistency, ComprehensiveCheck, End]
  {
    WalkStep(ComprehensiveCheck, route, [End]);
    WalkStep(CheckConsistency, route, [ComprehensiveCheck, End]);
    WalkStep(CheckHallucination, route, [CheckConsistency, ComprehensiveCheck, End]);
    WalkStep(GenerateAnswer, route, [CheckHallucination, CheckConsistency, ComprehensiveCheck, End]);
    WalkStep(RetrieveContext, route, [GenerateAnswer, CheckHallucination, CheckConsistency, ComprehensiveCheck, End]);
  }

  /**
   * `retrieve_context` and `comprehensive_check` are the nodes every run
   * funnels through: no edge skips over their distance to `End`.
   */
  predicate Funnel(target: Node) {
    target == RetrieveContext || target == ComprehensiveCheck
  }

  lemma {:induction false} NotVisitedPastFunnel(n: Node, route: Route, target: Node)
    requires Funnel(target) && Distance(n) < Distance(target)
    ensures Count(Walk(n, route), target) == 0
    decreases Distance(n)
  {
    if n != End {
      NotVisitedPastFunnel(Next(n, route), route, target);
      assert Walk(n, route)[1..] == Walk(Next(n, route), route);
    }
  }

  lemma {:induction false} FunnelVisitedOnce(n: Node, route: Route, target: Node)
    requires Funnel(target) && Distance(n) >= Distance(target)
    ensures Count(Walk(n, route), target) == 1
    decreases Distance(n)
  {
    var next := Next(n, route);
    assert Walk(n, route)[1..] == Walk(next, route);
    if n == target {
      NotVisitedPastFunnel(next, route, target);
    } else {
      FunnelVisitedOnce(next, route, target);
    }
  }

  /** From `fetch`, on either route, the run ends at `End`, merges at `retrieve_context` and checks once. */
  lemma EveryRunChecksOnce(route: Route)
    ensures var p := Walk(Fetch, route);
      p[|p| - 1] == End && Count(p, ComprehensiveCheck) == 1 && Count(p, RetrieveContext) == 1
  {
    FunnelVisitedOnce(Fetch, route, ComprehensiveCheck);
    FunnelVisitedOnce(Fetch, route, RetrieveContext);
  }

  /** `question or "What are the main contributions of this paper?"` */
  function QuestionOrDefault(question: Option<string>): (q: string)
    ensures question.Some? && question.value != "" ==> q == question.value
    ensures question.None? || question.value == "" ==> q == DefaultQuestion
  {
    if question.Some? && question.value != "" then question.value else DefaultQuestion
  }
}
