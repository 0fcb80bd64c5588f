/** The fixtures of the group module's unit tests and the tests themselves, as client code of
    the group module: a two-vehicle test fleet, solution contexts built from vehicle ids and
    group tags, and the comparison of a group map with an expected list of bindings. */
module GroupFixtures {
  import opened Wrappers
  import opened GroupConstraint

  const ViolationCode: int := 1
  const TestStateKey: StateKey := 2

  /** A fleet, by the vehicle ids of its actors: with one driver and one detail per vehicle
      there is one actor per vehicle, and actor `a` is the one of vehicle `fleet[a]`. */
  type Fleet = seq<string>

  const TestFleet: Fleet := ["v1", "v2"]

  /** The actor of the vehicle with the given id: the first actor whose vehicle has it. */
  function GetActor(fleet: Fleet, vehicle: string): (a: ActorId)
    requires vehicle in fleet
    ensures 0 <= a < |fleet| && fleet[a] == vehicle
    ensures forall k :: 0 <= k < a ==> fleet[k] != vehicle
  {
    if fleet[0] == vehicle then 0 else 1 + GetActor(fleet[1..], vehicle)
  }

  /** No later pair names the same group as pair `k`. */
  predicate LastForGroup(pairs: seq<(string, string)>, k: int)
  {
    0 <= k < |pairs| && forall l :: k < l < |pairs| ==> pairs[l].0 != pairs[k].0
  }

  /** (group, vehicle) pairs resolved to a group map, a later pair for a group replacing an
      earlier one. */
  function ResolveGroups(fleet: Fleet, pairs: seq<(string, string)>): (m: GroupMap)
    requires forall k :: 0 <= k < |pairs| ==> pairs[k].1 in fleet
    ensures forall g :: g in m <==> exists k :: 0 <= k < |pairs| && pairs[k].0 == g
  {
    if pairs == [] then map[]
    else
      var prefix := pairs[..|pairs| - 1];
      var last := pairs[|pairs| - 1];
      assert forall k :: 0 <= k < |prefix| ==> prefix[k] == pairs[k];
      ResolveGroups(fleet, prefix)[last.0 := GetActor(fleet, last.1)]
  }

  /** A group is bound to the actor of the last pair that names it. */
  lemma {:induction false} ResolveGroupsLastWins(fleet: Fleet, pairs: seq<(string, string)>, k: int)
    requires forall k :: 0 <= k < |pairs| ==> pairs[k].1 in fleet
    requires LastForGroup(pairs, k)
    ensures pairs[k].0 in ResolveGroups(fleet, pairs)
    ensures ResolveGroups(fleet, pairs)[pairs[k].0] == GetActor(fleet, pairs[k].1)
  {
    var prefix := pairs[..|pairs| - 1];
    if k < |prefix| {
      assert prefix[k] == pairs[k] && pairs[k].0 != pairs[|pairs| - 1].0;
      assert LastForGroup(prefix, k);
      ResolveGroupsLastWins(fleet, prefix, k);
    }
  }

  /** The tests' comparison: as many bindings as expected, and each binding present in the
      expectation with the identical actor. */
  predicate CompareActorGroups(original: GroupMap, expected: GroupMap)
  {
    && |original| == |expected|
    && forall g :: g in original ==> g in expected && expected[g] == original[g]
  }

  /** The comparison is exactly map equality. */
  lemma CompareIsEquality(original: GroupMap, expected: GroupMap)
    ensures CompareActorGroups(original, expected) <==> original == expected
  {
    if CompareActorGroups(original, expected) {
      assert original.Keys <= expected.Keys;
      assert |expected.Keys - original.Keys| == |expected.Keys| - |original.Keys| == 0;
      assert expected.Keys == original.Keys;
    }
  }

  /** A route given by its vehicle id and its activities' group tags. */
  function ResolveRoute(fleet: Fleet, route: (string, seq<Option<string>>)): (r: Route)
    requires route.0 in fleet
    ensures 0 <= r.actor < |fleet| && fleet[r.actor] == route.0 && r.groups == route.1
  {
    Route(GetActor(fleet, route.0), route.1)
  }

  /** Routes given by vehicle ids and tags, resolved one by one. */
  function ResolveRoutes(fleet: Fleet, routes: seq<(string, seq<Option<string>>)>): (r: seq<Route>)
    requires forall k :: 0 <= k < |routes| ==> routes[k].0 in fleet
    ensures |r| == |routes|
    ensures forall k :: 0 <= k < |routes| ==>
      0 <= r[k].actor < |fleet| && fleet[r[k].actor] == routes[k].0 && r[k].groups == routes[k].1
  {
    seq(|routes|, k requires 0 <= k < |routes| => ResolveRoute(fleet, routes[k]))
  }

  /** A solution context over the test fleet: its routes resolved from vehicle ids, and its
      state bag holding the given bindings under the test key, or empty when there are none. */
  method CreateTestSolutionContext(fleet: Fleet, routes: seq<(string, seq<Option<string>>)>,
                                   actorGroups: Option<seq<(string, string)>>)
    returns (solution: SolutionContext)
    requires forall k :: 0 <= k < |routes| ==> routes[k].0 in fleet
    requires actorGroups.Some? ==> forall k :: 0 <= k < |actorGroups.value| ==> actorGroups.value[k].1 in fleet
    ensures fresh(solution)
    ensures solution.routes == ResolveRoutes(fleet, routes)
    ensures solution.state ==
      if actorGroups.Some? then map[TestStateKey := ResolveGroups(fleet, actorGroups.value)] else map[]
  {
    var state: map<StateKey, GroupMap> := map[];
    if actorGroups.Some? {
      state := state[TestStateKey := ResolveGroups(fleet, actorGroups.value)];
    }
    var resolved: seq<Route> := [];
    var i := 0;
    while i < |routes|
      invariant 0 <= i <= |routes|
      invariant |resolved| == i
      invariant forall k :: 0 <= k < i ==> resolved[k] == ResolveRoute(fleet, routes[k])
    {
      resolved := resolved + [ResolveRoute(fleet, routes[i])];
      i := i + 1;
    }
    assert resolved == ResolveRoutes(fleet, routes);
    solution := new SolutionContext(resolved, state);
  }

  /** can_build_expected_module: the module's state keys and the number of its constraints. */
  method CanBuildExpectedModule() returns (keys: seq<StateKey>, constraints: nat)
    ensures keys == [TestStateKey] && constraints == 1
  {
    var groupModule := GroupModule(ViolationCode, TestStateKey);
    ModuleOwnsItsKey(ViolationCode, TestStateKey);
    keys := groupModule.StateKeys();
    constraints := |groupModule.Constraints()|;
  }

  /** can_accept_insertion, case_01: a job tagged g1 committed into route 0 (v1) with no entry
      before; the map read back is {g1 -> v1}. */
  method CanAcceptInsertionCase01() returns (groups: GroupMap)
    ensures CompareActorGroups(groups, ResolveGroups(TestFleet, [("g1", "v1")]))
  {
    var s := CreateTestSolutionContext(TestFleet, [("v1", [None])], None);
    GroupModule(ViolationCode, TestStateKey).AcceptInsertion(s, 0, Job(Some("g1")));
    groups := s.ActorGroups(TestStateKey).value;
    assert groups == map["g1" := 0];
    CompareIsEquality(groups, ResolveGroups(TestFleet, [("g1", "v1")]));
  }

  /** can_accept_insertion, case_02: the same insertion next to g2 -> v2; the map read back is
      {g1 -> v1, g2 -> v2}. */
  method CanAcceptInsertionCase02() returns (groups: GroupMap)
    ensures CompareActorGroups(groups, ResolveGroups(TestFleet, [("g1", "v1"), ("g2", "v2")]))
  {
    var s := CreateTestSolutionContext(TestFleet, [("v1", [None])], Some([("g2", "v2")]));
    GroupModule(ViolationCode, TestStateKey).AcceptInsertion(s, 0, Job(Some("g1")));
    groups := s.ActorGroups(TestStateKey).value;
    assert groups == map["g1" := 0, "g2" := 1];
    CompareIsEquality(groups, ResolveGroups(TestFleet, [("g1", "v1"), ("g2", "v2")]));
  }

  /** One route of one actor tagged `g` binds `g` to that actor. */
  lemma OneRouteRebuild(routes: seq<Route>, actor: ActorId, g: string)
    requires routes == [Route(actor, [Some(g)])]
    ensures Collect(routes) == map[g := actor]
  {
    assert FirstCarrier(routes, 0, g);
  }

  /** Two routes tagged g1 and g2 bind each tag to its route's actor, whether the actors
      differ or not. */
  lemma TwoRoutesRebuild(routes: seq<Route>, a: ActorId, b: ActorId)
    requires routes == [Route(a, [Some("g1")]), Route(b, [Some("g2")])]
    ensures Collect(routes) == map["g1" := a, "g2" := b]
  {
    assert FirstCarrier(routes, 0, "g1") && FirstCarrier(routes, 1, "g2");
    forall g | g in Collect(routes) ensures g == "g1" || g == "g2" {
      var i :| 0 <= i < |routes| && Carries(routes[i], g);
    }
  }

  /** Routes without tagged activities bind nothing. */
  lemma UntaggedRebuild(routes: seq<Route>, actor: ActorId)
    requires routes == [Route(actor, [None])]
    ensures Collect(routes) == map[]
  {
    forall g ensures g !in Collect(routes) {
      assert !Carries(routes[0], g);
    }
  }

  /** The expectations of can_accept_solution_state: the rebuilt map of each case's routes
      equals the map of its expected (group, vehicle) pairs. */
  lemma SolutionStateCase01()
    ensures Collect(ResolveRoutes(TestFleet, [("v1", [Some("g1")])]))
         == ResolveGroups(TestFleet, [("g1", "v1")])
  {
    var routes := ResolveRoutes(TestFleet, [("v1", [Some("g1")])]);
    OneRouteRebuild(routes, routes[0].actor, "g1");
  }

  lemma SolutionStateCase02()
    ensures Collect(ResolveRoutes(TestFleet, [("v1", [Some("g1")]), ("v2", [Some("g2")])]))
         == ResolveGroups(TestFleet, [("g1", "v1"), ("g2", "v2")])
  {
    var routes := ResolveRoutes(TestFleet, [("v1", [Some("g1")]), ("v2", [Some("g2")])]);
    TwoRoutesRebuild(routes, routes[0].actor, routes[1].actor);
  }

  lemma SolutionStateCase03()
    ensures Collect(ResolveRoutes(TestFleet, [("v1", [Some("g1")]), ("v1", [Some("g2")])]))
         == ResolveGroups(TestFleet, [("g1", "v1"), ("g2", "v1")])
  {
    var routes := ResolveRoutes(TestFleet, [("v1", [Some("g1")]), ("v1", [Some("g2")])]);
    TwoRoutesRebuild(routes, routes[0].actor, routes[1].actor);
  }

  lemma SolutionStateCase05()
    ensures Collect(ResolveRoutes(TestFleet, [("v1", [None])])) == ResolveGroups(TestFleet, [])
  {
    var routes := ResolveRoutes(TestFleet, [("v1", [None])]);
    UntaggedRebuild(routes, routes[0].actor);
  }

  /** can_accept_solution_state_impl: a fresh context over the given routes and bindings, the
      module's accept_solution_state, and the state entry read back; it compares equal to the
      expected bindings whenever those are what the rebuild of the routes gives. */
  method CanAcceptSolutionStateImpl(routes: seq<(string, seq<Option<string>>)>,
                                    actorGroups: Option<seq<(string, string)>>,
                                    expected: seq<(string, string)>)
    returns (groups: GroupMap)
    requires forall k :: 0 <= k < |routes| ==> routes[k].0 in TestFleet
    requires actorGroups.Some? ==> forall k :: 0 <= k < |actorGroups.value| ==> actorGroups.value[k].1 in TestFleet
    requires forall k :: 0 <= k < |expected| ==> expected[k].1 in TestFleet
    requires Collect(ResolveRoutes(TestFleet, routes)) == ResolveGroups(TestFleet, expected)
    ensures CompareActorGroups(groups, ResolveGroups(TestFleet, expected))
  {
    var s := CreateTestSolutionContext(TestFleet, routes, actorGroups);
    GroupModule(ViolationCode, TestStateKey).AcceptSolutionState(s);
    groups := s.ActorGroups(TestStateKey).value;
    CompareIsEquality(groups, ResolveGroups(TestFleet, expected));
  }

  /** can_accept_solution_state, case_01: one route of v1 tagged g1. */
  method CanAcceptSolutionStateCase01() returns (groups: GroupMap)
    ensures CompareActorGroups(groups, ResolveGroups(TestFleet, [("g1", "v1")]))
  {
    SolutionStateCase01();
    groups := CanAcceptSolutionStateImpl([("v1", [Some("g1")])], None, [("g1", "v1")]);
  }

  /** can_accept_solution_state, case_02: routes of v1 and v2 tagged g1 and g2. */
  method CanAcceptSolutionStateCase02() returns (groups: GroupMap)
    ensures CompareActorGroups(groups, ResolveGroups(TestFleet, [("g1", "v1"), ("g2", "v2")]))
  {
    SolutionStateCase02();
    groups := CanAcceptSolutionStateImpl([("v1", [Some("g1")]), ("v2", [Some("g2")])], None, [("g1", "v1"), ("g2", "v2")]);
  }

  /** can_accept_solution_state, case_03: two routes of v1 tagged g1 and g2. */
  method CanAcceptSolutionStateCase03() returns (groups: GroupMap)
    ensures CompareActorGroups(groups, ResolveGroups(TestFleet, [("g1", "v1"), ("g2", "v1")]))
  {
    SolutionStateCase03();
    groups := CanAcceptSolutionStateImpl([("v1", [Some("g1")]), ("v1", [Some("g2")])], None, [("g1", "v1"), ("g2", "v1")]);
  }

  /** can_accept_solution_state, case_04: the routes of case_01 and a stale binding g2 -> v2, which the rebuild drops. */
  method CanAcceptSolutionStateCase04() returns (groups: GroupMap)
    ensures CompareActorGroups(groups, ResolveGroups(TestFleet, [("g1", "v1")]))
  {
    SolutionStateCase01();
    groups := CanAcceptSolutionStateImpl([("v1", [Some("g1")])], Some([("g2", "v2")]), [("g1", "v1")]);
  }

  /** can_accept_solution_state, case_05: no tagged activity: the stale binding is dropped and the entry stays, empty. */
  method CanAcceptSolutionStateCase05() returns (groups: GroupMap)
    ensures CompareActorGroups(groups, ResolveGroups(TestFleet, []))
  {
    SolutionStateCase05();
    groups := CanAcceptSolutionStateImpl([("v1", [None])], Some([("g1", "v1")]), []);
  }

  /** accept_solution_state depends on the routes alone: a second call leaves the state the
      first one produced. */
  method AcceptSolutionStateIsIdempotent(groupModule: GroupModule, solution: SolutionContext)
    returns (once: map<StateKey, GroupMap>)
    modifies solution
    ensures once == old(solution.state)[groupModule.stateKey := Collect(old(solution.routes))]
    ensures solution.state == once && solution.routes == old(solution.routes)
  {
    groupModule.AcceptSolutionState(solution);
    once := solution.state;
    groupModule.AcceptSolutionState(solution);
  }

  /** can_evaluate_job: with routes v1 and v2 and g1 bound to v2, a job tagged g1 on route 0
      (v1) violates with the configured code (case_01), an untagged job passes (case_02) and g1
      on route 1 (v2) passes (case_03); with no state entry at all, g1 passes (case_04). */
  method CanEvaluateJob() returns (case01: Option<Violation>, case02: Option<Violation>,
                                   case03: Option<Violation>, case04: Option<Violation>)
    ensures case01 == Some(Violation(ViolationCode))
    ensures case02 == None && case03 == None && case04 == None
  {
    var constraint := GroupHardRouteConstraint(ViolationCode, TestStateKey);
    var s := CreateTestSolutionContext(TestFleet, [("v1", []), ("v2", [])], Some([("g1", "v2")]));
    case01 := constraint.EvaluateJob(s, s.routes[0], Job(Some("g1")));
    case02 := constraint.EvaluateJob(s, s.routes[0], Job(None));
    case03 := constraint.EvaluateJob(s, s.routes[1], Job(Some("g1")));
    var t := CreateTestSolutionContext(TestFleet, [("v1", [])], None);
    case04 := constraint.EvaluateJob(t, t.routes[0], Job(Some("g1")));
  }
}
