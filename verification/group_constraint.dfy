/** The job-group exclusivity rule: jobs that carry the same "group" tag must all be served
    by the same actor. The group module owns one entry of the solution-level state bag, a map
    from group tag to the actor bound to that group, which it updates on every accepted
    insertion and rebuilds from the routes on demand; its hard route constraint reads that
    map to reject a job whose group is bound to another actor. */
module GroupConstraint {
  import opened Wrappers

  /** An actor, by the id its fleet assigned it once; equal ids mean the identical actor. */
  type ActorId = int

  /** A key of the solution-level state bag. */
  type StateKey = int

  /** Group tag to the actor serving that group. */
  type GroupMap = map<string, ActorId>

  /** A job, reduced to the optional "group" tag of its dimensions. */
  datatype Job = Job(group: Option<string>)

  /** A route: its actor and, per activity in tour order, the group tag of the activity's job
      (None for an untagged job or an activity without a job). */
  datatype Route = Route(actor: ActorId, groups: seq<Option<string>>)

  /** A hard route constraint violation with its code. */
  datatype Violation = Violation(code: int)

  /** The routes of a solution and its solution-level state bag. Only the group module's value
      type is stored in the bag here. */
  class SolutionContext {
    var routes: seq<Route>
    var state: map<StateKey, GroupMap>

    constructor (routes: seq<Route>, state: map<StateKey, GroupMap>)
      ensures this.routes == routes && this.state == state
    {
      this.routes := routes;
      this.state := state;
    }

    /** The group map stored under `key`, if any. */
    function ActorGroups(key: StateKey): (groups: Option<GroupMap>)
      reads this
      ensures groups.Some? <==> key in state
      ensures groups.Some? ==> groups.value == state[key]
    {
      if key in state then Some(state[key]) else None
    }
  }

  // ---------------------------------------------------------------------------
  // Specification of the rebuilt map

  /** The route serves an activity whose job is tagged `g`. */
  predicate Carries(route: Route, g: string)
  {
    Some(g) in route.groups
  }

  /** Route `i` is the first route, in route order, that carries `g`. */
  predicate FirstCarrier(routes: seq<Route>, i: int, g: string)
  {
    && 0 <= i < |routes|
    && Carries(routes[i], g)
    && forall k :: 0 <= k < i ==> !Carries(routes[k], g)
  }

  /** Binds, scanning `groups` in order, every tag not yet bound in `m` to `actor`
      (first occurrence wins). */
  function BindRoute(m: GroupMap, actor: ActorId, groups: seq<Option<string>>): (r: GroupMap)
    ensures forall g :: g in r <==> g in m || Some(g) in groups
    ensures forall g :: g in m ==> r[g] == m[g]
    ensures forall g :: g !in m && Some(g) in groups ==> r[g] == actor
  {
    if groups == [] then m
    else
      var prefix := groups[..|groups| - 1];
      var last := groups[|groups| - 1];
      assert groups == prefix + [last];
      var m' := BindRoute(m, actor, prefix);
      if last.Some? && last.value !in m' then m'[last.value := actor] else m'
  }

  /** The group map rebuilt from the routes alone: routes in order, activities in tour order,
      the first occurrence of a tag binds it. Every tag found on a route is bound, no other
      tag is, and each tag goes to the actor of the first route that carries it. */
  function Collect(routes: seq<Route>): (r: GroupMap)
    ensures forall g :: g in r <==> exists i :: 0 <= i < |routes| && Carries(routes[i], g)
    ensures forall g, i :: FirstCarrier(routes, i, g) ==> g in r && r[g] == routes[i].actor
  {
    if routes == [] then map[]
    else
      var prefix := routes[..|routes| - 1];
      var last := routes[|routes| - 1];
      var before := Collect(prefix);
      assert forall i :: 0 <= i < |prefix| ==> prefix[i] == routes[i];
      var r := BindRoute(before, last.actor, last.groups);
      assert forall g, i :: FirstCarrier(routes, i, g) && i < |prefix| ==> FirstCarrier(prefix, i, g);
      assert forall g :: FirstCarrier(routes, |prefix|, g) ==> g !in before;
      r
  }

  /** A tag carried by some route has a first carrier. */
  lemma {:induction false} FirstCarrierExists(routes: seq<Route>, g: string, i: int)
    requires 0 <= i < |routes| && Carries(routes[i], g)
    ensures exists j :: FirstCarrier(routes, j, g)
    decreases i
  {
    if exists k :: 0 <= k < i && Carries(routes[k], g) {
      var k :| 0 <= k < i && Carries(routes[k], g);
      FirstCarrierExists(routes, g, k);
    } else {
      assert FirstCarrier(routes, i, g);
    }
  }

  /** The routes after the activity of a job tagged `tag` is inserted into route `i` at
      position `p`. */
  function InsertActivity(routes: seq<Route>, i: nat, p: nat, tag: Option<string>): (r: seq<Route>)
    requires i < |routes| && p <= |routes[i].groups|
    ensures |r| == |routes| && r[i].actor == routes[i].actor
    ensures r[i].groups == routes[i].groups[..p] + [tag] + routes[i].groups[p..]
    ensures forall k :: 0 <= k < |routes| && k != i ==> r[k] == routes[k]
  {
    routes[i := Route(routes[i].actor, routes[i].groups[..p] + [tag] + routes[i].groups[p..])]
  }

  /** `after` differs from `routes` only in that route `i` also carries `tag`. */
  ghost predicate AddsTagTo(routes: seq<Route>, after: seq<Route>, i: nat, tag: Option<string>)
  {
    && |after| == |routes|
    && i < |routes|
    && (forall k :: 0 <= k < |routes| ==> after[k].actor == routes[k].actor)
    && (forall k, g :: 0 <= k < |routes| ==>
         (Carries(after[k], g) <==> Carries(routes[k], g) || (k == i && tag == Some(g))))
  }

  lemma InsertActivityAddsTag(routes: seq<Route>, i: nat, p: nat, tag: Option<string>)
    requires i < |routes| && p <= |routes[i].groups|
    ensures AddsTagTo(routes, InsertActivity(routes, i, p, tag), i, tag)
  {
    var after := InsertActivity(routes, i, p, tag);
    var gs := routes[i].groups;
    assert gs == gs[..p] + gs[p..];
    assert forall x :: x in after[i].groups <==> x in gs[..p] || x == tag || x in gs[p..];
  }

  /** One tag's binding after the tag is added to route `i`. */
  lemma {:induction false} RebindOne(routes: seq<Route>, after: seq<Route>, i: nat, tag: Option<string>, g: string)
    requires AddsTagTo(routes, after, i, tag)
    requires tag.Some? && tag.value in Collect(routes) ==> Collect(routes)[tag.value] == routes[i].actor
    ensures g in Collect(after) <==> g in Collect(routes) || tag == Some(g)
    ensures g in Collect(after) ==>
      Collect(after)[g] == if tag == Some(g) then routes[i].actor else Collect(routes)[g]
  {
    if g in Collect(routes) {
      var k :| 0 <= k < |routes| && Carries(routes[k], g);
      assert Carries(after[k], g);
    }
    if tag == Some(g) {
      assert Carries(after[i], g);
    }
    if g in Collect(after) {
      var c :| 0 <= c < |after| && Carries(after[c], g);
      FirstCarrierExists(after, g, c);
      var j :| FirstCarrier(after, j, g);
      if j == i && tag == Some(g) {
        assert Collect(after)[g] == after[i].actor;
      } else {
        // The first carrier in `after` carried `g` before, and first.
        assert Carries(routes[j], g);
        assert FirstCarrier(routes, j, g);
      }
    }
  }

  /** The rebuilt map after adding `tag` to route `i` is the old one with the tag bound to
      that route's actor, provided the tag was unbound or already bound to that actor. */
  lemma RebuildAfterAddingTag(routes: seq<Route>, after: seq<Route>, i: nat, tag: Option<string>, expected: GroupMap)
    requires AddsTagTo(routes, after, i, tag)
    requires tag.Some? && tag.value in Collect(routes) ==> Collect(routes)[tag.value] == routes[i].actor
    requires expected == if tag.Some? then Collect(routes)[tag.value := routes[i].actor] else Collect(routes)
    ensures Collect(after) == expected
  {
    var rebuilt := Collect(after);
    forall g ensures g in rebuilt <==> g in expected {
      RebindOne(routes, after, i, tag, g);
    }
    forall g | g in expected ensures rebuilt[g] == expected[g] {
      RebindOne(routes, after, i, tag, g);
    }
  }

  /** Incremental and full recomputation agree: when the map equals the rebuilt one and the
      constraint admits a job on route `i`, binding the job's tag to that route's actor (what
      accepting the insertion does) gives the map rebuilt from the routes with the job's
      activity inserted, wherever in the route it goes. */
  lemma InsertionAgreesWithRebuild(routes: seq<Route>, i: nat, p: nat, tag: Option<string>)
    requires i < |routes| && p <= |routes[i].groups|
    requires tag.Some? && tag.value in Collect(routes) ==> Collect(routes)[tag.value] == routes[i].actor
    ensures Collect(InsertActivity(routes, i, p, tag)) ==
      if tag.Some? then Collect(routes)[tag.value := routes[i].actor] else Collect(routes)
  {
    InsertActivityAddsTag(routes, i, p, tag);
    RebuildAfterAddingTag(routes, InsertActivity(routes, i, p, tag), i, tag,
      if tag.Some? then Collect(routes)[tag.value := routes[i].actor] else Collect(routes));
  }

  // ---------------------------------------------------------------------------
  // The hard route constraint

  /** The group's rule as a hard route constraint, with its violation code and the state key
      under which it finds the group map. */
  datatype GroupHardRouteConstraint = GroupHardRouteConstraint(code: int, stateKey: StateKey)
  {
    /** Read-only check of inserting `job` into `route`: a violation with this constraint's
        code exactly when the job is tagged and its tag is bound, in the map under the state
        key, to an actor other than the route's. An untagged job, an unbound tag, a missing
        map entry and a binding to the route's own actor all pass. */
    function EvaluateJob(solution: SolutionContext, route: Route, job: Job): (v: Option<Violation>)
      reads solution
      ensures v.Some? <==>
        && job.group.Some?
        && stateKey in solution.state
        && job.group.value in solution.state[stateKey]
        && solution.state[stateKey][job.group.value] != route.actor
      ensures v.Some? ==> v.value.code == code
    {
      match job.group
      case None => None
      case Some(g) =>
        match solution.ActorGroups(stateKey)
        case None => None
        case Some(groups) =>
          if g in groups && groups[g] != route.actor then Some(Violation(code)) else None
    }
  }

  // ---------------------------------------------------------------------------
  // The module

  /** The group module: its violation code and the solution-level state key it owns. */
  datatype GroupModule = GroupModule(code: int, stateKey: StateKey)
  {
    /** The state keys this module owns. */
    function StateKeys(): seq<StateKey>
    {
      [stateKey]
    }

    /** The constraints this module contributes. */
    function Constraints(): seq<GroupHardRouteConstraint>
    {
      [GroupHardRouteConstraint(code, stateKey)]
    }

    /** Records that `job` was committed into route `routeIndex`: a tagged job's group becomes
        bound to that route's actor, creating the state entry if there was none; other
        bindings, other state keys and the routes are left as they were. The caller must have
        had the insertion admitted by the constraint, so no existing binding is overwritten
        with another actor. */
    method AcceptInsertion(solution: SolutionContext, routeIndex: nat, job: Job)
      requires routeIndex < |solution.routes|
      requires Constraints()[0].EvaluateJob(solution, solution.routes[routeIndex], job).None?
      modifies solution
      ensures solution.routes == old(solution.routes)
      ensures job.group.None? ==> solution.state == old(solution.state)
      ensures job.group.Some? ==>
        && solution.state - {stateKey} == old(solution.state) - {stateKey}
        && stateKey in solution.state
        && solution.state[stateKey].Keys == old(GroupsOrEmpty(solution)).Keys + {job.group.value}
        && solution.state[stateKey][job.group.value] == solution.routes[routeIndex].actor
        && forall g :: g in old(GroupsOrEmpty(solution)) ==> solution.state[stateKey][g] == old(GroupsOrEmpty(solution))[g]
      ensures job.group.Some? ==> forall route: Route ::
        Constraints()[0].EvaluateJob(solution, route, job).None? <==> route.actor == solution.routes[routeIndex].actor
    {
      match job.group {
        case None =>
        case Some(g) =>
          var groups := GroupsOrEmpty(solution);
          var actor := solution.routes[routeIndex].actor;
          solution.state := solution.state[stateKey := groups[g := actor]];
      }
    }

    /** The map under this module's key, or the empty map when there is no entry. */
    function GroupsOrEmpty(solution: SolutionContext): (groups: GroupMap)
      reads solution
      ensures stateKey !in solution.state ==> groups == map[]
    {
      if stateKey in solution.state then solution.state[stateKey] else map[]
    }

    /** Discards the map and rebuilds it from the routes alone, scanning routes in order and
        activities in tour order; the result depends on nothing but the routes, so stale
        bindings are dropped and a second call changes nothing. */
    method AcceptSolutionState(solution: SolutionContext)
      modifies solution
      ensures solution.routes == old(solution.routes)
      ensures solution.state == old(solution.state)[stateKey := Collect(solution.routes)]
    {
      var routes := solution.routes;
      var groups: GroupMap := map[];
      var i := 0;
      while i < |routes|
        invariant 0 <= i <= |routes|
        invariant groups == Collect(routes[..i])
      {
        var route := routes[i];
        var j := 0;
        ghost var before := groups;
        while j < |route.groups|
          invariant 0 <= j <= |route.groups|
          invariant groups == BindRoute(before, route.actor, route.groups[..j])
        {
          var tag := route.groups[j];
          assert route.groups[..j + 1][..j] == route.groups[..j];
          if tag.Some? && tag.value !in groups {
            groups := groups[tag.value := route.actor];
          }
          j := j + 1;
        }
        assert route.groups[..j] == route.groups;
        assert routes[..i + 1][..i] == routes[..i];
        i := i + 1;
      }
      assert routes[..i] == routes;
      solution.state := solution.state[stateKey := groups];
    }
  }

  /** The module built with a code and a key owns exactly that key and contributes exactly
      one constraint, carrying the same code and key. */
  lemma ModuleOwnsItsKey(code: int, key: StateKey)
    ensures GroupModule(code, key).StateKeys() == [key]
    ensures |GroupModule(code, key).Constraints()| == 1
    ensures GroupModule(code, key).Constraints()[0] == GroupHardRouteConstraint(code, key)
  {
  }
}
