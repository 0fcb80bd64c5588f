# Job groups and plan job validation (vrp-pragmatic)

This project models two independent parts of the pragmatic format of the `vrp` vehicle
routing solver in Dafny and proves their properties.

**The job-group exclusivity rule** (`group_constraint.dfy`, `group_fixtures.dfy`). Jobs that
carry the same "group" tag must all be served by the same actor.
- The `GroupModule` owns one entry of the solution-level state bag, under its state key: a map
  from group tag to actor.
- `accept_insertion` binds a committed job's group to the actor of the route that received the
  job.
- `accept_solution_state` discards the map and rebuilds it from the routes alone.
- `GroupHardRouteConstraint::evaluate_job` is a read-only check. It rejects a job whose group
  is already bound to another actor, with the module's violation code.

The implementation of this module is not part of this model. Its behaviour is pinned down by
the unit tests in `vrp-pragmatic/tests/unit/constraints/group_test.rs`, and the model follows
them. Those tests are modelled too: their fixtures (`create_test_solution_context`,
`get_actor`, `compare_actor_groups`) and every parameterized case, as client code of the
module.

**The plan job validator** (`job_validation.dfy`, `capacity.dfy`). It covers four rules and the
aggregate `validate_jobs`:
- E1000: no two jobs share an id.
- E1001: pickup, delivery and replacement tasks have a demand, and service tasks have none.
- E1002: a job with both pickups and deliveries has equal summed demand on both sides.
- E1003: pickup and delivery places carry valid time windows.

`validate_jobs` runs every rule and reports all failures together. Demands are
multi-dimensional capacities (`capacity.dfy`).

Modelling choices:
- An actor is an integer id. With one driver and one detail per vehicle, the test fleet has
  one actor per vehicle, and actor `a` is the vehicle at position `a`. Equal ids mean the
  identical actor, which is what the tests' `Arc` comparison checks.
- The solution context is a class with `routes` and `state` fields. The module's methods
  update only `state`, in place, and leave `routes` as they were. The module and the
  constraint are immutable values.
- The validator is pure. A validation error is its code plus the ids it names.

## Model

| member | source | states |
|---|---|---|
| GroupConstraint.GroupHardRouteConstraint.EvaluateJob | vrp-pragmatic/tests/unit/constraints/group_test.rs:149-174 | A violation is returned exactly when the job is tagged, the state entry exists, the tag is bound and it is bound to an actor other than the route's. The violation carries the configured code. An untagged job, a missing entry, an unbound tag and a tag bound to the route's own actor all pass. |
| GroupConstraint.GroupModule.AcceptInsertion | vrp-pragmatic/tests/unit/constraints/group_test.rs:98-117 | After a tagged job is accepted into route i, its tag is bound to route i's actor and the entry exists even if it did not before. Every earlier binding and every other state key is kept, and the routes are unchanged. Afterwards the constraint admits that job on exactly the routes of that actor. An untagged job changes nothing. |
| GroupConstraint.GroupModule.AcceptSolutionState | vrp-pragmatic/tests/unit/constraints/group_test.rs:123-143 | The entry becomes the map rebuilt from the routes alone, so stale bindings are dropped. Other keys and the routes are unchanged. The method runs nested loops over routes and activities, proved against `Collect`. |
| GroupConstraint.Collect | vrp-pragmatic/tests/unit/constraints/group_test.rs:123-128 | A tag is bound iff some route carries it. A tag is bound to the actor of the first route that carries it. |
| GroupConstraint.BindRoute | vrp-pragmatic/tests/unit/constraints/group_test.rs:126 | Scanning one route binds each of its not-yet-bound tags to the route's actor, keeps the existing bindings and adds nothing else. |
| GroupConstraint.InsertionAgreesWithRebuild | vrp-pragmatic/tests/unit/constraints/group_test.rs:103-143 | The incremental update and the full rebuild agree. Insert an admitted job's activity anywhere in route i: the rebuilt map equals the old rebuilt map with the job's tag bound to route i's actor. |
| GroupConstraint.RebuildAfterAddingTag | vrp-pragmatic/tests/unit/constraints/group_test.rs:114-116 | Routes that differ only in that route i also carries a tag rebuild to the old map with that tag bound to route i's actor. |
| GroupConstraint.ModuleOwnsItsKey | vrp-pragmatic/tests/unit/constraints/group_test.rs:86-92 | A module built with a code and a key owns exactly the state keys `[key]`. It contributes exactly one constraint, with the same code and key. |
| GroupFixtures.GetActor | vrp-pragmatic/tests/unit/constraints/group_test.rs:72-74 | The result is the first actor whose vehicle has the given id. |
| GroupFixtures.ResolveGroups | vrp-pragmatic/tests/unit/constraints/group_test.rs:39-42 | The resolved map binds exactly the groups named by some pair. |
| GroupFixtures.ResolveGroupsLastWins | vrp-pragmatic/tests/unit/constraints/group_test.rs:39-42 | When several pairs name a group, the last pair decides its actor (collecting into a hash map overwrites). |
| GroupFixtures.ResolveRoute | vrp-pragmatic/tests/unit/constraints/group_test.rs:53-62 | A route given by vehicle id is served by that vehicle's actor and keeps its activities' tags in order. |
| GroupFixtures.ResolveRoutes | vrp-pragmatic/tests/unit/constraints/group_test.rs:51-66 | There are as many resolved routes as given. Each is served by the actor of its vehicle id and keeps its activities' tags in order. |
| GroupFixtures.CompareIsEquality | vrp-pragmatic/tests/unit/constraints/group_test.rs:76-84 | The tests' comparison (same size, and every key maps to the identical actor in the expectation) holds iff the two maps are equal. |
| GroupFixtures.CreateTestSolutionContext | vrp-pragmatic/tests/unit/constraints/group_test.rs:29-70 | The new context holds the resolved routes. Its state bag holds the resolved bindings under the test key, or is empty when none are given. |
| GroupFixtures.CanBuildExpectedModule | vrp-pragmatic/tests/unit/constraints/group_test.rs:86-92 | The module built for the tests owns exactly the test state key and contributes one constraint. |
| GroupFixtures.CanAcceptInsertionCase01 | vrp-pragmatic/tests/unit/constraints/group_test.rs:99 | A job tagged g1 accepted into route 0 (v1), with no state entry before, leaves a map that compares equal to {g1 -> v1}. |
| GroupFixtures.CanAcceptInsertionCase02 | vrp-pragmatic/tests/unit/constraints/group_test.rs:100 | The same insertion next to the binding g2 -> v2 leaves a map that compares equal to {g1 -> v1, g2 -> v2}. |
| GroupFixtures.CanEvaluateJob | vrp-pragmatic/tests/unit/constraints/group_test.rs:149-174 | With g1 bound to v2, a job tagged g1 on v1's route violates with the configured code. An untagged job passes, g1 on v2's route passes, and g1 passes when there is no state entry. |
| GroupFixtures.CanAcceptSolutionStateImpl | vrp-pragmatic/tests/unit/constraints/group_test.rs:131-143 | After `accept_solution_state`, the map read back compares equal to the expected bindings whenever those are the rebuild of the routes. |
| GroupFixtures.SolutionStateCase01 | vrp-pragmatic/tests/unit/constraints/group_test.rs:124 | One route of v1 tagged g1 rebuilds to {g1 -> v1}. This also covers case_04 at line 127, whose stale g2 binding plays no part. |
| GroupFixtures.SolutionStateCase02 | vrp-pragmatic/tests/unit/constraints/group_test.rs:125 | Routes of v1 and v2 tagged g1 and g2 rebuild to {g1 -> v1, g2 -> v2}. |
| GroupFixtures.SolutionStateCase03 | vrp-pragmatic/tests/unit/constraints/group_test.rs:126 | Two routes of v1 with different tags rebuild to both tags bound to v1. |
| GroupFixtures.SolutionStateCase05 | vrp-pragmatic/tests/unit/constraints/group_test.rs:128 | A route without tagged activities rebuilds to the empty map. |
| GroupFixtures.CanAcceptSolutionStateCase01 | vrp-pragmatic/tests/unit/constraints/group_test.rs:124 | After `accept_solution_state` on one route of v1 tagged g1, the map read back compares equal to {g1 -> v1}. |
| GroupFixtures.CanAcceptSolutionStateCase02 | vrp-pragmatic/tests/unit/constraints/group_test.rs:125 | Routes of v1 and v2 tagged g1 and g2 give a map that compares equal to {g1 -> v1, g2 -> v2}. |
| GroupFixtures.CanAcceptSolutionStateCase03 | vrp-pragmatic/tests/unit/constraints/group_test.rs:126 | Two routes of v1 tagged g1 and g2 give a map that compares equal to {g1 -> v1, g2 -> v1}. |
| GroupFixtures.CanAcceptSolutionStateCase04 | vrp-pragmatic/tests/unit/constraints/group_test.rs:127 | The stale binding g2 -> v2 is dropped: the map compares equal to {g1 -> v1}. |
| GroupFixtures.CanAcceptSolutionStateCase05 | vrp-pragmatic/tests/unit/constraints/group_test.rs:128 | Without tagged activities the stale binding g1 -> v1 is dropped and the map read back compares equal to the empty map. |
| GroupFixtures.AcceptSolutionStateIsIdempotent | vrp-pragmatic/tests/unit/constraints/group_test.rs:140-142 | A second `accept_solution_state` leaves exactly the state the first produced. |
| JobValidation.CheckE1000 | vrp-pragmatic/src/validation/jobs.rs:5-12 | Ok iff no two jobs share an id. Otherwise the error has code E1000 and lists exactly the shared ids, each once. |
| JobValidation.Duplicates | vrp-pragmatic/src/validation/jobs.rs:6 | The result lists exactly the ids occurring more than once, with no repeats. |
| JobValidation.OccursTwice | vrp-pragmatic/src/validation/jobs.rs:6 | An id occurs more than once iff it sits at two distinct positions. |
| JobValidation.DuplicatesAreSharedIds | vrp-pragmatic/src/validation/jobs.rs:6 | An id is a duplicate of the job ids iff two distinct jobs have it. |
| JobValidation.FlaggedIds | vrp-pragmatic/src/validation/jobs.rs:17-30 | An id is listed iff some job with that id is flagged. The list is empty iff no job is flagged, and it is never longer than the job list. |
| JobValidation.FlaggedIdsAppend | vrp-pragmatic/src/validation/jobs.rs:17-30 | Flagging a concatenation concatenates the results, so ids appear in input job order. |
| JobValidation.Any | vrp-pragmatic/src/validation/jobs.rs:26-27 | True iff some element satisfies the predicate. |
| JobValidation.InvalidDemandMeans | vrp-pragmatic/src/validation/jobs.rs:19-28 | E1001 flags a job iff some pickup, delivery or replacement task has no demand, or some service task has a demand. |
| JobValidation.CheckE1001 | vrp-pragmatic/src/validation/jobs.rs:16-41 | Ok iff no job is flagged for a task-type/demand mismatch. Otherwise the code is E1001 and the ids are the flagged jobs' ids in input order. |
| JobValidation.TaskDemand | vrp-pragmatic/src/validation/jobs.rs:51-54 | On every axis, a task with demand contributes its own demand vector and a task without demand contributes zero. |
| JobValidation.Demand | vrp-pragmatic/src/validation/jobs.rs:46-60 | Each axis of a task list's demand is the sum of that axis over its tasks. An absent list is zero. |
| JobValidation.UnbalancedDemandMeans | vrp-pragmatic/src/validation/jobs.rs:62-65 | E1002 flags a job iff it has non-empty pickups and non-empty deliveries and some axis totals differ between them. A job with only one side is never flagged. |
| JobValidation.NoDemandAddsNothing | vrp-pragmatic/src/validation/jobs.rs:51-56 | Appending a task without demand leaves every axis total unchanged. |
| JobValidation.CheckE1002 | vrp-pragmatic/src/validation/jobs.rs:44-78 | Ok iff no job has unbalanced pickup/delivery demand. Otherwise the code is E1002 and the ids are the flagged jobs' ids in input order. |
| JobValidation.InvalidTimeWindowsMeans | vrp-pragmatic/src/validation/jobs.rs:82-90 | A task list is flagged iff some place of some task carries time windows that the time-window check rejects. Places without times never count. |
| JobValidation.InvalidTimesMeans | vrp-pragmatic/src/validation/jobs.rs:92-96 | E1003 flags a job iff a pickup or delivery place carries rejected time windows. |
| JobValidation.InvalidTimesIgnoresServicesAndReplacements | vrp-pragmatic/src/validation/jobs.rs:94 | Changing a job's service or replacement tasks never changes its E1003 verdict. |
| JobValidation.CheckE1003 | vrp-pragmatic/src/validation/jobs.rs:81-107 | Ok iff no job has rejected pickup or delivery time windows. Otherwise the code is E1003 and the ids are the flagged jobs' ids in input order. |
| JobValidation.AppendInRuleOrder | vrp-pragmatic/src/validation/jobs.rs:111-118 | Two error lists in rule order, with every code of the first ranked below every code of the second, concatenate in rule order. |
| JobValidation.ChainedErrors | vrp-pragmatic/src/validation/jobs.rs:111-118 | Chaining the four results gives an empty list iff all passed. It contains exactly the failed rules' errors, each at most once, ordered E1000, E1001, E1002, E1003. |
| JobValidation.ValidateJobs | vrp-pragmatic/src/validation/jobs.rs:110-125 | Every rule is run (no fail-fast). Ok iff all four pass. Otherwise exactly the failed rules' errors, each once, in rule order. |
| Capacity.Zero | vrp-pragmatic/src/validation/jobs.rs:52 | The default capacity is zero on every axis. |
| Capacity.Add | vrp-pragmatic/src/validation/jobs.rs:56 | Addition is componentwise, with missing axes read as zero. |
| Capacity.Sub | vrp-pragmatic/src/validation/jobs.rs:65 | Subtraction is componentwise, with missing axes read as zero. |
| Capacity.IsZero | vrp-pragmatic/src/validation/jobs.rs:65 | Equal to the default capacity iff every axis is zero. |
| Capacity.Sum | vrp-pragmatic/src/validation/jobs.rs:56 | Each axis of the sum of a list of capacities is the total of that axis over the list. |

## Left out

- The implementation file of the group module is not part of this model. Its behaviour follows the test expectations at group_test.rs:94-174.
- GroupConstraint.GroupModule.AcceptInsertion: an untagged job is assumed to leave the state unchanged. No test covers it.
- GroupConstraint.GroupModule.AcceptInsertion: requires that the constraint admitted the job. Accepting a job whose tag is bound to another actor is left unspecified, because no test covers it.
- GroupConstraint.Collect: when routes of different actors carry the same tag, the first route in route order (then activity order) is assumed to win. No test covers such conflicting routes.
- The state bag holds only the group module's value type (a map from tag to actor). Other modules' state values and `accept_route_state` are not modelled.
- The constraint pipeline that calls the module is not modelled: the sequence of `accept_insertion` calls and route state updates.
- Job locations, activity construction and the dynamic `dimens` bag are not modelled. A job is reduced to its optional group tag, and a route to its actor and its activities' tags.
- `Fleet::new`, `create_typed_actor_groups` and the builders in tests/helpers/models/problem/fleet.rs are not modelled. Actor identity (`Arc` sharing) is reduced to equal integer ids.
- The `parameterized_test!` macro is not modelled. Each case is a separate method, and the tests' expectations are separate lemmas.
- JobValidation.CheckE1000: the order of the duplicated ids is left unspecified. `get_duplicates` is not part of this model, and the model lists duplicates in a fixed order of its own.
- `check_raw_time_windows` is not part of this model. It works on floating-point time windows and is a parameter `timesOk` of E1003 and of `validate_jobs`.
- `MultiDimensionalCapacity` is not part of this model. It is modelled as an integer vector whose missing axes read as zero: the default is the empty vector, `+`/`-` are componentwise, and a difference equals the default iff every axis is zero.
- Capacity.Add: 32-bit overflow of capacity components is not modelled, because integers are unbounded.
- Capacity.Sub: 32-bit overflow of capacity components is not modelled, because integers are unbounded.
- The message and suggestion text of each validation error (`format!`, `join`) is not modelled. An error is its code and the list of ids.
- The `ValidationContext` is not modelled. The plan's jobs are given directly as a sequence.
