/** The plan's job rules E1000-E1003 and the aggregate that reports every failing rule
    together (vrp-pragmatic/src/validation/jobs.rs). Each rule filters the plan's jobs in
    input order and fails with its code and the offending job ids. */
module JobValidation {
  import opened Wrappers
  import opened Capacity

  /** Raw time windows of a place, as the plan gives them (pairs of date-time strings). */
  type RawTimes = seq<seq<string>>

  /** A place where a task may be served; only its optional time windows matter here. */
  datatype JobPlace = JobPlace(times: Option<RawTimes>)

  /** A job task: the places it may be served at and its optional demand vector. */
  datatype JobTask = JobTask(places: seq<JobPlace>, demand: Option<seq<int>>)

  /** A plan job: its id and its optional task lists per task type. */
  datatype Job = Job(
    id: string,
    pickups: Option<seq<JobTask>>,
    deliveries: Option<seq<JobTask>>,
    replacements: Option<seq<JobTask>>,
    services: Option<seq<JobTask>>)

  /** A validation error, reduced to its code and the ids it names. */
  datatype ValidationError = ValidationError(code: string, ids: seq<string>)

  // ---------------------------------------------------------------------------
  // Iterator building blocks

  /** `iter().any(p)`. */
  function Any<T>(xs: seq<T>, p: T -> bool): (b: bool)
    ensures b <==> exists k :: 0 <= k < |xs| && p(xs[k])
  {
    if xs == [] then false else p(xs[0]) || Any(xs[1..], p)
  }

  /** The tasks of an optional task list; an absent list has none. */
  function Tasks(tasks: Option<seq<JobTask>>): seq<JobTask>
  {
    if tasks.Some? then tasks.value else []
  }

  /** The ids of the jobs that `flagged` selects, in input order
      (`filter(flagged).map(|job| job.id.clone()).collect()`). */
  function FlaggedIds(jobs: seq<Job>, flagged: Job -> bool): (ids: seq<string>)
    ensures |ids| <= |jobs|
    ensures forall x :: x in ids <==> exists i :: 0 <= i < |jobs| && flagged(jobs[i]) && jobs[i].id == x
    ensures ids == [] <==> forall i :: 0 <= i < |jobs| ==> !flagged(jobs[i])
  {
    if jobs == [] then []
    else
      var rest := FlaggedIds(jobs[1..], flagged);
      assert forall i :: 1 <= i < |jobs| ==> jobs[i] == jobs[1..][i - 1];
      (if flagged(jobs[0]) then [jobs[0].id] else []) + rest
  }

  /** Flagged ids keep the input order: filtering a concatenation concatenates the results. */
  lemma {:induction false} FlaggedIdsAppend(a: seq<Job>, b: seq<Job>, flagged: Job -> bool)
    ensures FlaggedIds(a + b, flagged) == FlaggedIds(a, flagged) + FlaggedIds(b, flagged)
  {
    if a == [] {
      assert a + b == b;
    } else {
      assert (a + b)[0] == a[0];
      assert (a + b)[1..] == a[1..] + b;
      FlaggedIdsAppend(a[1..], b, flagged);
      var head := if flagged(a[0]) then [a[0].id] else [];
      calc {
        FlaggedIds(a + b, flagged);
        head + FlaggedIds(a[1..] + b, flagged);
        head + (FlaggedIds(a[1..], flagged) + FlaggedIds(b, flagged));
        (head + FlaggedIds(a[1..], flagged)) + FlaggedIds(b, flagged);
        FlaggedIds(a, flagged) + FlaggedIds(b, flagged);
      }
    }
  }

  /** A rule's result: Ok when nothing was flagged, otherwise its code with the ids. */
  function Report(code: string, ids: seq<string>): (r: Result<(), ValidationError>)
    ensures r.Ok? <==> ids == []
    ensures r.Err? ==> r.error == ValidationError(code, ids)
  {
    if ids == [] then Ok(()) else Err(ValidationError(code, ids))
  }

  // ---------------------------------------------------------------------------
  // E1000: duplicate job ids

  /** Number of occurrences of `x` in `s`. */
  function Occurrences(s: seq<string>, x: string): nat
  {
    multiset(s)[x]
  }

  /** The ids occurring more than once, each listed once. */
  function Duplicates(ids: seq<string>): (dups: seq<string>)
    ensures forall x :: x in dups <==> Occurrences(ids, x) > 1
    ensures forall i, j :: 0 <= i < j < |dups| ==> dups[i] != dups[j]
  {
    if ids == [] then []
    else
      var rest := Duplicates(ids[1..]);
      assert ids == [ids[0]] + ids[1..];
      assert forall x :: multiset(ids)[x] == multiset([ids[0]])[x] + multiset(ids[1..])[x];
      if ids[0] in ids[1..] && ids[0] !in rest then [ids[0]] + rest else rest
  }

  /** Occurring more than once means sitting at two distinct positions. */
  lemma {:induction false} OccursTwice(s: seq<string>, x: string)
    ensures Occurrences(s, x) > 1 <==> exists i, j :: 0 <= i < j < |s| && s[i] == x && s[j] == x
  {
    if s != [] {
      OccursTwice(s[1..], x);
      assert s == [s[0]] + s[1..];
      assert multiset(s)[x] == multiset([s[0]])[x] + multiset(s[1..])[x];
      if exists i, j :: 0 <= i < j < |s| && s[i] == x && s[j] == x {
        var i, j :| 0 <= i < j < |s| && s[i] == x && s[j] == x;
        if i == 0 {
          assert s[1..][j - 1] == x;
        } else {
          assert s[1..][i - 1] == x && s[1..][j - 1] == x;
        }
      }
      if Occurrences(s, x) > 1 {
        if s[0] == x {
          assert x in s[1..];
          var j :| 0 <= j < |s[1..]| && s[1..][j] == x;
          assert s[0] == x && s[j + 1] == x;
        } else {
          var i, j :| 0 <= i < j < |s[1..]| && s[1..][i] == x && s[1..][j] == x;
          assert s[i + 1] == x && s[j + 1] == x;
        }
      }
    }
  }

  function JobIds(jobs: seq<Job>): (ids: seq<string>)
    ensures |ids| == |jobs| && forall i :: 0 <= i < |jobs| ==> ids[i] == jobs[i].id
  {
    seq(|jobs|, i requires 0 <= i < |jobs| => jobs[i].id)
  }

  /** Two distinct jobs of the plan share the id `x`. */
  ghost predicate SharedId(jobs: seq<Job>, x: string)
  {
    exists i, j :: 0 <= i < j < |jobs| && jobs[i].id == x && jobs[j].id == x
  }

  lemma DuplicatesAreSharedIds(jobs: seq<Job>, x: string)
    ensures x in Duplicates(JobIds(jobs)) <==> SharedId(jobs, x)
  {
    var ids := JobIds(jobs);
    OccursTwice(ids, x);
    if SharedId(jobs, x) {
      var i, j :| 0 <= i < j < |jobs| && jobs[i].id == x && jobs[j].id == x;
      assert ids[i] == x && ids[j] == x;
    }
  }

  /** E1000: Ok exactly when no two jobs share an id; otherwise the error lists every
      shared id, each once. */
  function CheckE1000(jobs: seq<Job>): (r: Result<(), ValidationError>)
    ensures r.Ok? <==> forall i, j :: 0 <= i < j < |jobs| ==> jobs[i].id != jobs[j].id
    ensures r.Err? ==> r.error.code == "E1000"
    ensures r.Err? ==> forall x :: x in r.error.ids <==> SharedId(jobs, x)
    ensures r.Err? ==> forall i, j :: 0 <= i < j < |r.error.ids| ==> r.error.ids[i] != r.error.ids[j]
  {
    var dups := Duplicates(JobIds(jobs));
    assert forall x :: x in dups <==> SharedId(jobs, x) by {
      forall x { DuplicatesAreSharedIds(jobs, x); }
    }
    assert dups != [] ==> dups[0] in dups;
    assert dups == [] ==> forall i, j :: 0 <= i < j < |jobs| ==> jobs[i].id != jobs[j].id by {
      forall i, j | 0 <= i < j < |jobs| && jobs[i].id == jobs[j].id
        ensures SharedId(jobs, jobs[i].id)
      {
      }
    }
    Report("E1000", dups)
  }

  // ---------------------------------------------------------------------------
  // E1001: task type against demand

  function NoDemand(task: JobTask): bool { task.demand.None? }

  function HasDemand(task: JobTask): bool { task.demand.Some? }

  /** The job has a pickup, delivery or replacement task without demand, or a service task
      with demand. */
  function HasInvalidDemand(job: Job): bool
  {
    Any(Tasks(job.pickups) + Tasks(job.deliveries) + Tasks(job.replacements), NoDemand)
    || Any(Tasks(job.services), HasDemand)
  }

  /** The flagging condition, task list by task list. */
  lemma InvalidDemandMeans(job: Job)
    ensures HasInvalidDemand(job) <==>
      || (exists t :: t in Tasks(job.pickups) && t.demand.None?)
      || (exists t :: t in Tasks(job.deliveries) && t.demand.None?)
      || (exists t :: t in Tasks(job.replacements) && t.demand.None?)
      || (exists t :: t in Tasks(job.services) && t.demand.Some?)
  {
    var demanding := Tasks(job.pickups) + Tasks(job.deliveries) + Tasks(job.replacements);
    assert forall t :: t in demanding <==>
      t in Tasks(job.pickups) || t in Tasks(job.deliveries) || t in Tasks(job.replacements);
    assert Any(demanding, NoDemand) <==> exists t :: t in demanding && t.demand.None? by {
      if Any(demanding, NoDemand) {
        var k :| 0 <= k < |demanding| && NoDemand(demanding[k]);
        assert demanding[k] in demanding;
      }
    }
    var services := Tasks(job.services);
    assert Any(services, HasDemand) <==> exists t :: t in services && t.demand.Some? by {
      if Any(services, HasDemand) {
        var k :| 0 <= k < |services| && HasDemand(services[k]);
        assert services[k] in services;
      }
    }
  }

  /** E1001: Ok exactly when no job has a task-type/demand mismatch; otherwise the error
      lists the mismatched jobs' ids in input order. */
  function CheckE1001(jobs: seq<Job>): (r: Result<(), ValidationError>)
    ensures r.Ok? <==> forall i :: 0 <= i < |jobs| ==> !HasInvalidDemand(jobs[i])
    ensures r.Err? ==> r.error.code == "E1001"
    ensures r.Err? ==> r.error.ids == FlaggedIds(jobs, HasInvalidDemand)
  {
    Report("E1001", FlaggedIds(jobs, HasInvalidDemand))
  }

  // ---------------------------------------------------------------------------
  // E1002: pickup demand against delivery demand

  /** The optional task list is present and non-empty. */
  function HasTasks(tasks: Option<seq<JobTask>>): bool
  {
    tasks.Some? && |tasks.value| > 0
  }

  /** A task's demand as a capacity; no demand is the default (zero) capacity. */
  function TaskDemand(task: JobTask): (d: Load)
    ensures forall k: nat :: Component(d, k) == if task.demand.Some? then Component(task.demand.value, k) else 0
  {
    if task.demand.Some? then task.demand.value else Zero()
  }

  function TaskDemands(tasks: seq<JobTask>): (ds: seq<Load>)
    ensures |ds| == |tasks| && forall i :: 0 <= i < |tasks| ==> ds[i] == TaskDemand(tasks[i])
  {
    seq(|tasks|, i requires 0 <= i < |tasks| => TaskDemand(tasks[i]))
  }

  /** The summed demand of an optional task list; an absent list sums to zero. */
  function Demand(tasks: Option<seq<JobTask>>): (d: Load)
    ensures forall k: nat :: Component(d, k) == AxisSum(TaskDemands(Tasks(tasks)), k)
  {
    if tasks.Some? then Sum(TaskDemands(tasks.value)) else Zero()
  }

  /** The job has pickups and deliveries whose summed demands differ. */
  function HasUnbalancedDemand(job: Job): bool
  {
    HasTasks(job.pickups) && HasTasks(job.deliveries)
    && !IsZero(Sub(Demand(job.pickups), Demand(job.deliveries)))
  }

  /** The flagging condition axis by axis: some resource axis totals differently over the
      pickups than over the deliveries. */
  lemma UnbalancedDemandMeans(job: Job)
    ensures HasUnbalancedDemand(job) <==>
      HasTasks(job.pickups) && HasTasks(job.deliveries) &&
      exists k: nat :: AxisSum(TaskDemands(Tasks(job.pickups)), k) != AxisSum(TaskDemands(Tasks(job.deliveries)), k)
  {
    var pickups, deliveries := TaskDemands(Tasks(job.pickups)), TaskDemands(Tasks(job.deliveries));
    var diff := Sub(Demand(job.pickups), Demand(job.deliveries));
    forall k: nat
      ensures Component(diff, k) != 0 <==> AxisSum(pickups, k) != AxisSum(deliveries, k)
    {
    }
    if exists k: nat :: AxisSum(pickups, k) != AxisSum(deliveries, k) {
      var k: nat :| AxisSum(pickups, k) != AxisSum(deliveries, k);
      assert Component(diff, k) != 0;
      assert !IsZero(diff);
      // The witness, in the terms of the postcondition.
      assert AxisSum(TaskDemands(Tasks(job.pickups)), k) != AxisSum(TaskDemands(Tasks(job.deliveries)), k);
    } else {
      assert IsZero(diff);
    }
  }

  /** Extending a task list with a task that carries no demand leaves every axis total unchanged. */
  lemma {:induction false} NoDemandAddsNothing(tasks: seq<JobTask>, task: JobTask, k: nat)
    requires task.demand.None?
    ensures AxisSum(TaskDemands(tasks + [task]), k) == AxisSum(TaskDemands(tasks), k)
  {
    if tasks == [] {
      assert TaskDemands([task]) == [TaskDemand(task)];
      assert TaskDemands([task])[1..] == [];
    } else {
      assert TaskDemands(tasks + [task])[1..] == TaskDemands(tasks[1..] + [task]);
      assert TaskDemands(tasks)[1..] == TaskDemands(tasks[1..]);
      assert tasks + [task] == [tasks[0]] + (tasks[1..] + [task]);
      NoDemandAddsNothing(tasks[1..], task, k);
    }
  }

  /** E1002: Ok exactly when every job with both pickups and deliveries has balanced
      demand; otherwise the error lists the unbalanced jobs' ids in input order. */
  function CheckE1002(jobs: seq<Job>): (r: Result<(), ValidationError>)
    ensures r.Ok? <==> forall i :: 0 <= i < |jobs| ==> !HasUnbalancedDemand(jobs[i])
    ensures r.Err? ==> r.error.code == "E1002"
    ensures r.Err? ==> r.error.ids == FlaggedIds(jobs, HasUnbalancedDemand)
  {
    Report("E1002", FlaggedIds(jobs, HasUnbalancedDemand))
  }

  // ---------------------------------------------------------------------------
  // E1003: time windows

  /** The place carries time windows that `timesOk` (check_raw_time_windows) rejects. */
  function PlaceHasInvalidTimes(place: JobPlace, timesOk: RawTimes -> bool): bool
  {
    place.times.Some? && !timesOk(place.times.value)
  }

  /** Some place of some task of the optional list carries rejected time windows. */
  function HasInvalidTimeWindows(tasks: Option<seq<JobTask>>, timesOk: RawTimes -> bool): bool
  {
    tasks.Some? && Any(tasks.value, (task: JobTask) => Any(task.places, (p: JobPlace) => PlaceHasInvalidTimes(p, timesOk)))
  }

  /** A job is flagged for its pickups or its deliveries only. */
  function HasInvalidTimes(job: Job, timesOk: RawTimes -> bool): bool
  {
    HasInvalidTimeWindows(job.pickups, timesOk) || HasInvalidTimeWindows(job.deliveries, timesOk)
  }

  /** A pickup or delivery place with time windows that `timesOk` rejects. */
  ghost predicate BadPlaceIn(tasks: seq<JobTask>, timesOk: RawTimes -> bool)
  {
    exists t, p :: t in tasks && p in t.places && p.times.Some? && !timesOk(p.times.value)
  }

  lemma InvalidTimeWindowsMeans(tasks: Option<seq<JobTask>>, timesOk: RawTimes -> bool)
    ensures HasInvalidTimeWindows(tasks, timesOk) <==> BadPlaceIn(Tasks(tasks), timesOk)
  {
    var ts := Tasks(tasks);
    if HasInvalidTimeWindows(tasks, timesOk) {
      var i :| 0 <= i < |ts| && Any(ts[i].places, (p: JobPlace) => PlaceHasInvalidTimes(p, timesOk));
      var j :| 0 <= j < |ts[i].places| && PlaceHasInvalidTimes(ts[i].places[j], timesOk);
      assert ts[i] in ts && ts[i].places[j] in ts[i].places;
    }
    if BadPlaceIn(ts, timesOk) {
      var t, p :| t in ts && p in t.places && p.times.Some? && !timesOk(p.times.value);
      var i :| 0 <= i < |ts| && ts[i] == t;
      var j :| 0 <= j < |t.places| && t.places[j] == p;
      assert PlaceHasInvalidTimes(ts[i].places[j], timesOk);
    }
  }

  /** A job is flagged iff a pickup or delivery place carries rejected time windows. */
  lemma InvalidTimesMeans(job: Job, timesOk: RawTimes -> bool)
    ensures HasInvalidTimes(job, timesOk) <==>
      BadPlaceIn(Tasks(job.pickups), timesOk) || BadPlaceIn(Tasks(job.deliveries), timesOk)
  {
    InvalidTimeWindowsMeans(job.pickups, timesOk);
    InvalidTimeWindowsMeans(job.deliveries, timesOk);
  }

  /** Service and replacement tasks never affect E1003. */
  lemma InvalidTimesIgnoresServicesAndReplacements(job: Job, services: Option<seq<JobTask>>, replacements: Option<seq<JobTask>>, timesOk: RawTimes -> bool)
    ensures HasInvalidTimes(job.(services := services, replacements := replacements), timesOk) == HasInvalidTimes(job, timesOk)
  {
  }

  /** E1003: Ok exactly when no job has rejected pickup or delivery time windows; otherwise
      the error lists those jobs' ids in input order. */
  function CheckE1003(jobs: seq<Job>, timesOk: RawTimes -> bool): (r: Result<(), ValidationError>)
    ensures r.Ok? <==> forall i :: 0 <= i < |jobs| ==> !HasInvalidTimes(jobs[i], timesOk)
    ensures r.Err? ==> r.error.code == "E1003"
    ensures r.Err? ==> r.error.ids == FlaggedIds(jobs, (job: Job) => HasInvalidTimes(job, timesOk))
  {
    Report("E1003", FlaggedIds(jobs, (job: Job) => HasInvalidTimes(job, timesOk)))
  }

  // ---------------------------------------------------------------------------
  // Aggregate

  /** `result.err().iter().cloned()`: the error of a failed rule, as a list of zero or one. */
  function ErrorOf(r: Result<(), ValidationError>): (es: seq<ValidationError>)
    ensures r.Ok? ==> es == []
    ensures r.Err? ==> es == [r.error]
  {
    if r.Err? then [r.error] else []
  }

  /** Position of a rule's code in the order the rules run. */
  function CodeRank(code: string): int
  {
    if code == "E1000" then 0
    else if code == "E1001" then 1
    else if code == "E1002" then 2
    else if code == "E1003" then 3
    else 4
  }

  /** The codes of `es` strictly increase in rule order (so none repeats). */
  ghost predicate InRuleOrder(es: seq<ValidationError>)
  {
    forall i, j :: 0 <= i < j < |es| ==> CodeRank(es[i].code) < CodeRank(es[j].code)
  }

  /** Two lists in rule order, the first's codes all ranked below the second's, append in rule order. */
  lemma AppendInRuleOrder(a: seq<ValidationError>, b: seq<ValidationError>, n: int)
    requires InRuleOrder(a) && InRuleOrder(b)
    requires forall e :: e in a ==> CodeRank(e.code) < n
    requires forall e :: e in b ==> n <= CodeRank(e.code)
    ensures InRuleOrder(a + b)
  {
    forall i, j | 0 <= i < j < |a + b| ensures CodeRank((a + b)[i].code) < CodeRank((a + b)[j].code) {
      if j < |a| {
        assert (a + b)[i] == a[i] && (a + b)[j] == a[j];
      } else if i >= |a| {
        assert (a + b)[i] == b[i - |a|] && (a + b)[j] == b[j - |a|];
      } else {
        assert (a + b)[i] == a[i] && a[i] in a;
        assert (a + b)[j] == b[j - |a|] && b[j - |a|] in b;
      }
    }
  }

  /** Chaining the rules' results in rule order keeps exactly the failures, each once,
      ordered by code. */
  lemma ChainedErrors(r0: Result<(), ValidationError>, r1: Result<(), ValidationError>,
                      r2: Result<(), ValidationError>, r3: Result<(), ValidationError>)
    requires r0.Err? ==> r0.error.code == "E1000"
    requires r1.Err? ==> r1.error.code == "E1001"
    requires r2.Err? ==> r2.error.code == "E1002"
    requires r3.Err? ==> r3.error.code == "E1003"
    ensures var es := ErrorOf(r0) + ErrorOf(r1) + ErrorOf(r2) + ErrorOf(r3);
      && (es == [] <==> r0.Ok? && r1.Ok? && r2.Ok? && r3.Ok?)
      && (forall e :: e in es <==>
           || (r0.Err? && e == r0.error) || (r1.Err? && e == r1.error)
           || (r2.Err? && e == r2.error) || (r3.Err? && e == r3.error))
      && InRuleOrder(es)
  {
    var e0, e1, e2, e3 := ErrorOf(r0), ErrorOf(r1), ErrorOf(r2), ErrorOf(r3);
    AppendInRuleOrder(e0, e1, 1);
    AppendInRuleOrder(e0 + e1, e2, 2);
    AppendInRuleOrder(e0 + e1 + e2, e3, 3);
  }

  /** Runs every rule (no fail-fast) and reports all failures together: Ok exactly when every
      rule passes; otherwise exactly the failed rules' errors, each once, in rule order. */
  function ValidateJobs(jobs: seq<Job>, timesOk: RawTimes -> bool): (r: Result<(), seq<ValidationError>>)
    ensures r.Ok? <==>
      CheckE1000(jobs).Ok? && CheckE1001(jobs).Ok? && CheckE1002(jobs).Ok? && CheckE1003(jobs, timesOk).Ok?
    ensures r.Err? ==> forall e :: e in r.error <==>
      || (CheckE1000(jobs).Err? && e == CheckE1000(jobs).error)
      || (CheckE1001(jobs).Err? && e == CheckE1001(jobs).error)
      || (CheckE1002(jobs).Err? && e == CheckE1002(jobs).error)
      || (CheckE1003(jobs, timesOk).Err? && e == CheckE1003(jobs, timesOk).error)
    ensures r.Err? ==> InRuleOrder(r.error)
  {
    var r0, r1, r2, r3 := CheckE1000(jobs), CheckE1001(jobs), CheckE1002(jobs), CheckE1003(jobs, timesOk);
    var errors := ErrorOf(r0) + ErrorOf(r1) + ErrorOf(r2) + ErrorOf(r3);
    ChainedErrors(r0, r1, r2, r3);
    if errors == [] then Ok(()) else Err(errors)
  }
}
