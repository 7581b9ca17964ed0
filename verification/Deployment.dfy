/** One instance's view of the deployment: the table it writes, and what all the other instances,
    TTL and the clock do between its own steps. */
module Deployment {
  import opened Basics
  import opened Calendar
  import opened Store
  import opened Confirmation
  import opened Work
  import opened Quota
  import opened Protocol
  import opened Ledger
  import opened SharedQuota
  import opened Safety

  /** A step that is not taken for `job`. */
  predicate Foreign(s: Step, job: nat)
  {
    match s
    case Consume(j, _, _, _) => j != job
    case Read(j, _) => j != job
    case Acquire(j, _, _) => j != job
    case CallProvider(j) => j != job
    case _ => true
  }

  /** Steps of other instances, of TTL and of the clock, while this instance works on `job`. */
  predicate ForeignRun(w: World, run: seq<Step>, job: nat)
  {
    Legal(w, run) && forall i :: 0 <= i < |run| ==> StepBound(run[i]) && Foreign(run[i], job)
  }

  /** Whatever the others do, in whatever world, it is legal and not done for this instance's job. */
  ghost predicate Lawful(others: (World, nat) -> seq<Step>)
  {
    forall w: World, job: nat :: ForeignRun(w, others(w, job), job)
  }

  /** `v` is reached from `w`: the log is extended, time does not run back, jobs keep their attempts. */
  ghost predicate Later(w: World, v: World)
  {
    && w.log <= v.log && w.clock <= v.clock && v.config == w.config && w.known <= v.known
    && (forall j :: j in w.jobs ==> j in v.jobs && v.jobs[j].attempt == w.jobs[j].attempt)
  }

  predicate SameJob(w: World, v: World, job: nat)
  {
    (job in w.jobs <==> job in v.jobs) && (job in w.jobs ==> v.jobs[job] == w.jobs[job])
  }

  lemma LaterLater(u: World, v: World, w: World)
    requires Later(u, v) && Later(v, w)
    ensures Later(u, w)
  {
  }

  /** Jobs may be added, and their phases set. */
  ghost predicate JobsStay(w: World, v: World, only: nat)
  {
    forall j :: j in w.jobs ==> j in v.jobs && v.jobs[j].attempt == w.jobs[j].attempt
                                && (j != only ==> v.jobs[j] == w.jobs[j])
  }

  lemma ConsumeStays(w: World, s: Step)
    requires s.Consume? && Enabled(w, s)
    ensures var v := Apply(w, s);
            w.log <= v.log && v.clock == w.clock && v.config == w.config && w.known <= v.known
            && JobsStay(w, v, s.job) && v.jobs.Keys == w.jobs.Keys + {s.job}
  {
  }

  lemma AcquireStays(w: World, s: Step)
    requires s.Acquire? && Enabled(w, s)
    ensures var v := Apply(w, s);
            w.log <= v.log && v.clock == w.clock && v.config == w.config && w.known <= v.known
            && JobsStay(w, v, s.job) && v.jobs.Keys == w.jobs.Keys
  {
    AcquireLog(w, s);
    AcquireJob(w, s);
  }

  lemma EndStays(w: World, s: Step)
    requires (s.Read? || s.CallProvider?) && Enabled(w, s)
    ensures var v := Apply(w, s);
            w.log <= v.log && v.clock == w.clock && v.config == w.config && w.known <= v.known
            && JobsStay(w, v, s.job) && v.jobs.Keys == w.jobs.Keys
  {
  }

  lemma PrepareStays(w: World, s: Step)
    requires s.Prepare? && Enabled(w, s)
    ensures var v := Apply(w, s);
            w.log <= v.log && v.clock == w.clock && v.config == w.config && w.known <= v.known && v.jobs == w.jobs
  {
  }

  lemma StepLater(w: World, s: Step)
    requires Enabled(w, s)
    ensures Later(w, Apply(w, s))
  {
    match s {
      case Prepare(_, _, _, _, _, _, _) => PrepareStays(w, s);
      case Consume(_, _, _, _) => ConsumeStays(w, s);
      case Acquire(_, _, _) => AcquireStays(w, s);
      case Read(_, _) => EndStays(w, s);
      case CallProvider(_) => EndStays(w, s);
      case _ =>
    }
  }

  lemma StepForeign(w: World, s: Step, job: nat)
    requires Enabled(w, s) && Foreign(s, job)
    ensures SameJob(w, Apply(w, s), job)
  {
    match s {
      case Prepare(_, _, _, _, _, _, _) => PrepareStays(w, s);
      case Consume(_, _, _, _) => ConsumeStays(w, s);
      case Acquire(_, _, _) => AcquireStays(w, s);
      case Read(_, _) => EndStays(w, s);
      case CallProvider(_) => EndStays(w, s);
      case _ =>
    }
  }

  lemma {:induction false} ForeignKeeps(c: Config, w: World, run: seq<Step>, job: nat)
    requires Reachable(c, w) && ForeignRun(w, run, job)
    ensures var v := Final(w, run); Reachable(c, v) && Later(w, v) && SameJob(w, v, job)
    decreases |run|
  {
    if run != [] {
      ReachStep(c, w, run[0]);
      StepLater(w, run[0]);
      StepForeign(w, run[0], job);
      assert forall i :: 0 <= i < |run[1..]| ==> run[1..][i] == run[i + 1];
      ForeignKeeps(c, Apply(w, run[0]), run[1..], job);
      LaterLater(w, Apply(w, run[0]), Final(w, run));
    }
  }

  method Above(xs: set<nat>) returns (n: nat)
    ensures forall x :: x in xs ==> x < n
  {
    n := 0;
    var rest := xs;
    while rest != {}
      invariant rest <= xs && forall x :: x in xs && x !in rest ==> x < n
    {
      var x :| x in rest;
      if n <= x { n := x + 1; }
      rest := rest - {x};
    }
  }

  class Deployment {
    const config: Config
    const table: SharedTable
    const others: (World, nat) -> seq<Step>
    var world: World

    /** The world is one that instances can bring about, and the table is its table. */
    ghost predicate Valid()
      reads this, table
    {
      Lawful(others) && world.config == config && table.items == world.table && Reachable(config, world)
    }

    constructor (config: Config, clock: int, table: SharedTable, others: (World, nat) -> seq<Step>)
      requires config.limit > 0 && table.items == map[] && Lawful(others)
      ensures Valid() && this.config == config && this.table == table && this.others == others
      ensures world == Initial(config, clock)
    {
      this.config := config;
      this.table := table;
      this.others := others;
      world := Initial(config, clock);
      new;
      assert Runs(config, clock, [], world);
    }

    /** A number no job has. */
    method NewJob() returns (job: nat)
      ensures job !in world.jobs
    {
      job := Above(world.jobs.Keys);
    }

    /** The others take any number of steps. */
    method Interleave(job: nat)
      requires Valid()
      modifies `world, table
      ensures Valid() && Later(old(world), world) && SameJob(old(world), world, job)
    {
      var run := others(world, job);
      assert ForeignRun(world, run, job);
      ForeignKeeps(config, world, run, job);
      world := Final(world, run);
      table.items := world.table;
    }

    /** This instance has read the clock: it is at least that late. */
    method See(now: int)
      requires Valid()
      modifies `world
      ensures Valid() && world.clock >= now && Later(old(world), world)
      ensures world == old(world).(clock := world.clock)
    {
      if now > world.clock {
        ReachStep(config, world, Tick(now));
        world := world.(clock := now);
      }
    }

    /** This instance has taken a step on the table. */
    method Take(s: Step)
      requires Lawful(others) && world.config == config && Reachable(config, world)
      requires StepBound(s) && Enabled(world, s) && table.items == Apply(world, s).table
      modifies `world
      ensures Valid() && world == Apply(old(world), s) && Later(old(world), world)
    {
      ReachStep(config, world, s);
      StepLater(world, s);
      world := Apply(world, s);
    }
  }
}
