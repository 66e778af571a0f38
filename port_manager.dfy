/**
 * The port allocation registry of scripts/port_manager.py.
 *
 * A registry is a table from environment name to an environment: an
 * inclusive port range and a map from branch name to assigned port. The
 * field `Registry.environments` stands for the content of the shared
 * ports file; each operation loads it, computes on a working copy and
 * writes it back only where the Python code writes the file. The advisory file
 * lock around each operation makes it one atomic step, which is how the
 * methods below are modelled.
 */
module PortRegistry {
  import opened Options

  datatype PortRange = PortRange(start: int, end: int)

  datatype Environment = Environment(portRange: PortRange, assignments: map<string, int>)

  type Table = map<string, Environment>

  /** Why an operation failed: a `KeyError` on the environment name, or a scan that found no free port. */
  datatype Error = EnvNotFound(name: string) | Exhausted(name: string)

  datatype Result<+T> = Ok(value: T) | Err(error: Error)

  /** What an operation returns together with the table it leaves in the file. */
  datatype Outcome<+T> = Outcome(result: Result<T>, table: Table)

  // ---------------------------------------------------------------------
  // Invariants of a table

  predicate InRange(r: PortRange, p: int) {
    r.start <= p <= r.end
  }

  /** Number of ports in an inclusive range (zero when the range is empty). */
  function RangeSize(r: PortRange): nat {
    if r.start <= r.end then r.end - r.start + 1 else 0
  }

  /** No two branches hold the same port. */
  ghost predicate Injective(m: map<string, int>) {
    forall b1, b2 :: b1 in m && b2 in m && b1 != b2 ==> m[b1] != m[b2]
  }

  /** Every assigned port lies in the range, and no port is double-booked. */
  ghost predicate WellFormed(e: Environment) {
    && (forall b :: b in e.assignments ==> InRange(e.portRange, e.assignments[b]))
    && Injective(e.assignments)
  }

  ghost predicate WellFormedTable(t: Table) {
    forall name :: name in t ==> WellFormed(t[name])
  }

  /** The two tables have the same environments with the same ranges. */
  ghost predicate SameShape(t: Table, t': Table) {
    && t'.Keys == t.Keys
    && forall name :: name in t ==> t'[name].portRange == t[name].portRange
  }

  /** Every environment outside `names` is the same in both tables. */
  ghost predicate UnchangedExcept(t: Table, t': Table, names: set<string>) {
    forall name :: name in t && name !in names ==> name in t' && t'[name] == t[name]
  }

  // ---------------------------------------------------------------------
  // The default table and the branch classification

  const DefaultNames: set<string> := {"development", "staging", "production"}

  /** The table written when no ports file exists yet (`ensure_ports_file_exists`). */
  function DefaultTable(): (t: Table)
    ensures t.Keys == DefaultNames
    ensures WellFormedTable(t)
    ensures forall name :: name in t ==> t[name].assignments == map[] && RangeSize(t[name].portRange) == 1000
    ensures forall n1, n2, p :: n1 in t && n2 in t && n1 != n2 && InRange(t[n1].portRange, p) ==> !InRange(t[n2].portRange, p)
  {
    map[
      "development" := Environment(PortRange(5000, 5999), map[]),
      "staging" := Environment(PortRange(6000, 6999), map[]),
      "production" := Environment(PortRange(7000, 7999), map[])
    ]
  }

  /** The environment a branch belongs to when the caller names none. */
  function EnvironmentForBranch(branch: string): (name: string)
    ensures name in DefaultNames
    ensures name == "production" <==> branch == "master"
    ensures name == "staging" <==> branch == "staging"
  {
    if branch == "master" then "production"
    else if branch == "staging" then "staging"
    else "development"
  }

  function ResolveEnvironment(branch: string, target: Option<string>): string {
    if target.None? then EnvironmentForBranch(branch) else target.value
  }

  // ---------------------------------------------------------------------
  // First-fit choice

  /** The lowest port in `[lo, hi]` that is not in `used`, if there is one. */
  function FirstFree(lo: int, hi: int, used: set<int>): (r: Option<int>)
    decreases hi - lo + 1
    ensures r.Some? ==> lo <= r.value <= hi && r.value !in used
    ensures r.Some? ==> forall q :: lo <= q < r.value ==> q in used
    ensures r.None? <==> forall q :: lo <= q <= hi ==> q in used
  {
    if lo > hi then None
    else if lo !in used then Some(lo)
    else FirstFree(lo + 1, hi, used)
  }

  /** Two answers that both meet the first-fit description are the same answer. */
  lemma FirstFreeUnique(lo: int, hi: int, used: set<int>, r: Option<int>)
    requires r.Some? ==> lo <= r.value <= hi && r.value !in used
    requires r.Some? ==> forall q :: lo <= q < r.value ==> q in used
    requires r.None? ==> forall q :: lo <= q <= hi ==> q in used
    ensures r == FirstFree(lo, hi, used)
  {
  }

  /**
   * The scan `for port in range(start, end + 1)` of the Python code: the first
   * port not in `used`, or None after the whole range was found in use.
   */
  method FindFreePort(start: int, end: int, used: set<int>) returns (port: Option<int>)
    ensures port == FirstFree(start, end, used)
    ensures port.Some? ==> start <= port.value <= end && port.value !in used
    ensures port.Some? ==> forall q :: start <= q < port.value ==> q in used
    ensures port.None? ==> forall q :: start <= q <= end ==> q in used
  {
    var p := start;
    while p <= end
      invariant start <= p
      invariant start <= end ==> p <= end + 1
      invariant forall q :: start <= q < p ==> q in used
    {
      if p !in used {
        port := Some(p);
        FirstFreeUnique(start, end, used, port);
        return;
      }
      p := p + 1;
    }
    port := None;
    FirstFreeUnique(start, end, used, port);
  }

  // ---------------------------------------------------------------------
  // The three operations, as functions of the stored table

  function WithAssignment(e: Environment, branch: string, port: int): Environment {
    e.(assignments := e.assignments[branch := port])
  }

  function Without(e: Environment, branch: string): Environment {
    e.(assignments := e.assignments - {branch})
  }

  /** `get_next_available_port` on the table `t` for environment `name`. */
  function Assign(t: Table, branch: string, name: string): Outcome<int> {
    if name !in t then Outcome(Err(EnvNotFound(name)), t)
    else
      var e := t[name];
      if branch in e.assignments then Outcome(Ok(e.assignments[branch]), t)
      else
        match FirstFree(e.portRange.start, e.portRange.end, e.assignments.Values)
        case None => Outcome(Err(Exhausted(name)), t)
        case Some(p) => Outcome(Ok(p), t[name := WithAssignment(e, branch, p)])
  }

  /** `release_port` on the table `t`. */
  function Release(t: Table, branch: string, name: string): Outcome<()> {
    if name !in t then Outcome(Err(EnvNotFound(name)), t)
    else if branch in t[name].assignments then Outcome(Ok(()), t[name := Without(t[name], branch)])
    else Outcome(Ok(()), t)
  }

  /** The working copy of `migrate_port` after the deletion from `fromEnv`. */
  function RemovedFrom(t: Table, branch: string, fromEnv: string): Table
    requires fromEnv in t
  {
    if branch in t[fromEnv].assignments then t[fromEnv := Without(t[fromEnv], branch)] else t
  }

  /**
   * `migrate_port` on the table `t`: delete the branch from `fromEnv`, then
   * take the lowest free port of `toEnv` in the working copy. The file is
   * written only when a port was found.
   */
  function Migrate(t: Table, branch: string, fromEnv: string, toEnv: string): Outcome<int> {
    if fromEnv !in t then Outcome(Err(EnvNotFound(fromEnv)), t)
    else
      var w := RemovedFrom(t, branch, fromEnv);
      if toEnv !in w then Outcome(Err(EnvNotFound(toEnv)), t)
      else
        var e := w[toEnv];
        match FirstFree(e.portRange.start, e.portRange.end, e.assignments.Values)
        case None => Outcome(Err(Exhausted(toEnv)), t)
        case Some(p) => Outcome(Ok(p), w[toEnv := WithAssignment(e, branch, p)])
  }

  // ---------------------------------------------------------------------
  // The registry object

  class Registry {
    /** The content of the ports file. */
    var environments: Table

    ghost predicate Valid()
      reads this
    {
      WellFormedTable(environments)
    }

    /** Opens the registry: the stored table if the file exists, otherwise the default one. */
    constructor (stored: Option<Table>)
      ensures environments == if stored.Some? then stored.value else DefaultTable()
      ensures stored.None? ==> Valid()
    {
      if stored.Some? {
        environments := stored.value;
      } else {
        environments := DefaultTable();
      }
    }

    method GetNextAvailablePort(branch: string, target: Option<string>) returns (r: Result<int>)
      modifies this
      ensures Outcome(r, environments) == Assign(old(environments), branch, ResolveEnvironment(branch, target))
      ensures old(Valid()) ==> Valid()
    {
      var name := if target.None? then EnvironmentForBranch(branch) else target.value;
      if Valid() { AssignPreservesWellFormed(environments, branch, name); }
      if name !in environments {
        return Err(EnvNotFound(name));
      }
      var e := environments[name];
      if branch in e.assignments {
        return Ok(e.assignments[branch]);
      }
      var port := FindFreePort(e.portRange.start, e.portRange.end, e.assignments.Values);
      if port.None? {
        return Err(Exhausted(name));
      }
      environments := environments[name := WithAssignment(e, branch, port.value)];
      r := Ok(port.value);
    }

    method ReleasePort(branch: string, environment: Option<string>) returns (r: Result<()>)
      modifies this
      ensures Outcome(r, environments) == Release(old(environments), branch, ResolveEnvironment(branch, environment))
      ensures old(Valid()) ==> Valid()
    {
      var name := if environment.None? then EnvironmentForBranch(branch) else environment.value;
      if Valid() { ReleasePreservesWellFormed(environments, branch, name); }
      if name !in environments {
        return Err(EnvNotFound(name));
      }
      var e := environments[name];
      if branch in e.assignments {
        environments := environments[name := Without(e, branch)];
      }
      r := Ok(());
    }

    method MigratePort(branch: string, fromEnv: string, toEnv: string) returns (r: Result<int>)
      modifies this
      ensures Outcome(r, environments) == Migrate(old(environments), branch, fromEnv, toEnv)
      ensures old(Valid()) ==> Valid()
    {
      if Valid() { MigratePreservesWellFormed(environments, branch, fromEnv, toEnv); }
      if fromEnv !in environments {
        return Err(EnvNotFound(fromEnv));
      }
      // the loaded data, changed in place before it is written back
      var data := environments;
      if branch in data[fromEnv].assignments {
        data := data[fromEnv := Without(data[fromEnv], branch)];
      }
      if toEnv !in data {
        return Err(EnvNotFound(toEnv));
      }
      var e := data[toEnv];
      var port := FindFreePort(e.portRange.start, e.portRange.end, e.assignments.Values);
      if port.None? {
        return Err(Exhausted(toEnv));
      }
      environments := data[toEnv := WithAssignment(e, branch, port.value)];
      r := Ok(port.value);
    }
  }

  // ---------------------------------------------------------------------
  // Properties of assign

  /** A branch that already holds a port in the environment gets that port back, and nothing is written. */
  lemma AssignReturnsHeldPort(t: Table, branch: string, name: string)
    requires name in t && branch in t[name].assignments
    ensures Assign(t, branch, name) == Outcome(Ok(t[name].assignments[branch]), t)
  {
  }

  /** A second assign of the same branch returns the port of the first one and changes nothing. */
  lemma AssignIdempotent(t: Table, branch: string, name: string)
    ensures var o := Assign(t, branch, name);
      o.result.Ok? ==> Assign(o.table, branch, name) == Outcome(o.result, o.table)
  {
  }

  /**
   * For a branch with no port yet, assign records the lowest free port of
   * the range, and fails with nothing written when every port is in use.
   */
  lemma AssignFirstFit(t: Table, branch: string, name: string)
    requires name in t && branch !in t[name].assignments
    ensures var o := Assign(t, branch, name); var e := t[name];
      match o.result
      case Ok(p) =>
        && InRange(e.portRange, p)
        && p !in e.assignments.Values
        && (forall q :: e.portRange.start <= q < p ==> q in e.assignments.Values)
        && o.table == t[name := WithAssignment(e, branch, p)]
      case Err(err) =>
        && err == Exhausted(name)
        && (forall q :: InRange(e.portRange, q) ==> q in e.assignments.Values)
        && o.table == t
  {
  }

  /** An unknown environment name fails, and nothing is written. */
  lemma UnknownEnvironmentFails(t: Table, branch: string, name: string, other: string)
    requires name !in t
    ensures Assign(t, branch, name) == Outcome(Err(EnvNotFound(name)), t)
    ensures Release(t, branch, name) == Outcome(Err(EnvNotFound(name)), t)
    ensures Migrate(t, branch, name, other) == Outcome(Err(EnvNotFound(name)), t)
    ensures Migrate(t, branch, other, name) == Outcome(Err(if other in t then EnvNotFound(name) else EnvNotFound(other)), t)
  {
  }

  /** In a well-formed environment the port returned always lies in its range. */
  lemma AssignInRange(t: Table, branch: string, name: string)
    requires name in t && WellFormed(t[name])
    ensures Assign(t, branch, name).result.Ok? ==> InRange(t[name].portRange, Assign(t, branch, name).result.value)
  {
  }

  /** Assign changes at most the assignments of the environment it names. */
  lemma AssignFrame(t: Table, branch: string, name: string)
    ensures SameShape(t, Assign(t, branch, name).table)
    ensures UnchangedExcept(t, Assign(t, branch, name).table, {name})
  {
  }

  /** Assign never records a port outside the range or one another branch of the environment holds. */
  lemma AssignPreservesWellFormed(t: Table, branch: string, name: string)
    requires WellFormedTable(t)
    ensures WellFormedTable(Assign(t, branch, name).table)
  {
  }

  // ---------------------------------------------------------------------
  // Properties of release

  /** Release removes the branch's entry if present and is a no-op otherwise. */
  lemma ReleaseRemoves(t: Table, branch: string, name: string)
    requires name in t
    ensures var o := Release(t, branch, name);
      && o.result == Ok(())
      && SameShape(t, o.table)
      && UnchangedExcept(t, o.table, {name})
      && o.table[name].assignments == t[name].assignments - {branch}
      && (branch !in t[name].assignments ==> o.table == t)
  {
  }

  /** Deleting an entry keeps the invariant. */
  lemma ReleasePreservesWellFormed(t: Table, branch: string, name: string)
    requires WellFormedTable(t)
    ensures WellFormedTable(Release(t, branch, name).table)
  {
  }

  // ---------------------------------------------------------------------
  // Properties of migrate

  /**
   * A successful migrate leaves the branch with no entry in the source
   * environment and with the lowest port of the target environment that is
   * free once that deletion is made; every other branch keeps its port.
   */
  lemma MigrateMoves(t: Table, branch: string, fromEnv: string, toEnv: string)
    requires fromEnv in t && toEnv in t
    ensures var o := Migrate(t, branch, fromEnv, toEnv); var w := RemovedFrom(t, branch, fromEnv);
      o.result.Ok? ==>
        && (fromEnv != toEnv ==> o.table[fromEnv].assignments == t[fromEnv].assignments - {branch})
        && o.table[toEnv].assignments == w[toEnv].assignments[branch := o.result.value]
        && InRange(t[toEnv].portRange, o.result.value)
        && o.result.value !in w[toEnv].assignments.Values
        && (forall q :: t[toEnv].portRange.start <= q < o.result.value ==> q in w[toEnv].assignments.Values)
    ensures Migrate(t, branch, fromEnv, toEnv).result.Ok? <==>
      exists q :: InRange(t[toEnv].portRange, q) && q !in RemovedFrom(t, branch, fromEnv)[toEnv].assignments.Values
  {
  }

  /** A failed migrate writes nothing: the deletion from the source environment is lost too. */
  lemma MigrateFailureWritesNothing(t: Table, branch: string, fromEnv: string, toEnv: string)
    ensures var o := Migrate(t, branch, fromEnv, toEnv);
      o.result.Err? ==> o.table == t
    ensures var o := Migrate(t, branch, fromEnv, toEnv);
      o.result == Err(Exhausted(toEnv)) <==>
        fromEnv in t && toEnv in t &&
        (forall q :: InRange(t[toEnv].portRange, q) ==> q in RemovedFrom(t, branch, fromEnv)[toEnv].assignments.Values)
  {
  }

  /**
   * Migrating between two different environments never hands back the port
   * the branch already held in the target: that port counts as used.
   */
  lemma MigrateDoesNotReuse(t: Table, branch: string, fromEnv: string, toEnv: string)
    requires fromEnv in t && toEnv in t && fromEnv != toEnv
    requires branch in t[toEnv].assignments
    ensures var o := Migrate(t, branch, fromEnv, toEnv);
      o.result.Ok? ==> o.result.value != t[toEnv].assignments[branch]
  {
  }

  /** Migrate changes at most the two environments it names. */
  lemma MigrateFrame(t: Table, branch: string, fromEnv: string, toEnv: string)
    ensures SameShape(t, Migrate(t, branch, fromEnv, toEnv).table)
    ensures UnchangedExcept(t, Migrate(t, branch, fromEnv, toEnv).table, {fromEnv, toEnv})
  {
  }

  /** Migrate keeps the invariant in both environments it touches. */
  lemma MigratePreservesWellFormed(t: Table, branch: string, fromEnv: string, toEnv: string)
    requires WellFormedTable(t)
    ensures WellFormedTable(Migrate(t, branch, fromEnv, toEnv).table)
  {
  }

  // ---------------------------------------------------------------------
  // Capacity

  /** The ports of a range, as a set. */
  ghost function Ports(r: PortRange): (s: set<int>)
    ensures forall p :: p in s <==> InRange(r, p)
    ensures |s| == RangeSize(r)
    decreases RangeSize(r)
  {
    if r.start > r.end then {}
    else Ports(PortRange(r.start, r.end - 1)) + {r.end}
  }

  /** An injective map has as many distinct values as keys. */
  lemma {:induction false} InjectiveValuesSize(m: map<string, int>)
    requires Injective(m)
    ensures |m.Values| == |m|
    decreases |m|
  {
    if m == map[] {
      assert m.Values == {};
    } else {
      var k :| k in m;
      var rest := m - {k};
      assert rest.Keys == m.Keys - {k};
      forall v | v in m.Values && v != m[k]
        ensures v in rest.Values
      {
        var k' :| k' in m && m[k'] == v;
        assert k' in rest;
      }
      assert rest.Values == m.Values - {m[k]};
      InjectiveValuesSize(rest);
    }
  }

  lemma SubsetSize(a: set<int>, b: set<int>)
    requires a <= b
    ensures |a| <= |b|
    ensures |a| == |b| ==> a == b
  {
    assert b == a + (b - a);
    if |a| == |b| {
      assert |b - a| == 0;
    }
  }

  /**
   * In a well-formed environment a new branch is refused exactly when the
   * environment already holds as many branches as its range has ports: with
   * k free ports, the (k+1)-th distinct branch observes exhaustion.
   */
  lemma ExhaustedIffFull(t: Table, branch: string, name: string)
    requires name in t && WellFormed(t[name]) && branch !in t[name].assignments
    ensures |t[name].assignments| <= RangeSize(t[name].portRange)
    ensures Assign(t, branch, name).result == Err(Exhausted(name)) <==>
      |t[name].assignments| == RangeSize(t[name].portRange)
  {
    var e := t[name];
    var used := e.assignments.Values;
    var ports := Ports(e.portRange);
    InjectiveValuesSize(e.assignments);
    assert used <= ports;
    SubsetSize(used, ports);
    if Assign(t, branch, name).result == Err(Exhausted(name)) {
      AssignFirstFit(t, branch, name);
      forall q | q in ports
        ensures q in used
      {
        assert InRange(e.portRange, q);
      }
      assert used == ports;
    }
  }

  /** On the default table, the first branch of each environment gets the start of its range. */
  lemma DefaultFirstAssign(branch: string)
    ensures Assign(DefaultTable(), branch, EnvironmentForBranch(branch)).result ==
      Ok(if branch == "master" then 7000 else if branch == "staging" then 6000 else 5000)
  {
  }

  /**
   * Range [5000, 5002]: three branches get 5000, 5001 and 5002, a fourth is
   * refused, and after the first releases its port the fourth gets 5000.
   */
  lemma ThreeSlotScenario()
    ensures var t0 := map["development" := Environment(PortRange(5000, 5002), map[])];
      var a1 := Assign(t0, "b1", "development");
      var a2 := Assign(a1.table, "b2", "development");
      var a3 := Assign(a2.table, "b3", "development");
      var a4 := Assign(a3.table, "b4", "development");
      var r1 := Release(a4.table, "b1", "development");
      var a5 := Assign(r1.table, "b4", "development");
      && a1.result == Ok(5000) && a2.result == Ok(5001) && a3.result == Ok(5002)
      && a4 == Outcome(Err(Exhausted("development")), a3.table)
      && a5.result == Ok(5000)
  {
    var t0 := map["development" := Environment(PortRange(5000, 5002), map[])];
    assert t0["development"].assignments.Values == {};
    var a1 := Assign(t0, "b1", "development");
    assert a1.table["development"].assignments == map["b1" := 5000];
    assert a1.table["development"].assignments.Values == {5000};
    var a2 := Assign(a1.table, "b2", "development");
    var m2 := map["b1" := 5000, "b2" := 5001];
    assert a2.table["development"].assignments == m2;
    assert m2.Values == {5000, 5001} by {
      assert m2["b1"] == 5000 && m2["b2"] == 5001;
    }
    var a3 := Assign(a2.table, "b3", "development");
    var m3 := map["b1" := 5000, "b2" := 5001, "b3" := 5002];
    assert a3.table["development"].assignments == m3;
    assert m3.Values == {5000, 5001, 5002} by {
      assert m3["b1"] == 5000 && m3["b2"] == 5001 && m3["b3"] == 5002;
    }
    var r1 := Release(a3.table, "b1", "development");
    var m4 := map["b2" := 5001, "b3" := 5002];
    assert r1.table["development"].assignments == m4;
    assert m4.Values == {5001, 5002} by {
      assert m4["b2"] == 5001 && m4["b3"] == 5002;
    }
  }
}
