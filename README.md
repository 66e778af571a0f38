# Port allocation registry and environment tracking, in Dafny

This project models the two bookkeeping cores of a CI setup that gives every
branch its own port and environment directory.

* `PortRegistry` (`port_manager.dfy`) models `scripts/port_manager.py`. A
  registry maps environment names (`development`, `staging`, `production`)
  to an inclusive port range and a map from branch name to port. Assign
  returns a branch's existing port or records the lowest free port of the
  range. Release deletes the branch's entry. Migrate deletes the entry from
  one environment and takes the lowest free port in another. The class
  `Registry` holds the stored table (the ports file). Each method works on a
  copy of it and writes it back only where the Python code writes the file.
  The pure functions `Assign`, `Release` and `Migrate` specify the methods,
  and the lemmas prove their properties: first-fit choice, idempotence,
  exhaustion, "nothing else changes", and an invariant that all three keep.
  The invariant says every assigned port lies in its range and no port is
  held twice within one environment. The first-fit scan is the `while` loop
  of `FindFreePort`. Its invariant is that every port below the cursor is in
  use.
* `EnvironmentTracking` (`environment_manager.dfy`) models the tracking record
  of `scripts/environment_manager.py`. The record holds three maps: feature
  branches, staging references and environment states. The class
  `EnvironmentManager` updates the record in place, and the pure functions
  `Track`, `Link`, `Preserve` and `Cleanup` specify those updates.
  Timestamps and "the source directory exists" are parameters.
* `Options` (`options.dfy`) holds the `Option` type both modules use.

Errors are values. The port registry's `Result` has `EnvNotFound` (the
`KeyError` on an unknown environment name) and `Exhausted` (the "No available
ports" exception). The tracking record's `Error` stands for its two
`ValueError`s.

## Model

| member | source | states |
|---|---|---|
| `PortRegistry.DefaultTable` | scripts/port_manager.py:12-30 | the initial table has exactly the three environments, all with empty assignments and 1000 ports each; their ranges are pairwise disjoint, and the table is well formed |
| `PortRegistry.EnvironmentForBranch` | scripts/port_manager.py:32-38 | `master` maps to production and only `master` does; `staging` maps to staging and only `staging` does; every other name maps to development, and the result always names an environment of the default table |
| `PortRegistry.FirstFree` | scripts/port_manager.py:55-60 | the first-fit choice: the port it returns lies in the range, is not in use, and every lower port of the range is in use; it returns nothing exactly when every port of the range is in use |
| `PortRegistry.FindFreePort` | scripts/port_manager.py:59-60 | the ascending scan returns the first-fit port (or nothing when the range is full), proved by the loop invariant that every port in `[start, p)` is used |
| `PortRegistry.Registry.constructor` | scripts/port_manager.py:8-30 | an existing stored table is used as is; without one, the registry starts from the default table, which satisfies the invariant |
| `PortRegistry.Registry.GetNextAvailablePort` | scripts/port_manager.py:40-73 | the returned value and the new stored table are those of `Assign` on the old table; the environment is classified from the branch name only when none is given; the invariant is kept |
| `PortRegistry.Registry.ReleasePort` | scripts/port_manager.py:75-90 | the returned value and the new stored table are those of `Release` on the old table; the environment is classified only when none is given; the invariant is kept |
| `PortRegistry.Registry.MigratePort` | scripts/port_manager.py:92-125 | the returned value and the new stored table are those of `Migrate`: the deletion is made on a working copy, and that copy is stored only when a port was found; the invariant is kept |
| `PortRegistry.AssignReturnsHeldPort` | scripts/port_manager.py:50-52 | in any table, a branch that already holds a port in the named environment gets exactly that port back, and the table is unchanged |
| `PortRegistry.AssignIdempotent` | scripts/port_manager.py:50-52 | a second assign for the same branch and environment returns the same port and leaves the table unchanged |
| `PortRegistry.AssignFirstFit` | scripts/port_manager.py:54-71 | for a branch with no port, assign records `branch -> p` for the lowest unused port `p` of the range; if every port of the range is used it fails with `Exhausted` and the table is unchanged |
| `PortRegistry.UnknownEnvironmentFails` | scripts/port_manager.py:48-105 | an environment name missing from the table makes assign, release and migrate fail with `EnvNotFound` and write nothing; migrate looks up the source environment first |
| `PortRegistry.AssignInRange` | scripts/port_manager.py:51-62 | in a well-formed environment every port assign returns, whether existing or new, lies in the environment's range |
| `PortRegistry.AssignFrame` | scripts/port_manager.py:48-62 | assign keeps the set of environments and every range, and changes no environment other than the one it names |
| `PortRegistry.AssignPreservesWellFormed` | scripts/port_manager.py:55-62 | assign keeps every assigned port in range and never gives two branches of one environment the same port |
| `PortRegistry.ReleaseRemoves` | scripts/port_manager.py:83-88 | release on a known environment succeeds and removes exactly the branch's entry; when the branch has none, the table is unchanged; no other environment and no range changes |
| `PortRegistry.ReleasePreservesWellFormed` | scripts/port_manager.py:83-85 | release keeps the invariant |
| `PortRegistry.MigrateMoves` | scripts/port_manager.py:99-122 | after a successful migrate the branch has no entry in the source environment (when it differs from the target), and its target entry is the lowest port of the target range that is free once the deletion is made; other target entries keep their ports; migrate succeeds exactly when a port of the target range is free once the deletion is made |
| `PortRegistry.MigrateFailureWritesNothing` | scripts/port_manager.py:116-121 | a failed migrate leaves the table unchanged, so the deletion from the source environment is not stored either; it fails with `Exhausted` exactly when both environments exist and every target port is used after the deletion |
| `PortRegistry.MigrateDoesNotReuse` | scripts/port_manager.py:105-112 | migrating between two different environments never returns the port the branch already held in the target |
| `PortRegistry.MigrateFrame` | scripts/port_manager.py:100-112 | migrate keeps the set of environments and every range, and changes only the two environments it names |
| `PortRegistry.MigratePreservesWellFormed` | scripts/port_manager.py:99-114 | migrate keeps the invariant |
| `PortRegistry.ExhaustedIffFull` | scripts/port_manager.py:55-71 | in a well-formed environment there are never more branches than ports, and a new branch is refused with `Exhausted` exactly when the branch count equals the range size |
| `PortRegistry.DefaultFirstAssign` | scripts/port_manager.py:15-62 | on the default table, the first branch assigned without an explicit environment gets 7000 for `master`, 6000 for `staging` and 5000 for any other branch |
| `PortRegistry.ThreeSlotScenario` | scripts/port_manager.py:50-88 | with range 5000-5002, branches b1, b2 and b3 get 5000, 5001 and 5002; b4 is refused and nothing is written; after b1 is released, b4 gets 5000 |
| `EnvironmentTracking.DevelopmentPath` | scripts/environment_manager.py:42 | a branch's environment path starts with `environments/development/`, ends with the branch name, and is longer than the branch name |
| `EnvironmentTracking.IsPreserved` | scripts/environment_manager.py:84-90 | a path is preserved exactly when it is a key of the environment states or is the source branch of some staging reference |
| `EnvironmentTracking.EnvironmentManager.constructor` | scripts/environment_manager.py:17-28 | the stored record if there is one, otherwise three empty maps |
| `EnvironmentTracking.EnvironmentManager.TrackFeatureBranch` | scripts/environment_manager.py:35-44 | the new record is `Track` of the old one |
| `EnvironmentTracking.EnvironmentManager.LinkToStaging` | scripts/environment_manager.py:46-55 | reports an error and changes nothing exactly when `Link` fails; otherwise the new record is `Link`'s |
| `EnvironmentTracking.EnvironmentManager.PreserveEnvironment` | scripts/environment_manager.py:57-82 | reports an error and changes nothing exactly when `Preserve` fails; otherwise the new record is `Preserve`'s |
| `EnvironmentTracking.EnvironmentManager.CleanupEnvironment` | scripts/environment_manager.py:92-105 | the new record is `Cleanup` of the old one, which is the old record itself |
| `EnvironmentTracking.InitialPreservesNothing` | scripts/environment_manager.py:23-27 | the empty initial record preserves no path |
| `EnvironmentTracking.TrackRecordsBranch` | scripts/environment_manager.py:38-43 | tracking inserts or overwrites only the branch's entry, with its microservice its development path, and one timestamp for both `created_at` and `last_updated`; other branches and the other two maps are unchanged |
| `EnvironmentTracking.LinkRequiresTracked` | scripts/environment_manager.py:48-54 | linking fails exactly when the branch is untracked; on success the staging reference at the staging path is added or overwritten names the branch as its source and carries the given time, every other reference keeps its value, and the other two maps are unchanged |
| `EnvironmentTracking.TrackThenLink` | scripts/environment_manager.py:38-54 | a branch that was just tracked can always be linked |
| `EnvironmentTracking.LinkPreservesBranchName` | scripts/environment_manager.py:51-90 | after a successful link, the branch name itself counts as preserved |
| `EnvironmentTracking.LinkLeavesDevelopmentPathUnprotected` | scripts/environment_manager.py:38-90 | the preservation check compares paths with branch names, so tracking and linking a branch in any record where its development path was not preserved leaves that path unpreserved |
| `EnvironmentTracking.RelinkCanUnprotect` | scripts/environment_manager.py:51-89 | re-linking a staging path to another branch overwrites the reference, and the first branch is no longer preserved |
| `EnvironmentTracking.PreserveRecordsTarget` | scripts/environment_manager.py:62-81 | preserve fails with nothing changed exactly when the source is missing; otherwise it adds or overwrites the target's state as a `symlink` with the source, which makes the target preserved; every other recorded state keeps its value, and the other two maps are unchanged |
| `EnvironmentTracking.PreservationIsStable` | scripts/environment_manager.py:38-90 | tracking and a successful preserve never make a preserved path unpreserved |
| `EnvironmentTracking.CleanupKeepsTracking` | scripts/environment_manager.py:95-104 | cleanup never changes the tracking record: a preserved path is left alone, and a path that is not preserved has no state entry to delete |

## Left out

- The `fcntl.flock` lock and any interleaving of processes: each operation is one atomic step on the `Registry` object.
- Reading and writing JSON, `seek`/`truncate`, and the file-existence checks. The stored table or record is a constructor parameter (`None` when no file exists).
- The command-line entry points of both scripts, their argument checks and exit codes.
- Every filesystem effect of `environment_manager.py`: creating directories, moving an existing target aside, creating the symlink, and `unlink`/`rmtree` in cleanup. Whether the source path exists is a parameter of `PreserveEnvironment`.
- PreserveEnvironment: when the source exists it always records the state. The Python code can still raise after the existence check, in `mkdir` (scripts/environment_manager.py:66), `shutil.move` (:71) or `os.symlink` (:74), for example on a dangling symlink at the target. Those failure paths, which leave the record unchanged because they come before the update at :77-82, are not modelled.
- `Path` normalisation (`str(Path(p))`): paths are taken as already-normal strings.
- `datetime.now()`: timestamps are opaque parameters. `TrackFeatureBranch` uses one timestamp for both `created_at` and `last_updated`, as the Python code does.
- Loading a malformed stored file: the ports file is assumed to have its `environments`, `port_range` and `assignments` keys and integer ports, and the tracking file loaded at scripts/environment_manager.py:21 its `feature_branches`, `staging_references` and `environment_states` keys. A missing tracking key would raise `KeyError` at :38, :48, :51, :77 or :88; that failure is not modelled.
- The Python integers are unbounded, and so are the model's; no width needs modelling.
- `scripts/test_report_generator.py`, the demo HTTP services and the placeholder test files are not part of this model.

