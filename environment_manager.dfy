/**
 * The tracking-data bookkeeping of scripts/environment_manager.py.
 *
 * The tracking record holds three maps: feature branches, staging
 * references and environment states. Clock readings are passed in as
 * opaque timestamps and whether a source directory exists is passed in as
 * a flag; the symlinks, moves and deletions on disk are not modelled.
 */
module EnvironmentTracking {
  import opened Options

  /** An ISO-format time stamp, taken as given. */
  type Timestamp = string

  datatype FeatureBranch = FeatureBranch(
    microservice: string,
    createdAt: Timestamp,
    lastUpdated: Timestamp,
    environmentPath: string)

  datatype StagingReference = StagingReference(sourceBranch: string, linkedAt: Timestamp)

  datatype EnvironmentState = EnvironmentState(kind: string, source: string, createdAt: Timestamp)

  datatype TrackingData = TrackingData(
    featureBranches: map<string, FeatureBranch>,
    stagingReferences: map<string, StagingReference>,
    environmentStates: map<string, EnvironmentState>)

  /** The `ValueError`s raised by linking and preserving. */
  datatype Error = BranchNotTracked(branch: string) | SourceMissing(path: string)

  /** The tracking record after an operation that may fail. */
  datatype Update = Updated(data: TrackingData) | Failed(error: Error)

  /** The record written when no tracking file exists yet. */
  function InitialTrackingData(): TrackingData {
    TrackingData(map[], map[], map[])
  }

  const DevelopmentRoot: string := "environments/development/"

  /** Where the development environment of a feature branch lives. */
  function DevelopmentPath(microservice: string, branch: string): (path: string)
    ensures |path| == |DevelopmentRoot| + |microservice| + 1 + |branch|
    ensures path[..|DevelopmentRoot|] == DevelopmentRoot
    ensures path[|path| - |branch|..] == branch
  {
    DevelopmentRoot + microservice + "/" + branch
  }

  // ---------------------------------------------------------------------
  // The operations on the record

  /** `track_feature_branch`: insert or overwrite the branch's entry. */
  function Track(d: TrackingData, branch: string, microservice: string, now: Timestamp): TrackingData {
    d.(featureBranches := d.featureBranches[branch :=
      FeatureBranch(microservice, now, now, DevelopmentPath(microservice, branch))])
  }

  /** `link_to_staging`: only a tracked branch can be linked. */
  function Link(d: TrackingData, featureBranch: string, stagingPath: string, now: Timestamp): Update {
    if featureBranch !in d.featureBranches then Failed(BranchNotTracked(featureBranch))
    else Updated(d.(stagingReferences := d.stagingReferences[stagingPath := StagingReference(featureBranch, now)]))
  }

  /** The tracking part of `preserve_environment`: record the target as a symlink to the source. */
  function Preserve(d: TrackingData, source: string, target: string, sourceExists: bool, now: Timestamp): Update {
    if !sourceExists then Failed(SourceMissing(source))
    else Updated(d.(environmentStates := d.environmentStates[target := EnvironmentState("symlink", source, now)]))
  }

  /** The branch names that some staging reference points back to. */
  function LinkedSources(d: TrackingData): set<string> {
    set s | s in d.stagingReferences.Values :: s.sourceBranch
  }

  /**
   * `is_environment_preserved`: the path has a recorded state, or some
   * staging reference names it as its source branch.
   */
  predicate IsPreserved(d: TrackingData, path: string)
    ensures IsPreserved(d, path) <==> path in d.environmentStates.Keys + LinkedSources(d)
  {
    path in d.environmentStates ||
    exists s :: s in d.stagingReferences && d.stagingReferences[s].sourceBranch == path
  }

  /** The tracking part of `cleanup_environment`. */
  function Cleanup(d: TrackingData, path: string): TrackingData {
    if IsPreserved(d, path) then d
    else if path in d.environmentStates then d.(environmentStates := d.environmentStates - {path})
    else d
  }

  // ---------------------------------------------------------------------
  // The manager object

  class EnvironmentManager {
    /** The in-memory copy of the tracking file. */
    var tracking: TrackingData

    /** `load_tracking_data`: the stored record if the file exists, otherwise an empty one. */
    constructor (stored: Option<TrackingData>)
      ensures tracking == if stored.Some? then stored.value else InitialTrackingData()
    {
      if stored.Some? {
        tracking := stored.value;
      } else {
        tracking := InitialTrackingData();
      }
    }

    method TrackFeatureBranch(branch: string, microservice: string, now: Timestamp)
      modifies this
      ensures tracking == Track(old(tracking), branch, microservice, now)
    {
      var entry := FeatureBranch(microservice, now, now, DevelopmentPath(microservice, branch));
      tracking := tracking.(featureBranches := tracking.featureBranches[branch := entry]);
    }

    method LinkToStaging(featureBranch: string, stagingPath: string, now: Timestamp) returns (err: Option<Error>)
      modifies this
      ensures err.Some? <==> Link(old(tracking), featureBranch, stagingPath, now).Failed?
      ensures err.Some? ==> err.value == Link(old(tracking), featureBranch, stagingPath, now).error && tracking == old(tracking)
      ensures err.None? ==> tracking == Link(old(tracking), featureBranch, stagingPath, now).data
    {
      if featureBranch !in tracking.featureBranches {
        return Some(BranchNotTracked(featureBranch));
      }
      var reference := StagingReference(featureBranch, now);
      tracking := tracking.(stagingReferences := tracking.stagingReferences[stagingPath := reference]);
      err := None;
    }

    method PreserveEnvironment(source: string, target: string, sourceExists: bool, now: Timestamp)
      returns (err: Option<Error>)
      modifies this
      ensures err.Some? <==> Preserve(old(tracking), source, target, sourceExists, now).Failed?
      ensures err.Some? ==> err.value == Preserve(old(tracking), source, target, sourceExists, now).error && tracking == old(tracking)
      ensures err.None? ==> tracking == Preserve(old(tracking), source, target, sourceExists, now).data
    {
      if !sourceExists {
        return Some(SourceMissing(source));
      }
      var state := EnvironmentState("symlink", source, now);
      tracking := tracking.(environmentStates := tracking.environmentStates[target := state]);
      err := None;
    }

    method CleanupEnvironment(path: string)
      modifies this
      ensures tracking == Cleanup(old(tracking), path)
      ensures tracking == old(tracking)
    {
      CleanupKeepsTracking(tracking, path);
      if !IsPreserved(tracking, path) {
        var states := tracking.environmentStates;
        if path in states {
          states := states - {path};
        }
        tracking := tracking.(environmentStates := states);
      }
    }
  }

  // ---------------------------------------------------------------------
  // Properties

  /** A fresh record protects no path. */
  lemma InitialPreservesNothing(path: string)
    ensures !IsPreserved(InitialTrackingData(), path)
  {
  }

  /** Tracking sets exactly the branch's entry and leaves the other two maps alone. */
  lemma TrackRecordsBranch(d: TrackingData, branch: string, microservice: string, now: Timestamp)
    ensures var d' := Track(d, branch, microservice, now);
      && d'.featureBranches.Keys == d.featureBranches.Keys + {branch}
      && d'.featureBranches[branch].microservice == microservice
      && d'.featureBranches[branch].createdAt == now == d'.featureBranches[branch].lastUpdated
      && d'.featureBranches[branch].environmentPath == DevelopmentRoot + microservice + "/" + branch
      && (forall b :: b in d.featureBranches && b != branch ==> d'.featureBranches[b] == d.featureBranches[b])
      && d'.stagingReferences == d.stagingReferences
      && d'.environmentStates == d.environmentStates
  {
  }

  /** Linking fails, with nothing changed, exactly when the branch is not tracked. */
  lemma LinkRequiresTracked(d: TrackingData, featureBranch: string, stagingPath: string, now: Timestamp)
    ensures Link(d, featureBranch, stagingPath, now).Failed? <==> featureBranch !in d.featureBranches
    ensures var u := Link(d, featureBranch, stagingPath, now);
      u.Updated? ==>
        && u.data.featureBranches == d.featureBranches
        && u.data.environmentStates == d.environmentStates
        && u.data.stagingReferences.Keys == d.stagingReferences.Keys + {stagingPath}
        && u.data.stagingReferences[stagingPath].sourceBranch == featureBranch
        && u.data.stagingReferences[stagingPath].linkedAt == now
        && (forall p :: p in d.stagingReferences && p != stagingPath ==>
              u.data.stagingReferences[p] == d.stagingReferences[p])
  {
  }

  /** A branch that has just been tracked can always be linked. */
  lemma TrackThenLink(d: TrackingData, branch: string, microservice: string, stagingPath: string, t1: Timestamp, t2: Timestamp)
    ensures Link(Track(d, branch, microservice, t1), branch, stagingPath, t2).Updated?
  {
  }

  /** After a successful link the branch's name counts as preserved. */
  lemma LinkPreservesBranchName(d: TrackingData, featureBranch: string, stagingPath: string, now: Timestamp)
    requires featureBranch in d.featureBranches
    ensures IsPreserved(Link(d, featureBranch, stagingPath, now).data, featureBranch)
  {
    var d' := Link(d, featureBranch, stagingPath, now).data;
    assert d'.stagingReferences[stagingPath].sourceBranch == featureBranch;
  }

  /**
   * The preservation check compares a path with branch names, so tracking a
   * branch and linking it to staging does not protect the development path
   * that tracking recorded for it, unless that path was protected already.
   */
  lemma LinkLeavesDevelopmentPathUnprotected(d: TrackingData, branch: string, microservice: string,
                                             stagingPath: string, t1: Timestamp, t2: Timestamp)
    requires !IsPreserved(d, DevelopmentPath(microservice, branch))
    ensures var tracked := Track(d, branch, microservice, t1);
      var linked := Link(tracked, branch, stagingPath, t2);
      && linked.Updated?
      && !IsPreserved(linked.data, tracked.featureBranches[branch].environmentPath)
  {
    var path := DevelopmentPath(microservice, branch);
    var tracked := Track(d, branch, microservice, t1);
    var linked := Link(tracked, branch, stagingPath, t2).data;
    assert path != branch;
    forall s | s in linked.stagingReferences
      ensures linked.stagingReferences[s].sourceBranch != path
    {
      if s != stagingPath {
        assert linked.stagingReferences[s] == d.stagingReferences[s];
      }
    }
  }

  /** Re-linking a staging path to another branch withdraws the protection of the first one. */
  lemma RelinkCanUnprotect(a: string, b: string, stagingPath: string, m: string, t: Timestamp)
    requires a != b
    ensures var d := Track(Track(InitialTrackingData(), a, m, t), b, m, t);
      var first := Link(d, a, stagingPath, t).data;
      var second := Link(first, b, stagingPath, t).data;
      && IsPreserved(first, a)
      && !IsPreserved(second, a)
  {
    var d := Track(Track(InitialTrackingData(), a, m, t), b, m, t);
    var first := Link(d, a, stagingPath, t).data;
    var second := Link(first, b, stagingPath, t).data;
    LinkPreservesBranchName(d, a, stagingPath, t);
    assert second.stagingReferences == map[stagingPath := StagingReference(b, t)];
    assert second.stagingReferences.Values == {StagingReference(b, t)};
    assert LinkedSources(second) == {b};
  }

  /**
   * Preserving fails, with nothing changed, when the source is missing;
   * otherwise it records the target as a symlink to the source, which makes
   * the target preserved.
   */
  lemma PreserveRecordsTarget(d: TrackingData, source: string, target: string, sourceExists: bool, now: Timestamp)
    ensures var u := Preserve(d, source, target, sourceExists, now);
      && (u.Failed? <==> !sourceExists)
      && (u.Failed? ==> u.error == SourceMissing(source))
      && (u.Updated? ==>
        && u.data.environmentStates.Keys == d.environmentStates.Keys + {target}
        && u.data.environmentStates[target] == EnvironmentState("symlink", source, now)
        && (forall p :: p in d.environmentStates && p != target ==>
              u.data.environmentStates[p] == d.environmentStates[p])
        && IsPreserved(u.data, target)
        && u.data.featureBranches == d.featureBranches
        && u.data.stagingReferences == d.stagingReferences)
  {
  }

  /** Tracking and preserving never withdraw the protection of a path. */
  lemma PreservationIsStable(d: TrackingData, path: string, branch: string, microservice: string,
                             source: string, target: string, now: Timestamp)
    requires IsPreserved(d, path)
    ensures IsPreserved(Track(d, branch, microservice, now), path)
    ensures IsPreserved(Preserve(d, source, target, true, now).data, path)
  {
  }

  /**
   * Cleanup never changes the tracking record: a preserved path is left
   * alone, and a path that is not preserved has no recorded state to delete.
   */
  lemma CleanupKeepsTracking(d: TrackingData, path: string)
    ensures Cleanup(d, path) == d
  {
  }
}
