/** The runtime object: its maps under the mutex, updated in place by the critical
    sections. Each is proved to be the protocol's step. */
module Sections {
  import opened Texts
  import opened Types
  import opened Protocol
  import opened Ownership
  import opened Owners

  class Runtime {
    var jobs: map<JobId, Job>
    var reservations: set<JobId>
    var setupTasks: set<JobId>
    var cleanupTasks: set<JobId>
    var ownedRuns: map<RunKey, JobId>
    var shuttingDown: bool

    constructor ()
      ensures jobs == map[] && reservations == setupTasks == cleanupTasks == {} && ownedRuns == map[] && !shuttingDown
    {
      jobs, ownedRuns := map[], map[];
      reservations, setupTasks, cleanupTasks, shuttingDown := {}, {}, {}, false;
    }

    /** The protocol's state, with the stores and the shutdown as they are elsewhere. */
    ghost function In(rest: State): State
      reads this
    {
      State(rest.dbs, rest.stores, jobs, reservations, setupTasks, cleanupTasks, ownedRuns, shuttingDown, rest.shutdown)
    }

    // --- reserveClaim --------------------------------------------------------

    method RegisterReservation(j: JobId, path: Text, ghost rest: State) returns (accepted: bool)
      requires j !in jobs
      modifies this
      ensures accepted <==> !old(shuttingDown)
      ensures In(rest) == if accepted
                          then old(In(rest)).(jobs := old(jobs)[j := NewJob(path)], reservations := old(reservations) + {j})
                          else old(In(rest))
    {
      if shuttingDown {
        return false;
      }
      jobs := jobs[j := NewJob(path)];
      reservations := reservations + {j};
      return true;
    }

    /** ensureAccepting after the claim has committed. */
    method JudgeClaim(j: JobId, callerCanceled: bool, ghost rest: State)
      requires j in jobs && jobs[j].pc.Judging?
      modifies this
      ensures In(rest) == ActOn(old(In(rest)), j, Call(Judge(callerCanceled)))
    {
      var stopped := callerCanceled || shuttingDown;
      jobs := jobs[j := jobs[j].(pc := if stopped then Compensating else Leaving(true))];
    }

    method DropReservation(j: JobId, ghost rest: State)
      requires j in jobs && jobs[j].pc.Leaving?
      modifies this
      ensures In(rest) == ActOn(old(In(rest)), j, Call(Unreserve))
    {
      reservations := reservations - {j};
      jobs := jobs[j := jobs[j].(pc := Closing(jobs[j].pc.ok))];
    }

    // --- prepareClaim --------------------------------------------------------

    method RegisterSetup(j: JobId, ghost rest: State)
      requires j in jobs && jobs[j].pc.Gap?
      modifies this
      ensures In(rest) == ActOn(old(In(rest)), j, Call(Prepare))
    {
      if shuttingDown {
        jobs := jobs[j := jobs[j].(pc := Returned)];
        return;
      }
      setupTasks := setupTasks + {j};
      jobs := jobs[j := jobs[j].(pc := Preparing)];
    }

    method OwnLiveSetup(j: JobId, ghost rest: State)
      requires j in jobs && jobs[j].pc.Preparing? && jobs[j].key.Some?
      modifies this
      ensures In(rest) == ActOn(old(In(rest)), j, Call(Own))
    {
      ownedRuns := ownedRuns[RunKeyOf(jobs[j]) := j];
      jobs := jobs[j := jobs[j].(pc := Acquiring)];
    }

    /** The setup's last critical section: a canceled setup fails, any other launches. */
    method LaunchLiveRun(j: JobId, ghost rest: State)
      requires j in jobs && jobs[j].pc.Launching? && jobs[j].key.Some?
      modifies this
      ensures In(rest) == ActOn(old(In(rest)), j, Call(Launch))
    {
      if jobs[j].setupCanceled {
        jobs := jobs[j := jobs[j].(pc := FailingSetup)];
        return;
      }
      ownedRuns := ownedRuns[RunKeyOf(jobs[j]) := j];
      jobs := jobs[j := jobs[j].(pc := SetupLeaving, runner := RunnerPc.Starting)];
    }

    method DropSetup(j: JobId, ghost rest: State)
      requires j in jobs && jobs[j].pc.SetupLeaving?
      modifies this
      ensures In(rest) == ActOn(old(In(rest)), j, Call(LeaveSetup))
    {
      setupTasks := setupTasks - {j};
      jobs := jobs[j := jobs[j].(pc := SetupClosing)];
    }

    // --- cleanup -------------------------------------------------------------

    /** Starts the single cleanup of a run, for its setup or for its runner. */
    method StartLiveRunCleanup(j: JobId, fromSetup: bool, ghost rest: State)
      requires j in jobs && jobs[j].cleanup.NoCleanup?
      requires if fromSetup then jobs[j].pc.FailingSetup? else jobs[j].runner.Ending?
      modifies this
      ensures In(rest) == ActOn(old(In(rest)), j, if fromSetup then Call(StartSetupCleanup) else Runner(StartCleanup))
    {
      cleanupTasks := cleanupTasks + {j};
      if fromSetup {
        jobs := jobs[j := jobs[j].(pc := AwaitingSetupCleanup, cleanup := ClosingClient(true))];
      } else {
        jobs := jobs[j := jobs[j].(runner := AwaitingCleanup, cleanup := ClosingClient(jobs[j].runner.failed))];
      }
    }

    /** releaseLiveRun forgets a run, unless another has taken its key. */
    method ReleaseLiveRun(j: JobId, ghost rest: State)
      requires j in jobs && jobs[j].cleanup.Releasing? && jobs[j].key.Some?
      modifies this
      ensures In(rest) == ActOn(old(In(rest)), j, Clean(Release))
    {
      var key := RunKeyOf(jobs[j]);
      if key in ownedRuns && ownedRuns[key] == j {
        ownedRuns := ownedRuns - {key};
      }
      jobs := jobs[j := jobs[j].(cleanup := Deleting)];
    }

    method DropCleanup(j: JobId, ghost rest: State)
      requires j in jobs && jobs[j].cleanup.Deleting?
      modifies this
      ensures In(rest) == ActOn(old(In(rest)), j, Clean(DeleteCleanup))
    {
      cleanupTasks := cleanupTasks - {j};
      jobs := jobs[j := jobs[j].(cleanup := ClosingCleanup)];
    }

    // --- cancelLiveRun and shutdown ------------------------------------------

    /** The lookup of cancelLiveRun: marks the owned run and tells whom to cancel. */
    method MarkParentCanceled(path: Text, a: Id, r: Id, ghost rest: State) returns (owned: Option<JobId>, owner: Option<Owner>)
      requires Jobs(In(rest))
      modifies this
      ensures owned.Some? <==>
                var key := RunKey(path, r);
                key in old(ownedRuns) && old(jobs)[old(ownedRuns)[key]].key.value.agent == a
      ensures owned.Some? ==>
                && owned.value in old(jobs) && CanAct(old(jobs)[owned.value], Cancel(CancelByParent))
                && owner == Some(if old(jobs)[owned.value].runner.NoRunner? then TheSetup else TheRunner)
                && Owning(old(jobs)[owned.value], owner.value)
                && In(rest) == ActOn(old(In(rest)), owned.value, Cancel(CancelByParent))
      ensures owned.None? ==> In(rest) == old(In(rest))
    {
      var key := RunKey(path, r);
      if key !in ownedRuns {
        return None, None;
      }
      OwnedIsListed(In(rest), key);
      JobFact(In(rest), ownedRuns[key]);
      var j := ownedRuns[key];
      OwnedHasKey(In(rest), key);
      if jobs[j].key.value.agent != a {
        return None, None;
      }
      jobs := jobs[j := jobs[j].(parentCanceled := true)];
      return Some(j), OwnerOf(jobs[j]);
    }

    method TakeSetups() returns (setups: set<JobId>)
      requires setupTasks <= jobs.Keys
      ensures setups == set j | j in setupTasks && !jobs[j].pc.Returned?
    {
      setups := {};
      var left := setupTasks;
      while left != {}
        invariant left <= setupTasks
        invariant setups == set j | j in setupTasks - left && !jobs[j].pc.Returned?
        decreases |left|
      {
        var j :| j in left;
        if !jobs[j].pc.Returned? {
          setups := setups + {j};
        }
        left := left - {j};
      }
    }

    method TakeRunners() returns (runners: set<JobId>)
      requires forall key | key in ownedRuns :: ownedRuns[key] in jobs
      ensures runners == set key | key in ownedRuns && RunnerLive(jobs[ownedRuns[key]].runner) :: ownedRuns[key]
    {
      runners := {};
      var keys := ownedRuns.Keys;
      while keys != {}
        invariant keys <= ownedRuns.Keys
        invariant runners == set key | key in ownedRuns.Keys - keys && RunnerLive(jobs[ownedRuns[key]].runner) :: ownedRuns[key]
        decreases |keys|
      {
        var key :| key in keys;
        if RunnerLive(jobs[ownedRuns[key]].runner) {
          runners := runners + {ownedRuns[key]};
        }
        keys := keys - {key};
      }
    }

    /** What cancelOwnedTasks takes under the mutex: the unfinished setups, and the
        unfinished runners of owned runs. */
    method TakeTasks(ghost rest: State) returns (taken: Pass)
      requires Jobs(In(rest))
      ensures taken == Snapshot(In(rest))
    {
      OwnedAreJobs(In(rest));
      var setups := TakeSetups();
      var runners := TakeRunners();
      TakenIsSnapshot(In(rest), setups, runners);
      return Pass(setups, runners, setups, runners);
    }
  }

  lemma OwnedAreJobs(s: State)
    requires Jobs(s)
    ensures forall key | key in s.ownedRuns :: s.ownedRuns[key] in s.jobs
  {
    forall key | key in s.ownedRuns
      ensures s.ownedRuns[key] in s.jobs
    {
      OwnedHasKey(s, key);
    }
  }

  lemma OwnedHasKey(s: State, key: RunKey)
    requires Jobs(s) && key in s.ownedRuns
    ensures s.ownedRuns[key] in s.jobs && s.jobs[s.ownedRuns[key]].key.Some? && RunKeyOf(s.jobs[s.ownedRuns[key]]) == key
    ensures IsOwned(s.jobs[s.ownedRuns[key]])
  {
    assert s.ownedRuns[key] in s.jobs;
    JobFact(s, s.ownedRuns[key]);
  }

  lemma TakenIsSnapshot(s: State, setups: set<JobId>, runners: set<JobId>)
    requires Jobs(s)
    requires setups == set j | j in s.setupTasks && !s.jobs[j].pc.Returned?
    requires forall key | key in s.ownedRuns :: s.ownedRuns[key] in s.jobs
    requires runners == set key | key in s.ownedRuns && RunnerLive(s.jobs[s.ownedRuns[key]].runner) :: s.ownedRuns[key]
    ensures Pass(setups, runners, setups, runners) == Snapshot(s)
  {
    forall j | j in runners
      ensures j in Snapshot(s).runners
    {
      var key :| key in s.ownedRuns && RunnerLive(s.jobs[s.ownedRuns[key]].runner) && s.ownedRuns[key] == j;
      OwnedHasKey(s, key);
    }
    forall j | j in Snapshot(s).runners
      ensures j in runners
    {
      assert s.ownedRuns[RunKeyOf(s.jobs[j])] == j;
    }
    assert runners == Snapshot(s).runners;
    assert setups == Snapshot(s).setups;
  }
}
