/**
 * Switching all queue workers on and off with the lock. A worker of the queue library fetches jobs
 * while its main loop runs and it is not paused; pausing lets an idle main loop exit.
 */
module WorkerLockBootstrap {
  datatype Flags = Flags(paused: bool, running: bool, closing: bool)

  predicate Fetching(f: Flags) {
    f.running && !f.paused && !f.closing
  }

  /** `run()` returns at once on a paused or closing worker. */
  function AfterRun(f: Flags): Flags {
    if f.paused || f.closing then f else f.(running := true)
  }

  /** `resume()` lifts the pause and starts the main loop if it has exited. */
  function AfterResume(f: Flags): Flags {
    AfterRun(f.(paused := false))
  }

  /** What the loop does to one worker: resume a paused one, else run a stopped one. */
  function Resumed(f: Flags): Flags {
    if f.paused then AfterResume(f) else if !f.running then AfterRun(f) else f
  }

  /** The two questions asked in the other order: run a stopped worker, else resume a paused one. */
  function RunFirst(f: Flags): Flags {
    if !f.running then AfterRun(f) else if f.paused then AfterResume(f) else f
  }

  predicate AllFetching(workers: seq<Flags>) {
    forall i | 0 <= i < |workers| :: !workers[i].closing ==> Fetching(workers[i])
  }

  function Each(workers: seq<Flags>, step: Flags -> Flags): (after: seq<Flags>)
    ensures |after| == |workers| && forall i | 0 <= i < |workers| :: after[i] == step(workers[i])
  {
    seq(|workers|, i requires 0 <= i < |workers| => step(workers[i]))
  }

  /**
   * Why the order of the questions matters: the loop as it is brings every open worker back, while with the
   * questions swapped it does so exactly when no open worker is both paused and out of its main loop, the
   * state a lost lock leaves an idle worker in.
   */
  lemma OnlyResumeFirstBringsAllBack(workers: seq<Flags>)
    ensures AllFetching(Each(workers, Resumed))
    ensures AllFetching(Each(workers, RunFirst))
            <==> forall i | 0 <= i < |workers| :: workers[i].closing || !workers[i].paused || workers[i].running
  {
    var swapped := Each(workers, RunFirst);
    forall i | 0 <= i < |workers|
      ensures !swapped[i].closing ==> (Fetching(swapped[i]) <==> !workers[i].paused || workers[i].running)
      ensures swapped[i].closing == workers[i].closing
    {
    }
    if AllFetching(swapped) {
      forall i | 0 <= i < |workers|
        ensures workers[i].closing || !workers[i].paused || workers[i].running
      {
        assert !swapped[i].closing ==> Fetching(swapped[i]);
      }
    }
  }

  class QueueWorker {
    var flags: Flags

    method Run()
      modifies this
      ensures flags == AfterRun(old(flags))
    {
      if !flags.paused && !flags.closing {
        flags := flags.(running := true);
      }
    }

    method Resume()
      modifies this
      ensures flags == AfterResume(old(flags))
    {
      flags := flags.(paused := false);
      if !flags.running {
        Run();
      }
    }

    /** `idle`: no job is active, so the main loop exits. */
    method Pause(idle: bool)
      modifies this
      ensures flags == Flags(true, old(flags).running && !idle, old(flags).closing)
    {
      flags := flags.(paused := true, running := flags.running && !idle);
    }
  }

  /** After the lock is won every worker that is not closing fetches jobs, however it was left. */
  method ResumeAll(workers: seq<QueueWorker>)
    modifies workers
    ensures forall w | w in workers :: w.flags == Resumed(old(w.flags))
    ensures forall w | w in workers :: w.flags.closing == old(w.flags.closing) && (!w.flags.closing ==> Fetching(w.flags))
  {
    var i := 0;
    while i < |workers|
      invariant 0 <= i <= |workers|
      invariant forall w | w in workers :: w.flags == old(w.flags) || w.flags == Resumed(old(w.flags))
      invariant forall j | 0 <= j < i :: workers[j].flags == Resumed(old(workers[j].flags))
    {
      var worker := workers[i];
      if worker.flags.paused {
        worker.Resume();
      } else if !worker.flags.running {
        worker.Run();
      }
      i := i + 1;
    }
  }

  /** After the lock is lost no worker fetches jobs. */
  method PauseAll(workers: seq<QueueWorker>, idle: seq<bool>)
    requires |idle| == |workers|
    modifies workers
    ensures forall w | w in workers :: w.flags.paused && !Fetching(w.flags) && w.flags.closing == old(w.flags.closing)
  {
    var i := 0;
    while i < |workers|
      invariant 0 <= i <= |workers|
      invariant forall w | w in workers :: w.flags.closing == old(w.flags.closing)
      invariant forall j | 0 <= j < i :: workers[j].flags.paused
    {
      workers[i].Pause(idle[i]);
      i := i + 1;
    }
  }
}
