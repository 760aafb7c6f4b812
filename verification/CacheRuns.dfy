/**
  Soundness of the per-node script cache over whole runs: any number of clients load scripts on nodes and record them,
  one atomic event at a time, while nodes restart and the topology changes.
*/
module CacheRuns {
  import opened Options
  import opened Topology
  import opened ScriptCaches

  /** One client's loading of what it misses on one node, `done` scripts of it so far. */
  datatype Job = Job(server: Server, toLoad: seq<Sha>, done: nat) {
    predicate Finished() {
      done == |toLoad|
    }
  }

  /** What the clients believe the nodes hold, what the nodes hold, and the jobs under way, by client. */
  datatype World = World(cache: map<Server, set<Sha>>, loaded: map<Server, set<Sha>>, jobs: map<nat, Job>) {
    function Loaded(s: Server): set<Sha> {
      if s in loaded then loaded[s] else {}
    }

    /** `is_cached` never answers true for a script its node does not hold. */
    ghost predicate Sound() {
      forall s, h :: s in cache && h in cache[s] ==> h in Loaded(s)
    }
  }

  /**
    A client begins a job, has its next script loaded or refused, and after the last one records the whole list. Scripts
    also get loaded by anybody's EVAL. A restart empties the node, and its reconnect event empties the cache's entry.
  */
  datatype Event =
    | Begin(client: nat, server: Server, toLoad: seq<Sha>)
    | LoadNext(client: nat)
    | Refused(client: nat)
    | Record(client: nat)
    | Evaluated(server: Server, sha: Sha)
    | TopologyChange
    | Restart(server: Server)

  datatype Run = Start | And(before: Run, event: Event)

  function Elements(shas: seq<Sha>): set<Sha> {
    set h | h in shas
  }

  /** What recording a finished job makes of the cache; an empty list is not recorded. */
  function Recorded(cache: map<Server, set<Sha>>, job: Job): map<Server, set<Sha>> {
    if job.toLoad == [] then cache else Commit(cache, job.server, Elements(job.toLoad))
  }

  /** The script an event loads, and where. */
  function LoadOf(w: World, e: Event): Option<(Server, Sha)> {
    match e
    case LoadNext(c) =>
      if c in w.jobs && w.jobs[c].done < |w.jobs[c].toLoad|
      then Some((w.jobs[c].server, w.jobs[c].toLoad[w.jobs[c].done])) else None
    case Evaluated(s, h) => Some((s, h))
    case _ => None
  }

  /** The job an event records. */
  function RecordOf(w: World, e: Event): Option<Job> {
    if e.Record? && e.client in w.jobs && w.jobs[e.client].Finished() then Some(w.jobs[e.client]) else None
  }

  function LoadedWith(loaded: map<Server, set<Sha>>, load: Option<(Server, Sha)>): map<Server, set<Sha>> {
    match load
    case None => loaded
    case Some((s, h)) => loaded[s := (if s in loaded then loaded[s] else {}) + {h}]
  }

  /** An event its client is not in a position to cause changes nothing. */
  function Apply(w: World, e: Event): World {
    match e
    case Begin(c, s, toLoad) => if c in w.jobs then w else w.(jobs := w.jobs[c := Job(s, toLoad, 0)])
    case LoadNext(c) =>
      if LoadOf(w, e).None? then w
      else w.(loaded := LoadedWith(w.loaded, LoadOf(w, e)), jobs := w.jobs[c := w.jobs[c].(done := w.jobs[c].done + 1)])
    case Refused(c) => if c in w.jobs && !w.jobs[c].Finished() then w.(jobs := w.jobs - {c}) else w
    case Record(c) =>
      if RecordOf(w, e).None? then w
      else w.(cache := Recorded(w.cache, w.jobs[c]), jobs := w.jobs - {c})
    case Evaluated(s, h) => w.(loaded := LoadedWith(w.loaded, LoadOf(w, e)))
    case TopologyChange => w.(cache := map[])
    case Restart(s) => w.(cache := w.cache - {s}, loaded := w.loaded - {s})
  }

  function After(run: Run): World {
    if run.Start? then World(map[], map[], map[]) else Apply(After(run.before), run.event)
  }

  // ---------- What was loaded, and what restarts took away ----------

  predicate EverLoaded(run: Run, s: Server, h: Sha) {
    run.And? && (LoadOf(After(run.before), run.event) == Some((s, h)) || EverLoaded(run.before, s, h))
  }

  /** `s` has restarted after the last load of `h` there. */
  predicate RestartedSinceLoad(run: Run, s: Server, h: Sha) {
    run.And?
    && LoadOf(After(run.before), run.event) != Some((s, h))
    && (run.event == Restart(s) || RestartedSinceLoad(run.before, s, h))
  }

  /** A node holds what was loaded there since its last restart. */
  lemma {:induction false} LoadedIff(run: Run, s: Server, h: Sha)
    ensures h in After(run).Loaded(s) <==> EverLoaded(run, s, h) && !RestartedSinceLoad(run, s, h)
  {
    if run.And? {
      LoadedIff(run.before, s, h);
    }
  }

  /** `h` was recorded for `s`, and since then neither has `s` restarted nor the topology changed. */
  predicate RecordedSinceForgotten(run: Run, s: Server, h: Sha) {
    run.And?
    && (var job := RecordOf(After(run.before), run.event);
        || (job.Some? && job.value.server == s && h in job.value.toLoad)
        || (run.event != Restart(s) && run.event != TopologyChange && RecordedSinceForgotten(run.before, s, h)))
  }

  /** The cache claims exactly what was recorded and not forgotten since. */
  lemma {:induction false} ClaimedIff(run: Run, s: Server, h: Sha)
    ensures s in After(run).cache && h in After(run).cache[s] <==> RecordedSinceForgotten(run, s, h)
  {
    if run.And? {
      ClaimedIff(run.before, s, h);
    }
  }

  ghost predicate JobsLoaded(run: Run) {
    var jobs := After(run).jobs;
    forall c, i :: c in jobs && 0 <= i < |jobs[c].toLoad| && i < jobs[c].done ==>
      EverLoaded(run, jobs[c].server, jobs[c].toLoad[i])
  }

  /** Whatever a job counts as done has been loaded; so nothing is ever recorded that was not. */
  lemma {:induction false} DoneIsLoaded(run: Run)
    ensures JobsLoaded(run)
    ensures forall c :: c in After(run).jobs ==> After(run).jobs[c].done <= |After(run).jobs[c].toLoad|
  {
    if run.And? {
      DoneIsLoaded(run.before);
      var jobs, jobs' := After(run.before).jobs, After(run).jobs;
      forall c, i | c in jobs' && 0 <= i < |jobs'[c].toLoad| && i < jobs'[c].done
        ensures EverLoaded(run, jobs'[c].server, jobs'[c].toLoad[i])
      {
        assert c in jobs;
        if i < jobs[c].done {
          assert EverLoaded(run.before, jobs[c].server, jobs[c].toLoad[i]);
        }
      }
    }
  }

  lemma RecordedWasLoaded(run: Run, e: Event, h: Sha)
    requires RecordOf(After(run), e).Some? && h in RecordOf(After(run), e).value.toLoad
    ensures EverLoaded(run, RecordOf(After(run), e).value.server, h)
  {
    DoneIsLoaded(run);
    var job := RecordOf(After(run), e).value;
    var i :| 0 <= i < |job.toLoad| && job.toLoad[i] == h;
    assert e.client in After(run).jobs && i < job.done;
  }

  // ---------- Soundness ----------

  ghost predicate AlwaysSound(run: Run) {
    After(run).Sound() && (run.And? ==> AlwaysSound(run.before))
  }

  /** No restart of a node falls between the last load of a script there and the recording of it. */
  ghost predicate NoRestartBeforeRecord(run: Run) {
    run.And? ==>
      && NoRestartBeforeRecord(run.before)
      && (RecordOf(After(run.before), run.event).Some? ==>
            var job := RecordOf(After(run.before), run.event).value;
            forall h :: h in job.toLoad ==> !RestartedSinceLoad(run.before, job.server, h))
  }

  lemma RecordKeepsSoundIff(run: Run, e: Event)
    requires After(run).Sound() && RecordOf(After(run), e).Some?
    ensures var job := RecordOf(After(run), e).value;
            Apply(After(run), e).Sound() <==> forall h :: h in job.toLoad ==> !RestartedSinceLoad(run, job.server, h)
  {
    var job := RecordOf(After(run), e).value;
    var w, w' := After(run), Apply(After(run), e);
    forall h | h in job.toLoad
      ensures job.server in w'.cache && h in w'.cache[job.server]
      ensures h in w'.Loaded(job.server) <==> !RestartedSinceLoad(run, job.server, h)
    {
      assert h in Elements(job.toLoad);
      RecordedWasLoaded(run, e, h);
      LoadedIff(run, job.server, h);
    }
  }

  lemma OtherEventsKeepSound(w: World, e: Event)
    requires w.Sound() && RecordOf(w, e).None?
    ensures Apply(w, e).Sound()
  {}

  /**
    Over all interleavings of all clients, the cache is right throughout a run exactly when no node restarts between the
    last load of a recorded script and its record.
  */
  lemma {:induction false} SoundIffNoRestartBeforeRecord(run: Run)
    ensures AlwaysSound(run) <==> NoRestartBeforeRecord(run)
  {
    if run.And? {
      SoundIffNoRestartBeforeRecord(run.before);
      if After(run.before).Sound() {
        if RecordOf(After(run.before), run.event).Some? {
          RecordKeepsSoundIff(run.before, run.event);
        } else {
          OtherEventsKeepSound(After(run.before), run.event);
        }
      }
    }
  }

  /** No node restarts while a job has loaded scripts on it that it has yet to record. */
  ghost predicate RestartsOutsideJobs(run: Run) {
    run.And? ==>
      && RestartsOutsideJobs(run.before)
      && (run.event.Restart? ==>
            forall c :: c in After(run.before).jobs && After(run.before).jobs[c].server == run.event.server ==>
              After(run.before).jobs[c].done == 0)
  }

  /** Nothing the job counts as done was lost in a restart since. */
  ghost predicate Fresh(run: Run, job: Job) {
    forall i :: 0 <= i < |job.toLoad| && i < job.done ==> !RestartedSinceLoad(run, job.server, job.toLoad[i])
  }

  ghost predicate JobsFresh(run: Run) {
    forall c :: c in After(run).jobs ==> Fresh(run, After(run).jobs[c])
  }

  lemma FreshStays(run: Run, job: Job)
    requires run.And? && Fresh(run.before, job) && (run.event == Restart(job.server) ==> job.done == 0)
    ensures Fresh(run, job)
  {
    hide After, LoadOf;
  }

  lemma FreshAfterLoad(run: Run, job: Job)
    requires run.And? && Fresh(run, job) && job.done < |job.toLoad|
    requires LoadOf(After(run.before), run.event) == Some((job.server, job.toLoad[job.done]))
    ensures Fresh(run, job.(done := job.done + 1))
  {
    hide After, LoadOf;
  }

  lemma FreshStep(run: Run, c: nat)
    requires run.And? && JobsFresh(run.before) && RestartsOutsideJobs(run) && c in After(run).jobs
    ensures Fresh(run, After(run).jobs[c])
  {
    var jobs, e := After(run.before).jobs, run.event;
    if c in jobs {
      assert Fresh(run.before, jobs[c]);
      FreshStays(run, jobs[c]);
      if e == LoadNext(c) && jobs[c].done < |jobs[c].toLoad| {
        FreshAfterLoad(run, jobs[c]);
      }
    }
    hide Fresh, JobsFresh;
  }

  /** So restarts at any other time are harmless, however the clients interleave. */
  lemma {:induction false} RestartsOutsideJobsAreHarmless(run: Run)
    requires RestartsOutsideJobs(run)
    ensures JobsFresh(run) && NoRestartBeforeRecord(run) && AlwaysSound(run)
  {
    if run.And? {
      RestartsOutsideJobsAreHarmless(run.before);
      forall c | c in After(run).jobs { FreshStep(run, c); }
      hide Apply;
      var e := run.event;
      if RecordOf(After(run.before), e).Some? {
        var job := RecordOf(After(run.before), e).value;
        assert e.client in After(run.before).jobs;
        forall h | h in job.toLoad ensures !RestartedSinceLoad(run.before, job.server, h) {
          var i :| 0 <= i < |job.toLoad| && job.toLoad[i] == h;
        }
      }
    }
    SoundIffNoRestartBeforeRecord(run);
  }

  /** The window is real: load, restart, record leaves a wrong claim. */
  lemma RestartInWindowMisleads(s: Server, h: Sha)
    ensures var run := And(And(And(And(Start, Begin(0, s, [h])), LoadNext(0)), Restart(s)), Record(0));
            s in After(run).cache && h in After(run).cache[s] && h !in After(run).Loaded(s)
  {
    var r1 := And(Start, Begin(0, s, [h]));
    var r2 := And(r1, LoadNext(0));
    var r3 := And(r2, Restart(s));
    assert After(r1).jobs == map[0 := Job(s, [h], 0)];
    assert After(r2).jobs == map[0 := Job(s, [h], 1)];
    assert After(r3).jobs == map[0 := Job(s, [h], 1)] && After(r3).Loaded(s) == {};
    assert h in Elements([h]);
  }

  // ---------- One client's job from begin to end ----------

  /** `n` loads of the job, with nothing in between. */
  function Loads(run: Run, client: nat, n: nat): Run {
    if n == 0 then run else And(Loads(run, client, n - 1), LoadNext(client))
  }

  /** The whole job: recorded if every script was loaded, given up otherwise. */
  function JobRun(run: Run, client: nat, server: Server, toLoad: seq<Sha>, n: nat): Run {
    And(Loads(And(run, Begin(client, server, toLoad)), client, n),
        if n == |toLoad| then Record(client) else Refused(client))
  }

  /** `w` is `w0` with `client`'s job begun and `n` of its scripts loaded. */
  ghost predicate Partway(w0: World, w: World, client: nat, job: Job) {
    && job.done <= |job.toLoad|
    && w.cache == w0.cache && w.jobs == w0.jobs[client := job]
    && w.Loaded(job.server) == w0.Loaded(job.server) + Elements(job.toLoad[..job.done])
    && forall s :: s != job.server ==> w.Loaded(s) == w0.Loaded(s)
  }

  lemma LoadNextAdvances(w0: World, w: World, client: nat, job: Job)
    requires Partway(w0, w, client, job) && job.done < |job.toLoad|
    ensures Partway(w0, Apply(w, LoadNext(client)), client, job.(done := job.done + 1))
  {
    var h := job.toLoad[job.done];
    assert LoadOf(w, LoadNext(client)) == Some((job.server, h));
    assert job.toLoad[..job.done + 1] == job.toLoad[..job.done] + [h];
    var w' := Apply(w, LoadNext(client));
    assert w'.Loaded(job.server) == w.Loaded(job.server) + {h};
    assert Elements(job.toLoad[..job.done] + [h]) == Elements(job.toLoad[..job.done]) + {h};
    assert w'.jobs == w0.jobs[client := job.(done := job.done + 1)];
  }

  lemma {:induction false} AfterLoads(run: Run, client: nat, server: Server, toLoad: seq<Sha>, n: nat)
    requires client !in After(run).jobs && n <= |toLoad|
    ensures Partway(After(run), After(Loads(And(run, Begin(client, server, toLoad)), client, n)), client,
                    Job(server, toLoad, n))
  {
    if n > 0 {
      AfterLoads(run, client, server, toLoad, n - 1);
      hide Partway, Apply;
      LoadNextAdvances(After(run), After(Loads(And(run, Begin(client, server, toLoad)), client, n - 1)), client,
                       Job(server, toLoad, n - 1));
    }
  }

  /** A job alone adds what it loaded to its node, and to the cache if it loaded everything; nothing else changes. */
  ghost predicate JobDone(w0: World, w: World, job: Job) {
    && job.done <= |job.toLoad|
    && w.cache == (if job.Finished() then Recorded(w0.cache, job) else w0.cache)
    && w.jobs == w0.jobs
    && w.Loaded(job.server) == w0.Loaded(job.server) + Elements(job.toLoad[..job.done])
    && forall s :: s != job.server ==> w.Loaded(s) == w0.Loaded(s)
  }

  lemma LastStep(w0: World, w: World, client: nat, job: Job)
    requires client !in w0.jobs && Partway(w0, w, client, job)
    ensures JobDone(w0, Apply(w, if job.Finished() then Record(client) else Refused(client)), job)
  {
    hide Recorded, Elements;
    assert w0.jobs[client := job] - {client} == w0.jobs;
  }

  lemma AfterJob(run: Run, client: nat, server: Server, toLoad: seq<Sha>, n: nat)
    requires client !in After(run).jobs && n <= |toLoad|
    ensures JobDone(After(run), After(JobRun(run, client, server, toLoad, n)), Job(server, toLoad, n))
  {
    AfterLoads(run, client, server, toLoad, n);
    var loads := Loads(And(run, Begin(client, server, toLoad)), client, n);
    LastStep(After(run), After(loads), client, Job(server, toLoad, n));
    hide Apply, Partway, JobDone;
  }
}
