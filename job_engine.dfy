/** The job engine: job contexts, runners and the engine's three registries. */
module Job {
  import opened Wrappers
  import opened JobFiles

  /** A Python exception: its `message` attribute (possibly `None`) and `str(ex)`. */
  datatype Fault = Fault(message: Option<string>, text: string)

  /** An opaque compiled code object. */
  datatype Code = Code(handle: nat)

  /** `ast.parse`, the script validator and `compile`, folded into one step from a file name
      and a script to a code object or the exception the first failing step raises. */
  type FrontEnd = (string, string) -> Result<Code, Fault>

  /** What a job's namespace can bind: `None`, the job's own context (bound to `ava`), or
      any other value the script computes. */
  datatype Value = PyNone | ContextRef(ctx: JobContext) | Datum(repr: string)

  type Bindings = map<string, Value>

  /** The context's public attributes `result` and `exception`. The namespace binds `ava`
      to the context, so a script can assign them (`ava.result = 7`). */
  datatype Slots = Slots(result: Value, exception: Option<Fault>)

  /** How executing a code object against a namespace ends. Each case carries the namespace
      and the context's attributes as the code left them, also when it stops part-way.
      - Completed: it ran to the end.
      - Raised: an `Exception` escaped it.
      - Escaped: a `BaseException` that is not an `Exception` escaped it (`SystemExit`,
        `KeyboardInterrupt`, `GreenletExit`). */
  datatype ExecOutcome =
    | Completed(scope: Bindings, slots: Slots)
    | Raised(scope: Bindings, slots: Slots, fault: Fault)
    | Escaped(scope: Bindings, slots: Slots, fault: Fault)

  /** The `exec` statement, run against a job's namespace and its context's attributes. */
  type Exec = (Code, Bindings, Slots) -> ExecOutcome

  /** Metadata of a loaded or submitted job (`JobInfo`). */
  datatype JobInfo = JobInfo(name: string, script: string, code: Code)

  /** What the engine sends to the core context's event bus. */
  datatype Signal =
    | JobAccepted(jobName: string)
    | JobRejected(reason: string)
    | JobFinished(jobCtx: JobContext)
    | JobFailed(jobCtx: JobContext)

  /** A submission: a dictionary that should hold the script under the key "script". */
  type Payload = map<string, string>

  /** The `KeyError` that looking up a missing "script" raises. */
  const MissingScript: Fault := Fault(Some("script"), "'script'")

  /** The rejection reason for an exception: its message when that is a non-empty string,
      `str(ex)` otherwise. */
  function Reason(fault: Fault): (reason: string)
    ensures fault.message.Some? && fault.message.value != "" ==> reason == fault.message.value
    ensures fault.message.None? || fault.message.value == "" ==> reason == fault.text
  {
    if fault.message.Some? && |fault.message.value| > 0 then fault.message.value else fault.text
  }

  /** The reason is empty only when the exception has neither a message nor a text. */
  lemma ReasonEmptyOnlyWhenFaultSilent(fault: Fault)
    ensures Reason(fault) == "" <==> (fault.message.None? || fault.message.value == "") && fault.text == ""
  {
  }

  // ---------------------------------------------------------------------------------------
  // Compiling a script and loading the jobs directory

  /** Parse, validate and compile `script` under `name` into the job's metadata. */
  function Compile(frontEnd: FrontEnd, name: string, script: string): Result<JobInfo, Fault> {
    match frontEnd(name, script)
    case Ok(code) => Ok(JobInfo(name, script, code))
    case Err(fault) => Err(fault)
  }

  /** What loading one scanned file yields: the job's metadata, or `None` when the file is
      the package-init file or fails to read, parse, validate or compile. */
  function LoadOne(frontEnd: FrontEnd, entry: DirEntry): (loaded: Option<JobInfo>)
    ensures loaded.Some? <==>
      entry.name != PackageInit && entry.content.Some? &&
      frontEnd(SplitExtRoot(entry.name), entry.content.value).Ok?
    ensures loaded.Some? ==>
      loaded.value.name == SplitExtRoot(entry.name) && entry.content == Some(loaded.value.script)
    ensures loaded.Some? ==> frontEnd(loaded.value.name, loaded.value.script) == Ok(loaded.value.code)
  {
    if entry.name == PackageInit then None
    else
      var name := SplitExtRoot(entry.name);
      match entry.content
      case None => None
      case Some(script) =>
        match Compile(frontEnd, name, script)
        case Ok(info) => Some(info)
        case Err(_) => None
  }

  /** A scanned file loads as the job `name`. */
  predicate LoadsAs(frontEnd: FrontEnd, entry: DirEntry, name: string) {
    LoadOne(frontEnd, entry).Some? && LoadOne(frontEnd, entry).value.name == name
  }

  /** The registry after filing what loading one file yields. */
  function AddLoaded(jobs: map<string, JobInfo>, loaded: Option<JobInfo>): map<string, JobInfo> {
    match loaded
    case Some(info) => jobs[info.name := info]
    case None => jobs
  }

  /** The name that loading one file registers, if any. */
  function NamesOf(loaded: Option<JobInfo>): set<string> {
    if loaded.Some? then {loaded.value.name} else {}
  }

  /** The jobs that loading `files` in order registers; a later file overwrites an earlier
      one of the same name. */
  function Loaded(frontEnd: FrontEnd, files: seq<DirEntry>): (jobs: map<string, JobInfo>)
    ensures forall n :: n in jobs ==> jobs[n].name == n
    decreases |files|
  {
    if files == [] then map[]
    else AddLoaded(Loaded(frontEnd, files[..|files| - 1]), LoadOne(frontEnd, files[|files| - 1]))
  }

  /** Loading one more file extends the registered jobs by what that file yields, on top of
      whatever the registry held before loading began. */
  lemma LoadedStep(frontEnd: FrontEnd, before: map<string, JobInfo>, files: seq<DirEntry>, i: int)
    requires 0 <= i < |files|
    ensures var loaded := LoadOne(frontEnd, files[i]);
      && Loaded(frontEnd, files[..i + 1]) == AddLoaded(Loaded(frontEnd, files[..i]), loaded)
      && before + Loaded(frontEnd, files[..i + 1]) == AddLoaded(before + Loaded(frontEnd, files[..i]), loaded)
      && Loaded(frontEnd, files[..i + 1]).Keys == Loaded(frontEnd, files[..i]).Keys + NamesOf(loaded)
  {
    assert files[..i + 1][..i] == files[..i];
    var loaded := LoadOne(frontEnd, files[i]);
    if loaded.Some? {
      var info, left, right := loaded.value, before, Loaded(frontEnd, files[..i]);
      var updated, merged := (left + right)[info.name := info], left + right[info.name := info];
      assert updated.Keys == merged.Keys;
      assert forall x :: x in updated ==> updated[x] == merged[x];
    }
  }

  /** Set union regroups. Stated once for the loading loop, it keeps that loop's proof of the
      context keys about half as costly for the solver. */
  lemma UnionAssociates(a: set<string>, b: set<string>, c: set<string>)
    ensures (a + b) + c == a + (b + c)
  {
  }

  /** A name is loaded exactly when some file loads as it: a file that fails adds nothing. */
  lemma {:induction false} LoadedKeys(frontEnd: FrontEnd, files: seq<DirEntry>, name: string)
    ensures name in Loaded(frontEnd, files)
        <==> exists i :: 0 <= i < |files| && LoadsAs(frontEnd, files[i], name)
    decreases |files|
  {
    if files != [] {
      var init := files[..|files| - 1];
      LoadedKeys(frontEnd, init, name);
      assert forall i :: 0 <= i < |init| ==> init[i] == files[i];
    }
  }

  /** The job registered under a name is the one from the last file that loads as it. */
  lemma {:induction false} LoadedLastWins(frontEnd: FrontEnd, files: seq<DirEntry>, i: int)
    requires 0 <= i < |files| && LoadOne(frontEnd, files[i]).Some?
    requires forall j :: i < j < |files| ==> !LoadsAs(frontEnd, files[j], LoadOne(frontEnd, files[i]).value.name)
    ensures var info := LoadOne(frontEnd, files[i]).value;
      info.name in Loaded(frontEnd, files) && Loaded(frontEnd, files)[info.name] == info
    decreases |files|
  {
    if i < |files| - 1 {
      var init := files[..|files| - 1];
      assert init[i] == files[i];
      LoadedLastWins(frontEnd, init, i);
    }
  }

  /** Every job loaded from scanned files is named by an identifier, and it came from a file
      of that name with `.py` appended whose text is the job's script. */
  lemma {:induction false} LoadedFromJobFiles(frontEnd: FrontEnd, files: seq<DirEntry>, name: string)
    requires forall i :: 0 <= i < |files| ==> IsJobFileName(files[i].name)
    requires name in Loaded(frontEnd, files)
    ensures IsIdentifier(name)
    ensures exists i :: (0 <= i < |files| && files[i].name == name + ScriptSuffix &&
      files[i].content == Some(Loaded(frontEnd, files)[name].script))
    decreases |files|
  {
    var last := files[|files| - 1];
    if LoadsAs(frontEnd, last, name) {
      JobFileStem(last.name);
      assert files[|files| - 1].name == name + ScriptSuffix;
    } else {
      var init := files[..|files| - 1];
      assert forall i :: 0 <= i < |init| ==> init[i] == files[i];
      LoadedFromJobFiles(frontEnd, init, name);
      var i :| 0 <= i < |init| && init[i].name == name + ScriptSuffix &&
        init[i].content == Some(Loaded(frontEnd, init)[name].script);
      assert files[i] == init[i];
    }
  }

  // ---------------------------------------------------------------------------------------
  // Generating a name for a submitted job

  predicate IsHexDigit(c: char) {
    '0' <= c <= '9' || 'a' <= c <= 'f'
  }

  /** `uuid.uuid1().hex`: 32 lower-case hexadecimal digits. */
  predicate IsUuidHex(s: string) {
    |s| == 32 && forall j :: 0 <= j < |s| ==> IsHexDigit(s[j])
  }

  /** The candidate name `'J' + hex[:8]` made from one uuid. */
  function CandidateName(uuidHex: string): (name: string)
    ensures |name| == 1 + (if |uuidHex| < 8 then |uuidHex| else 8)
    ensures name[0] == 'J' && name[1..] <= uuidHex
  {
    "J" + (if |uuidHex| >= 8 then uuidHex[..8] else uuidHex)
  }

  /** Some uuid of the supply gives a candidate name that is not taken. */
  predicate HasFresh(taken: set<string>, uuids: seq<string>) {
    |uuids| > 0 && (CandidateName(uuids[0]) !in taken || HasFresh(taken, uuids[1..]))
  }

  /** The position of the first uuid whose candidate name is not taken. */
  function FirstFreshIndex(taken: set<string>, uuids: seq<string>): (k: nat)
    requires HasFresh(taken, uuids)
    ensures k < |uuids| && CandidateName(uuids[k]) !in taken
    ensures forall j :: 0 <= j < k ==> CandidateName(uuids[j]) in taken
  {
    if CandidateName(uuids[0]) !in taken then 0 else 1 + FirstFreshIndex(taken, uuids[1..])
  }

  /** The name that retrying until a candidate is free settles on. */
  function GeneratedName(taken: set<string>, uuids: seq<string>): (name: string)
    requires HasFresh(taken, uuids)
    ensures name !in taken
  {
    CandidateName(uuids[FirstFreshIndex(taken, uuids)])
  }

  /** The first free candidate is the one the retry loop stops at. */
  lemma FirstFreshIndexUnique(taken: set<string>, uuids: seq<string>, k: int)
    requires HasFresh(taken, uuids)
    requires 0 <= k < |uuids| && CandidateName(uuids[k]) !in taken
    requires forall j :: 0 <= j < k ==> CandidateName(uuids[j]) in taken
    ensures FirstFreshIndex(taken, uuids) == k
  {
  }

  /** A generated name is 'J' followed by eight hexadecimal digits. */
  lemma GeneratedNameFormat(taken: set<string>, uuids: seq<string>)
    requires HasFresh(taken, uuids)
    requires forall i :: 0 <= i < |uuids| ==> IsUuidHex(uuids[i])
    ensures var name := GeneratedName(taken, uuids);
      |name| == 9 && name[0] == 'J' && forall j :: 1 <= j < 9 ==> IsHexDigit(name[j])
  {
    var u := uuids[FirstFreshIndex(taken, uuids)];
    assert forall j :: 1 <= j < 9 ==> CandidateName(u)[j] == u[j - 1];
  }

  /** `submit_job`'s first step: the script under "script", parsed, validated and compiled
      under the job's name. */
  function Prepare(frontEnd: FrontEnd, name: string, job: Payload): (prepared: Result<JobInfo, Fault>)
    ensures "script" !in job ==> prepared == Err(MissingScript)
    ensures "script" in job ==> match frontEnd(name, job["script"])
      case Ok(code) => prepared == Ok(JobInfo(name, job["script"], code))
      case Err(fault) => prepared == Err(fault)
  {
    if "script" !in job then Err(MissingScript) else Compile(frontEnd, name, job["script"])
  }

  // ---------------------------------------------------------------------------------------
  // Contexts, runners and the engine

  /** The private namespace and outcome slots of one job (`JobContext`). */
  class JobContext {
    const name: string
    var scope: Bindings
    var exception: Option<Fault>
    var result: Value

    /** The state of a context nothing has run in yet. */
    ghost predicate Initial()
      reads this
    {
      scope == map["ava" := ContextRef(this)] && exception == None && result == PyNone
    }

    constructor (jobName: string)
      ensures name == jobName
      ensures scope.Keys == {"ava"} && scope["ava"] == ContextRef(this)
      ensures exception == None && result == PyNone
      ensures Initial()
    {
      name := jobName;
      scope := map["ava" := ContextRef(this)];
      exception := None;
      result := PyNone;
    }
  }

  /** Runs one job's code in its context and reports to the engine (`JobRunner`). */
  class JobRunner {
    const engine: JobEngine
    const info: JobInfo
    const ctx: JobContext

    constructor (engine: JobEngine, info: JobInfo, ctx: JobContext)
      ensures this.engine == engine && this.info == info && this.ctx == ctx
    {
      this.engine := engine;
      this.info := info;
      this.ctx := ctx;
    }

    /** `_run`: execute the code against the context's namespace, keep `result` on normal
        completion, record an `Exception`, and in every case report to `job_done` once. A
        `BaseException` that is not an `Exception` is reported and then propagates, returned
        here as `propagated`. */
    method Run(exec: Exec) returns (propagated: Option<Fault>)
      requires engine.Valid()
      modifies ctx, engine
      ensures engine.Valid()
      ensures var out := exec(info.code, old(ctx.scope), Slots(old(ctx.result), old(ctx.exception)));
        && ctx.scope == out.scope
        && ctx.exception == (if out.Raised? then Some(out.fault) else out.slots.exception)
        && ctx.result == (if out.Completed? && "result" in out.scope then out.scope["result"] else out.slots.result)
        && propagated == (if out.Escaped? then Some(out.fault) else None)
      ensures engine.log == old(engine.log) + [if ctx.exception.Some? then JobFailed(ctx) else JobFinished(ctx)]
      ensures engine.jobs == old(engine.jobs) - {ctx.name}
      ensures engine.runners == old(engine.runners) - {ctx.name}
      ensures engine.contexts == old(engine.contexts)
    {
      propagated := None;
      var out := exec(info.code, ctx.scope, Slots(ctx.result, ctx.exception));
      ctx.scope, ctx.result, ctx.exception := out.scope, out.slots.result, out.slots.exception;
      match out {
        case Completed(scope, _) =>
          if "result" in scope {
            ctx.result := scope["result"];
          }
        case Raised(_, _, fault) =>
          ctx.exception := Some(fault);
        case Escaped(_, _, fault) =>
          propagated := Some(fault);
      }
      engine.JobDone(ctx);
    }
  }

  /** Owns the registries of jobs, contexts and runners (`JobEngine`). Sending a signal to
      the core context appends it to `log`. */
  class JobEngine {
    var jobs: map<string, JobInfo>
    var contexts: map<string, JobContext>
    var runners: map<string, JobRunner>
    var log: seq<Signal>
    const frontEnd: FrontEnd

    /** Every registry entry is filed under its own name, every job has a context, and
        every runner belongs to a registered job and to this engine. */
    ghost predicate Valid()
      reads this
    {
      && jobs.Keys <= contexts.Keys
      && runners.Keys <= jobs.Keys
      && (forall n :: n in jobs ==> jobs[n].name == n)
      && (forall n :: n in contexts ==> contexts[n].name == n)
      && (forall n :: n in runners ==>
            runners[n].engine == this && runners[n].info.name == n && runners[n].ctx.name == n)
    }

    constructor (frontEnd: FrontEnd)
      ensures Valid() && this.frontEnd == frontEnd
      ensures jobs == map[] && contexts == map[] && runners == map[] && log == []
    {
      jobs, contexts, runners, log := map[], map[], map[], [];
      this.frontEnd := frontEnd;
    }

    /** `_load_jobs`: scan the jobs directory and load the files found. Nothing is sent to
        the event bus and no runner is created. */
    method LoadJobs(dir: seq<DirEntry>)
      requires Valid()
      modifies this
      ensures Valid()
      ensures var loaded := Loaded(frontEnd, ScanJobs(dir));
        && jobs == old(jobs) + loaded
        && contexts.Keys == old(contexts).Keys + loaded.Keys
        && (forall n :: n in loaded ==> fresh(contexts[n]) && contexts[n].Initial())
        && (forall n :: n in old(contexts) && n !in loaded ==> contexts[n] == old(contexts[n]))
      ensures runners == old(runners) && log == old(log)
    {
      var jobFiles := ScanJobs(dir);
      LoadFiles(jobFiles);
    }

    /** The loop of `_load_jobs`: register every file that loads, each with a new context,
        in order, so that a later file of the same name wins. */
    method LoadFiles(jobFiles: seq<DirEntry>)
      requires Valid()
      modifies this
      ensures Valid()
      ensures var loaded := Loaded(frontEnd, jobFiles);
        && jobs == old(jobs) + loaded
        && contexts.Keys == old(contexts).Keys + loaded.Keys
        && (forall n :: n in loaded ==> fresh(contexts[n]) && contexts[n].Initial())
        && (forall n :: n in old(contexts) && n !in loaded ==> contexts[n] == old(contexts[n]))
      ensures runners == old(runners) && log == old(log)
    {
      var i := 0;
      ghost var loaded: map<string, JobInfo> := map[];
      while i < |jobFiles|
        invariant 0 <= i <= |jobFiles|
        invariant loaded == Loaded(frontEnd, jobFiles[..i])
        invariant jobs == old(jobs) + loaded
        invariant contexts.Keys == old(contexts).Keys + loaded.Keys
        invariant forall n :: n in loaded ==> fresh(contexts[n]) && contexts[n].name == n && contexts[n].Initial()
        invariant forall n :: n in old(contexts) && n !in loaded ==> contexts[n] == old(contexts[n])
        invariant runners == old(runners) && log == old(log)
      {
        LoadedStep(frontEnd, old(jobs), jobFiles, i);
        var entry := jobFiles[i];
        LoadEntry(entry);
        ghost var names := NamesOf(LoadOne(frontEnd, entry));
        UnionAssociates(old(contexts).Keys, loaded.Keys, names);
        loaded := AddLoaded(loaded, LoadOne(frontEnd, entry));
        i := i + 1;
      }
      assert jobFiles[..i] == jobFiles;
    }

    /** One pass of `_load_jobs`' loop: skip the package-init file, derive the job name,
        and register the job with a new context if the file reads, parses, validates and
        compiles; skip it otherwise. */
    method LoadEntry(entry: DirEntry)
      modifies this
      ensures var loaded := LoadOne(frontEnd, entry);
        && jobs == AddLoaded(old(jobs), loaded)
        && contexts.Keys == old(contexts).Keys + NamesOf(loaded)
        && (forall n :: n in NamesOf(loaded) ==> fresh(contexts[n]) && contexts[n].name == n && contexts[n].Initial())
        && (forall n :: n in old(contexts) && n !in NamesOf(loaded) ==> contexts[n] == old(contexts[n]))
      ensures runners == old(runners) && log == old(log)
    {
      if entry.name == PackageInit {
        return;
      }
      var name := SplitExtRoot(entry.name);
      match entry.content {
        case None =>
        case Some(script) =>
          match frontEnd(name, script) {
            case Err(_) =>
            case Ok(code) =>
              jobs := jobs[name := JobInfo(name, script, code)];
              var ctx := new JobContext(name);
              contexts := contexts[name := ctx];
          }
      }
    }

    /** The dispatch loop of `_run_jobs`: a new runner for every registered job. Starting
        it only schedules it; running it is `JobRunner.Run`. */
    method RunJobs()
      requires Valid()
      modifies this
      ensures Valid()
      ensures jobs == old(jobs) && contexts == old(contexts) && log == old(log)
      ensures runners.Keys == jobs.Keys
      ensures forall n :: n in runners ==>
        && fresh(runners[n]) && runners[n].engine == this
        && runners[n].info == jobs[n] && runners[n].ctx == contexts[n]
    {
      var todo := jobs.Keys;
      while todo != {}
        invariant todo <= jobs.Keys
        invariant jobs == old(jobs) && contexts == old(contexts) && log == old(log)
        invariant runners.Keys == old(runners).Keys + (jobs.Keys - todo)
        invariant forall n :: n in jobs.Keys - todo ==>
          && fresh(runners[n]) && runners[n].engine == this
          && runners[n].info == jobs[n] && runners[n].ctx == contexts[n]
        decreases todo
      {
        var name :| name in todo;
        var runner := new JobRunner(this, jobs[name], contexts[name]);
        runners := runners[name := runner];
        todo := todo - {name};
      }
    }

    /** `start`: load the jobs directory, then create a runner for every loaded job. */
    method Start(dir: seq<DirEntry>)
      requires Valid()
      modifies this
      ensures Valid()
      ensures var loaded := Loaded(frontEnd, ScanJobs(dir));
        && jobs == old(jobs) + loaded
        && contexts.Keys == old(contexts).Keys + loaded.Keys
        && (forall n :: n in loaded ==> fresh(contexts[n]) && contexts[n].Initial())
        && (forall n :: n in old(contexts) && n !in loaded ==> contexts[n] == old(contexts[n]))
      ensures runners.Keys == jobs.Keys
      ensures forall n :: n in runners ==>
        && fresh(runners[n]) && runners[n].engine == this
        && runners[n].info == jobs[n] && runners[n].ctx == contexts[n]
      ensures log == old(log)
    {
      LoadJobs(dir);
      RunJobs();
    }

    /** `_gen_job_name`: draw uuids until the candidate name is not a registered job. */
    method GenJobName(uuids: seq<string>) returns (name: string)
      requires HasFresh(jobs.Keys, uuids)
      ensures name !in jobs
      ensures name == GeneratedName(jobs.Keys, uuids)
    {
      var i := 0;
      name := CandidateName(uuids[0]);
      while name in jobs
        invariant 0 <= i < |uuids| && name == CandidateName(uuids[i])
        invariant HasFresh(jobs.Keys, uuids[i..])
        invariant forall j :: 0 <= j < i ==> CandidateName(uuids[j]) in jobs
        decreases |uuids| - i
      {
        assert uuids[i..][1..] == uuids[i + 1..];
        i := i + 1;
        name := CandidateName(uuids[i]);
      }
      FirstFreshIndexUnique(jobs.Keys, uuids, i);
    }

    /** `submit_job`: generate a name, prepare the job, and either register it in all three
        registries and announce it, or leave the registries alone and report the reason. */
    method SubmitJob(job: Payload, uuids: seq<string>) returns (accepted: Option<string>)
      requires Valid()
      requires HasFresh(jobs.Keys, uuids)
      modifies this
      ensures Valid()
      ensures var name := GeneratedName(old(jobs).Keys, uuids);
        match Prepare(frontEnd, name, job)
        case Ok(info) =>
          && accepted == Some(name) && name !in old(jobs)
          && jobs == old(jobs)[name := info]
          && name in contexts && fresh(contexts[name]) && contexts[name].Initial()
          && contexts == old(contexts)[name := contexts[name]]
          && name in runners && fresh(runners[name])
          && runners == old(runners)[name := runners[name]]
          && runners[name].engine == this && runners[name].info == info && runners[name].ctx == contexts[name]
          && log == old(log) + [JobAccepted(name)]
        case Err(fault) =>
          && accepted == None
          && jobs == old(jobs) && contexts == old(contexts) && runners == old(runners)
          && log == old(log) + [JobRejected(Reason(fault))]
    {
      var jobName := GenJobName(uuids);
      if "script" !in job {
        assert Prepare(frontEnd, jobName, job) == Err(MissingScript);
        log := log + [JobRejected(Reason(MissingScript))];
        return None;
      }
      var script := job["script"];
      match frontEnd(jobName, script) {
        case Err(fault) =>
          assert Prepare(frontEnd, jobName, job) == Err(fault);
          log := log + [JobRejected(Reason(fault))];
          accepted := None;
        case Ok(code) =>
          var info := JobInfo(jobName, script, code);
          assert Prepare(frontEnd, jobName, job) == Ok(info);
          Register(info);
          log := log + [JobAccepted(jobName)];
          accepted := Some(jobName);
      }
    }

    /** Lines 182-187 of `submit_job`: file a prepared job with a new context and a new
        runner in all three registries, and start the runner. */
    method Register(info: JobInfo)
      requires Valid() && info.name !in jobs
      modifies this
      ensures Valid()
      ensures jobs == old(jobs)[info.name := info]
      ensures info.name in contexts && fresh(contexts[info.name]) && contexts[info.name].Initial()
      ensures contexts == old(contexts)[info.name := contexts[info.name]]
      ensures info.name in runners && fresh(runners[info.name])
      ensures runners == old(runners)[info.name := runners[info.name]]
      ensures runners[info.name].engine == this && runners[info.name].info == info
      ensures runners[info.name].ctx == contexts[info.name]
      ensures log == old(log)
    {
      var name := info.name;
      jobs := jobs[name := info];
      var ctx := new JobContext(name);
      contexts := contexts[name := ctx];
      var runner := new JobRunner(this, info, ctx);
      runners := runners[name := runner];
    }

    /** `job_done`: forget the job's metadata and runner (its context stays), then send
        exactly one terminal signal. A name already gone is tolerated. */
    method JobDone(jobCtx: JobContext)
      requires Valid()
      modifies this
      ensures Valid()
      ensures jobs == old(jobs) - {jobCtx.name}
      ensures runners == old(runners) - {jobCtx.name}
      ensures contexts == old(contexts)
      ensures log == old(log) + [if jobCtx.exception.Some? then JobFailed(jobCtx) else JobFinished(jobCtx)]
    {
      var name := jobCtx.name;
      if name in jobs {
        jobs := jobs - {name};
      } else {
        assert jobs - {name} == jobs;
      }
      if name in runners {
        runners := runners - {name};
      } else {
        assert runners - {name} == runners;
      }
      if jobCtx.exception.Some? {
        log := log + [JobFailed(jobCtx)];
      } else {
        log := log + [JobFinished(jobCtx)];
      }
    }
  }

  /** A client of the engine: a submission on a started engine whose runner is then run. An
      accepted job is announced, then reported finished or failed exactly once, and then no
      longer listed among the jobs or runners; a rejected one is reported once and never
      registered. */
  method SubmitThenRun(frontEnd: FrontEnd, exec: Exec, job: Payload, uuids: seq<string>)
    returns (engine: JobEngine, accepted: Option<string>)
    requires |uuids| > 0
    ensures engine.Valid()
    ensures accepted.Some? ==>
      && |engine.log| == 2 && engine.log[0] == JobAccepted(accepted.value)
      && (engine.log[1].JobFinished? || engine.log[1].JobFailed?)
      && engine.log[1].jobCtx.name == accepted.value
      && accepted.value !in engine.jobs && accepted.value !in engine.runners
      && accepted.value in engine.contexts
    ensures accepted.None? ==>
      && |engine.log| == 1 && engine.log[0].JobRejected?
      && engine.jobs == map[] && engine.runners == map[]
  {
    engine := new JobEngine(frontEnd);
    engine.Start([]);
    accepted := engine.SubmitJob(job, uuids);
    if accepted.Some? {
      var runner := engine.runners[accepted.value];
      var _ := runner.Run(exec);
    }
  }
}
