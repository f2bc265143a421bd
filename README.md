# Ava job engine and task keys, modelled in Dafny

This project models two parts of the Ava agent:

- **The job engine** (`src/ava/job/engine.py`). A job is a Python script. It is loaded from
  the jobs directory at start-up or submitted later as `{"script": ...}`. Each job runs in
  its own `JobContext`, whose namespace binds `ava` to the context itself. The engine keeps
  three dictionaries keyed by job name:
  - `jobs`: the job's metadata;
  - `contexts`: the job's context;
  - `runners`: the object that executes the job.

  The engine reports accepted, rejected, finished and failed jobs to the core context.
- **Task keys** (`src/ava/task/service.py`). `task_key` names a task by the last dotted
  segment of its module and the function's name.

The engine is imperative in the source, so it is modelled as three classes:
- `Job.JobContext` has the fields `scope`, `exception` and `result`.
- `Job.JobRunner` has the method `Run`.
- `Job.JobEngine` has the fields `jobs`, `contexts` and `runners` as `map`s, plus `log`, a
  `seq` of the signals sent to the core context.

Every method states its whole new state. Specification functions describe what loading
registers (`Loaded`) and which name a submission gets (`GeneratedName`). Lemmas prove their
properties. The ghost predicate `JobEngine.Valid` is kept by every public operation. It
says that:
- every job has a context;
- every runner belongs to a job;
- each entry is filed under its own name;
- each runner points back at this engine.

Task keys are pure, so they are a function, `Task.TaskKey`. Lemmas relate it to an
independent reference, `Task.LastSegment`.

The collaborators the engine calls are parameters of the model:
- **Front end.** Parsing, validating and compiling a script are one function `FrontEnd`, a
  constant of the engine. It maps a file name and a script to a code object or an exception.
- **Execution.** `exec` is a function `Exec` from a code object and a namespace to an
  `ExecOutcome`. The outcome is one of three cases:
  - `Completed`: the script ran to the end.
  - `Raised`: an `Exception` escaped.
  - `Escaped`: a `BaseException` that is not an `Exception` escaped.

  Each case carries the namespace and the context's `result` and `exception` attributes as
  the script left them. The namespace binds `ava` to the context, so a script can assign
  those attributes itself.
- **Uuids.** `uuid.uuid1().hex` becomes a supplied sequence of hex strings.
- **The jobs directory.** It becomes a sequence of `DirEntry` values. Each entry has a file
  name and the file's content, or `None` when reading the file fails.
- **The core context.** Its `send` becomes an append to `JobEngine.log`.

## Model

| member | source | states |
|---|---|---|
| Strings.LastIndexOf | src/ava/task/service.py:31-34 | `rindex('.')` with `ValueError` mapped to -1: the result is -1 or a position holding the character, and no later position holds it |
| Task.LastSegment | src/ava/task/service.py:32-39 | reference definition of the module's last segment: it has no '.', it is a suffix of the module name, and it is either the whole name or preceded by a '.' |
| Task.TaskKey | src/ava/task/service.py:23-39 | the key ends with '.' + the function name, its module part has no '.', and it is at most `len(mod_name) + 1 + len(func_name)` long |
| Task.TaskKeyUndotted | src/ava/task/service.py:31-37 | a module name without '.' gives `mod_name + '.' + func_name` |
| Task.TaskKeyDotted | src/ava/task/service.py:32-39 | when the last '.' is at position i, the key is `mod_name[i+1:] + '.' + func_name` |
| Task.TaskKeyIsLastSegment | src/ava/task/service.py:31-39 | the key equals the reference last segment, '.', and the function name |
| Task.LastSegmentAfterDot | src/ava/task/service.py:32-39 | prefixing a package and a '.' does not change a module's last segment |
| Task.TaskKeySameLastSegment | src/ava/task/service.py:32-39 | `task_key(pkg + '.' + m, f) == task_key(m, f)`, e.g. "a.b.m" and "m" give the same key |
| Task.TaskKeyInjective | src/ava/task/service.py:23-39 | two keys are equal exactly when the modules' last segments and the function names are equal |
| JobFiles.SplitExtRoot | src/ava/job/engine.py:136-137 | `os.path.splitext(name)[0]`: a prefix of the name. When it is shorter, it is cut at the last '.' and keeps some character that is not a dot, so leading dots do not start an extension. When it is the whole name, no '.' follows any character that is not a dot |
| JobFiles.JobFileStem | src/ava/job/engine.py:136-137 | for a job file name, the stem plus ".py" is the file name and the stem is an identifier |
| JobFiles.PackageInitNeverScanned | src/ava/job/engine.py:121-134 | `__init__.py` matches neither the pattern as written nor the identifier filter |
| JobFiles.GlobMatches | src/ava/job/engine.py:121-122 | the pattern as `glob` reads it: a letter, a word character, any run of characters (`*`), then ".py" |
| JobFiles.GlobDiffersFromIdentifierFilter | src/ava/job/engine.py:121-122 | the pattern as `glob` reads it skips "a.py" and accepts "my-job.py" (see Findings) |
| JobFiles.GlobCoversLongJobFileNames | src/ava/job/engine.py:121-122 | every identifier file name of five or more characters is also matched by the pattern as written |
| JobFiles.ScanJobs | src/ava/job/engine.py:120-122 | the scanned files are exactly the directory entries whose name is an identifier followed by ".py" (corrected filter, see Findings) |
| Job.Reason | src/ava/job/engine.py:192-195 | the rejection reason is the exception's message when that is a non-empty string, and `str(ex)` otherwise; `ReasonEmptyOnlyWhenFaultSilent` shows it is empty exactly when the message is absent or empty and `str(ex)` is empty |
| Job.ReasonEmptyOnlyWhenFaultSilent | src/ava/job/engine.py:192-195 | the rejection reason is empty exactly when the message is absent or empty and `str(ex)` is empty, so the code does not guarantee a non-empty reason |
| Job.LoadOne | src/ava/job/engine.py:132-150 | a file loads exactly when it is not `__init__.py`, it can be read and the front end accepts it under the stem; the job is named by the stem, holds the file's text, and holds the code the front end compiled from that text under the stem |
| Job.Loaded | src/ava/job/engine.py:131-150 | every job that loading registers is filed under its own name |
| Job.LoadedStep | src/ava/job/engine.py:131-148 | one more file extends the registry by exactly what that file yields, on top of what the registry held before |
| Job.LoadedKeys | src/ava/job/engine.py:138-150 | a name is registered exactly when some file loads as it; a failing file adds nothing |
| Job.LoadedLastWins | src/ava/job/engine.py:147 | the job under a name is the one from the last file that loads as that name |
| Job.LoadedFromJobFiles | src/ava/job/engine.py:131-147 | every loaded name is an identifier and comes from the file of that name plus ".py", whose text is the job's script |
| Job.FirstFreshIndex | src/ava/job/engine.py:167-171 | the retry loop stops at the first uuid whose candidate is not taken; every earlier candidate is taken |
| Job.GeneratedName | src/ava/job/engine.py:167-171 | the generated name is not taken |
| Job.FirstFreshIndexUnique | src/ava/job/engine.py:167-171 | a position whose candidate is free while all earlier ones are taken is the one the loop stops at |
| Job.GeneratedNameFormat | src/ava/job/engine.py:169 | a generated name is 'J' followed by eight hexadecimal digits |
| Job.CandidateName | src/ava/job/engine.py:169 | `'J' + hex[:8]`: 'J' followed by the first eight characters of the hex string, or all of it when it is shorter |
| Job.Prepare | src/ava/job/engine.py:177-181 | a missing "script" fails with `KeyError('script')`; otherwise the result is the front end's exception, or the job's metadata with the script and the code compiled under the job's name |
| Job.JobContext.constructor | src/ava/job/engine.py:57-63 | a new context's scope holds exactly `ava`, bound to the context; `exception` and `result` are `None` |
| Job.JobRunner.constructor | src/ava/job/engine.py:81-85 | the runner records its engine, job metadata and context |
| Job.JobRunner.Run | src/ava/job/engine.py:87-101 | the scope and the context's attributes are what the script left; a completed run that bound `result` then has that value copied to `ctx.result`; an escaping `Exception` is stored in `ctx.exception`; any other exception propagates; `job_done` runs exactly once, so exactly one signal is appended (FAILED when `exception` is set, whoever set it) and the name leaves `jobs` and `runners` |
| Job.JobEngine.constructor | src/ava/job/engine.py:109-112 | a new engine has empty registries and satisfies the invariant |
| Job.JobEngine.LoadJobs | src/ava/job/engine.py:124-150 | the jobs become the old jobs overridden by `Loaded` over the scanned files; each loaded name gets a new initial context; other contexts, runners and log are unchanged |
| Job.JobEngine.LoadFiles | src/ava/job/engine.py:131-150 | the loading loop over the scanned files, with the same postcondition as `LoadJobs` |
| Job.JobEngine.LoadEntry | src/ava/job/engine.py:132-150 | one loop iteration: a loaded job is written to `jobs` with a new initial context; otherwise nothing changes |
| Job.JobEngine.RunJobs | src/ava/job/engine.py:155-160 | every job gets a new runner holding its metadata and its context; jobs, contexts and log are unchanged |
| Job.JobEngine.Start | src/ava/job/engine.py:218-223 | loading and then starting runners: the jobs are the old jobs overridden by `Loaded`, each loaded name gets a new initial context, other contexts stay unchanged, and every job has a new runner holding its metadata and its context; the log is unchanged |
| Job.JobEngine.GenJobName | src/ava/job/engine.py:167-171 | returns a name not in `jobs`, namely the first free candidate |
| Job.JobEngine.SubmitJob | src/ava/job/engine.py:173-198 | on success the fresh name is in all three registries and `JOB_ACCEPTED` is appended after them and the name is returned; on a missing script or a front-end error the registries are unchanged, exactly one `JOB_REJECTED` with the reason is appended, and nothing is returned |
| Job.JobEngine.Register | src/ava/job/engine.py:181-187 | writes the job, a new initial context and a runner tied to both under the new name |
| Job.JobEngine.JobDone | src/ava/job/engine.py:200-216 | removes the name from `jobs` and `runners` (no-op when absent), leaves `contexts` alone, and appends exactly one signal: `JOB_FAILED` when `exception` is set, else `JOB_FINISHED` |
| Job.SubmitThenRun | src/ava/job/engine.py:173-223 | on a started engine, an accepted job is announced, then reported finished or failed exactly once, and is then no longer in `jobs` or `runners` while its context stays; a rejected job is reported once and nothing is registered |

## Left out

- Executing scripts (`exec`, engine.py:94) is the parameter `Exec`. The globals dictionary
  (engine.py:91-92) is not modelled. Its one entry has the key `'__builtin__'`, not
  `'__builtins__'`, so it has no effect: Python 2's `exec` still supplies the real builtins.
- Job.JobRunner.Run: a script can reach the context through `ava` and write only `result` and
  `exception` in the model. Any non-`None` value a script assigns to `ava.exception` is
  modelled as a `Fault`; only whether it is `None` matters to `job_done`. A script that
  rebinds other attributes of the context (`_scope`, `_job_name`) is not modelled.
- `ScriptValidator`, `ast.parse` and `compile` are the single parameter `FrontEnd`. The
  validator is not part of this model.
- Greenlets are left out: `runner.start()`, `gevent.spawn`, the `_stopping` flag and the idle
  loop in `_run_jobs` (engine.py:162-165). `Job.JobRunner.Run` is a synchronous call that a
  client makes, and `Job.JobEngine.Start` creates the runners before it returns. In the
  source, `start` only spawns `_run_jobs` (engine.py:223), so `runners` is unchanged when it
  returns. A job submitted before the spawned loop runs then gets a second runner from lines
  155-160. That job runs twice and `job_done` sends two terminal signals for it. The model
  does not capture this interleaving.
- The file system is left out: `glob.glob`, `open`/`read`, `os.path.join`, `basename` and
  `launcher.get_app_dir`. The directory is a sequence of entries, with a read failure as an
  absent content.
- `uuid.uuid1` randomness is a supplied sequence. `_gen_job_name` loops until a free name
  appears; the model requires the sequence to hold one (`HasFresh`).
- Calling `submit_job` or `job_done` before `start` is not modelled. `_core_context` is
  `None` until `start` binds it (engine.py:117, 221), so `send` then raises `AttributeError`
  and no signal is sent. The model's log is always available.
- The core context is left out: `bind`, `add_child_greenlet`, `notify_user`,
  `JobContext.sleep`, logging and `print`. `send` is an append to the log.
- Job.JobEngine.SubmitJob: does not model `send` itself raising after registration
  (engine.py:188). That would be caught at line 190 and followed by a `JOB_REJECTED`
  although the job stays registered. `send` is an append here and cannot fail.
- Job.JobEngine.SubmitJob: `HasFresh(jobs.Keys, uuids)` is a precondition. The source never
  stops retrying.
- The `task` decorator and `_get_task_engine` (service.py:9-20) are not modelled. They are a
  lookup of a global service.
- `src/ava/web/resources.py` (HTTP routes) and `pod/mods/hello.py` (a sample job) are not
  part of this model.
- Job.JobEngine.LoadJobs: files are filtered by the corrected identifier pattern, not by the
  pattern as `glob` reads it (see Findings).

Behaviour that follows the code, where a plain reading of the docs might expect otherwise:
- `job_done` never removes a job's context, so `contexts` keeps every job ever loaded or
  accepted.
- `_gen_job_name` checks only `jobs`. A name whose job has finished can be generated again,
  and its old context is then replaced.
- Loading writes `jobs[name]` without checking whether the name is taken. A real directory
  cannot hold two files with the same job file name, but the model takes any sequence of
  entries. When an entry is overwritten, the last file wins (`LoadedLastWins`) and nothing
  is logged.
- A `BaseException` that is not an `Exception` (`GreenletExit`, `SystemExit`) is not caught
  by `except Exception`. The `finally` clause still calls `job_done` with `exception` unset,
  so `JOB_FINISHED` is sent, and the exception then propagates from `Run`.

## Findings

| source | as written | input that shows it | evidently intended | confidence | as-written member | corrected member |
|---|---|---|---|---|---|---|
| src/ava/job/engine.py:121 | the pattern `[a-zA-Z][a-zA-Z0-9_]*.py` is a glob, where `*` matches any run of characters and the `[a-zA-Z0-9_]` class matches exactly one | "a.py" is not loaded; "my-job.py" is loaded as the job "my-job", whose name is not an identifier | scan exactly the files named by an identifier followed by ".py", as the regular-expression reading of the pattern suggests | medium, not executed | JobFiles.GlobMatches (shown by JobFiles.GlobDiffersFromIdentifierFilter) | JobFiles.IsJobFileName (used by JobFiles.ScanJobs; JobFiles.JobFileStem and Job.LoadedFromJobFiles prove loaded names are identifiers) |
