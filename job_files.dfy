/** Which files of the jobs directory the engine loads, and the job name it derives. */
module JobFiles {
  import opened Wrappers
  import opened Strings

  /** One entry of the jobs directory: its basename and its text, `None` when reading fails. */
  datatype DirEntry = DirEntry(name: string, content: Option<string>)

  const ScriptSuffix: string := ".py"

  /** The package-init file, which is never loaded as a job. */
  const PackageInit: string := "__init__.py"

  predicate IsLetter(c: char) {
    'a' <= c <= 'z' || 'A' <= c <= 'Z'
  }

  predicate IsWordChar(c: char) {
    IsLetter(c) || '0' <= c <= '9' || c == '_'
  }

  /** `[a-zA-Z][a-zA-Z0-9_]*` read as a regular expression. */
  predicate IsIdentifier(s: string) {
    |s| >= 1 && IsLetter(s[0]) && forall i :: 1 <= i < |s| ==> IsWordChar(s[i])
  }

  /** The glob pattern `[a-zA-Z][a-zA-Z0-9_]*.py` as the shell-style matcher reads it:
      one letter, one word character, then `*`, which matches ANY run of characters,
      then the literal suffix `.py`. */
  function GlobMatches(name: string): (matches: bool)
    ensures matches <==>
      |name| >= 2 && IsLetter(name[0]) && IsWordChar(name[1]) &&
      exists star :: name == name[..2] + star + ScriptSuffix
  {
    var m := |name| >= 5 && IsLetter(name[0]) && IsWordChar(name[1]) && EndsWith(name, ScriptSuffix);
    assert m ==> name == name[..2] + name[2..|name| - 3] + ScriptSuffix;
    m
  }

  /** A job file name as intended: an identifier followed by `.py`. */
  predicate IsJobFileName(name: string) {
    EndsWith(name, ScriptSuffix) && IsIdentifier(name[..|name| - |ScriptSuffix|])
  }

  /** The first component of `os.path.splitext(path)` for a path without separators: the
      text before the last '.', unless every character before that dot is a dot too. */
  function SplitExtRoot(path: string): (root: string)
    ensures root <= path
    ensures root == path || path[|root|] == '.'
    ensures root != path ==> '.' !in path[|root| + 1..] && exists k :: 0 <= k < |root| && root[k] != '.'
    ensures root == path ==> forall k :: 0 <= k < |path| && path[k] != '.' ==> '.' !in path[k + 1..]
  {
    var dot := LastIndexOf(path, '.');
    if dot > 0 && exists k :: 0 <= k < dot && path[k] != '.' then
      var k :| 0 <= k < dot && path[k] != '.';
      assert path[..dot][k] == path[k];
      path[..dot]
    else path
  }

  /** The job name of a job file is the identifier before `.py`. */
  lemma JobFileStem(name: string)
    requires IsJobFileName(name)
    ensures SplitExtRoot(name) + ScriptSuffix == name
    ensures IsIdentifier(SplitExtRoot(name))
  {
    var stem := name[..|name| - 3];
    assert name[|name| - 3] == '.';
    assert forall j :: |name| - 3 < j < |name| ==> name[j] != '.';
    assert forall j :: 0 <= j < |stem| ==> name[j] == stem[j] && stem[j] != '.';
    assert LastIndexOf(name, '.') == |name| - 3;
    assert name[0] != '.';
    assert name == stem + ScriptSuffix;
  }

  /** The package-init file passes neither filter, so its explicit exclusion never fires. */
  lemma PackageInitNeverScanned()
    ensures !GlobMatches(PackageInit) && !IsJobFileName(PackageInit)
  {
    assert !IsLetter(PackageInit[0]);
  }

  /** The glob as written differs from the identifier filter: a one-letter job file is
      skipped and a file whose name is not an identifier is picked up. */
  lemma GlobDiffersFromIdentifierFilter()
    ensures IsJobFileName("a.py") && !GlobMatches("a.py")
    ensures GlobMatches("my-job.py") && !IsJobFileName("my-job.py")
  {
    assert "a.py"[..1] == "a";
    assert "my-job.py"[..6] == "my-job";
    assert !IsWordChar("my-job"[2]);
  }

  /** Apart from one-letter names, every intended job file also matches the glob. */
  lemma GlobCoversLongJobFileNames(name: string)
    requires IsJobFileName(name) && |name| >= 5
    ensures GlobMatches(name)
  {
    assert name[1] == name[..|name| - 3][1];
  }

  /** `_scan_jobs`, with the intended filter: the entries of the directory listing whose
      basename is a job file name, in listing order. */
  function ScanJobs(dir: seq<DirEntry>): (files: seq<DirEntry>)
    ensures |files| <= |dir|
    ensures forall e :: e in files <==> e in dir && IsJobFileName(e.name)
  {
    if dir == [] then []
    else (if IsJobFileName(dir[0].name) then [dir[0]] else []) + ScanJobs(dir[1..])
  }
}
