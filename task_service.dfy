/** Task key derivation of the task service (`task_key`). */
module Task {
  import opened Strings

  /** The part of a dotted module path after its last '.', defined independently of
      `LastIndexOf` by walking the path from its right end. */
  function LastSegment(modName: string): (seg: string)
    ensures '.' !in seg
    ensures EndsWith(modName, seg)
    ensures seg == modName || modName[|modName| - |seg| - 1] == '.'
  {
    if |modName| == 0 || modName[|modName| - 1] == '.' then ""
    else LastSegment(modName[..|modName| - 1]) + [modName[|modName| - 1]]
  }

  /** The key of the task defined by function `funcName` in module `modName`: the module's
      last dotted segment, a '.', and the function name. */
  function TaskKey(modName: string, funcName: string): (key: string)
    ensures |key| <= |modName| + 1 + |funcName|
    ensures EndsWith(key, "." + funcName)
    ensures '.' !in key[..|key| - |funcName| - 1]
  {
    var idx := LastIndexOf(modName, '.');
    if idx < 0 then
      assert (modName + "." + funcName)[..|modName|] == modName;
      modName + "." + funcName
    else
      assert (modName[idx + 1..] + "." + funcName)[..|modName| - idx - 1] == modName[idx + 1..];
      modName[idx + 1..] + "." + funcName
  }

  /** A module path without a dot is kept whole. */
  lemma TaskKeyUndotted(modName: string, funcName: string)
    requires '.' !in modName
    ensures TaskKey(modName, funcName) == modName + "." + funcName
  {
  }

  /** A module path with a dot keeps only what follows its last dot. */
  lemma TaskKeyDotted(modName: string, funcName: string, i: int)
    requires 0 <= i < |modName| && modName[i] == '.'
    requires '.' !in modName[i + 1..]
    ensures TaskKey(modName, funcName) == modName[i + 1..] + "." + funcName
  {
  }

  /** The key is the last segment of the module path, a '.', and the function name. */
  lemma TaskKeyIsLastSegment(modName: string, funcName: string)
    ensures TaskKey(modName, funcName) == LastSegment(modName) + "." + funcName
  {
    var seg := LastSegment(modName);
    if seg == modName {
      TaskKeyUndotted(modName, funcName);
    } else {
      var i := |modName| - |seg| - 1;
      assert modName[i + 1..] == seg;
      TaskKeyDotted(modName, funcName, i);
    }
  }

  /** Prefixing a module path with a package leaves its last segment unchanged. */
  lemma {:induction false} LastSegmentAfterDot(pkg: string, modName: string)
    ensures LastSegment(pkg + "." + modName) == LastSegment(modName)
  {
    var full := pkg + "." + modName;
    if modName == [] {
      assert full[|full| - 1] == '.';
    } else if modName[|modName| - 1] != '.' {
      assert full[..|full| - 1] == pkg + "." + modName[..|modName| - 1];
      LastSegmentAfterDot(pkg, modName[..|modName| - 1]);
    }
  }

  /** Modules in different packages with the same last segment give the same key,
      e.g. `TaskKey("a.b.m", f) == TaskKey("m", f)`. */
  lemma TaskKeySameLastSegment(pkg: string, modName: string, funcName: string)
    ensures TaskKey(pkg + "." + modName, funcName) == TaskKey(modName, funcName)
  {
    TaskKeyIsLastSegment(pkg + "." + modName, funcName);
    TaskKeyIsLastSegment(modName, funcName);
    LastSegmentAfterDot(pkg, modName);
  }

  /** A dot-free head before the first '.' of a string is determined by the string. */
  lemma SplitAtFirstDot(head1: string, tail1: string, head2: string, tail2: string)
    requires '.' !in head1 && '.' !in head2
    requires head1 + "." + tail1 == head2 + "." + tail2
    ensures head1 == head2 && tail1 == tail2
  {
    var s := head1 + "." + tail1;
    assert s[|head1|] == '.' && s[|head2|] == '.';
    assert forall j :: 0 <= j < |head1| ==> s[j] == head1[j];
    assert forall j :: 0 <= j < |head2| ==> s[j] == head2[j];
    assert |head1| == |head2|;
    assert head1 == s[..|head1|] == head2;
    assert tail1 == s[|head1| + 1..] == tail2;
  }

  /** Two keys are equal exactly when the last segments of the modules and the function
      names are: the key identifies a task up to the package its module lives in. */
  lemma TaskKeyInjective(mod1: string, func1: string, mod2: string, func2: string)
    ensures TaskKey(mod1, func1) == TaskKey(mod2, func2)
        <==> LastSegment(mod1) == LastSegment(mod2) && func1 == func2
  {
    TaskKeyIsLastSegment(mod1, func1);
    TaskKeyIsLastSegment(mod2, func2);
    if TaskKey(mod1, func1) == TaskKey(mod2, func2) {
      SplitAtFirstDot(LastSegment(mod1), func1, LastSegment(mod2), func2);
    }
  }
}
