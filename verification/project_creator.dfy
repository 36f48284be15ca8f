/**
 * `ProjectCreator`: copying a template's files into the project directory and
 * replacing the placeholder `$DefaultNamespace$` with the project name in each copy.
 * The file system is a map from full path to file contents.
 */
module ProjectCreator {
  import opened Common
  import opened Paths
  import opened Templates

  /** The one placeholder that template files may hold. */
  const Token := "$DefaultNamespace$"

  /** `pattern` occurs in `s` starting at index `i`. */
  predicate OccursAt(s: string, pattern: string, i: nat)
  {
    i + |pattern| <= |s| && s[i..i + |pattern|] == pattern
  }

  /**
   * `String.Replace(pattern, replacement)`: ordinal, scanning left to right, occurrences
   * do not overlap. Replacing the pattern by itself changes nothing.
   */
  function Replace(s: string, pattern: string, replacement: string): (r: string)
    requires pattern != []
    ensures replacement == pattern ==> r == s
    decreases |s|
  {
    if |s| < |pattern| then s
    else if s[..|pattern|] == pattern then
      var r := replacement + Replace(s[|pattern|..], pattern, replacement);
      assert replacement == pattern ==> r == s[..|pattern|] + s[|pattern|..] == s;
      r
    else
      var r := [s[0]] + Replace(s[1..], pattern, replacement);
      assert replacement == pattern ==> r == [s[0]] + s[1..] == s;
      r
  }

  /** How many occurrences `Replace` replaces. */
  function Replacements(s: string, pattern: string): nat
    requires pattern != []
    decreases |s|
  {
    if |s| < |pattern| then 0
    else if s[..|pattern|] == pattern then 1 + Replacements(s[|pattern|..], pattern)
    else Replacements(s[1..], pattern)
  }

  lemma MultiplySuccessor(k: nat, d: int)
    ensures (k + 1) * d == k * d + d
  {
  }

  /** Every replacement changes the length by the difference of the two strings' lengths. */
  lemma {:induction false} ReplaceLength(s: string, pattern: string, replacement: string)
    requires pattern != []
    ensures |Replace(s, pattern, replacement)| == |s| + Replacements(s, pattern) * (|replacement| - |pattern|)
    decreases |s|
  {
    if |s| >= |pattern| {
      if s[..|pattern|] == pattern {
        ReplaceLength(s[|pattern|..], pattern, replacement);
        MultiplySuccessor(Replacements(s[|pattern|..], pattern), |replacement| - |pattern|);
      } else {
        ReplaceLength(s[1..], pattern, replacement);
      }
    }
  }

  /** Text in front of the first occurrence is kept as it is. */
  lemma {:induction false} ReplaceSkipsPrefix(a: string, t: string, pattern: string, replacement: string)
    requires pattern != []
    requires forall i :: 0 <= i < |a| ==> !OccursAt(a + t, pattern, i)
    ensures Replace(a + t, pattern, replacement) == a + Replace(t, pattern, replacement)
    ensures Replacements(a + t, pattern) == Replacements(t, pattern)
    decreases |a|
  {
    if a != [] {
      var s := a + t;
      assert !OccursAt(s, pattern, 0);
      if |s| < |pattern| {
        assert Replace(t, pattern, replacement) == t && Replacements(t, pattern) == 0;
        assert Replace(s, pattern, replacement) == s && Replacements(s, pattern) == 0;
      } else {
        assert s[..|pattern|] != pattern by {
          assert s[0..|pattern|] == s[..|pattern|];
        }
        assert s[1..] == a[1..] + t;
        forall i | 0 <= i < |a[1..]| ensures !OccursAt(a[1..] + t, pattern, i) {
          assert !OccursAt(s, pattern, i + 1);
          if i + |pattern| <= |a[1..] + t| {
            assert s[i + 1..i + 1 + |pattern|] == (a[1..] + t)[i..i + |pattern|];
          }
        }
        ReplaceSkipsPrefix(a[1..], t, pattern, replacement);
        assert [a[0]] + a[1..] == a;
        assert Replace(s, pattern, replacement) == [s[0]] + Replace(s[1..], pattern, replacement);
        assert Replacements(s, pattern) == Replacements(s[1..], pattern);
        assert Replace(s, pattern, replacement) == a + Replace(t, pattern, replacement);
      }
    } else {
      assert a + t == t;
    }
  }

  /** Contents without an occurrence of the pattern are unchanged. */
  lemma ReplaceWithoutOccurrence(s: string, pattern: string, replacement: string)
    requires pattern != []
    requires forall i :: 0 <= i < |s| ==> !OccursAt(s, pattern, i)
    ensures Replace(s, pattern, replacement) == s && Replacements(s, pattern) == 0
  {
    assert s + [] == s;
    ReplaceSkipsPrefix(s, [], pattern, replacement);
  }

  /**
   * The leftmost occurrence is replaced, the text before it is kept, and the scan
   * resumes after it: text between and around replaced occurrences stays in order.
   */
  lemma ReplaceLeftmost(a: string, b: string, pattern: string, replacement: string)
    requires pattern != []
    requires forall i :: 0 <= i < |a| ==> !OccursAt(a + pattern + b, pattern, i)
    ensures Replace(a + pattern + b, pattern, replacement) == a + replacement + Replace(b, pattern, replacement)
    ensures Replacements(a + pattern + b, pattern) == 1 + Replacements(b, pattern)
  {
    assert a + pattern + b == a + (pattern + b);
    ReplaceSkipsPrefix(a, pattern + b, pattern, replacement);
    assert (pattern + b)[..|pattern|] == pattern;
    assert (pattern + b)[|pattern|..] == b;
  }

  /** A string without `$` holds no occurrence of the token. */
  lemma NoDollarNoToken(s: string, t: string, k: nat)
    requires k <= |s|
    requires forall i :: 0 <= i < k ==> s[i] != '$'
    ensures forall i :: 0 <= i < k ==> !OccursAt(s + t, Token, i)
  {
    forall i | 0 <= i < k ensures !OccursAt(s + t, Token, i) {
      assert (s + t)[i] == s[i] != '$' == Token[0];
      assert i + |Token| <= |s + t| ==> (s + t)[i..i + |Token|][0] == (s + t)[i];
    }
  }

  /**
   * The sample template files hold the token once, on their namespace line; with no
   * other `$` in the file, that line becomes `namespace <name>` and nothing else changes.
   */
  lemma NamespaceLineSubstituted(head: string, tail: string, name: string)
    requires '$' !in head && '$' !in tail
    ensures Replace(head + "namespace " + Token + tail, Token, name) == head + "namespace " + name + tail
  {
    var a := head + "namespace ";
    assert forall i :: 0 <= i < |a| ==> a[i] != '$';
    NoDollarNoToken(a, Token + tail, |a|);
    assert a + (Token + tail) == a + Token + tail;
    ReplaceLeftmost(a, tail, Token, name);
    NoDollarNoToken(tail, [], |tail|);
    assert tail + [] == tail;
    ReplaceWithoutOccurrence(tail, Token, name);
  }

  /**
   * Replacing can assemble a new token from the text around a replaced one: with an
   * empty name, `$Default` + token + `Namespace$` becomes the token itself.
   */
  lemma TokenCanReappear()
    ensures Replace("$Default" + Token + "Namespace$", Token, "") == Token
  {
    var a := "$Default";
    var s := a + Token + "Namespace$";
    TokenNotInFront(a, s);
    ReplaceLeftmost(a, "Namespace$", Token, "");
    NamespaceUnchanged();
  }

  lemma TokenNotInFront(a: string, s: string)
    requires a == "$Default" && s == a + Token + "Namespace$"
    ensures forall i :: 0 <= i < |a| ==> !OccursAt(s, Token, i)
  {
    assert !OccursAt(s, Token, 0) by {
      assert s[8] == '$' && Token[8] == 'N';
    }
    assert '$' !in a[1..] by {
      assert a[1..] == "Default";
    }
    forall i | 0 < i < |a| ensures !OccursAt(s, Token, i) {
      assert s[i] == a[i] == a[1..][i - 1];
      assert s[i..i + |Token|][0] == s[i];
    }
  }

  lemma NamespaceUnchanged()
    ensures Replace("Namespace$", Token, "") == "Namespace$"
  {
  }

  /** A failure of `File.Copy`. */
  datatype IoError =
    | SourceMissing(path: string)       // `FileNotFoundException`
    | DestinationExists(path: string)   // `IOException`: `File.Copy` does not overwrite

  /** The file system after copying, and the exception that stopped the copying, if any. */
  datatype CopyRun = CopyRun(files: map<string, string>, error: Option<IoError>)

  /** Where a template file goes in the project directory `path`. */
  function Destination(p: Platform, path: string, f: TemplateFile): string
  {
    Combine(p, path, f.destPath)
  }

  /**
   * The copy loop of `CreateProject`, file by file in order: each copy gets the source's
   * contents with the token replaced. Copying stops at the first failure, keeping what
   * was already copied; existing files are never overwritten.
   */
  function CopyFiles(p: Platform, files: map<string, string>, name: string, path: string, tfs: seq<TemplateFile>): (r: CopyRun)
    ensures files.Keys <= r.files.Keys
    ensures forall k :: k in files ==> r.files[k] == files[k]
    decreases |tfs|
  {
    if tfs == [] then CopyRun(files, None)
    else
      var f := tfs[0];
      var dest := Destination(p, path, f);
      if f.sourcePath !in files then CopyRun(files, Some(SourceMissing(f.sourcePath)))
      else if dest in files then CopyRun(files, Some(DestinationExists(dest)))
      else CopyFiles(p, files[dest := Replace(files[f.sourcePath], Token, name)], name, path, tfs[1..])
  }

  /** `CopyFiles` from the `i`-th file on takes one step. */
  lemma CopyFilesStep(p: Platform, files: map<string, string>, name: string, path: string, tfs: seq<TemplateFile>, i: nat)
    requires i < |tfs|
    ensures var f := tfs[i];
      var dest := Destination(p, path, f);
      CopyFiles(p, files, name, path, tfs[i..]) ==
        if f.sourcePath !in files then CopyRun(files, Some(SourceMissing(f.sourcePath)))
        else if dest in files then CopyRun(files, Some(DestinationExists(dest)))
        else CopyFiles(p, files[dest := Replace(files[f.sourcePath], Token, name)], name, path, tfs[i + 1..])
  {
    assert tfs[i..][0] == tfs[i] && tfs[i..][1..] == tfs[i + 1..];
  }

  /** A template file whose destination already exists makes creation fail. */
  lemma {:induction false} ExistingDestinationFails(p: Platform, files: map<string, string>, name: string, path: string, tfs: seq<TemplateFile>, k: nat)
    requires k < |tfs| && Destination(p, path, tfs[k]) in files
    ensures CopyFiles(p, files, name, path, tfs).error.Some?
    decreases |tfs|
  {
    var f := tfs[0];
    var dest := Destination(p, path, f);
    if k > 0 && f.sourcePath in files && dest !in files {
      ExistingDestinationFails(p, files[dest := Replace(files[f.sourcePath], Token, name)], name, path, tfs[1..], k - 1);
    }
  }

  /** Two template files with the same destination make creation fail. */
  lemma {:induction false} DuplicateDestinationFails(p: Platform, files: map<string, string>, name: string, path: string, tfs: seq<TemplateFile>, i: nat, j: nat)
    requires i < j < |tfs| && Destination(p, path, tfs[i]) == Destination(p, path, tfs[j])
    ensures CopyFiles(p, files, name, path, tfs).error.Some?
    decreases |tfs|
  {
    var f := tfs[0];
    var dest := Destination(p, path, f);
    if f.sourcePath in files && dest !in files {
      var next := files[dest := Replace(files[f.sourcePath], Token, name)];
      if i == 0 {
        ExistingDestinationFails(p, next, name, path, tfs[1..], j - 1);
      } else {
        DuplicateDestinationFails(p, next, name, path, tfs[1..], i - 1, j - 1);
      }
    }
  }

  /**
   * Copying succeeds when every source exists and the destinations are new and pairwise
   * distinct: nothing else about the project directory is checked.
   */
  lemma {:induction false} CopySucceeds(p: Platform, files: map<string, string>, name: string, path: string, tfs: seq<TemplateFile>)
    requires forall i :: 0 <= i < |tfs| ==> tfs[i].sourcePath in files
    requires forall i :: 0 <= i < |tfs| ==> Destination(p, path, tfs[i]) !in files
    requires forall i, j :: 0 <= i < j < |tfs| ==> Destination(p, path, tfs[i]) != Destination(p, path, tfs[j])
    ensures CopyFiles(p, files, name, path, tfs).error.None?
    decreases |tfs|
  {
    if tfs != [] {
      var f := tfs[0];
      var dest := Destination(p, path, f);
      var next := files[dest := Replace(files[f.sourcePath], Token, name)];
      var rest := tfs[1..];
      assert forall i :: 0 <= i < |rest| ==> rest[i] == tfs[i + 1];
      CopySucceeds(p, next, name, path, rest);
    }
  }

  /** The destinations of all template files. */
  function Destinations(p: Platform, path: string, tfs: seq<TemplateFile>): (r: set<string>)
    ensures forall i :: 0 <= i < |tfs| ==> Destination(p, path, tfs[i]) in r
  {
    if tfs == [] then {}
    else
      var rest := Destinations(p, path, tfs[1..]);
      assert forall i :: 1 <= i < |tfs| ==> tfs[i] == tfs[1..][i - 1];
      {Destination(p, path, tfs[0])} + rest
  }

  /** When copying succeeds, the only new files are the destinations. */
  lemma {:induction false} CopiedFiles(p: Platform, files: map<string, string>, name: string, path: string, tfs: seq<TemplateFile>)
    requires CopyFiles(p, files, name, path, tfs).error.None?
    ensures CopyFiles(p, files, name, path, tfs).files.Keys == files.Keys + Destinations(p, path, tfs)
    decreases |tfs|
  {
    if tfs != [] {
      var f := tfs[0];
      var dest := Destination(p, path, f);
      CopiedFiles(p, files[dest := Replace(files[f.sourcePath], Token, name)], name, path, tfs[1..]);
    }
  }

  /**
   * When copying succeeds and no source lies among the destinations, every destination
   * holds its source's original contents with the token replaced.
   */
  lemma {:induction false} CopiedContents(p: Platform, files: map<string, string>, name: string, path: string, tfs: seq<TemplateFile>, k: nat)
    requires forall i, j :: 0 <= i < |tfs| && 0 <= j < |tfs| ==> tfs[i].sourcePath != Destination(p, path, tfs[j])
    requires CopyFiles(p, files, name, path, tfs).error.None?
    requires k < |tfs|
    ensures tfs[k].sourcePath in files
    ensures var r := CopyFiles(p, files, name, path, tfs);
      Destination(p, path, tfs[k]) in r.files &&
      r.files[Destination(p, path, tfs[k])] == Replace(files[tfs[k].sourcePath], Token, name)
    decreases |tfs|
  {
    if k == 0 {
      CopiedFirst(p, files, name, path, tfs);
    } else {
      var f := tfs[0];
      var next := files[Destination(p, path, f) := Replace(files[f.sourcePath], Token, name)];
      var rest := tfs[1..];
      assert forall i :: 0 <= i < |rest| ==> rest[i] == tfs[i + 1];
      CopiedContents(p, next, name, path, rest, k - 1);
      assert tfs[k].sourcePath != Destination(p, path, f);
    }
  }

  /** The first template file's copy is kept to the end. */
  lemma CopiedFirst(p: Platform, files: map<string, string>, name: string, path: string, tfs: seq<TemplateFile>)
    requires tfs != [] && CopyFiles(p, files, name, path, tfs).error.None?
    ensures tfs[0].sourcePath in files
    ensures var r := CopyFiles(p, files, name, path, tfs);
      Destination(p, path, tfs[0]) in r.files &&
      r.files[Destination(p, path, tfs[0])] == Replace(files[tfs[0].sourcePath], Token, name)
  {
  }


  /** The file system that `CreateProject` works on. */
  class FileSystem {
    var files: map<string, string>

    constructor (files: map<string, string>)
      ensures this.files == files
    {
      this.files := files;
    }

    /** `File.Copy(source, dest)`: throws when the source is missing or the destination already exists. */
    method Copy(source: string, dest: string) returns (err: Option<IoError>)
      modifies this
      ensures err == if source !in old(files) then Some(SourceMissing(source))
        else if dest in old(files) then Some(DestinationExists(dest)) else None
      ensures files == if err.None? then old(files)[dest := old(files)[source]] else old(files)
    {
      if source !in files {
        return Some(SourceMissing(source));
      }
      if dest in files {
        return Some(DestinationExists(dest));
      }
      files := files[dest := files[source]];
      return None;
    }
  }

  /** `ProcessFile`: rewrites the file at `destPath` with the token replaced by `name`. */
  method ProcessFile(fs: FileSystem, destPath: string, name: string)
    requires destPath in fs.files
    modifies fs
    ensures fs.files == old(fs.files)[destPath := Replace(old(fs.files)[destPath], Token, name)]
  {
    var contents := fs.files[destPath];
    fs.files := fs.files[destPath := Replace(contents, Token, name)];
  }

  /**
   * One pass of the `CreateProject` loop: copies `file` to its destination under `path`
   * and processes the copy, unless the copy throws.
   */
  method CopyTemplateFile(fs: FileSystem, p: Platform, name: string, path: string, file: TemplateFile) returns (err: Option<IoError>)
    modifies fs
    ensures var dest := Destination(p, path, file);
      err == if file.sourcePath !in old(fs.files) then Some(SourceMissing(file.sourcePath))
        else if dest in old(fs.files) then Some(DestinationExists(dest)) else None
    ensures fs.files == if err.Some? then old(fs.files)
      else old(fs.files)[Destination(p, path, file) := Replace(old(fs.files)[file.sourcePath], Token, name)]
  {
    var dest := Combine(p, path, file.destPath);
    err := fs.Copy(file.sourcePath, dest);
    if err.None? {
      ProcessFile(fs, dest, name);
    }
  }

  /**
   * `CreateProject(name, path, template)`: copies each file of the template, in order,
   * to its destination under `path` and processes the copy. It returns true unless a
   * copy throws.
   */
  method CreateProject(fs: FileSystem, p: Platform, name: string, path: string, template: ManifestEntry) returns (r: Result<bool, IoError>)
    requires template.Template?
    modifies fs
    ensures var run := CopyFiles(p, old(fs.files), name, path, template.files);
      fs.files == run.files &&
      r == if run.error.None? then Success(true) else Failure(run.error.value)
  {
    var tfs := template.files;
    for i := 0 to |tfs|
      invariant CopyFiles(p, fs.files, name, path, tfs[i..]) == CopyFiles(p, old(fs.files), name, path, tfs)
    {
      CopyFilesStep(p, fs.files, name, path, tfs, i);
      var err := CopyTemplateFile(fs, p, name, path, tfs[i]);
      if err.Some? {
        return Failure(err.value);
      }
    }
    return Success(true);
  }

}
