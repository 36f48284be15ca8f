/**
 * `TemplateManager`: building the catalog of installed template packages from what
 * the package exporter reports, looking a template up by path, and installing or
 * uninstalling a package by editing the templates project's dependencies.
 */
module TemplateManagement {
  import opened Common
  import opened Paths
  import opened Templates

  /** One property of the manifest's `projectTemplates` object: its key and its `title`, if there is one. */
  datatype ManifestProperty = ManifestProperty(key: string, title: Option<string>)

  /** The parsed `templates\templates.json`; `projectTemplates` is absent when the manifest lacks that key. */
  datatype Manifest = Manifest(projectTemplates: Option<seq<ManifestProperty>>)

  /** One package as the exporter reports it: identity, location, file list and manifest. */
  datatype ExportedPackage = ExportedPackage(id: string, version: string, path: string, files: seq<string>, manifest: Manifest)

  /** A package that holds templates, with its templates in manifest order. */
  datatype InstalledPackage = InstalledPackage(id: string, version: string, templates: seq<ManifestEntry>)

  /** The exceptions that building the catalog can throw. */
  datatype CatalogError =
    | DuplicateManifest(packageId: string)               // `SingleOrDefault` sees two manifests
    | MissingProjectTemplates(packageId: string)         // `manifest["projectTemplates"]` is null
    | MissingTitle(packageId: string, key: string)       // `c.Value["title"]` is null
    | SubstringOutOfRange(packageId: string, file: string)  // `Substring` past the end of a file name

  /** The package-relative name of a template package's manifest. */
  const ManifestFile := "templates\\templates.json"

  /** The filter a template's files must pass. */
  function TemplatePrefix(key: string): string
  {
    "templates\\" + key + "\\"
  }

  /** The prefix that is cut off a file name to obtain its destination path. */
  function FilesPrefix(key: string): string
  {
    "templates\\" + key + "\\files\\"
  }

  /** The files that belong to template `key`: those that start with `templates\<key>\`, in list order. */
  function SelectedFiles(key: string, files: seq<string>): (r: seq<string>)
    ensures forall i :: 0 <= i < |r| ==> StartsWith(r[i], TemplatePrefix(key)) && r[i] in files
    ensures forall f :: f in files && StartsWith(f, TemplatePrefix(key)) ==> f in r
  {
    if files == [] then []
    else (if StartsWith(files[0], TemplatePrefix(key)) then [files[0]] else []) + SelectedFiles(key, files[1..])
  }

  /** Selecting from a concatenation selects from each part, keeping the order. */
  lemma {:induction false} SelectedFilesAppend(key: string, xs: seq<string>, ys: seq<string>)
    ensures SelectedFiles(key, xs + ys) == SelectedFiles(key, xs) + SelectedFiles(key, ys)
  {
    if xs == [] {
      assert xs + ys == ys;
    } else {
      assert (xs + ys)[1..] == xs[1..] + ys;
      SelectedFilesAppend(key, xs[1..], ys);
    }
  }

  /**
   * With keys that hold no backslash, a file starts with the prefix of at most one key:
   * key `web` does not pick up `templates\webapi\...`.
   */
  lemma TemplatePrefixesDisjoint(f: string, k1: string, k2: string)
    requires '\\' !in k1 && '\\' !in k2
    requires StartsWith(f, TemplatePrefix(k1)) && StartsWith(f, TemplatePrefix(k2))
    ensures k1 == k2
  {
    var p1, p2 := TemplatePrefix(k1), TemplatePrefix(k2);
    assert forall i :: 0 <= i < |k1| ==> f[10 + i] == k1[i] by {
      forall i | 0 <= i < |k1| ensures f[10 + i] == k1[i] {
        assert f[10 + i] == p1[10 + i];
      }
    }
    assert forall i :: 0 <= i < |k2| ==> f[10 + i] == k2[i] by {
      forall i | 0 <= i < |k2| ensures f[10 + i] == k2[i] {
        assert f[10 + i] == p2[10 + i];
      }
    }
    assert f[10 + |k1|] == p1[10 + |k1|] == '\\';
    assert f[10 + |k2|] == p2[10 + |k2|] == '\\';
  }

  /** `DestPath`: the file name with as many leading characters cut off as `templates\<key>\files\` has. */
  function DestPath(key: string, f: string): (r: Option<string>)
    ensures r.None? <==> |f| < |FilesPrefix(key)|
    ensures r.Some? ==> |r.value| == |f| - |FilesPrefix(key)| && f[|FilesPrefix(key)|..] == r.value
  {
    var n := |FilesPrefix(key)|;
    if n <= |f| then Some(f[n..]) else None
  }

  /** For a file under `templates\<key>\files\`, the prefix followed by the destination is the file. */
  lemma DestPathUnderFiles(key: string, f: string)
    requires StartsWith(f, FilesPrefix(key))
    ensures DestPath(key, f).Some? && FilesPrefix(key) + DestPath(key, f).value == f
  {
  }

  /**
   * A file that passes the filter but lies outside `files\` gets a destination that
   * does not complete the prefix back to the file, or none at all when it is short.
   */
  lemma DestPathOutsideFiles(key: string, f: string)
    requires StartsWith(f, TemplatePrefix(key)) && !StartsWith(f, FilesPrefix(key))
    ensures DestPath(key, f).None? || FilesPrefix(key) + DestPath(key, f).value != f
  {
  }

  /** `SourcePath`: the package path combined with the file, every `\` then replaced by the platform separator. */
  function SourcePath(p: Platform, root: string, f: string): (r: string)
    ensures |Combine(p, root, f)| == |r|
    ensures Separator(p) != '\\' ==> '\\' !in r
  {
    ReplaceChar(Combine(p, root, f), '\\', Separator(p))
  }

  /** One `TemplateFile` per name in `selected`, in order, or the exception the first too-short name throws. */
  function MapFiles(p: Platform, pkg: ExportedPackage, key: string, selected: seq<string>): (r: Result<seq<TemplateFile>, CatalogError>)
    ensures r.Failure? <==> exists i :: 0 <= i < |selected| && |selected[i]| < |FilesPrefix(key)|
    ensures r.Success? ==> |r.value| == |selected|
    ensures r.Success? ==> forall i :: 0 <= i < |selected| ==>
      r.value[i].sourcePath == SourcePath(p, pkg.path, selected[i]) &&
      r.value[i].destPath == selected[i][|FilesPrefix(key)|..]
  {
    if selected == [] then Success([])
    else
      var f := selected[0];
      match DestPath(key, f)
      case None => Failure(SubstringOutOfRange(pkg.id, f))
      case Some(dest) =>
        var rest := MapFiles(p, pkg, key, selected[1..]);
        assert forall i :: 1 <= i < |selected| ==> selected[i] == selected[1..][i - 1];
        if rest.Failure? then rest
        else
          var files := [TemplateFile(SourcePath(p, pkg.path, f), dest)] + rest.value;
          assert forall i :: 1 <= i < |selected| ==> files[i] == rest.value[i - 1];
          Success(files)
  }

  /** The `Files` of template `key`: the file list filtered by `templates\<key>\`, then mapped. */
  function BuildFiles(p: Platform, pkg: ExportedPackage, key: string): (r: Result<seq<TemplateFile>, CatalogError>)
    ensures r.Failure? <==> exists i :: 0 <= i < |SelectedFiles(key, pkg.files)| && |SelectedFiles(key, pkg.files)[i]| < |FilesPrefix(key)|
    ensures r.Success? ==> |r.value| == |SelectedFiles(key, pkg.files)|
  {
    MapFiles(p, pkg, key, SelectedFiles(key, pkg.files))
  }

  /**
   * When every selected file lies under `templates\<key>\files\`, building succeeds and
   * each destination completes that prefix back to its file.
   */
  lemma BuildFilesUnderFiles(p: Platform, pkg: ExportedPackage, key: string)
    requires forall f :: f in pkg.files && StartsWith(f, TemplatePrefix(key)) ==> StartsWith(f, FilesPrefix(key))
    ensures BuildFiles(p, pkg, key).Success?
    ensures forall i :: 0 <= i < |SelectedFiles(key, pkg.files)| ==>
      FilesPrefix(key) + BuildFiles(p, pkg, key).value[i].destPath == SelectedFiles(key, pkg.files)[i]
  {
  }

  /** A file that passes the filter but is shorter than `templates\<key>\files\` makes building throw. */
  lemma ShortFileThrows(p: Platform, pkg: ExportedPackage, key: string, f: string)
    requires f in pkg.files && StartsWith(f, TemplatePrefix(key)) && |f| < |FilesPrefix(key)|
    ensures BuildFiles(p, pkg, key).Failure?
  {
  }

  /** One template per manifest property: `Path` is the key, `Name` the title. */
  function BuildTemplate(p: Platform, pkg: ExportedPackage, c: ManifestProperty): (r: Result<ManifestEntry, CatalogError>)
    ensures r.Success? ==> r.value.Template? && r.value.path == c.key && c.title == Some(r.value.name)
    ensures r.Success? ==> r.value.packageId == pkg.id && Success(r.value.files) == BuildFiles(p, pkg, c.key)
    ensures r.Failure? <==> c.title.None? || BuildFiles(p, pkg, c.key).Failure?
  {
    match c.title
    case None => Failure(MissingTitle(pkg.id, c.key))
    case Some(title) =>
      match BuildFiles(p, pkg, c.key)
      case Failure(e) => Failure(e)
      case Success(files) => Success(Template(c.key, title, files, pkg.id))
  }

  /** The templates of a package, in manifest property order, or the first exception. */
  function BuildTemplates(p: Platform, pkg: ExportedPackage, props: seq<ManifestProperty>): (r: Result<seq<ManifestEntry>, CatalogError>)
    ensures r.Success? ==> |r.value| == |props|
    ensures r.Success? ==> forall i :: 0 <= i < |props| ==> Success(r.value[i]) == BuildTemplate(p, pkg, props[i])
    ensures r.Failure? <==> exists i :: 0 <= i < |props| && BuildTemplate(p, pkg, props[i]).Failure?
  {
    if props == [] then Success([])
    else
      var first := BuildTemplate(p, pkg, props[0]);
      if first.Failure? then Failure(first.error)
      else
        var rest := BuildTemplates(p, pkg, props[1..]);
        assert forall i :: 1 <= i < |props| ==> props[i] == props[1..][i - 1];
        if rest.Failure? then
          assert exists i :: 1 <= i < |props| && BuildTemplate(p, pkg, props[i]).Failure? by {
            var k :| 0 <= k < |props[1..]| && BuildTemplate(p, pkg, props[1..][k]).Failure?;
            assert props[k + 1] == props[1..][k];
          }
          rest
        else
          Success([first.value] + rest.value)
  }

  /**
   * One iteration of the `GetInstalledTemplates` loop: a package without the manifest
   * file is skipped, two manifest files or a manifest without `projectTemplates` throw.
   */
  function BuildPackage(p: Platform, pkg: ExportedPackage): (r: Result<Option<InstalledPackage>, CatalogError>)
    ensures r == Success(None) <==> ManifestFile !in pkg.files
    ensures r.Success? && r.value.Some? ==>
      var ip := r.value.value;
      Occurrences(pkg.files, ManifestFile) == 1 && ip.id == pkg.id && ip.version == pkg.version &&
      pkg.manifest.projectTemplates.Some? && |ip.templates| == |pkg.manifest.projectTemplates.value|
    ensures pkg.manifest.projectTemplates.None? && ManifestFile in pkg.files ==> r.Failure?
  {
    var n := Occurrences(pkg.files, ManifestFile);
    if n == 0 then Success(None)
    else if n > 1 then Failure(DuplicateManifest(pkg.id))
    else
      match pkg.manifest.projectTemplates
      case None => Failure(MissingProjectTemplates(pkg.id))
      case Some(props) =>
        match BuildTemplates(p, pkg, props)
        case Failure(e) => Failure(e)
        case Success(templates) => Success(Some(InstalledPackage(pkg.id, pkg.version, templates)))
  }

  /** Two `templates\templates.json` entries make `SingleOrDefault` throw. */
  lemma DuplicateManifestThrows(p: Platform, pkg: ExportedPackage, i: nat, j: nat)
    requires i < j < |pkg.files| && pkg.files[i] == ManifestFile && pkg.files[j] == ManifestFile
    ensures BuildPackage(p, pkg) == Failure(DuplicateManifest(pkg.id))
  {
    OccurrencesTwice(pkg.files, ManifestFile, i, j);
  }

  /** A package that yields templates names the manifest at exactly one index of its file list. */
  lemma SingleManifest(p: Platform, pkg: ExportedPackage)
    requires BuildPackage(p, pkg).Success? && BuildPackage(p, pkg).value.Some?
    ensures exists i :: 0 <= i < |pkg.files| && pkg.files[i] == ManifestFile &&
                        forall j :: 0 <= j < |pkg.files| && j != i ==> pkg.files[j] != ManifestFile
  {
    OccurrencesOnce(pkg.files, ManifestFile);
  }

  /** How the file names of `ConsoleTemplateScenario` fare against the prefixes of key `console`. */
  lemma ConsoleFileNames(f: string)
    requires f == "templates\\console\\files\\Program.txt"
    ensures StartsWith(f, TemplatePrefix("console")) && !StartsWith(ManifestFile, TemplatePrefix("console"))
    ensures DestPath("console", f) == Some("Program.txt") && f != ManifestFile
  {
    ConsoleFileSelected(f);
    ManifestNotSelected();
    ConsoleFileDestination(f);
    assert |f| != |ManifestFile|;
  }

  lemma ConsoleFileSelected(f: string)
    requires f == "templates\\console\\files\\Program.txt"
    ensures StartsWith(f, TemplatePrefix("console"))
  {
    assert f[..|TemplatePrefix("console")|] == TemplatePrefix("console");
  }

  lemma ManifestNotSelected()
    ensures !StartsWith(ManifestFile, TemplatePrefix("console"))
  {
    assert ManifestFile[10] == 't' != 'c' == TemplatePrefix("console")[10];
  }

  lemma ConsoleFileDestination(f: string)
    requires f == "templates\\console\\files\\Program.txt"
    ensures DestPath("console", f) == Some("Program.txt")
  {
    assert f == FilesPrefix("console") + "Program.txt";
  }

  /** The manifest file occurs once, and only the template file is selected for key `console`. */
  lemma ConsoleFilesSelected(files: seq<string>, f: string)
    requires f == "templates\\console\\files\\Program.txt"
    requires files == [ManifestFile, f]
    ensures SelectedFiles("console", files) == [f]
    ensures Occurrences(files, ManifestFile) == 1
  {
    ConsoleFileNames(f);
    var one: seq<string> := [f];
    assert files[1..] == one && |one[1..]| == 0;
    assert SelectedFiles("console", one[1..]) == [];
    assert SelectedFiles("console", one) == [f];
    assert SelectedFiles("console", files) == SelectedFiles("console", one);
  }

  /** The one selected file maps to its source path and the bare file name. */
  lemma ConsoleFileMapped(p: Platform, pkg: ExportedPackage, f: string)
    requires f == "templates\\console\\files\\Program.txt"
    ensures MapFiles(p, pkg, "console", [f]) == Success([TemplateFile(SourcePath(p, pkg.path, f), "Program.txt")])
  {
    ConsoleFileNames(f);
    var one: seq<string> := [f];
    assert |one[1..]| == 0;
    assert MapFiles(p, pkg, "console", one[1..]) == Success([]);
    var tf := TemplateFile(SourcePath(p, pkg.path, f), "Program.txt");
    assert [tf] + [] == [tf];
    assert MapFiles(p, pkg, "console", one) == Success([tf] + []);
  }

  /** The property `console` titled `Console App` yields its template with the one file. */
  lemma ConsoleTemplateFromProperty(p: Platform, pkg: ExportedPackage, f: string)
    requires f == "templates\\console\\files\\Program.txt"
    requires pkg.files == [ManifestFile, f]
    ensures BuildTemplate(p, pkg, ManifestProperty("console", Some("Console App"))) ==
      Success(Template("console", "Console App", [TemplateFile(SourcePath(p, pkg.path, f), "Program.txt")], pkg.id))
  {
    ConsoleFilesSelected(pkg.files, f);
    ConsoleFileMapped(p, pkg, f);
  }

  /** A single property that builds yields exactly its template. */
  lemma BuildSingleTemplate(p: Platform, pkg: ExportedPackage, prop: ManifestProperty)
    requires BuildTemplate(p, pkg, prop).Success?
    ensures BuildTemplates(p, pkg, [prop]) == Success([BuildTemplate(p, pkg, prop).value])
  {
    var props := [prop];
    assert props[1..] == [];
    assert BuildTemplates(p, pkg, props[1..]) == Success([]);
    assert [BuildTemplate(p, pkg, prop).value] + [] == [BuildTemplate(p, pkg, prop).value];
  }

  /** The single property `console` yields the one template with its one file. */
  lemma ConsoleTemplateBuilt(p: Platform, pkg: ExportedPackage, f: string)
    requires f == "templates\\console\\files\\Program.txt"
    requires pkg.files == [ManifestFile, f]
    ensures BuildTemplates(p, pkg, [ManifestProperty("console", Some("Console App"))]) ==
      Success([Template("console", "Console App", [TemplateFile(SourcePath(p, pkg.path, f), "Program.txt")], pkg.id)])
  {
    ConsoleTemplateFromProperty(p, pkg, f);
    BuildSingleTemplate(p, pkg, ManifestProperty("console", Some("Console App")));
  }

  /**
   * A package whose manifest declares the single template `console`, titled
   * `Console App`, with one file under its `files\` directory, yields one template with
   * path `console` and one file whose destination is the bare file name.
   */
  lemma ConsoleTemplateScenario(p: Platform, pkg: ExportedPackage, f: string)
    requires f == "templates\\console\\files\\Program.txt"
    requires pkg.files == [ManifestFile, f]
    requires pkg.manifest == Manifest(Some([ManifestProperty("console", Some("Console App"))]))
    ensures BuildPackage(p, pkg) == Success(Some(InstalledPackage(pkg.id, pkg.version,
      [Template("console", "Console App", [TemplateFile(SourcePath(p, pkg.path, f), "Program.txt")], pkg.id)])))
  {
    ConsoleTemplateBuilt(p, pkg, f);
    ConsoleFilesSelected(pkg.files, f);
  }

  /** `GetInstalledTemplates` enumerated to the end: the template packages in exporter order, or the first exception. */
  function GetInstalledTemplates(p: Platform, pkgs: seq<ExportedPackage>): (r: Result<seq<InstalledPackage>, CatalogError>)
    ensures r.Success? ==> |r.value| <= |pkgs|
  {
    if pkgs == [] then Success([])
    else
      match BuildPackage(p, pkgs[0])
      case Failure(e) => Failure(e)
      case Success(built) =>
        var rest := GetInstalledTemplates(p, pkgs[1..]);
        if rest.Failure? then rest
        else if built.None? then rest
        else Success([built.value] + rest.value)
  }

  /** Enumeration throws exactly when building some package throws. */
  lemma {:induction false} GetInstalledTemplatesFails(p: Platform, pkgs: seq<ExportedPackage>)
    ensures GetInstalledTemplates(p, pkgs).Failure? <==> exists i :: 0 <= i < |pkgs| && BuildPackage(p, pkgs[i]).Failure?
  {
    if pkgs != [] {
      GetInstalledTemplatesFails(p, pkgs[1..]);
      assert forall i :: 1 <= i < |pkgs| ==> pkgs[i] == pkgs[1..][i - 1];
    }
  }

  /** The loop of `GetInstalledTemplates` over the outcomes of building each package in turn. */
  function Collect(outcomes: seq<Result<Option<InstalledPackage>, CatalogError>>): (r: Result<seq<InstalledPackage>, CatalogError>)
    ensures r.Success? ==> |r.value| <= |outcomes|
  {
    if outcomes == [] then Success([])
    else
      match outcomes[0]
      case Failure(e) => Failure(e)
      case Success(built) =>
        var rest := Collect(outcomes[1..]);
        if rest.Failure? then rest
        else if built.None? then rest
        else Success([built.value] + rest.value)
  }

  /** Collecting a concatenation of outcomes concatenates the collected packages. */
  lemma {:induction false} CollectAppend(xs: seq<Result<Option<InstalledPackage>, CatalogError>>, ys: seq<Result<Option<InstalledPackage>, CatalogError>>)
    ensures Collect(xs + ys).Success? <==> Collect(xs).Success? && Collect(ys).Success?
    ensures Collect(xs + ys).Success? ==> Collect(xs + ys).value == Collect(xs).value + Collect(ys).value
  {
    if xs == [] {
      assert xs + ys == ys;
    } else {
      assert (xs + ys)[0] == xs[0] && (xs + ys)[1..] == xs[1..] + ys;
      CollectAppend(xs[1..], ys);
    }
  }

  /** The outcome of building each package. */
  function Builds(p: Platform, pkgs: seq<ExportedPackage>): (r: seq<Result<Option<InstalledPackage>, CatalogError>>)
    ensures |r| == |pkgs| && forall i :: 0 <= i < |pkgs| ==> r[i] == BuildPackage(p, pkgs[i])
  {
    seq(|pkgs|, i requires 0 <= i < |pkgs| => BuildPackage(p, pkgs[i]))
  }

  /** Building the packages of a concatenation concatenates the outcomes. */
  lemma BuildsAppend(p: Platform, xs: seq<ExportedPackage>, ys: seq<ExportedPackage>)
    ensures Builds(p, xs + ys) == Builds(p, xs) + Builds(p, ys)
  {
  }

  /** `GetInstalledTemplates` is the loop over the outcomes of the packages. */
  lemma {:induction false} GetInstalledTemplatesCollects(p: Platform, pkgs: seq<ExportedPackage>)
    ensures GetInstalledTemplates(p, pkgs) == Collect(Builds(p, pkgs))
  {
    if pkgs != [] {
      GetInstalledTemplatesCollects(p, pkgs[1..]);
      assert Builds(p, pkgs)[1..] == Builds(p, pkgs[1..]);
    }
  }

  /** Packages come out in exporter order: enumerating a concatenation concatenates the catalogs. */
  lemma GetInstalledTemplatesAppend(p: Platform, xs: seq<ExportedPackage>, ys: seq<ExportedPackage>)
    ensures GetInstalledTemplates(p, xs + ys).Success? <==>
      GetInstalledTemplates(p, xs).Success? && GetInstalledTemplates(p, ys).Success?
    ensures GetInstalledTemplates(p, xs + ys).Success? ==>
      GetInstalledTemplates(p, xs + ys).value == GetInstalledTemplates(p, xs).value + GetInstalledTemplates(p, ys).value
  {
    GetInstalledTemplatesCollects(p, xs + ys);
    GetInstalledTemplatesCollects(p, xs);
    GetInstalledTemplatesCollects(p, ys);
    BuildsAppend(p, xs, ys);
    CollectAppend(Builds(p, xs), Builds(p, ys));
  }

  /**
   * The template packages the lazy enumeration yields before it ends or throws: a
   * consumer sees these one by one before the exception reaches it.
   */
  function Yielded(p: Platform, pkgs: seq<ExportedPackage>): (r: seq<InstalledPackage>)
    ensures GetInstalledTemplates(p, pkgs).Success? ==> r == GetInstalledTemplates(p, pkgs).value
  {
    if pkgs == [] then []
    else
      match BuildPackage(p, pkgs[0])
      case Failure(_) => []
      case Success(None) => Yielded(p, pkgs[1..])
      case Success(Some(ip)) => [ip] + Yielded(p, pkgs[1..])
  }

  /** When package `k` is the first to throw, the packages yielded are the catalog of the packages before it. */
  lemma {:induction false} YieldedBeforeThrow(p: Platform, pkgs: seq<ExportedPackage>, k: nat)
    requires k < |pkgs| && BuildPackage(p, pkgs[k]).Failure?
    requires forall j :: 0 <= j < k ==> BuildPackage(p, pkgs[j]).Success?
    ensures GetInstalledTemplates(p, pkgs[..k]).Success?
    ensures Yielded(p, pkgs) == GetInstalledTemplates(p, pkgs[..k]).value
  {
    if k == 0 {
      assert pkgs[..k] == [];
    } else {
      YieldedBeforeThrow(p, pkgs[1..], k - 1);
      assert pkgs[..k][0] == pkgs[0] && pkgs[..k][1..] == pkgs[1..][..k - 1];
    }
  }

  /** A package without a manifest contributes nothing and raises nothing. */
  lemma SkipsPackageWithoutManifest(p: Platform, pkg: ExportedPackage)
    requires ManifestFile !in pkg.files
    ensures GetInstalledTemplates(p, [pkg]) == Success([])
  {
  }

  /** All templates of all packages, package by package (`SelectMany(p => p.Templates)`). */
  function AllTemplates(pkgs: seq<InstalledPackage>): (r: seq<ManifestEntry>)
    ensures forall i :: 0 <= i < |pkgs| ==> forall t :: t in pkgs[i].templates ==> t in r
  {
    if pkgs == [] then [] else pkgs[0].templates + AllTemplates(pkgs[1..])
  }

  /** A template is in the concatenation exactly when some package holds it. */
  lemma {:induction false} AllTemplatesMembers(pkgs: seq<InstalledPackage>, t: ManifestEntry)
    ensures t in AllTemplates(pkgs) <==> exists i :: 0 <= i < |pkgs| && t in pkgs[i].templates
  {
    if pkgs != [] {
      AllTemplatesMembers(pkgs[1..], t);
      assert forall i :: 1 <= i < |pkgs| ==> pkgs[i] == pkgs[1..][i - 1];
    }
  }

  /** Package order is kept: the templates of a concatenation are those of each part, in turn. */
  lemma {:induction false} AllTemplatesAppend(xs: seq<InstalledPackage>, ys: seq<InstalledPackage>)
    ensures AllTemplates(xs + ys) == AllTemplates(xs) + AllTemplates(ys)
  {
    if xs == [] {
      assert xs + ys == ys;
    } else {
      assert (xs + ys)[0] == xs[0] && (xs + ys)[1..] == xs[1..] + ys;
      AllTemplatesAppend(xs[1..], ys);
    }
  }

  /** The test that `GetTemplate` applies to each template: exact equality of `Path`. */
  function PathIs(path: string): ManifestEntry -> bool
  {
    (t: ManifestEntry) => t.path == path
  }

  /**
   * `GetTemplate`: the lazy search. Packages are built one at a time, and the search
   * stops at the first template whose path matches; packages after it are never built.
   */
  function GetTemplate(p: Platform, pkgs: seq<ExportedPackage>, path: string): (r: Result<Option<ManifestEntry>, CatalogError>)
    ensures r.Success? && r.value.Some? ==> r.value.value.path == path
  {
    if pkgs == [] then Success(None)
    else
      match BuildPackage(p, pkgs[0])
      case Failure(e) => Failure(e)
      case Success(None) => GetTemplate(p, pkgs[1..], path)
      case Success(Some(ip)) =>
        var m := FirstWhere(ip.templates, PathIs(path));
        if m.Some? then Success(m) else GetTemplate(p, pkgs[1..], path)
  }

  /**
   * When the catalog builds, `GetTemplate` returns the first template, in package order
   * then template order, whose path equals `path`, and none when no template has it.
   */
  lemma {:induction false} GetTemplateIsFirstMatch(p: Platform, pkgs: seq<ExportedPackage>, path: string)
    requires GetInstalledTemplates(p, pkgs).Success?
    ensures GetTemplate(p, pkgs, path) == Success(FirstWhere(AllTemplates(GetInstalledTemplates(p, pkgs).value), PathIs(path)))
  {
    if pkgs != [] {
      GetTemplateIsFirstMatch(p, pkgs[1..], path);
      var built := BuildPackage(p, pkgs[0]);
      if built.value.Some? {
        var ip := built.value.value;
        var rest := GetInstalledTemplates(p, pkgs[1..]).value;
        assert GetInstalledTemplates(p, pkgs).value == [ip] + rest;
        assert AllTemplates([ip] + rest) == ip.templates + AllTemplates(rest);
        FirstWhereAppend(ip.templates, AllTemplates(rest), PathIs(path));
      }
    }
  }

  /** A match in an earlier package is returned even when a later package would throw. */
  lemma {:induction false} GetTemplateStopsAtMatch(p: Platform, xs: seq<ExportedPackage>, ys: seq<ExportedPackage>, path: string)
    requires GetTemplate(p, xs, path).Success? && GetTemplate(p, xs, path).value.Some?
    ensures GetTemplate(p, xs + ys, path) == GetTemplate(p, xs, path)
  {
    assert xs != [];
    assert (xs + ys)[1..] == xs[1..] + ys;
    assert (xs + ys)[0] == xs[0];
    var built := BuildPackage(p, xs[0]);
    if built.value.None? || FirstWhere(built.value.value.templates, PathIs(path)).None? {
      GetTemplateStopsAtMatch(p, xs[1..], ys, path);
    }
  }

  /** One dependency of the templates project: a package id and its version. */
  datatype Dependency = Dependency(id: string, version: string)

  /** The dependencies object names package `id`. */
  predicate HasDependency(deps: seq<Dependency>, id: string)
  {
    exists i :: 0 <= i < |deps| && deps[i].id == id
  }

  /** Property names of a JSON object are distinct. */
  predicate DistinctIds(deps: seq<Dependency>)
  {
    forall i, j :: 0 <= i < j < |deps| ==> deps[i].id != deps[j].id
  }

  /** `dependencies.Add(id, version)`: the new property goes last. */
  function WithDependency(deps: seq<Dependency>, id: string, version: string): (r: seq<Dependency>)
    requires DistinctIds(deps) && !HasDependency(deps, id)
    ensures DistinctIds(r) && HasDependency(r, id)
    ensures |r| == |deps| + 1
    ensures r[..|deps|] == deps && r[|deps|] == Dependency(id, version)
  {
    var r := deps + [Dependency(id, version)];
    assert r[|deps|].id == id;
    r
  }

  /** `dependencies.Remove(id)`: that property goes, the others keep their order. */
  function WithoutDependency(deps: seq<Dependency>, id: string): (r: seq<Dependency>)
    ensures !HasDependency(r, id)
    ensures forall d :: d in r <==> d in deps && d.id != id
    ensures DistinctIds(deps) ==> DistinctIds(r)
  {
    if deps == [] then []
    else
      var rest := WithoutDependency(deps[1..], id);
      if deps[0].id == id then rest
      else
        assert DistinctIds(deps) ==> forall d :: d in rest ==> d.id != deps[0].id by {
          if DistinctIds(deps) {
            forall d | d in rest ensures d.id != deps[0].id {
              var j :| 1 <= j < |deps| && deps[j] == d by {
                assert d in deps[1..];
                var k :| 0 <= k < |deps[1..]| && deps[1..][k] == d;
                assert deps[k + 1] == d;
              }
            }
          }
        }
        [deps[0]] + rest
  }

  /** Adding a new dependency and then removing it gives back the original dependencies. */
  lemma {:induction false} InstallUninstallRoundTrip(deps: seq<Dependency>, id: string, version: string)
    requires DistinctIds(deps) && !HasDependency(deps, id)
    ensures WithoutDependency(WithDependency(deps, id, version), id) == deps
  {
    if deps == [] {
    } else {
      assert WithDependency(deps, id, version)[1..] == WithDependency(deps[1..], id, version);
      assert deps[0].id != id;
      InstallUninstallRoundTrip(deps[1..], id, version);
    }
  }

  /** Removing an id the dependencies do not name changes nothing. */
  lemma {:induction false} WithoutAbsentDependency(deps: seq<Dependency>, id: string)
    requires !HasDependency(deps, id)
    ensures WithoutDependency(deps, id) == deps
  {
    if deps != [] {
      assert deps[0].id != id;
      WithoutAbsentDependency(deps[1..], id);
    }
  }

  /** The pairs after the first one still have distinct ids. */
  lemma DistinctIdsTail(deps: seq<Dependency>)
    requires DistinctIds(deps) && deps != []
    ensures DistinctIds(deps[1..]) && !HasDependency(deps[1..], deps[0].id)
  {
    var rest := deps[1..];
    forall i | 0 <= i < |rest| ensures rest[i] == deps[i + 1] {
    }
  }

  /** Dropping the element at `k > 0` commutes with taking off the first element. */
  lemma DropAtCons<T>(s: seq<T>, k: nat)
    requires 0 < k < |s|
    ensures [s[0]] + (s[1..][..k - 1] + s[1..][k..]) == s[..k] + s[k + 1..]
  {
    assert [s[0]] + s[1..][..k - 1] == s[..k];
    assert s[1..][k..] == s[k + 1..];
  }

  /** Removing an id other than the first pair's keeps that pair in front. */
  lemma WithoutDependencyCons(deps: seq<Dependency>, id: string)
    requires deps != [] && deps[0].id != id
    ensures WithoutDependency(deps, id) == [deps[0]] + WithoutDependency(deps[1..], id)
  {
  }

  /**
   * Removing the id held at index `k` drops exactly that pair: the pairs before and
   * after it stay, in their order.
   */
  lemma {:induction false} WithoutDependencyAt(deps: seq<Dependency>, id: string, k: nat)
    requires DistinctIds(deps) && k < |deps| && deps[k].id == id
    ensures WithoutDependency(deps, id) == deps[..k] + deps[k + 1..]
  {
    DistinctIdsTail(deps);
    var rest := deps[1..];
    if k == 0 {
      WithoutAbsentDependency(rest, id);
      assert deps[..0] + deps[1..] == rest;
    } else {
      assert rest[k - 1] == deps[k];
      WithoutDependencyCons(deps, id);
      WithoutDependencyAt(rest, id, k - 1);
      DropAtCons(deps, k);
    }
  }

  /** Whether `InstallTemplatePackage` reports success, given how restore fares on the written dependencies. */
  predicate InstallSucceeds(deps: seq<Dependency>, id: string, version: string, restore: seq<Dependency> -> bool)
    requires DistinctIds(deps)
  {
    HasDependency(deps, id) || restore(WithDependency(deps, id, version))
  }

  /** Whether `UninstallTemplatePackage` reports success, given how restore fares on the written dependencies. */
  predicate UninstallSucceeds(deps: seq<Dependency>, id: string, restore: seq<Dependency> -> bool)
  {
    !HasDependency(deps, id) || restore(WithoutDependency(deps, id))
  }

  /**
   * The templates project as `TemplateManager` edits it: the `dependencies` object of
   * its project file and the number of times `dotnet restore` has been run on it.
   * Restoring is an oracle: `restore` says whether a restore of the given dependencies succeeds.
   */
  class TemplateManager {
    var dependencies: seq<Dependency>
    var restoreRuns: nat

    ghost predicate Valid()
      reads this
    {
      DistinctIds(dependencies)
    }

    constructor (dependencies: seq<Dependency>)
      requires DistinctIds(dependencies)
      ensures Valid() && this.dependencies == dependencies && restoreRuns == 0
    {
      this.dependencies := dependencies;
      restoreRuns := 0;
    }

    /** `RestoreTemplatePackages`: runs restore once and reports its result. */
    method RestoreTemplatePackages(restore: seq<Dependency> -> bool) returns (ok: bool)
      modifies this`restoreRuns
      ensures restoreRuns == old(restoreRuns) + 1
      ensures ok == restore(dependencies)
    {
      restoreRuns := restoreRuns + 1;
      ok := restore(dependencies);
    }

    /**
     * An id already present: success, nothing written, no restore. Otherwise the
     * dependency is added and restored; if restore fails, the original dependencies
     * are written back and failure is reported.
     */
    method InstallTemplatePackage(packageId: string, version: string, restore: seq<Dependency> -> bool) returns (ok: bool)
      requires Valid()
      modifies this
      ensures Valid()
      ensures ok == InstallSucceeds(old(dependencies), packageId, version, restore)
      ensures HasDependency(old(dependencies), packageId) ==>
        dependencies == old(dependencies) && restoreRuns == old(restoreRuns)
      ensures !HasDependency(old(dependencies), packageId) ==>
        restoreRuns == old(restoreRuns) + 1 &&
        dependencies == if ok then WithDependency(old(dependencies), packageId, version) else old(dependencies)
    {
      var original := dependencies;
      if HasDependency(dependencies, packageId) {
        return true;
      }
      dependencies := WithDependency(dependencies, packageId, version);
      var restored := RestoreTemplatePackages(restore);
      if !restored {
        dependencies := original;
        return false;
      }
      return true;
    }

    /**
     * An absent id: success, nothing written, no restore. Otherwise the dependency is
     * removed and restored; if restore fails, the original dependencies are written back.
     */
    method UninstallTemplatePackage(packageId: string, restore: seq<Dependency> -> bool) returns (ok: bool)
      requires Valid()
      modifies this
      ensures Valid()
      ensures ok == UninstallSucceeds(old(dependencies), packageId, restore)
      ensures !HasDependency(old(dependencies), packageId) ==>
        dependencies == old(dependencies) && restoreRuns == old(restoreRuns)
      ensures HasDependency(old(dependencies), packageId) ==>
        restoreRuns == old(restoreRuns) + 1 &&
        dependencies == if ok then WithoutDependency(old(dependencies), packageId) else old(dependencies)
    {
      var original := dependencies;
      if HasDependency(dependencies, packageId) {
        dependencies := WithoutDependency(dependencies, packageId);
        var restored := RestoreTemplatePackages(restore);
        if !restored {
          dependencies := original;
          return false;
        }
      }
      return true;
    }
  }
}
