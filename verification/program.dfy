/**
 * `Program`: the `--debug` argument, the template listings, the interactive choice of
 * a template, and the exit code of each command. Argument parsing and dispatch belong
 * to the command-line library; each command's handler is modelled with its parsed
 * arguments as parameters.
 */
module Program {
  import opened Common
  import opened Paths
  import opened Templates
  import opened TemplateManagement
  import opened ConsoleUtils

  /** The arguments `Main` hands on: a leading `--debug` is taken off, the rest kept in order. */
  function StripDebug(args: seq<string>): (r: seq<string>)
    ensures |args| > 0 && args[0] == "--debug" ==> args == ["--debug"] + r
    ensures |args| == 0 || args[0] != "--debug" ==> r == args
  {
    if |args| > 0 && args[0] == "--debug" then args[1..] else args
  }

  /** `templates.Max(t => t.Name.Length)`. */
  function MaxNameLength(ts: seq<ManifestEntry>): (m: nat)
    requires |ts| > 0
    ensures forall i :: 0 <= i < |ts| ==> |ts[i].name| <= m
    ensures exists i :: 0 <= i < |ts| && |ts[i].name| == m
  {
    if |ts| == 1 then |ts[0].name|
    else
      var m := MaxNameLength(ts[1..]);
      assert forall i :: 1 <= i < |ts| ==> ts[i] == ts[1..][i - 1];
      var k :| 0 <= k < |ts[1..]| && |ts[1..][k].name| == m;
      assert |ts[k + 1].name| == m;
      if |ts[0].name| > m then |ts[0].name| else m
  }

  /** `new string(' ', n)`. */
  function Spaces(n: nat): (r: string)
    ensures |r| == n && forall i :: 0 <= i < n ==> r[i] == ' '
  {
    if n == 0 then "" else [' '] + Spaces(n - 1)
  }

  /**
   * A line of the `list` command: `  - <name> <padding> [<path>]`. Every name is padded
   * to `width`, so the bracket always sits in column `width + 6`.
   */
  function ListLine(t: ManifestEntry, width: nat): (r: string)
    requires |t.name| <= width
    ensures |r| == width + 8 + |t.path|
    ensures r[4..4 + |t.name|] == t.name && r[width + 6] == '[' && r[width + 7..] == t.path + "]"
  {
    var r := "  - " + t.name + " " + Spaces(width - |t.name|) + " [" + t.path + "]";
    assert r[width + 7..] == t.path + "]";
    r
  }

  /**
   * The template lines the `list` command writes for one package: line `i` shows
   * template `i`, and all are aligned on the widest name.
   */
  function PackageListing(ip: InstalledPackage): (lines: seq<string>)
    ensures |lines| == |ip.templates|
    ensures |ip.templates| > 0 ==> forall i :: 0 <= i < |lines| ==>
      lines[i] == ListLine(ip.templates[i], MaxNameLength(ip.templates))
    ensures |ip.templates| > 0 ==> forall i :: 0 <= i < |lines| ==>
      var column := MaxNameLength(ip.templates) + 6;
      column < |lines[i]| && lines[i][column] == '['
  {
    if |ip.templates| == 0 then []
    else
      var width := MaxNameLength(ip.templates);
      seq(|ip.templates|, i requires 0 <= i < |ip.templates| => ListLine(ip.templates[i], width))
  }

  /** What `list` and the default action write when nothing is installed. */
  const NoTemplatesMessage := "No templates installed. Type 'dotnet new2 install --help' for help on installing templates."

  /** The header line of a package: `<id> <version>`. */
  function Header(ip: InstalledPackage): string
  {
    ip.id + " " + ip.version
  }

  /** Each package's header followed by its template lines. */
  function PackagesListing(installed: seq<InstalledPackage>): (lines: seq<string>)
    ensures |lines| == |installed| + |AllTemplates(installed)|
    ensures |installed| > 0 ==> lines[0] == Header(installed[0])
  {
    if installed == [] then []
    else [Header(installed[0])] + PackageListing(installed[0]) + PackagesListing(installed[1..])
  }

  /** Listing a concatenation of packages lists each part in turn. */
  lemma {:induction false} PackagesListingAppend(xs: seq<InstalledPackage>, ys: seq<InstalledPackage>)
    ensures PackagesListing(xs + ys) == PackagesListing(xs) + PackagesListing(ys)
  {
    if xs == [] {
      assert xs + ys == ys;
    } else {
      assert (xs + ys)[0] == xs[0] && (xs + ys)[1..] == xs[1..] + ys;
      PackagesListingAppend(xs[1..], ys);
    }
  }

  /** The listing of a package followed by others: its header, its template lines, then the others' listing. */
  lemma PackagesListingCons(ip: InstalledPackage, after: seq<InstalledPackage>)
    ensures PackagesListing([ip] + after) == [Header(ip)] + PackageListing(ip) + PackagesListing(after)
  {
    assert ([ip] + after)[1..] == after;
  }

  /**
   * The listing splits at package `k`: the listing of the packages before it, then its
   * header, then its own template lines, then the listing of the packages after it.
   * The header therefore sits at index `k + |AllTemplates(installed[..k])|`.
   */
  lemma PackagesListingLayout(installed: seq<InstalledPackage>, k: nat)
    requires k < |installed|
    ensures PackagesListing(installed) == PackagesListing(installed[..k]) +
              ([Header(installed[k])] + PackageListing(installed[k]) + PackagesListing(installed[k + 1..]))
    ensures PackagesListing(installed)[k + |AllTemplates(installed[..k])|] == Header(installed[k])
  {
    var ip, before, after := installed[k], installed[..k], installed[k + 1..];
    assert installed == before + ([ip] + after);
    PackagesListingAppend(before, [ip] + after);
    PackagesListingCons(ip, after);
  }

  /** The decimal digits of `n`. */
  function NatToString(n: nat): (r: string)
    ensures |r| > 0 && AllAsciiDigits(r)
  {
    var digit := ['0' + (n % 10) as char];
    if n < 10 then digit else NatToString(n / 10) + digit
  }

  /** The digits of `n` read back as `n`. */
  lemma {:induction false} NatToStringParses(n: nat)
    ensures DecimalValue(NatToString(n)) == n
  {
    var digit := ['0' + (n % 10) as char];
    if n >= 10 {
      NatToStringParses(n / 10);
      var s := NatToString(n / 10) + digit;
      assert s[..|s| - 1] == NatToString(n / 10);
    }
  }

  /** A line of the template menu: `<number>. <name> <padding>[<path>]`. */
  function MenuLine(number: nat, t: ManifestEntry, width: nat): (r: string)
    requires |t.name| <= width
    ensures |r| == |NatToString(number)| + width + 5 + |t.path|
  {
    NatToString(number) + ". " + t.name + " " + Spaces(width - |t.name|) + "[" + t.path + "]"
  }

  /** Every menu line has its `[` in the column set by the number's digits and the width, followed by the path. */
  lemma MenuLineBracket(number: nat, t: ManifestEntry, width: nat)
    requires |t.name| <= width
    ensures var r := MenuLine(number, t, width);
      var c := |NatToString(number)| + width + 3;
      c < |r| && r[c] == '[' && r[c + 1..] == t.path + "]"
  {
    var r := MenuLine(number, t, width);
    assert r[|NatToString(number)| + width + 4..] == t.path + "]";
  }

  /** A slice inside the left part of a concatenation is that slice of the left part. */
  lemma SliceOfAppend<T>(a: seq<T>, b: seq<T>, i: nat, j: nat)
    requires i <= j <= |a|
    ensures (a + b)[i..j] == a[i..j]
  {
  }

  /** A menu line starts with the number's digits, then `. `, then the template's name. */
  lemma MenuLineNumber(number: nat, t: ManifestEntry, width: nat)
    requires |t.name| <= width
    ensures var r := MenuLine(number, t, width);
      var d := NatToString(number);
      r[..|d|] == d && r[|d|..|d| + 2] == ". " && r[|d| + 2..|d| + 2 + |t.name|] == t.name
  {
    var d := NatToString(number);
    var numbered := d + ". ";
    var head := numbered + t.name;
    var padded := head + " " + Spaces(width - |t.name|);
    var withPath := padded + "[" + t.path;
    assert MenuLine(number, t, width) == withPath + "]";
    forall i: nat, j: nat | i <= j <= |head|
      ensures MenuLine(number, t, width)[i..j] == head[i..j]
    {
      SliceOfAppend(withPath, "]", i, j);
      SliceOfAppend(padded + "[", t.path, i, j);
      SliceOfAppend(padded, "[", i, j);
      SliceOfAppend(head + " ", Spaces(width - |t.name|), i, j);
      SliceOfAppend(head, " ", i, j);
    }
    SliceOfAppend(numbered, t.name, 0, |d|);
    SliceOfAppend(d, ". ", 0, |d|);
    SliceOfAppend(numbered, t.name, |d|, |d| + 2);
    assert head[|d| + 2..|head|] == t.name;
  }

  /** An exception that ends the program with exit code 1. */
  datatype ProgramError =
    | CatalogFailed(error: CatalogError)
    | SelectionOutOfRange(selection: int)   // `templates[selection - 1]` with an index outside the list

  /** The result of `PromptForTemplate`; `WaitingForKeys` means the key sequence ran out before a number was accepted. */
  datatype Prompted =
    | NoTemplates
    | Chosen(template: ManifestEntry)
    | WaitingForKeys
    | PromptFailed(error: ProgramError)

  /**
   * All templates of all installed packages (`SelectMany`), or the exception
   * enumerating them throws: a template is listed exactly when some package holds it.
   */
  function Catalog(p: Platform, pkgs: seq<ExportedPackage>): (r: Result<seq<ManifestEntry>, CatalogError>)
    ensures r.Failure? <==> GetInstalledTemplates(p, pkgs).Failure?
    ensures r.Success? ==> var installed := GetInstalledTemplates(p, pkgs).value;
      forall t :: t in r.value <==> exists i :: 0 <= i < |installed| && t in installed[i].templates
  {
    match GetInstalledTemplates(p, pkgs)
    case Failure(e) => Failure(e)
    case Success(installed) =>
      assert forall t :: t in AllTemplates(installed) <==> exists i :: 0 <= i < |installed| && t in installed[i].templates by {
        forall t {
          AllTemplatesMembers(installed, t);
        }
      }
      Success(AllTemplates(installed))
  }

  /** The catalog of a concatenation lists the templates of the first part, then those of the second. */
  lemma CatalogAppend(p: Platform, xs: seq<ExportedPackage>, ys: seq<ExportedPackage>)
    ensures Catalog(p, xs + ys).Success? <==> Catalog(p, xs).Success? && Catalog(p, ys).Success?
    ensures Catalog(p, xs + ys).Success? ==> Catalog(p, xs + ys).value == Catalog(p, xs).value + Catalog(p, ys).value
  {
    GetInstalledTemplatesAppend(p, xs, ys);
    if Catalog(p, xs + ys).Success? {
      AllTemplatesAppend(GetInstalledTemplates(p, xs).value, GetInstalledTemplates(p, ys).value);
    }
  }

  /** The menu: template `i` is shown as number `i + 1`, all padded to the widest name. */
  function Menu(templates: seq<ManifestEntry>): (menu: seq<string>)
    ensures |menu| == |templates|
    ensures |templates| > 0 ==> forall i :: 0 <= i < |templates| ==>
      menu[i] == MenuLine(i + 1, templates[i], MaxNameLength(templates))
  {
    if |templates| == 0 then []
    else
      var width := MaxNameLength(templates);
      seq(|templates|, i requires 0 <= i < |templates| => MenuLine(i + 1, templates[i], width))
  }

  /**
   * The choice among `templates` the user makes with `keys`: none without prompting
   * when the list is empty; otherwise the number `ReadInt` accepts, at most the count
   * of templates, picks the template with that number. Only a 0 falls outside the
   * list, and indexing with it throws.
   */
  function Choose(templates: seq<ManifestEntry>, keys: seq<Key>): (r: Prompted)
    ensures |templates| == 0 <==> r == NoTemplates
    ensures r == WaitingForKeys <==> |templates| > 0 && Scan(keys, |templates|, [], 0).OutOfKeys?
    ensures r.Chosen? <==> |templates| > 0 && Scan(keys, |templates|, [], 0).Read? && Scan(keys, |templates|, [], 0).value != 0
    ensures r.Chosen? ==> var n := Scan(keys, |templates|, [], 0).value;
      1 <= n <= |templates| && r.template == templates[n - 1]
    ensures r.PromptFailed? ==> r.error == SelectionOutOfRange(0)
  {
    if |templates| == 0 then NoTemplates
    else
      var selection := Scan(keys, |templates|, [], 0);
      ScanResult(keys, |templates|, [], 0);
      match selection
      case OutOfKeys => WaitingForKeys
      case Read(n, _) =>
        if 1 <= n <= |templates| then Chosen(templates[n - 1]) else PromptFailed(SelectionOutOfRange(n))
  }

  /**
   * The second half of `PromptForTemplate`: writes the menu of `templates` and reads
   * the user's choice.
   */
  method SelectFromMenu(templates: seq<ManifestEntry>, keys: seq<Key>) returns (r: Prompted, menu: seq<string>)
    ensures r == Choose(templates, keys) && menu == Menu(templates)
  {
    if |templates| == 0 {
      return NoTemplates, [];
    }
    menu := WriteMenu(templates);
    var selection := ReadInt(keys, |templates|);
    if selection.OutOfKeys? {
      return WaitingForKeys, menu;
    }
    var index := selection.value - 1;
    if index < 0 || index >= |templates| {
      return PromptFailed(SelectionOutOfRange(selection.value)), menu;
    }
    return Chosen(templates[index]), menu;
  }

  /** The menu loop of `PromptForTemplate`. */
  method WriteMenu(templates: seq<ManifestEntry>) returns (menu: seq<string>)
    requires |templates| > 0
    ensures menu == Menu(templates)
  {
    var width := MaxNameLength(templates);
    menu := [];
    for i := 0 to |templates|
      invariant |menu| == i
      invariant forall k :: 0 <= k < i ==> menu[k] == MenuLine(k + 1, templates[k], width)
    {
      menu := menu + [MenuLine(i + 1, templates[i], width)];
    }
  }

  /**
   * `PromptForTemplate`: enumerates the templates of all packages, writes the menu and
   * reads the user's choice.
   */
  method PromptForTemplate(p: Platform, pkgs: seq<ExportedPackage>, keys: seq<Key>) returns (r: Prompted, menu: seq<string>)
    ensures Catalog(p, pkgs).Failure? ==> r == PromptFailed(CatalogFailed(Catalog(p, pkgs).error)) && menu == []
    ensures Catalog(p, pkgs).Success? ==>
      r == Choose(Catalog(p, pkgs).value, keys) && menu == Menu(Catalog(p, pkgs).value)
  {
    var catalog := Catalog(p, pkgs);
    if catalog.Failure? {
      return PromptFailed(CatalogFailed(catalog.error)), [];
    }
    r, menu := SelectFromMenu(catalog.value, keys);
  }

  /** Enter alone takes the offered default, the first template. */
  lemma EnterSelectsFirst(templates: seq<ManifestEntry>, rest: seq<Key>)
    requires |templates| > 0
    ensures Choose(templates, [Enter] + rest) == Chosen(templates[0])
  {
  }

  /** Typing 0 is accepted by `ReadInt`, and indexing the list with it throws. */
  lemma ZeroSelectionThrows(templates: seq<ManifestEntry>, rest: seq<Key>)
    requires |templates| > 0
    ensures Choose(templates, [Digit('0'), Enter] + rest) == PromptFailed(SelectionOutOfRange(0))
  {
    ZeroThenEnter(rest, |templates|);
  }

  /** Typing the number `n` of a listed template, then Enter, chooses that template. */
  lemma TypedNumberSelects(templates: seq<ManifestEntry>, n: nat, rest: seq<Key>)
    requires 1 <= n <= |templates| <= IntMax
    ensures Choose(templates, Typed(NatToString(n)) + [Enter] + rest) == Chosen(templates[n - 1])
  {
    var keys := Typed(NatToString(n)) + [Enter] + rest;
    TypedThenEnter(NatToString(n), rest, |templates|);
    NatToStringParses(n);
    assert TryParseInt(NatToString(n)) == Some(n);
    assert Scan(keys, |templates|, [], 0) == Read(n, |NatToString(n)| + 1);
  }

  /** How a command handler ends: an exit code, an exception, or blocked waiting for keys. */
  datatype CommandOutcome = Exit(code: int) | Threw(error: ProgramError) | Blocked

  /** `Main` returns the handler's code, and 1 for an exception it catches. */
  function MainExitCode(o: CommandOutcome): (r: Option<int>)
    ensures r.None? <==> o.Blocked?
    ensures o.Exit? ==> r == Some(o.code)
    ensures o.Threw? ==> r == Some(1)
  {
    match o
    case Exit(code) => Some(code)
    case Threw(_) => Some(1)
    case Blocked => None
  }

  /** How a command ended, and the lines it wrote. */
  datatype CommandRun = CommandRun(outcome: CommandOutcome, output: seq<string>)

  /**
   * The `list` command. `Any` starts the lazy enumeration: it throws if a package
   * throws before one is yielded, and otherwise shows whether there is a package at
   * all. The `foreach` then writes each yielded package and throws where enumeration
   * does. The exit code is 0 unless enumerating the packages throws.
   */
  function ListCommand(p: Platform, pkgs: seq<ExportedPackage>): (r: CommandRun)
    ensures r.outcome == Exit(0) <==> GetInstalledTemplates(p, pkgs).Success?
    ensures r.outcome.Threw? <==> GetInstalledTemplates(p, pkgs).Failure?
    ensures GetInstalledTemplates(p, pkgs) == Success([]) ==> r.output == [NoTemplatesMessage]
    ensures GetInstalledTemplates(p, pkgs).Success? && GetInstalledTemplates(p, pkgs).value != [] ==>
      r.output == PackagesListing(GetInstalledTemplates(p, pkgs).value)
  {
    var shown := Yielded(p, pkgs);
    var outcome := match GetInstalledTemplates(p, pkgs)
      case Failure(e) => Threw(CatalogFailed(e))
      case Success(_) => Exit(0);
    if shown == [] && outcome == Exit(0) then CommandRun(outcome, [NoTemplatesMessage])
    else CommandRun(outcome, PackagesListing(shown))
  }

  /**
   * When package `k` is the first to throw, `list` fails having written the listing
   * of the template packages before it, and nothing when there are none.
   */
  lemma ListWritesBeforeThrow(p: Platform, pkgs: seq<ExportedPackage>, k: nat)
    requires k < |pkgs| && BuildPackage(p, pkgs[k]).Failure?
    requires forall j :: 0 <= j < k ==> BuildPackage(p, pkgs[j]).Success?
    ensures ListCommand(p, pkgs).outcome.Threw? && GetInstalledTemplates(p, pkgs[..k]).Success?
    ensures ListCommand(p, pkgs).output == PackagesListing(GetInstalledTemplates(p, pkgs[..k]).value)
  {
    GetInstalledTemplatesFails(p, pkgs);
    YieldedBeforeThrow(p, pkgs, k);
  }

  /**
   * The default action: the project name defaults to the current directory; without
   * `-t` the template is chosen from the menu, with `-t` it is looked up by path.
   * No template gives 1, a failed creation gives 1, and success gives 0. The project
   * creator is an oracle: `create(name, template)` says whether creation succeeds.
   */
  method RunDefault(p: Platform, pkgs: seq<ExportedPackage>, keys: seq<Key>, nameOption: Option<string>, cwd: string,
                    templateOption: Option<string>, create: (string, ManifestEntry) -> bool) returns (r: CommandOutcome)
    ensures r.Exit? ==> r.code == 0 || r.code == 1
    ensures templateOption.Some? ==>
      var found := GetTemplate(p, pkgs, templateOption.value);
      match found
      case Failure(e) => r == Threw(CatalogFailed(e))
      case Success(None) => r == Exit(1)
      case Success(Some(t)) => r == Exit(if create(nameOption.GetOr(cwd), t) then 0 else 1)
    ensures templateOption.None? ==>
      match Catalog(p, pkgs)
      case Failure(e) => r == Threw(CatalogFailed(e))
      case Success(templates) =>
        match Choose(templates, keys)
        case NoTemplates => r == Exit(1)
        case WaitingForKeys => r == Blocked
        case PromptFailed(e) => r == Threw(e)
        case Chosen(t) => r == Exit(if create(nameOption.GetOr(cwd), t) then 0 else 1)
    ensures r == Exit(0) ==> exists t :: create(nameOption.GetOr(cwd), t)
  {
    var name := nameOption.GetOr(cwd);
    var template: ManifestEntry;
    if templateOption.None? {
      var prompted, _ := PromptForTemplate(p, pkgs, keys);
      match prompted
      case NoTemplates => return Exit(1);
      case WaitingForKeys => return Blocked;
      case PromptFailed(e) => return Threw(e);
      case Chosen(t) => template := t;
    } else {
      var found := GetTemplate(p, pkgs, templateOption.value);
      match found
      case Failure(e) => return Threw(CatalogFailed(e));
      case Success(None) => return Exit(1);
      case Success(Some(t)) => template := t;
    }
    if !create(name, template) {
      return Exit(1);
    }
    return Exit(0);
  }

  /** The `install` command: 2 when the id or the version is missing, 1 when installing fails, 0 otherwise. */
  method RunInstall(manager: TemplateManager, idArg: Option<string>, versionArg: Option<string>, restore: seq<Dependency> -> bool)
    returns (code: int)
    requires manager.Valid()
    modifies manager
    ensures manager.Valid()
    ensures idArg.None? || versionArg.None? ==> code == 2 && unchanged(manager)
    ensures idArg.Some? && versionArg.Some? ==>
      code == if InstallSucceeds(old(manager.dependencies), idArg.value, versionArg.value, restore) then 0 else 1
    ensures idArg.Some? && versionArg.Some? && HasDependency(old(manager.dependencies), idArg.value) ==>
      manager.dependencies == old(manager.dependencies) && manager.restoreRuns == old(manager.restoreRuns)
    ensures idArg.Some? && versionArg.Some? && !HasDependency(old(manager.dependencies), idArg.value) ==>
      manager.restoreRuns == old(manager.restoreRuns) + 1 &&
      manager.dependencies == if code == 0 then WithDependency(old(manager.dependencies), idArg.value, versionArg.value)
        else old(manager.dependencies)
  {
    if idArg.None? || versionArg.None? {
      return 2;
    }
    var ok := manager.InstallTemplatePackage(idArg.value, versionArg.value, restore);
    if !ok {
      return 1;
    }
    return 0;
  }

  /** The `uninstall` command: 2 when the id is missing, 1 when uninstalling fails, 0 otherwise. */
  method RunUninstall(manager: TemplateManager, idArg: Option<string>, restore: seq<Dependency> -> bool) returns (code: int)
    requires manager.Valid()
    modifies manager
    ensures manager.Valid()
    ensures idArg.None? ==> code == 2 && unchanged(manager)
    ensures idArg.Some? ==>
      code == if UninstallSucceeds(old(manager.dependencies), idArg.value, restore) then 0 else 1
    ensures idArg.Some? && !HasDependency(old(manager.dependencies), idArg.value) ==>
      manager.dependencies == old(manager.dependencies) && manager.restoreRuns == old(manager.restoreRuns)
    ensures idArg.Some? && HasDependency(old(manager.dependencies), idArg.value) ==>
      manager.restoreRuns == old(manager.restoreRuns) + 1 &&
      manager.dependencies == if code == 0 then WithoutDependency(old(manager.dependencies), idArg.value)
        else old(manager.dependencies)
  {
    if idArg.None? {
      return 2;
    }
    var ok := manager.UninstallTemplatePackage(idArg.value, restore);
    if !ok {
      return 1;
    }
    return 0;
  }

  /** The `restore` command: 1 when restore fails, 0 otherwise. */
  method RunRestore(manager: TemplateManager, restore: seq<Dependency> -> bool) returns (code: int)
    modifies manager
    ensures code == if restore(manager.dependencies) then 0 else 1
    ensures manager.dependencies == old(manager.dependencies)
    ensures manager.restoreRuns == old(manager.restoreRuns) + 1
  {
    var ok := manager.RestoreTemplatePackages(restore);
    if !ok {
      return 1;
    }
    return 0;
  }
}
