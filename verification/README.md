# dotnet-new2 in Dafny

dotnet-new2 is a command-line tool that creates .NET Core projects from templates
shipped in NuGet packages. This project models its core logic:

- **the template tree of a package** (`TemplatePackage`, `Template`): pre-order flattening
  of categories and templates, and the depth-first `Find`;
- **the catalog** (`TemplateManager`): which packages hold templates, one template per key
  of the manifest's `projectTemplates`, the file prefix filter and destination paths,
  lookup of a template by path, and install/uninstall as edits of the templates project's
  dependencies, rolled back when restore fails;
- **number entry** (`ConsoleUtils.ReadInt`): the key-by-key buffer state machine;
- **the commands** (`Program`): `--debug` stripping, the `list` output and its padding,
  the numbered template menu and the selection, and the exit code of every command;
- **project creation** (`ProjectCreator`): copying each template file into the project
  directory and replacing `$DefaultNamespace$` with the project name.

The modules are laid out as the source files:

| file | module |
|---|---|
| `common.dfy` | `Common`: `Option`, `Result`, prefix test, and the LINQ operators `SingleOrDefault` and `FirstOrDefault` count and search with |
| `paths.dfy` | `Paths`: `Path.Combine` and `String.Replace(char, char)` |
| `template_package.dfy` | `Templates`: `TemplatePackage.cs` with `Template.cs` folded in |
| `template_manager.dfy` | `TemplateManagement`: `TemplateManager.cs` |
| `console_utils.dfy` | `ConsoleUtils`: `ConsoleUtils.cs` |
| `project_creator.dfy` | `ProjectCreator`: `ProjectCreator.cs` |
| `program.dfy` | `Program`: `Program.cs` |

Design notes:

- An exception is a `Failure` of a `Result`, and a null reference is `None`. `Main`
  turns any exception into exit code 1.
- The package exporter's output is an input sequence of `ExportedPackage` values: id,
  version, path, file list and the parsed manifest.
- Both `dotnet restore` and `CreateProject` as seen from `Program` are oracles, passed as
  function parameters.
- The console is a finite sequence of keys. When the keys run out before a number is
  accepted, the result is `OutOfKeys`; the real console would block.
- The file system is a map from full path to contents.
- `TemplateManager.cs` and `Program.cs` build and read each package's templates as a
  flat `Templates` list of `Template`s with `Name` and `Path`. `TemplatePackage.cs` keeps
  a tree of `Entries`. The model follows each file: the catalog builds `InstalledPackage`
  values with a flat template list, and the `TemplatePackage` class holds the tree.
- A template's files are selected and cut by two different prefixes.
  - The filter at `TemplateManager.cs:128` admits every file under `templates\<key>\`.
  - The destination at `TemplateManager.cs:132` cuts off as many characters as
    `templates\<key>\files\` has, as if every admitted file lay under `files\`.
  - A file outside `files\` therefore gets a wrong destination. When it is shorter than
    that prefix, `Substring` throws (`SubstringOutOfRange`).
  - The separators in these names are backslashes.
- `Path.Combine` is modelled with its .NET rules for the two platforms:
  - a rooted second argument replaces the first;
  - one separator is inserted unless the first argument already ends with one.

## Model

| member | source | states |
|---|---|---|
| Common.Occurrences | src/dotnet-new2/TemplateManager.cs:112 | the count `SingleOrDefault` sees is 0 exactly when the manifest name is absent, and never exceeds the list length |
| Common.OccurrencesTwice | src/dotnet-new2/TemplateManager.cs:112 | two indices holding the manifest name make the count at least 2, the case where `SingleOrDefault` throws |
| Common.OccurrencesOnce | src/dotnet-new2/TemplateManager.cs:112 | a count of 1 means exactly one index holds the name, the case where `SingleOrDefault` returns it |
| Common.FirstWhere | src/dotnet-new2/TemplateManager.cs:163-166 | `FirstOrDefault(pred)`: none exactly when no element satisfies `pred`; otherwise a member of the list that satisfies it |
| Common.FirstWhereAt | src/dotnet-new2/TemplateManager.cs:165-166 | the element returned is the one at the earliest satisfying index |
| Common.FirstWhereAppend | src/dotnet-new2/TemplateManager.cs:163-166 | searching a concatenation finds a match in the left part before looking at the right part |
| Paths.Combine | src/dotnet-new2/ProjectCreator.cs:15 | `Path.Combine(a, b)` is at least as long as `b` and adds at most one separator to the two parts |
| Paths.CombineJoins | src/dotnet-new2/ProjectCreator.cs:15 | `Path.Combine(a, b)` ends with `b`, starts with `a` unless `b` is rooted, and is `b` itself when `a` is empty or `b` is rooted |
| Paths.ReplaceChar | src/dotnet-new2/TemplateManager.cs:117 | `Replace('\\', sep)` keeps the length, changes exactly the `\` characters, and leaves none behind when the separator differs |
| Templates.Flatten | src/dotnet-new2/TemplatePackage.cs:21-37 | the flattened list holds only Template leaves |
| Templates.FlattenAppend | src/dotnet-new2/TemplatePackage.cs:23-36 | flattening distributes over concatenation of entry lists |
| Templates.FlattenMembers | src/dotnet-new2/TemplatePackage.cs:25-35 | an entry is in the flattened list exactly when it is a Template reachable through the categories: no category appears, and every category's children are descended into |
| Templates.FindInEntriesAsWritten | src/dotnet-new2/TemplatePackage.cs:44-66 | the search as written never returns a template |
| Templates.FindAsWrittenOutcome | src/dotnet-new2/TemplatePackage.cs:44-66 | as written, the search returns null exactly when no Template is reachable and throws a null reference otherwise; the predicate branch is never reached |
| Templates.FindAsWrittenThrowsOnTemplate | src/dotnet-new2/TemplatePackage.cs:48-53 | one matching template makes the as-written search throw where the corrected search finds it |
| Templates.FindInEntries | src/dotnet-new2/TemplatePackage.cs:44-66 | the corrected search, with the guard on `category`, returns only a Template that satisfies the predicate |
| Templates.FindInEntriesIsFirstMatch | src/dotnet-new2/TemplatePackage.cs:44-66 | the corrected search returns the first template of the pre-order list that satisfies the predicate, and null when none does |
| Templates.TemplateList.constructor | src/dotnet-new2/TemplatePackage.cs:16 | the list that collects the templates starts empty |
| Templates.TemplatePackage.constructor | src/dotnet-new2/TemplatePackage.cs:8-12 | a new package has its id and version and no entries |
| Templates.TemplatePackage.GetTemplatesList | src/dotnet-new2/TemplatePackage.cs:14-19 | returns a fresh list holding exactly the pre-order flattening of `Entries`; the package is not modified |
| Templates.TemplatePackage.PopulateTemplates | src/dotnet-new2/TemplatePackage.cs:21-37 | appends the Template leaves of the given entries, in pre-order, to the list; the loop keeps the flattening of the entries seen so far appended |
| Templates.TemplatePackage.Find | src/dotnet-new2/TemplatePackage.cs:39-42 | `Find` never returns a template; it returns null exactly when no template is reachable, so a new package gives null |
| TemplateManagement.SelectedFiles | src/dotnet-new2/TemplateManager.cs:127-128 | every selected file starts with `templates\<key>\` and is in the package's file list, and every such file is selected |
| TemplateManagement.SelectedFilesAppend | src/dotnet-new2/TemplateManager.cs:127-128 | the filter keeps list order: filtering a concatenation concatenates the results |
| TemplateManagement.TemplatePrefixesDisjoint | src/dotnet-new2/TemplateManager.cs:128 | with keys free of `\`, a file passes the filter of at most one key, so `web` never takes `templates\webapi\` files |
| TemplateManagement.DestPath | src/dotnet-new2/TemplateManager.cs:132 | the destination is the file name without as many leading characters as `templates\<key>\files\` has, and `Substring` throws exactly when the name is shorter |
| TemplateManagement.DestPathUnderFiles | src/dotnet-new2/TemplateManager.cs:128-132 | for a file under `templates\<key>\files\`, the prefix followed by the destination is the file name |
| TemplateManagement.DestPathOutsideFiles | src/dotnet-new2/TemplateManager.cs:128-132 | a file that passes the filter but lies outside `files\` gets no destination or one that does not rebuild the file name |
| TemplateManagement.SourcePath | src/dotnet-new2/TemplateManager.cs:131 | the source path has the length of the combined path and holds no `\` on a platform whose separator is `/` |
| TemplateManagement.MapFiles | src/dotnet-new2/TemplateManager.cs:129-134 | one file pair per selected name, in order, with its source and destination; throws exactly when some name is shorter than the prefix |
| TemplateManagement.BuildFiles | src/dotnet-new2/TemplateManager.cs:127-134 | a template has one file per selected name; building its files throws exactly when a selected name is too short |
| TemplateManagement.BuildFilesUnderFiles | src/dotnet-new2/TemplateManager.cs:127-134 | when all selected files lie under `files\`, the files build and each destination completes the prefix back to its file |
| TemplateManagement.ShortFileThrows | src/dotnet-new2/TemplateManager.cs:128-132 | a selected file shorter than `templates\<key>\files\` makes enumeration throw |
| TemplateManagement.BuildTemplate | src/dotnet-new2/TemplateManager.cs:122-136 | a template's `Path` is the manifest key, its `Name` the title, its package the enclosing one and its files those of the key; a missing title or a failing file throws |
| TemplateManagement.BuildTemplates | src/dotnet-new2/TemplateManager.cs:120-138 | one template per manifest property, in property order, or an exception exactly when building some property throws |
| TemplateManagement.BuildPackage | src/dotnet-new2/TemplateManager.cs:110-141 | a package is skipped exactly when it has no `templates\templates.json`; a template package has exactly one manifest, the exporter's id and version and one template per property; a manifest without `projectTemplates` throws |
| TemplateManagement.DuplicateManifestThrows | src/dotnet-new2/TemplateManager.cs:112 | a file list naming `templates\templates.json` at two indices makes the package throw the duplicate-manifest exception |
| TemplateManagement.SingleManifest | src/dotnet-new2/TemplateManager.cs:112-140 | a package that yields templates names the manifest at exactly one index of its file list |
| TemplateManagement.ConsoleTemplateScenario | src/dotnet-new2/TemplateManager.cs:110-141 | a manifest with the single key `console` and one file under `files\` yields one template `console` with one file whose destination is `Program.txt` |
| TemplateManagement.GetInstalledTemplates | src/dotnet-new2/TemplateManager.cs:98-143 | at most one template package per exported package |
| TemplateManagement.GetInstalledTemplatesFails | src/dotnet-new2/TemplateManager.cs:110-142 | enumeration throws exactly when building some exported package throws |
| TemplateManagement.GetInstalledTemplatesCollects | src/dotnet-new2/TemplateManager.cs:110-142 | enumeration equals collecting the per-package outcomes in exporter order: skipped packages drop out and the first exception ends it |
| TemplateManagement.GetInstalledTemplatesAppend | src/dotnet-new2/TemplateManager.cs:110-142 | packages come out in exporter order: enumerating a concatenation concatenates the results |
| TemplateManagement.Yielded | src/dotnet-new2/TemplateManager.cs:110-142 | the packages the lazy enumeration yields are the whole catalog whenever enumeration does not throw |
| TemplateManagement.YieldedBeforeThrow | src/dotnet-new2/TemplateManager.cs:110-142 | when package `k` is the first to throw, the packages yielded before the exception are exactly the catalog of the packages before `k` |
| TemplateManagement.SkipsPackageWithoutManifest | src/dotnet-new2/TemplateManager.cs:112-113 | a package without a manifest contributes nothing and throws nothing |
| TemplateManagement.AllTemplates | src/dotnet-new2/TemplateManager.cs:164 | every template of every package is among the concatenated templates |
| TemplateManagement.AllTemplatesMembers | src/dotnet-new2/TemplateManager.cs:164 | a template is among the concatenated templates exactly when some package holds it |
| TemplateManagement.AllTemplatesAppend | src/dotnet-new2/TemplateManager.cs:164 | `SelectMany` keeps package order: concatenating two package lists concatenates their templates |
| TemplateManagement.GetTemplate | src/dotnet-new2/TemplateManager.cs:161-169 | a template that is found has exactly the requested path |
| TemplateManagement.GetTemplateIsFirstMatch | src/dotnet-new2/TemplateManager.cs:161-169 | when the catalog builds, `GetTemplate` returns the first template, in package order then template order, whose path equals the argument, and null when none does |
| TemplateManagement.GetTemplateStopsAtMatch | src/dotnet-new2/TemplateManager.cs:161-169 | the lazy search returns a match from an earlier package even when a later package would throw |
| TemplateManagement.WithDependency | src/dotnet-new2/TemplateManager.cs:49 | the new id-version pair is added last, the others are kept, and the ids stay distinct |
| TemplateManagement.WithoutDependency | src/dotnet-new2/TemplateManager.cs:78 | removing an id keeps exactly the pairs with other ids and leaves no pair with that id |
| TemplateManagement.WithoutDependencyAt | src/dotnet-new2/TemplateManager.cs:78 | with distinct ids, removing the id held at index `k` drops exactly that pair and keeps the pairs before and after it in order |
| TemplateManagement.InstallUninstallRoundTrip | src/dotnet-new2/TemplateManager.cs:32-96 | installing a new id and then uninstalling it gives back the original dependencies |
| TemplateManagement.WithoutAbsentDependency | src/dotnet-new2/TemplateManager.cs:76 | removing an id that is not present changes nothing |
| TemplateManagement.TemplateManager.constructor | src/dotnet-new2/TemplateManager.cs:26-30 | the manager starts on the given templates project and has run no restore |
| TemplateManagement.TemplateManager.RestoreTemplatePackages | src/dotnet-new2/TemplateManager.cs:145-153 | one restore run, whose result is reported; the dependencies are not changed |
| TemplateManagement.TemplateManager.InstallTemplatePackage | src/dotnet-new2/TemplateManager.cs:32-66 | an id already present succeeds with no change and no restore; otherwise the pair is added and restored once, and a failed restore restores the original dependencies and reports failure |
| TemplateManagement.TemplateManager.UninstallTemplatePackage | src/dotnet-new2/TemplateManager.cs:68-96 | an absent id succeeds with no change and no restore; otherwise the id is removed and restored once, and a failed restore rolls back and reports failure |
| ConsoleUtils.TryParseInt | src/dotnet-new2/ConsoleUtils.cs:31-32 | `int.TryParse` succeeds exactly on a non-empty string of ASCII digits whose value fits in an `int`, and then yields that value |
| ConsoleUtils.Scan | src/dotnet-new2/ConsoleUtils.cs:10-51 | a number is returned only at an Enter key that was read, and the keys after it are not consumed |
| ConsoleUtils.ScanResult | src/dotnet-new2/ConsoleUtils.cs:10-51 | for every `max`, a returned number is 1 when the buffer at the accepting Enter is empty, and otherwise what that buffer parses to, which is at most `max`; so it lies between 0 and `max`, or is that 1 |
| ConsoleUtils.ReadInt | src/dotnet-new2/ConsoleUtils.cs:10-51 | the loop returns what the key-by-key specification gives: the number accepted by an Enter key, which lies in the bounds above, or running out of keys |
| ConsoleUtils.OtherKeysIgnored | src/dotnet-new2/ConsoleUtils.cs:16-22 | a key that is neither a digit nor Enter leaves the buffer unchanged and is skipped |
| ConsoleUtils.EnterOnEmptyBuffer | src/dotnet-new2/ConsoleUtils.cs:24-29 | Enter on an empty buffer returns 1, whatever `max` is |
| ConsoleUtils.TypedDigitsBuffered | src/dotnet-new2/ConsoleUtils.cs:17-21 | typed digits are appended to the buffer in order |
| ConsoleUtils.TypedThenEnter | src/dotnet-new2/ConsoleUtils.cs:22-48 | digits followed by Enter return their value when it parses and is at most `max`; otherwise the buffer is cleared and reading goes on after the Enter |
| ConsoleUtils.ZeroThenEnter | src/dotnet-new2/ConsoleUtils.cs:31-37 | there is no lower bound: `0` then Enter returns 0 |
| ProjectCreator.Replace | src/dotnet-new2/ProjectCreator.cs:31 | replacing the token by itself leaves the contents unchanged |
| ProjectCreator.ReplaceLength | src/dotnet-new2/ProjectCreator.cs:31 | the result length is the old length plus the number of replacements times the difference between the name's length and the token's |
| ProjectCreator.ReplaceSkipsPrefix | src/dotnet-new2/ProjectCreator.cs:31 | text in front of the first occurrence is kept and replaces nothing |
| ProjectCreator.ReplaceWithoutOccurrence | src/dotnet-new2/ProjectCreator.cs:31 | contents without an occurrence of the token are unchanged |
| ProjectCreator.ReplaceLeftmost | src/dotnet-new2/ProjectCreator.cs:31 | the leftmost occurrence is replaced, the text before it is kept, and scanning resumes after it |
| ProjectCreator.NamespaceLineSubstituted | samples/NETCore.New2.Templates.Web/templates/aspnetcore/empty/csharp/files/Startup.cs:5 | a file whose only `$` is in the token on its namespace line becomes `namespace <name>` with all other text unchanged |
| ProjectCreator.TokenCanReappear | src/dotnet-new2/ProjectCreator.cs:31 | the result is not always token-free: with an empty name, `$Default` + token + `Namespace$` becomes the token |
| ProjectCreator.CopyFiles | src/dotnet-new2/ProjectCreator.cs:13-18 | the copy loop only adds files: existing files keep their contents |
| ProjectCreator.CopySucceeds | src/dotnet-new2/ProjectCreator.cs:13-18 | copying succeeds when every source exists and the destinations are new and pairwise distinct |
| ProjectCreator.ExistingDestinationFails | src/dotnet-new2/ProjectCreator.cs:15-16 | `File.Copy` does not overwrite: a destination that already exists makes creation fail |
| ProjectCreator.DuplicateDestinationFails | src/dotnet-new2/ProjectCreator.cs:15-16 | two template files with the same destination make creation fail |
| ProjectCreator.CopiedFiles | src/dotnet-new2/ProjectCreator.cs:13-18 | after a successful copy, the files are the old ones plus the destinations of the template files |
| ProjectCreator.CopiedContents | src/dotnet-new2/ProjectCreator.cs:13-18 | after a successful copy, each destination holds its source's contents with the token replaced by the name |
| ProjectCreator.FileSystem.Copy | src/dotnet-new2/ProjectCreator.cs:16 | `File.Copy` throws when the source is missing or the destination exists, and otherwise adds the destination with the source's contents and changes nothing else |
| ProjectCreator.ProcessFile | src/dotnet-new2/ProjectCreator.cs:26-32 | rewrites the file at the destination with the token replaced by the name, and changes no other file |
| ProjectCreator.CopyTemplateFile | src/dotnet-new2/ProjectCreator.cs:15-17 | one pass of the loop: a missing source or an existing destination is reported and changes nothing; otherwise the destination gets the source's contents with the token replaced |
| ProjectCreator.CreateProject | src/dotnet-new2/ProjectCreator.cs:9-24 | the file loop leaves the file system that the copy specification gives, and returns true unless a copy throws |
| Program.StripDebug | src/dotnet-new2/Program.cs:15-17 | a leading `--debug` is removed and the other arguments are kept in order |
| Program.MaxNameLength | src/dotnet-new2/Program.cs:212 | the width is at least every name's length and equals some name's length, so no padding is negative |
| Program.Spaces | src/dotnet-new2/Program.cs:79 | `new string(' ', n)` is `n` spaces |
| Program.ListLine | src/dotnet-new2/Program.cs:79-80 | a `list` line has the name in columns from 4 on and `[` in column `width + 6` followed by the path |
| Program.PackageListing | src/dotnet-new2/Program.cs:73-82 | line `i` of a package is the `list` line of its template `i`, padded to the widest name, so the `[` of every line is in the same column |
| Program.PackagesListing | src/dotnet-new2/Program.cs:69-83 | a header line per package plus one line per template, with the first package's `<id> <version>` first |
| Program.PackagesListingAppend | src/dotnet-new2/Program.cs:69-83 | the `foreach` lists packages in order: listing a concatenation concatenates the listings |
| Program.PackagesListingLayout | src/dotnet-new2/Program.cs:69-83 | the listing splits at package `k` into the listing of the packages before it, its header, its own template lines, and the listing of the packages after it; its header is at index `k` plus the number of templates before it |
| Program.MenuLine | src/dotnet-new2/Program.cs:217-218 | a menu line is as long as the number's digits, the padded name and the path, with five characters of punctuation between them |
| Program.MenuLineNumber | src/dotnet-new2/Program.cs:218 | a menu line starts with the number's digits, then `. `, then the template's name |
| Program.MenuLineBracket | src/dotnet-new2/Program.cs:217-218 | a menu line has `[` in the column set by the number's digits and the width, followed by the path |
| Program.Catalog | src/dotnet-new2/Program.cs:200 | the catalog throws exactly when enumerating the packages throws, and otherwise lists a template exactly when some installed package holds it |
| Program.CatalogAppend | src/dotnet-new2/Program.cs:200 | the catalog of a concatenation builds exactly when both parts build, and lists the first part's templates before the second's |
| Program.Menu | src/dotnet-new2/Program.cs:212-219 | the menu line of template `i` carries the number `i + 1`, every line padded to the widest name |
| Program.Choose | src/dotnet-new2/Program.cs:200-229 | no templates gives null; otherwise a number `n` that `ReadInt` accepts with the template count as maximum picks template `n - 1`, and only 0 falls outside the list and throws |
| Program.WriteMenu | src/dotnet-new2/Program.cs:212-219 | the menu loop writes exactly the lines the menu specification gives |
| Program.SelectFromMenu | src/dotnet-new2/Program.cs:202-229 | the menu and the choice that the loop and `ReadInt` produce are those the specification functions give |
| Program.PromptForTemplate | src/dotnet-new2/Program.cs:198-230 | the method's menu loop and selection give the menu and the choice the specification functions define, or the catalog's exception |
| Program.EnterSelectsFirst | src/dotnet-new2/Program.cs:222-229 | Enter alone selects the first template |
| Program.ZeroSelectionThrows | src/dotnet-new2/Program.cs:225-229 | typing 0 then Enter makes indexing the list throw |
| Program.TypedNumberSelects | src/dotnet-new2/Program.cs:214-229 | typing the number shown for a template, then Enter, selects that template |
| Program.MainExitCode | src/dotnet-new2/Program.cs:27-35 | `Main` returns the handler's code, 1 for any exception, and nothing while the handler blocks |
| Program.ListCommand | src/dotnet-new2/Program.cs:59-86 | `list` returns 0 exactly when enumeration succeeds and throws otherwise; it writes the no-templates message when no package is installed and otherwise the listing of every package |
| Program.ListWritesBeforeThrow | src/dotnet-new2/Program.cs:61-83 | when package `k` is the first to throw, `list` throws after writing the listing of the template packages before `k` |
| Program.RunDefault | src/dotnet-new2/Program.cs:161-193 | the name defaults to the current directory; with `-t`, an unknown path gives 1; without it, no templates gives 1; a failed creation gives 1 and success gives 0 |
| Program.RunInstall | src/dotnet-new2/Program.cs:98-113 | a missing id or version gives 2 and changes nothing; an id already present gives 0 with no change and no restore; otherwise one restore runs, the pair is added when it succeeds (0) and the dependencies are kept when it fails (1) |
| Program.RunUninstall | src/dotnet-new2/Program.cs:124-138 | a missing id gives 2 and changes nothing; an absent id gives 0 with no change and no restore; otherwise one restore runs, the id is removed when it succeeds (0) and the dependencies are kept when it fails (1) |
| Program.RunRestore | src/dotnet-new2/Program.cs:145-155 | one restore runs: 0 when it succeeds and 1 when it fails; the dependencies are unchanged |

## Findings

| source | as written | input that shows it | evidently intended | confidence | as-written member | corrected member |
|---|---|---|---|---|---|---|
| src/dotnet-new2/TemplatePackage.cs:51 | the guard tests `entry != null`, so every entry takes the category branch, and a Template leaf dereferences the null `category` | a package whose entries are the single template `t`: `Find(x => true)` throws instead of returning `t` (`Templates.FindAsWrittenThrowsOnTemplate`) | test `category != null`, so that a template is checked against the predicate and the first match in pre-order is returned | not executed | Templates.FindInEntriesAsWritten | Templates.FindInEntries |

The corrected search is proved to be the first match of the flattened list
(`Templates.FindInEntriesIsFirstMatch`). `TemplatePackage.Find` models the code as
written, because `Find` is what the package exposes.

## Left out

- Null entries in `Entries` or in a category's `Children`, and entries that are neither a category nor a template, are not modelled: every entry is a `Category` or a `Template`.
- JSON parsing and writing (Newtonsoft) is not modelled.
  - A manifest is a list of properties, each with its key and optional title.
  - A title that is present but not a string would be converted by `ToString`; it is not modelled.
  - The project file's `dependencies` object is an ordered list of id-version pairs.
- `RestoreTemplatePackages` starts `dotnet restore` as a process. Its outcome is an oracle over the dependencies written; `restoreRuns` counts the runs.
- The project and lock-file plumbing is not modelled: `GetTemplatesProject`, `ReloadTemplatesProject`, `EnsureProjectFile`, `GetDefaultTemplatesProjectFile`, and the restore that `GetInstalledTemplates` runs when there is no lock file. The exporter's packages are an input.
- `CommandLineApplication` parsing, the help option and the help text are a foreign library; each handler takes its parsed arguments as parameters.
- The debugger wait loop in `Main` is thread plumbing.
- Console output is not modelled, except the `list` output and the menu lines. Left out are the menu headings, the prompt, the echo and backspaces in `ReadInt`, and the `FAIL:` message.
- `Directory.CreateDirectory` and directory existence are not modelled: the file system is a flat map from path to contents.
- A source that is missing is reported as an error. A destination under a missing directory is not.
- Program.RunDefault: the two-argument `CreateProject(name, template)` call does not match the three-argument `ProjectCreator.CreateProject(name, path, template)`. The call is therefore an oracle; it is not connected to `ProjectCreator.CreateProject`.
- `GetInstalledTemplates` is lazy, and `list` enumerates it twice (`Any`, then `foreach`). The model follows the lazy yield, but assumes both enumerations see the same exported packages; a change to the packages between them is not modelled.
- `GetTemplate` does follow the lazy order: packages after a match are never built.
- `String.StartsWith(string)` is culture-sensitive in .NET. The model uses ordinal comparison, which agrees on the ASCII file names the packages use.
- `Path.Combine` is modelled for `\` on Windows and `/` elsewhere. Invalid path characters, which make it throw, are not modelled.
- ConsoleUtils.ReadInt: the keys are a finite sequence. A console that would block waiting for more keys is the result `OutOfKeys`.
- `char.IsDigit` admits Unicode digits that `int.TryParse` rejects. The model keeps this distinction.
- Program.TypedNumberSelects: requires at most `int.MaxValue` templates, as for any .NET list.
