/**
 * The template tree of one package (`TemplatePackage`, `Template`, `ManifestEntry`):
 * pre-order flattening into the list of templates, and the depth-first `Find`.
 */
module Templates {
  import opened Common

  /** One file of a template: where it is read from and where it goes in the new project. */
  datatype TemplateFile = TemplateFile(sourcePath: string, destPath: string)

  /**
   * A node of a package's template tree: a category holding an ordered list of
   * children, or a template leaf with its files and the id of the package that owns it.
   */
  datatype ManifestEntry =
    | Category(path: string, name: string, children: seq<ManifestEntry>)
    | Template(path: string, name: string, files: seq<TemplateFile>, packageId: string)

  /** The Template leaves of `entries`, in pre-order, left to right. */
  function Flatten(entries: seq<ManifestEntry>): (r: seq<ManifestEntry>)
    ensures forall i :: 0 <= i < |r| ==> r[i].Template?
    decreases entries
  {
    if entries == [] then []
    else
      var e := entries[0];
      (if e.Category? then Flatten(e.children) else [e]) + Flatten(entries[1..])
  }

  /** `x` is one of `entries` or lies somewhere below one of its categories. */
  predicate Reachable(x: ManifestEntry, entries: seq<ManifestEntry>)
    decreases entries
  {
    exists i :: 0 <= i < |entries| &&
      (entries[i] == x || (entries[i].Category? && Reachable(x, entries[i].children)))
  }

  /** Flattening distributes over concatenation of entry lists. */
  lemma {:induction false} FlattenAppend(xs: seq<ManifestEntry>, ys: seq<ManifestEntry>)
    ensures Flatten(xs + ys) == Flatten(xs) + Flatten(ys)
    decreases xs
  {
    if xs == [] {
      assert xs + ys == ys;
    } else {
      assert (xs + ys)[1..] == xs[1..] + ys;
      FlattenAppend(xs[1..], ys);
    }
  }

  /**
   * The flattened list holds exactly the reachable Template leaves: no category,
   * and every category's children are descended into.
   */
  lemma {:induction false} FlattenMembers(x: ManifestEntry, entries: seq<ManifestEntry>)
    ensures x in Flatten(entries) <==> x.Template? && Reachable(x, entries)
    decreases entries
  {
    if entries != [] {
      var e := entries[0];
      FlattenMembers(x, entries[1..]);
      if e.Category? {
        FlattenMembers(x, e.children);
      }
      if Reachable(x, entries[1..]) {
        var i :| 0 <= i < |entries[1..]| &&
          (entries[1..][i] == x || (entries[1..][i].Category? && Reachable(x, entries[1..][i].children)));
        assert entries[i + 1] == entries[1..][i];
      }
      if Reachable(x, entries) {
        var i :| 0 <= i < |entries| &&
          (entries[i] == x || (entries[i].Category? && Reachable(x, entries[i].children)));
        if i > 0 {
          assert entries[1..][i - 1] == entries[i];
        }
      }
    }
  }

  /** The outcome of `Find` as the source computes it. */
  datatype FindOutcome =
    | NotFound                          // `null`
    | Found(template: ManifestEntry)
    | NullReference                     // a `NullReferenceException` is thrown

  /**
   * `FindInEntries` as written: the guard tests `entry` instead of `category`, so
   * every entry takes the category branch; for a Template leaf `category` is null
   * and reading its `Children` throws. The predicate is never consulted.
   */
  function FindInEntriesAsWritten(entries: seq<ManifestEntry>, pred: ManifestEntry -> bool): (r: FindOutcome)
    ensures !r.Found?
    decreases entries
  {
    if entries == [] then NotFound
    else
      var entry := entries[0];
      if entry.Template? then NullReference
      else
        var m := FindInEntriesAsWritten(entry.children, pred);
        if m != NotFound then m else FindInEntriesAsWritten(entries[1..], pred)
  }

  /**
   * As written, `Find` never returns a template: it returns null exactly when no
   * Template is reachable, and throws otherwise.
   */
  lemma {:induction false} FindAsWrittenOutcome(entries: seq<ManifestEntry>, pred: ManifestEntry -> bool)
    ensures FindInEntriesAsWritten(entries, pred) == if Flatten(entries) == [] then NotFound else NullReference
    decreases entries
  {
    if entries != [] {
      var e := entries[0];
      FindAsWrittenOutcome(entries[1..], pred);
      if e.Category? {
        FindAsWrittenOutcome(e.children, pred);
      }
    }
  }

  /** A single template whose predicate holds is enough to make the as-written search throw. */
  lemma FindAsWrittenThrowsOnTemplate(t: ManifestEntry)
    requires t.Template?
    ensures FindInEntriesAsWritten([t], x => true) == NullReference
    ensures FindInEntries([t], x => true) == Some(t)
  {
  }

  /**
   * `FindInEntries` with the guard on `category`: a depth-first search that
   * returns the first Template, in pre-order, that satisfies `pred`.
   */
  function FindInEntries(entries: seq<ManifestEntry>, pred: ManifestEntry -> bool): (r: Option<ManifestEntry>)
    ensures r.Some? ==> r.value.Template? && pred(r.value)
    decreases entries
  {
    if entries == [] then None
    else
      var entry := entries[0];
      if entry.Category? then
        var m := FindInEntries(entry.children, pred);
        if m.Some? then m else FindInEntries(entries[1..], pred)
      else if pred(entry) then Some(entry)
      else FindInEntries(entries[1..], pred)
  }

  /** The corrected search agrees with the first match in the flattened list. */
  lemma {:induction false} FindInEntriesIsFirstMatch(entries: seq<ManifestEntry>, pred: ManifestEntry -> bool)
    ensures FindInEntries(entries, pred) == FirstWhere(Flatten(entries), pred)
    decreases entries
  {
    if entries != [] {
      var e := entries[0];
      var head := if e.Category? then Flatten(e.children) else [e];
      FindInEntriesIsFirstMatch(entries[1..], pred);
      if e.Category? {
        FindInEntriesIsFirstMatch(e.children, pred);
      }
      FirstWhereAppend(head, Flatten(entries[1..]), pred);
    }
  }

  /** The list that `GetTemplatesList` allocates and `PopulateTemplates` appends to. */
  class TemplateList {
    var items: seq<ManifestEntry>

    constructor ()
      ensures items == []
    {
      items := [];
    }
  }

  /** An installed template package: its identity and its root entries. */
  class TemplatePackage {
    var id: string
    var version: string
    var entries: seq<ManifestEntry>

    /** A new package has no entries. */
    constructor (id: string, version: string)
      ensures this.id == id && this.version == version && entries == []
    {
      this.id := id;
      this.version := version;
      entries := [];
    }

    /** A fresh list of the package's templates; the package itself is not changed. */
    method GetTemplatesList() returns (templates: TemplateList)
      ensures fresh(templates)
      ensures templates.items == Flatten(entries)
    {
      templates := new TemplateList();
      PopulateTemplates(templates, entries);
    }

    /** Appends the Template leaves of `entries`, in pre-order, to `templates`. */
    method PopulateTemplates(templates: TemplateList, entries: seq<ManifestEntry>)
      modifies templates
      ensures templates.items == old(templates.items) + Flatten(entries)
      decreases entries
    {
      for i := 0 to |entries|
        invariant templates.items == old(templates.items) + Flatten(entries[..i])
      {
        var entry := entries[i];
        assert entries[..i + 1] == entries[..i] + [entry];
        FlattenAppend(entries[..i], [entry]);
        if entry.Category? {
          PopulateTemplates(templates, entry.children);
        } else {
          templates.items := templates.items + [entry];
        }
      }
      assert entries[..|entries|] == entries;
    }

    /** `Find` as written: null when no template is reachable, a thrown exception otherwise. */
    function Find(pred: ManifestEntry -> bool): (r: FindOutcome)
      reads this
      ensures !r.Found?
      ensures r == NotFound <==> Flatten(entries) == []
    {
      FindAsWrittenOutcome(entries, pred);
      FindInEntriesAsWritten(entries, pred)
    }
  }
}
