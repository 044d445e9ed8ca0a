/**
 * The template command group: the template names offered on the command
 * line are the Python files found under the templates directory, and a name
 * is resolved back to the file that defines that template.
 */
module Group {
  import opened Wrappers
  import opened Text
  import opened Paths

  datatype GroupError =
    | NoTemplates                     // nothing usable under the templates directory
    | BadPath                         // `with_suffix` refused the path built from the name
    | TemplateNotFound(name: string)  // the file for this template does not exist

  /** What `get_command` settles before it loads the file: the class to look up and the file. */
  datatype Resolved = Resolved(className: string, file: FilePath)

  /** A file found under the templates directory, relative to it: a relative path naming a file. */
  predicate Found(rel: FilePath) {
    !rel.absolute && rel.parts != [] && WellFormed(rel)
  }

  predicate AllFound(found: seq<FilePath>) {
    forall i :: 0 <= i < |found| ==> Found(found[i])
  }

  /** Package markers and the group module itself are not templates (compared lower-cased). */
  predicate Excluded(rel: FilePath) {
    Lower(Stem(Name(rel))) in {"__init__", "group"}
  }

  /** The name a template file is listed under: its relative path without suffix, "/"-separated. */
  function CommandName(rel: FilePath): string
    requires Found(rel)
  {
    ReplaceChar(PathString(WithSuffix(rel, "").value), '\\', '/')
  }

  /** What one found file contributes to the listing: nothing, or its command name. */
  function Entry(rel: FilePath): (r: seq<string>)
    requires Found(rel)
    ensures |r| <= 1
  {
    if Excluded(rel) then [] else [CommandName(rel)]
  }

  /** The entries of the files found, one per file. */
  function Entries(found: seq<FilePath>): (es: seq<seq<string>>)
    requires AllFound(found)
    ensures |es| == |found|
  {
    seq(|found|, i requires 0 <= i < |found| => Entry(found[i]))
  }

  /** The entries one after another. */
  function Flatten(es: seq<seq<string>>): seq<string> {
    if es == [] then [] else Flatten(es[..|es| - 1]) + es[|es| - 1]
  }

  lemma {:induction false} FlattenMembers(es: seq<seq<string>>, x: string)
    ensures x in Flatten(es) <==> exists i :: 0 <= i < |es| && x in es[i]
  {
    if es != [] {
      var init := es[..|es| - 1];
      FlattenMembers(init, x);
      if x in Flatten(init) {
        var i :| 0 <= i < |init| && x in init[i];
        assert es[i] == init[i];
      }
      if exists i :: 0 <= i < |es| && x in es[i] {
        var i :| 0 <= i < |es| && x in es[i];
        if i < |init| {
          assert init[i] == es[i];
        }
      }
    }
  }

  /** The names listed for the files found, in the order they were found. */
  function Listed(found: seq<FilePath>): seq<string>
    requires AllFound(found)
  {
    Flatten(Entries(found))
  }

  /** A name is listed exactly when some found file that is not excluded is listed under it. */
  lemma ListedMembers(found: seq<FilePath>, x: string)
    requires AllFound(found)
    ensures x in Listed(found) <==> exists i :: 0 <= i < |found| && !Excluded(found[i]) && x == CommandName(found[i])
  {
    FlattenMembers(Entries(found), x);
    forall i | 0 <= i < |found|
      ensures x in Entries(found)[i] <==> !Excluded(found[i]) && x == CommandName(found[i])
    {
      EntryIsName(found[i], x);
    }
  }

  /** The entry of a file: its command name exactly when it is not excluded. */
  lemma EntryIsName(rel: FilePath, x: string)
    requires Found(rel)
    ensures x in Entry(rel) <==> !Excluded(rel) && x == CommandName(rel)
  {
  }

  /** One more file found adds its entry at the end of the listing. */
  lemma ListedStep(found: seq<FilePath>, i: nat)
    requires AllFound(found) && i < |found|
    ensures Listed(found[..i + 1]) == Listed(found[..i]) + Entry(found[i])
  {
    var es := Entries(found[..i + 1]);
    assert found[..i + 1][..i] == found[..i];
    assert es[..i] == Entries(found[..i]);
  }

  // ---------------------------------------------------------------------
  // Sorting (`list.sort()` orders strings by code point)

  predicate Sorted(s: seq<string>) {
    forall i, j :: 0 <= i < j < |s| ==> StrLe(s[i], s[j])
  }

  function Insert(x: string, s: seq<string>): (r: seq<string>)
    ensures |r| == |s| + 1
  {
    if s == [] then [x]
    else if StrLe(x, s[0]) then [x] + s
    else [s[0]] + Insert(x, s[1..])
  }

  function SortNames(s: seq<string>): (r: seq<string>)
    ensures |r| == |s|
  {
    if s == [] then [] else Insert(s[0], SortNames(s[1..]))
  }

  lemma {:induction false} InsertPermutes(x: string, s: seq<string>)
    ensures multiset(Insert(x, s)) == multiset(s) + multiset{x}
  {
    if s != [] && !StrLe(x, s[0]) {
      InsertPermutes(x, s[1..]);
      assert s == [s[0]] + s[1..];
    }
  }

  /** Inserting x into a sorted sequence keeps it sorted. */
  lemma {:induction false} InsertKeeps(x: string, s: seq<string>)
    requires Sorted(s)
    ensures Sorted(Insert(x, s))
  {
    if s == [] {
    } else if !StrLe(x, s[0]) {
      var rest := Insert(x, s[1..]);
      InsertKeeps(x, s[1..]);
      StrLeTotal(x, s[0]);
      InsertAbove(x, s);
      SortedCons(s[0], rest);
    } else {
      forall j | 0 <= j < |s|
        ensures StrLe(x, s[j])
      {
        if j > 0 {
          StrLeTrans(x, s[0], s[j]);
        }
      }
      SortedCons(x, s);
    }
  }

  /** Every element of the insertion into the tail is above the head it was not placed before. */
  lemma InsertAbove(x: string, s: seq<string>)
    requires Sorted(s) && s != [] && StrLe(s[0], x)
    ensures forall k :: 0 <= k < |Insert(x, s[1..])| ==> StrLe(s[0], Insert(x, s[1..])[k])
  {
    var rest := Insert(x, s[1..]);
    InsertPermutes(x, s[1..]);
    forall k | 0 <= k < |rest|
      ensures StrLe(s[0], rest[k])
    {
      assert rest[k] in multiset(rest);
      if rest[k] != x {
        assert rest[k] in multiset(s[1..]);
        var j :| 0 <= j < |s[1..]| && s[1..][j] == rest[k];
        assert s[j + 1] == rest[k];
      }
    }
  }

  /** A sorted sequence stays sorted with a smallest element in front. */
  lemma SortedCons(x: string, s: seq<string>)
    requires Sorted(s)
    requires forall k :: 0 <= k < |s| ==> StrLe(x, s[k])
    ensures Sorted([x] + s)
  {
    var r := [x] + s;
    forall i, j | 0 <= i < j < |r|
      ensures StrLe(r[i], r[j])
    {
      assert r[j] == s[j - 1];
      if i > 0 {
        assert r[i] == s[i - 1];
      }
    }
  }

  /** Sorting orders the names and loses or adds none. */
  lemma {:induction false} SortNamesSorts(s: seq<string>)
    ensures Sorted(SortNames(s))
    ensures multiset(SortNames(s)) == multiset(s)
  {
    if s != [] {
      SortNamesSorts(s[1..]);
      InsertKeeps(s[0], SortNames(s[1..]));
      InsertPermutes(s[0], SortNames(s[1..]));
      assert s == [s[0]] + s[1..];
    }
  }

  // ---------------------------------------------------------------------
  // `list_commands`

  /**
   * The template names: every found file that is not excluded, by its
   * command name, sorted; no templates directory or nothing listed is an
   * error.
   */
  method ListCommands(isDir: bool, found: seq<FilePath>) returns (r: Result<seq<string>, GroupError>)
    requires AllFound(found)
    ensures r.Err? <==> !isDir || Listed(found) == []
    ensures r.Err? ==> r.error == NoTemplates
    ensures r.Ok? ==> r.value == SortNames(Listed(found))
    ensures r.Ok? ==> Sorted(r.value) && multiset(r.value) == multiset(Listed(found))
  {
    var rv: seq<string> := [];
    if isDir {
      var i := 0;
      while i < |found|
        invariant 0 <= i <= |found|
        invariant rv == Listed(found[..i])
      {
        var cmd := found[i];
        ListedStep(found, i);
        if !Excluded(cmd) {
          rv := rv + [CommandName(cmd)];
        }
        i := i + 1;
      }
      assert found[..|found|] == found;
    }
    if rv == [] {
      return Err(NoTemplates);
    }
    SortNamesSorts(rv);
    rv := SortNames(rv);
    r := Ok(rv);
  }

  // ---------------------------------------------------------------------
  // `get_command`

  /** The names of the template's path: `name.split("/")`. */
  function NameSegments(name: string): (segs: seq<string>)
    ensures |segs| >= 1
  {
    Split(name, '/')
  }

  /**
   * `get_command` up to loading the file: the last segment names the class,
   * the segments joined onto the templates directory with the suffix set to
   * ".py" name the file, and a file that does not exist is an error naming
   * the class.
   */
  function GetCommand(templatesDir: FilePath, name: string, existing: set<FilePath>): (r: Result<Resolved, GroupError>)
    requires WellFormed(templatesDir)
    ensures var p := AppendAll(templatesDir, NameSegments(name));
      r == Err(BadPath) <==> p.parts == []
    ensures var p := AppendAll(templatesDir, NameSegments(name));
      r.Ok? <==> p.parts != [] && WithSuffix(p, ".py").value in existing
    ensures var p := AppendAll(templatesDir, NameSegments(name));
      r.Ok? ==> Parent(r.value.file) == Parent(p) && Name(r.value.file) == Stem(Name(p)) + ".py"
    ensures var p := AppendAll(templatesDir, NameSegments(name));
      p.parts != [] && r.Err? ==> r.error == TemplateNotFound(NameSegments(name)[|NameSegments(name)| - 1])
    ensures r.Ok? ==> r.value.file in existing && Suffix(Name(r.value.file)) == ".py"
    ensures r.Ok? ==> r.value.className == NameSegments(name)[|NameSegments(name)| - 1]
    ensures r.Ok? ==> '/' !in r.value.className
    ensures r.Err? && r.error.TemplateNotFound? ==> r.error.name == NameSegments(name)[|NameSegments(name)| - 1]
  {
    var segs := NameSegments(name);
    var className := segs[|segs| - 1];
    var fn := WithSuffix(AppendAll(templatesDir, segs), ".py");
    if fn.Err? then Err(BadPath)
    else if fn.value !in existing then Err(TemplateNotFound(className))
    else
      WithSuffixRoundTrip(AppendAll(templatesDir, segs), ".py");
      Ok(Resolved(className, fn.value))
  }

  /** A file whose path holds no backslash is listed under its path with the stem for its name. */
  lemma CommandNameShape(rel: FilePath)
    requires Found(rel)
    requires forall i :: 0 <= i < |rel.parts| ==> '\\' !in rel.parts[i]
    ensures CommandName(rel) == Join(Parent(rel).parts + [Stem(Name(rel))], "/")
  {
    var last := Name(rel);
    var stem := Stem(last);
    var segs := Parent(rel).parts + [stem];
    assert stem + "" == stem;
    assert WithSuffix(rel, "").value == FilePath(false, segs);
    assert last[..|stem|] == stem by {
      assert stem + Suffix(last) == last;
    }
    assert rel.parts[|rel.parts| - 1] == last;
    forall i | 0 <= i < |segs|
      ensures '\\' !in segs[i]
    {
      if i < |segs| - 1 {
        assert segs[i] == rel.parts[i];
      }
    }
    JoinWithout(segs, "/", '\\');
    ReplaceAbsent(Join(segs, "/"), '\\', '/');
  }

  /** Splitting a listed name on "/" gives back the file's directories and its stem. */
  lemma CommandNameSegments(rel: FilePath)
    requires Found(rel)
    requires forall i :: 0 <= i < |rel.parts| ==> '\\' !in rel.parts[i]
    requires PlainSegment(Stem(Name(rel)))
    ensures var segs := NameSegments(CommandName(rel));
      segs == Parent(rel).parts + [Stem(Name(rel))] &&
      forall i :: 0 <= i < |segs| ==> PlainSegment(segs[i])
  {
    var segs := Parent(rel).parts + [Stem(Name(rel))];
    CommandNameShape(rel);
    forall i | 0 <= i < |segs|
      ensures PlainSegment(segs[i])
    {
      if i < |segs| - 1 {
        assert segs[i] == rel.parts[i];
      }
    }
    SplitJoin(segs, '/');
  }

  /** Resolving a listed name builds the path of the file it was listed for. */
  lemma ListedFile(templatesDir: FilePath, rel: FilePath)
    requires WellFormed(templatesDir) && Found(rel)
    requires forall i :: 0 <= i < |rel.parts| ==> '\\' !in rel.parts[i]
    requires Suffix(Name(rel)) == ".py"
    requires PlainSegment(Stem(Name(rel))) && !HasSuffix(Stem(Name(rel)))
    ensures var file := FilePath(templatesDir.absolute, templatesDir.parts + rel.parts);
      AppendAll(templatesDir, rel.parts) == file &&
      WithSuffix(AppendAll(templatesDir, NameSegments(CommandName(rel))), ".py") == Ok(file)
  {
    var last := Name(rel);
    var stem := Stem(last);
    var segs := Parent(rel).parts + [stem];
    CommandNameSegments(rel);
    AppendAllPlain(templatesDir, segs);
    AppendAllPlain(templatesDir, rel.parts);
    var joined := FilePath(templatesDir.absolute, templatesDir.parts + segs);
    assert Name(joined) == stem;
    assert Stem(stem) == stem;
    assert stem + ".py" == last;
    assert Parent(rel).parts + [last] == rel.parts;
    AppendAssoc(templatesDir.parts, Parent(rel).parts, [stem]);
    assert joined.parts[..|joined.parts| - 1] == templatesDir.parts + Parent(rel).parts;
    AppendAssoc(templatesDir.parts, Parent(rel).parts, [last]);
  }

  /**
   * Listing and resolving agree for a template file named `<stem>.py` whose
   * stem has no suffix of its own and whose path holds no backslash: its
   * listed name resolves to that very file, with the stem as class name.
   */
  lemma ListedTemplateResolves(templatesDir: FilePath, rel: FilePath, existing: set<FilePath>)
    requires WellFormed(templatesDir) && Found(rel)
    requires forall i :: 0 <= i < |rel.parts| ==> '\\' !in rel.parts[i]
    requires Suffix(Name(rel)) == ".py"
    requires PlainSegment(Stem(Name(rel))) && !HasSuffix(Stem(Name(rel)))
    ensures var file := AppendAll(templatesDir, rel.parts);
      file == FilePath(templatesDir.absolute, templatesDir.parts + rel.parts) &&
      GetCommand(templatesDir, CommandName(rel), existing) ==
        if file in existing then Ok(Resolved(Stem(Name(rel)), file))
        else Err(TemplateNotFound(Stem(Name(rel))))
  {
    CommandNameSegments(rel);
    ListedFile(templatesDir, rel);
  }

  /**
   * A template file whose stem has a suffix of its own is listed under a
   * name that never resolves to it: "my.movie.py" is listed as "my.movie",
   * and `with_suffix(".py")` replaces ".movie", so "my.py" is looked for.
   */
  lemma DottedStemNotResolved(templatesDir: FilePath, rel: FilePath)
    requires WellFormed(templatesDir) && Found(rel)
    requires forall i :: 0 <= i < |rel.parts| ==> '\\' !in rel.parts[i]
    requires Suffix(Name(rel)) == ".py"
    requires PlainSegment(Stem(Name(rel))) && HasSuffix(Stem(Name(rel)))
    ensures GetCommand(templatesDir, CommandName(rel), {AppendAll(templatesDir, rel.parts)})
      == Err(TemplateNotFound(Stem(Name(rel))))
  {
    var last := Name(rel);
    var stem := Stem(last);
    var segs := Parent(rel).parts + [stem];
    CommandNameSegments(rel);
    AppendAllPlain(templatesDir, segs);
    AppendAllPlain(templatesDir, rel.parts);
    var joined := FilePath(templatesDir.absolute, templatesDir.parts + segs);
    assert Name(joined) == stem;
    assert |Stem(stem)| < |stem| by {
      assert |Suffix(stem)| >= 2;
    }
    assert stem + ".py" == last;
    var fn := WithSuffix(joined, ".py").value;
    assert |Name(fn)| < |last|;
    assert Name(AppendAll(templatesDir, rel.parts)) == last;
  }

  /**
   * Resolution as the listing evidently intends it: ".py" is appended to the
   * last segment instead of replacing its suffix.
   */
  function GetCommandAppendingSuffix(templatesDir: FilePath, name: string, existing: set<FilePath>): (r: Result<Resolved, GroupError>)
    requires WellFormed(templatesDir)
    ensures r.Ok? ==> r.value.file in existing
    ensures r.Ok? ==> r.value.className == NameSegments(name)[|NameSegments(name)| - 1]
    ensures r.Err? ==> r == Err(TemplateNotFound(NameSegments(name)[|NameSegments(name)| - 1]))
  {
    var segs := NameSegments(name);
    var className := segs[|segs| - 1];
    var fn := AppendAll(templatesDir, segs[..|segs| - 1] + [className + ".py"]);
    if fn !in existing then Err(TemplateNotFound(className)) else Ok(Resolved(className, fn))
  }

  /**
   * With the suffix appended, every listed template file named `<stem>.py`
   * whose path holds no backslash resolves to that very file, dotted stems
   * included.
   */
  lemma ListedTemplateResolvesAppending(templatesDir: FilePath, rel: FilePath, existing: set<FilePath>)
    requires WellFormed(templatesDir) && Found(rel)
    requires forall i :: 0 <= i < |rel.parts| ==> '\\' !in rel.parts[i]
    requires Suffix(Name(rel)) == ".py"
    requires PlainSegment(Stem(Name(rel)))
    ensures var file := AppendAll(templatesDir, rel.parts);
      file == FilePath(templatesDir.absolute, templatesDir.parts + rel.parts) &&
      GetCommandAppendingSuffix(templatesDir, CommandName(rel), existing) ==
        if file in existing then Ok(Resolved(Stem(Name(rel)), file))
        else Err(TemplateNotFound(Stem(Name(rel))))
  {
    var last := Name(rel);
    var stem := Stem(last);
    var segs := NameSegments(CommandName(rel));
    CommandNameSegments(rel);
    assert stem + ".py" == last;
    assert segs[..|segs| - 1] + [segs[|segs| - 1] + ".py"] == rel.parts;
    AppendAllPlain(templatesDir, rel.parts);
  }
}
