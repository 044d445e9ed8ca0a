/**
 * The command-line commands around the templates: `config`, which reads,
 * sets and removes entries of the nested user configuration by dotted key;
 * `generate`, which fills in missing IDs from the file's metadata; and the
 * rule naming the file the nfo is written to.
 */
module Cli {
  import opened Wrappers
  import opened Text
  import opened Paths
  import opened Template

  // ---------------------------------------------------------------------
  // The configuration tree

  /** A configuration value: a scalar (shown as text), None, or a nested table. */
  datatype Value = Scalar(text: string) | Null | Table(entries: map<string, Value>)

  type Tree = map<string, Value>

  /** The table reached by following `path` through nested tables, if every step is a table. */
  function TableAt(m: Tree, path: seq<string>): Option<Tree>
    decreases |path|
  {
    if path == [] then Some(m)
    else if path[0] in m && m[path[0]].Table? then TableAt(m[path[0]].entries, path[1..])
    else None
  }

  /** Every key on the path is absent, None or a table: the walk never stops at a scalar. */
  predicate Walkable(m: Tree, path: seq<string>)
    decreases |path|
  {
    path == [] || path[0] !in m || m[path[0]].Null? ||
      (m[path[0]].Table? && Walkable(m[path[0]].entries, path[1..]))
  }

  /** The tree with every missing or None key on the path replaced by an empty table. */
  function Prepare(m: Tree, path: seq<string>): (r: Tree)
    requires Walkable(m, path)
    ensures TableAt(r, path).Some?
    decreases |path|
  {
    if path == [] then m
    else
      var sub := if path[0] in m && m[path[0]].Table? then m[path[0]].entries else map[];
      m[path[0] := Table(Prepare(sub, path[1..]))]
  }

  /** The tree with `key` set to `v` in the table at `path`. */
  function Put(m: Tree, path: seq<string>, key: string, v: Value): Tree
    requires TableAt(m, path).Some?
    decreases |path|
  {
    if path == [] then m[key := v]
    else m[path[0] := Table(Put(m[path[0]].entries, path[1..], key, v))]
  }

  /** The tree with `key` removed from the table at `path`. */
  function Remove(m: Tree, path: seq<string>, key: string): Tree
    requires TableAt(m, path).Some?
    decreases |path|
  {
    if path == [] then m - {key}
    else m[path[0] := Table(Remove(m[path[0]].entries, path[1..], key))]
  }

  /** One step of the walk: the table at `path` gets an empty table under `t` unless it holds one. */
  function PrepareStep(m: Tree, path: seq<string>, t: string): Tree
    requires TableAt(m, path).Some?
  {
    var table := TableAt(m, path).value;
    if t !in table || table[t].Null? then Put(m, path, t, Table(map[])) else m
  }

  // ---------------------------------------------------------------------
  // Properties of the tree operations

  /** Setting a key changes the table at the path in that key alone. */
  lemma {:induction false} PutTableAt(m: Tree, path: seq<string>, key: string, v: Value)
    requires TableAt(m, path).Some?
    ensures TableAt(Put(m, path, key, v), path) == Some(TableAt(m, path).value[key := v])
    decreases |path|
  {
    if path != [] {
      PutTableAt(m[path[0]].entries, path[1..], key, v);
    }
  }

  /** Removing a key changes the table at the path in that key alone. */
  lemma {:induction false} RemoveTableAt(m: Tree, path: seq<string>, key: string)
    requires TableAt(m, path).Some?
    ensures TableAt(Remove(m, path, key), path) == Some(TableAt(m, path).value - {key})
    decreases |path|
  {
    if path != [] {
      RemoveTableAt(m[path[0]].entries, path[1..], key);
    }
  }

  /** Removing a key that is not in the table leaves the tree as it is. */
  lemma {:induction false} RemoveAbsent(m: Tree, path: seq<string>, key: string)
    requires TableAt(m, path).Some? && key !in TableAt(m, path).value
    ensures Remove(m, path, key) == m
    decreases |path|
  {
    if path == [] {
      assert m - {key} == m;
    } else {
      RemoveAbsent(m[path[0]].entries, path[1..], key);
      assert m[path[0] := m[path[0]]] == m;
    }
  }

  /** Where the tables already exist the walk creates nothing. */
  lemma {:induction false} PrepareExisting(m: Tree, path: seq<string>)
    requires TableAt(m, path).Some?
    ensures Walkable(m, path) && Prepare(m, path) == m
    decreases |path|
  {
    if path != [] {
      PrepareExisting(m[path[0]].entries, path[1..]);
      assert m[path[0] := Table(m[path[0]].entries)] == m;
    }
  }

  /** The walk over a single key: an empty table appears there unless a table already does. */
  lemma PrepareOne(m: Tree, t: string)
    requires Walkable(m, [t])
    ensures Prepare(m, [t]) == PrepareStep(m, [], t)
  {
    assert [t][1..] == [];
    if t in m && m[t].Table? {
      assert m[t := Table(m[t].entries)] == m;
    }
  }

  /** The walk over a longer path is the walk over its prefix and one step more. */
  lemma {:induction false} PrepareSnoc(m: Tree, path: seq<string>, t: string)
    requires Walkable(m, path + [t])
    ensures Walkable(m, path)
    ensures Prepare(m, path + [t]) == PrepareStep(Prepare(m, path), path, t)
    decreases |path|
  {
    if path == [] {
      PrepareOne(m, t);
    } else {
      var sub := if path[0] in m && m[path[0]].Table? then m[path[0]].entries else map[];
      assert (path + [t])[1..] == path[1..] + [t];
      if !(path[0] !in m || m[path[0]].Null?) {
        assert Walkable(sub, path[1..] + [t]);
      }
      var q := path[1..];
      PrepareSnoc(sub, q, t);
      var inner := Prepare(sub, q);
      var d := m[path[0] := Table(inner)];
      assert Prepare(m, path) == d;
      assert Prepare(m, path + [t]) == m[path[0] := Table(PrepareStep(inner, q, t))];
      assert TableAt(d, path) == TableAt(inner, q);
      var table := TableAt(inner, q).value;
      if t !in table || table[t].Null? {
        assert Put(d, path, t, Table(map[])) == m[path[0] := Table(Put(inner, q, t, Table(map[])))];
      }
    }
  }

  // ---------------------------------------------------------------------
  // `config [KEY] [VALUE] [--unset]`

  /** The dotted key split into its tables and its leaf. */
  function KeyPath(key: string): (tree: seq<string>)
    ensures |tree| >= 1
    ensures forall i :: 0 <= i < |tree| ==> '.' !in tree[i]
  {
    Split(key, '.')
  }

  function Tables(key: string): seq<string> {
    KeyPath(key)[..|KeyPath(key)| - 1]
  }

  function Leaf(key: string): string {
    KeyPath(key)[|KeyPath(key)| - 1]
  }

  datatype ConfigError = KeyMissing(key: string)

  /** What `config` reports: the whole configuration, a removal, a value read, or a value stored. */
  datatype Report = ShowAll(config: Tree) | Unset(key: string) | Got(key: string, value: Value) | Stored(key: string, text: string)

  /** Reading `key` after the walk: its value, or an error when the leaf is missing. */
  function GetResult(m: Tree, key: string): (r: Result<Report, ConfigError>)
    requires Walkable(m, Tables(key))
    ensures r.Err? <==> Leaf(key) !in TableAt(Prepare(m, Tables(key)), Tables(key)).value
  {
    var table := TableAt(Prepare(m, Tables(key)), Tables(key)).value;
    if Leaf(key) in table then Ok(Got(key, table[Leaf(key)])) else Err(KeyMissing(key))
  }

  /** The tree after `config key value`. */
  function SetResult(m: Tree, key: string, text: string): Tree
    requires Walkable(m, Tables(key))
  {
    Put(Prepare(m, Tables(key)), Tables(key), Leaf(key), Scalar(text))
  }

  /** The tree after `config key --unset`. */
  function UnsetResult(m: Tree, key: string): Tree
    requires Walkable(m, Tables(key))
  {
    Remove(Prepare(m, Tables(key)), Tables(key), Leaf(key))
  }

  /** A value that was set is read back, from the tree that was stored. */
  lemma SetThenGet(m: Tree, key: string, text: string)
    requires Walkable(m, Tables(key))
    ensures Walkable(SetResult(m, key, text), Tables(key))
    ensures Prepare(SetResult(m, key, text), Tables(key)) == SetResult(m, key, text)
    ensures GetResult(SetResult(m, key, text), key) == Ok(Got(key, Scalar(text)))
    ensures TableAt(SetResult(m, key, text), Tables(key))
      == Some(TableAt(Prepare(m, Tables(key)), Tables(key)).value[Leaf(key) := Scalar(text)])
  {
    var p := Prepare(m, Tables(key));
    PutTableAt(p, Tables(key), Leaf(key), Scalar(text));
    PrepareExisting(SetResult(m, key, text), Tables(key));
  }

  /**
   * Unsetting removes the leaf and nothing else from its table, changes
   * nothing when the leaf is absent, and a read afterwards reports it missing.
   */
  lemma UnsetRemovesLeaf(m: Tree, key: string)
    requires Walkable(m, Tables(key))
    ensures var p := Prepare(m, Tables(key));
      TableAt(UnsetResult(m, key), Tables(key)) == Some(TableAt(p, Tables(key)).value - {Leaf(key)}) &&
      (Leaf(key) !in TableAt(p, Tables(key)).value ==> UnsetResult(m, key) == p)
    ensures Walkable(UnsetResult(m, key), Tables(key))
    ensures GetResult(UnsetResult(m, key), key) == Err(KeyMissing(key))
  {
    var p := Prepare(m, Tables(key));
    RemoveTableAt(p, Tables(key), Leaf(key));
    if Leaf(key) !in TableAt(p, Tables(key)).value {
      RemoveAbsent(p, Tables(key), Leaf(key));
    }
    PrepareExisting(UnsetResult(m, key), Tables(key));
  }

  /** The walk reads first and creates only what is missing: a get of an existing path changes nothing. */
  lemma GetOfExistingPathChangesNothing(m: Tree, key: string)
    requires TableAt(m, Tables(key)).Some?
    ensures Walkable(m, Tables(key)) && Prepare(m, Tables(key)) == m
    ensures GetResult(m, key).Ok? <==> Leaf(key) in TableAt(m, Tables(key)).value
  {
    PrepareExisting(m, Tables(key));
  }

  /** Whether `config` does anything but show the configuration: a key or a value was given. */
  predicate Acts(key: Option<string>, value: Option<string>) {
    Truthy(key) || Truthy(value)
  }

  /** The user configuration as loaded, and the state of the configuration file. */
  class Config {
    var data: Tree
    var saved: Tree

    constructor(loaded: Tree)
      ensures data == loaded && saved == loaded
    {
      data := loaded;
      saved := loaded;
    }

    /**
     * The walk down the tables of a key path: every missing or None table on
     * the way is created empty, in place.
     */
    method Walk(tables: seq<string>)
      requires Walkable(data, tables)
      modifies this
      ensures data == Prepare(old(data), tables) && saved == old(saved)
    {
      ghost var start := data;
      var i := 0;
      while i < |tables|
        invariant 0 <= i <= |tables|
        invariant start == old(data) && Walkable(start, tables[..i])
        invariant data == Prepare(start, tables[..i]) && saved == old(saved)
      {
        var t := tables[i];
        WalkablePrefix(start, tables, i + 1);
        assert tables[..i + 1] == tables[..i] + [t];
        PrepareSnoc(start, tables[..i], t);
        var table := TableAt(data, tables[..i]).value;
        if t !in table || table[t].Null? {
          data := Put(data, tables[..i], t, Table(map[]));
        }
        i := i + 1;
      }
      assert tables[..i] == tables;
    }

    /**
     * `config [KEY] [VALUE] [--unset]`. Without key and value the whole
     * configuration is shown. Otherwise the dotted key is walked, creating
     * missing or None tables on the way whatever the command; then the leaf is
     * removed (unset), read (no value) or set (a value), and only a set writes
     * the configuration back.
     */
    method Command(key: Option<string>, value: Option<string>, unset: bool) returns (r: Result<Report, ConfigError>)
      requires Acts(key, value) ==> key.Some? && Walkable(data, Tables(key.value))
      modifies this
      ensures !Acts(key, value) ==> r == Ok(ShowAll(old(data))) && data == old(data) && saved == old(saved)
      ensures Acts(key, value) && unset ==>
        r == Ok(Unset(key.value)) && data == UnsetResult(old(data), key.value) && saved == old(saved)
      ensures Acts(key, value) && !unset && value.None? ==>
        r == GetResult(old(data), key.value) && data == Prepare(old(data), Tables(key.value)) && saved == old(saved)
      ensures Acts(key, value) && !unset && value.Some? ==>
        r == Ok(Stored(key.value, value.value)) && data == SetResult(old(data), key.value, value.value) && saved == data
    {
      if !Acts(key, value) {
        return Ok(ShowAll(data));
      }
      var k := key.value;
      var tree := KeyPath(k);
      Walk(tree[..|tree| - 1]);
      var leaf := tree[|tree| - 1];
      var table := TableAt(data, Tables(k)).value;
      if unset {
        if leaf in table {
          data := Remove(data, Tables(k), leaf);
        } else {
          RemoveAbsent(data, Tables(k), leaf);
        }
        r := Ok(Unset(k));
      } else if value.None? {
        if leaf !in table {
          return Err(KeyMissing(k));
        }
        r := Ok(Got(k, table[leaf]));
      } else {
        data := Put(data, Tables(k), leaf, Scalar(value.value));
        saved := data;
        r := Ok(Stored(k, value.value));
      }
    }
  }

  /** A path that is walkable is walkable along each of its prefixes. */
  lemma {:induction false} WalkablePrefix(m: Tree, path: seq<string>, k: nat)
    requires Walkable(m, path) && k <= |path|
    ensures Walkable(m, path[..k])
    decreases |path|
  {
    if k > 0 && path[0] in m && m[path[0]].Table? {
      WalkablePrefix(m[path[0]].entries, path[1..], k - 1);
      assert path[..k][1..] == path[1..][..k - 1];
    }
  }

  // ---------------------------------------------------------------------
  // `generate FILE IMDB [-tmdb ...] [-tvdb ...]`

  /** The ID fields of the file's general track, as its metadata reports them. */
  datatype Metadata = Metadata(imdb: Option<string>, tmdb: Option<string>, tvdb: Option<string>)

  datatype GenerateError = PathMissing | NotAFile | NoImdbInMetadata

  /** The parameters `generate` hands on to the chosen template. */
  class Params {
    var imdb: string
    var tmdb: Option<string>
    var tvdb: Option<TvdbId>

    constructor(imdb: string, tmdb: Option<string>, tvdb: Option<TvdbId>)
      ensures this.imdb == imdb && this.tmdb == tmdb && this.tvdb == tvdb
    {
      this.imdb := imdb;
      this.tmdb := tmdb;
      this.tvdb := tvdb;
    }

    /**
     * Checks the file, then fills IDs in from the metadata: an IMDb ID of "-"
     * is taken from it (an error when it has none), and a TMDB or TVDB ID that
     * is missing or empty is replaced by the metadata's, which may be None.
     */
    method Generate(present: bool, isFile: bool, meta: Metadata) returns (r: Result<(), GenerateError>)
      modifies this
      ensures !present ==> r == Err(PathMissing) && unchanged(this)
      ensures present && !isFile ==> r == Err(NotAFile) && unchanged(this)
      ensures present && isFile && old(imdb) == "-" && !Truthy(meta.imdb) ==>
        r == Err(NoImdbInMetadata) && unchanged(this)
      ensures r.Ok? <==> present && isFile && (old(imdb) == "-" ==> Truthy(meta.imdb))
      ensures r.Ok? ==> (imdb, tmdb, tvdb) == ResolvedIds(old(imdb), old(tmdb), old(tvdb), meta)
    {
      if !present {
        return Err(PathMissing);
      }
      if !isFile {
        return Err(NotAFile);
      }
      if imdb == "-" {
        if !Truthy(meta.imdb) {
          return Err(NoImdbInMetadata);
        }
        imdb := meta.imdb.value;
      }
      if !Truthy(tmdb) {
        tmdb := meta.tmdb;
      }
      if !TvdbTruthy(tvdb) {
        tvdb := if meta.tvdb.Some? then Some(Textual(meta.tvdb.value)) else None;
      }
      r := Ok(());
    }
  }

  /** The IDs a successful `generate` ends with. */
  function ResolvedIds(imdb: string, tmdb: Option<string>, tvdb: Option<TvdbId>, meta: Metadata): (string, Option<string>, Option<TvdbId>)
    requires imdb == "-" ==> Truthy(meta.imdb)
  {
    (if imdb == "-" then meta.imdb.value else imdb,
     if Truthy(tmdb) then tmdb else meta.tmdb,
     if TvdbTruthy(tvdb) then tvdb else if meta.tvdb.Some? then Some(Textual(meta.tvdb.value)) else None)
  }

  /**
   * IDs given on the command line win; the metadata only fills gaps, and a
   * gap it cannot fill stays one (or, for IMDb, was an error already).
   */
  lemma GivenIdsKept(imdb: string, tmdb: Option<string>, tvdb: Option<TvdbId>, meta: Metadata)
    requires imdb == "-" ==> Truthy(meta.imdb)
    ensures var (i, t, v) := ResolvedIds(imdb, tmdb, tvdb, meta);
      (imdb != "-" ==> i == imdb) && (imdb == "-" ==> i != "" && Some(i) == meta.imdb) &&
      (Truthy(tmdb) ==> t == tmdb) && (!Truthy(tmdb) ==> t == meta.tmdb) &&
      (TvdbTruthy(tvdb) ==> v == tvdb) && (!TvdbTruthy(tvdb) && meta.tvdb.None? ==> v.None?) &&
      (TvdbTruthy(v) <==> TvdbTruthy(tvdb) || Truthy(meta.tvdb))
  {
  }

  // ---------------------------------------------------------------------
  // Where the nfo is written

  /** `file.parent / f"{release_name}{file_ext}"` */
  function OutputPath(file: FilePath, releaseName: string, fileExt: string): (r: FilePath)
    requires WellFormed(file)
  {
    Append(Parent(file), releaseName + fileExt)
  }

  /** For a release name and extension without "/", the nfo is written beside the input file. */
  lemma OutputBesideInput(file: FilePath, releaseName: string, fileExt: string)
    requires WellFormed(file) && PlainSegment(releaseName + fileExt)
    ensures Parent(OutputPath(file, releaseName, fileExt)) == Parent(file)
    ensures Name(OutputPath(file, releaseName, fileExt)) == releaseName + fileExt
  {
    assert WellFormed(Parent(file)) by {
      forall i | 0 <= i < |Parent(file).parts|
        ensures PlainSegment(Parent(file).parts[i])
      {
        assert Parent(file).parts[i] == file.parts[i];
      }
    }
    AppendPlain(Parent(file), releaseName + fileExt);
  }
}
