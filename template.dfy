/**
 * nfog/templates/Template.py: what every template is built from.  The
 * constructor validates the three catalog IDs, normalises the menu track into
 * chapter timecodes, picks the primary language and starts an empty output
 * accumulator.  The section blocks that every shipped template repeats
 * verbatim are kept here once, as specification functions and as the methods
 * that append them to the accumulator.
 */
module Template {
  import opened Wrappers
  import opened Text
  import opened Paths
  import opened BaseTrack

  // ---------------------------------------------------------------------
  // Catalog IDs

  /** Why constructing a template raises. */
  datatype TemplateError =
    | ImdbRequired
    | ImdbInvalid(imdb: string)
    | TmdbInvalid(tmdb: string)
    | TvdbInvalid(tvdb: string)
    | NoLanguageCodes

  /** A TVDB ID: an integer from the command line, or a string when it was filled from file metadata. */
  datatype TvdbId = Numeric(n: int) | Textual(s: string)

  /** Python truthiness of an optional TVDB ID: None, 0 and "" are false. */
  predicate TvdbTruthy(t: Option<TvdbId>) {
    t.Some? && match t.value
      case Numeric(n) => n != 0
      case Textual(s) => s != ""
  }

  /** The text of a TVDB ID: a string as it is, an integer in decimal. */
  function TvdbString(t: TvdbId): string {
    match t
      case Numeric(n) => IntToString(n)
      case Textual(s) => s
  }

  /** A regex body matches up to Python's `$`: the end, or just before one final newline. */
  predicate ToEnd(s: string, body: string -> bool) {
    body(s) || (s != [] && s[|s| - 1] == '\n' && body(s[..|s| - 1]))
  }

  /** `tt\d{7,8}` */
  predicate ImdbBody(s: string) {
    (|s| == 9 || |s| == 10) && s[..2] == "tt" && AllDigits(s[2..])
  }

  /** `(tv|movie)/\d+` */
  predicate TmdbBody(s: string) {
    (|s| > 3 && s[..3] == "tv/" && AllDigits(s[3..]))
    || (|s| > 6 && s[..6] == "movie/" && AllDigits(s[6..]))
  }

  /** `\d+` */
  predicate TvdbBody(s: string) {
    s != "" && AllDigits(s)
  }

  /** IMDB_ID_T, TMDB_ID_T and TVDB_ID_T with `match`, which anchors at the start. */
  predicate ImdbPattern(s: string) { ToEnd(s, ImdbBody) }
  predicate TmdbPattern(s: string) { ToEnd(s, TmdbBody) }
  predicate TvdbPattern(s: string) { ToEnd(s, TvdbBody) }

  /**
   * The ID checks of the constructor, in order: an IMDb ID is required and must
   * match; a TMDB ID is checked only when non-empty; a TVDB ID only when
   * truthy, through its string form.
   */
  function CheckIds(imdb: string, tmdb: Option<string>, tvdb: Option<TvdbId>): (r: Result<(), TemplateError>)
    ensures r.Ok? <==>
      ImdbPattern(imdb)
      && (Truthy(tmdb) ==> TmdbPattern(tmdb.value))
      && (TvdbTruthy(tvdb) ==> TvdbPattern(TvdbString(tvdb.value)))
    ensures r == Err(ImdbRequired) <==> imdb == ""
    ensures r.Err? && r.error.TmdbInvalid? ==> ImdbPattern(imdb) && tmdb.Some? && r.error.tmdb == tmdb.value
    ensures r.Err? && r.error.TvdbInvalid? ==>
      ImdbPattern(imdb) && (Truthy(tmdb) ==> TmdbPattern(tmdb.value)) && tvdb.Some? && r.error.tvdb == TvdbString(tvdb.value)
    ensures imdb != "" && !ImdbPattern(imdb) ==> r == Err(ImdbInvalid(imdb))
    ensures ImdbPattern(imdb) && Truthy(tmdb) && !TmdbPattern(tmdb.value) ==> r == Err(TmdbInvalid(tmdb.value))
    ensures (ImdbPattern(imdb) && (Truthy(tmdb) ==> TmdbPattern(tmdb.value))
             && TvdbTruthy(tvdb) && !TvdbPattern(TvdbString(tvdb.value)))
      ==> r == Err(TvdbInvalid(TvdbString(tvdb.value)))
    ensures r != Err(NoLanguageCodes)
  {
    if imdb == "" then Err(ImdbRequired)
    else if !ImdbPattern(imdb) then Err(ImdbInvalid(imdb))
    else if Truthy(tmdb) && !TmdbPattern(tmdb.value) then Err(TmdbInvalid(tmdb.value))
    else if TvdbTruthy(tvdb) && !TvdbPattern(TvdbString(tvdb.value)) then Err(TvdbInvalid(TvdbString(tvdb.value)))
    else Ok(())
  }

  /** The last character of `str(n)` is a digit, so it never ends in a newline. */
  lemma IntStringEndsInDigit(n: int)
    ensures |IntToString(n)| >= 1 && IsDigit(IntToString(n)[|IntToString(n)| - 1])
  {
    if n < 0 {
      var d := NatToString(-n);
      assert IntToString(n) == "-" + d;
      assert IntToString(n)[|IntToString(n)| - 1] == d[|d| - 1];
    }
  }

  /** An integer TVDB ID is skipped when 0 and otherwise accepted exactly when it is not negative. */
  lemma NumericTvdbRule(imdb: string, tmdb: Option<string>, n: int)
    requires ImdbPattern(imdb) && (Truthy(tmdb) ==> TmdbPattern(tmdb.value))
    ensures CheckIds(imdb, tmdb, Some(Numeric(n))).Ok? <==> n >= 0
    ensures n < 0 ==> CheckIds(imdb, tmdb, Some(Numeric(n))) == Err(TvdbInvalid(IntToString(n)))
  {
    IntStringEndsInDigit(n);
    var s := IntToString(n);
    if n < 0 {
      assert !AllDigits(s);
      assert !AllDigits(s[..|s| - 1]) by {
        assert s[0] == '-';
        if |s| == 1 { assert false; }
        assert s[..|s| - 1][0] == '-';
      }
    }
  }

  /** No TVDB ID, or a zero one, is never checked. */
  lemma FalsyIdsSkipped(imdb: string, tv: Option<TvdbId>)
    requires ImdbPattern(imdb) && !TvdbTruthy(tv)
    ensures CheckIds(imdb, None, tv) == Ok(())
    ensures CheckIds(imdb, Some(""), tv) == Ok(())
  {
  }

  /** Validation stops at the first failure: an invalid IMDb ID is reported whatever the other IDs are. */
  lemma ImdbCheckedFirst(imdb: string, tmdb: Option<string>, tvdb: Option<TvdbId>)
    requires imdb != "" && !ImdbPattern(imdb)
    ensures CheckIds(imdb, tmdb, tvdb) == Err(ImdbInvalid(imdb))
  {
  }

  /** "tt" followed by eight digits is a valid IMDb ID. */
  lemma ImdbEightDigits(imdb: string)
    requires imdb == "tt10810424"
    ensures CheckIds(imdb, None, None) == Ok(())
  {
    assert imdb[..2] == "tt" && AllDigits(imdb[2..]);
  }

  /** Six digits are too few. */
  lemma ImdbSixDigits(imdb: string)
    requires imdb == "tt048783"
    ensures CheckIds(imdb, None, None) == Err(ImdbInvalid(imdb))
  {
    assert |imdb| == 8;
    assert imdb[|imdb| - 1] != '\n';
  }

  /** "tv/" or "movie/" followed by digits is a valid TMDB ID, a bare number is not. */
  lemma TmdbShapes(imdb: string, tv: string, bare: string)
    requires ImdbPattern(imdb) && tv == "tv/2490" && bare == "2490"
    ensures CheckIds(imdb, Some(tv), None) == Ok(())
    ensures CheckIds(imdb, Some(bare), None) == Err(TmdbInvalid(bare))
  {
    assert tv[..3] == "tv/" && AllDigits(tv[3..]);
    assert bare[..3][0] == '2';
    assert bare[|bare| - 1] != '\n';
  }

  /** Stripping leading "t" characters from an ID that passed validation leaves exactly what follows the "tt". */
  lemma ImdbQuery(imdb: string)
    requires ImdbPattern(imdb)
    ensures LStrip(imdb, {'t'}) == imdb[2..]
  {
    ImdbStart(imdb);
  }

  lemma ImdbStart(imdb: string)
    requires ImdbPattern(imdb)
    ensures |imdb| >= 9 && imdb[0] == 't' && imdb[1] == 't' && IsDigit(imdb[2])
  {
    var body := if ImdbBody(imdb) then imdb else imdb[..|imdb| - 1];
    assert ImdbBody(body);
    assert body[..2][0] == 't' && body[..2][1] == 't' && IsDigit(body[2..][0]);
  }

  /** What follows the "tt" is seven or eight digits, possibly followed by the newline `$` admits. */
  lemma ImdbDigits(imdb: string)
    requires ImdbPattern(imdb)
    ensures 7 <= |imdb[2..]| <= 9
    ensures AllDigits(imdb[2..]) || (imdb[|imdb| - 1] == '\n' && AllDigits(imdb[2..|imdb| - 1]))
  {
    if !ImdbBody(imdb) {
      assert imdb[..|imdb| - 1][2..] == imdb[2..|imdb| - 1];
    }
  }

  // ---------------------------------------------------------------------
  // Chapters

  /** A menu key names a chapter when it holds only digits once its underscores are gone. */
  predicate ChapterKey(k: string) {
    AllDigits("1" + ReplaceAll(k, "_", ""))
  }

  /** All but the last three characters. */
  function DropLast3(k: string): (r: string)
    ensures |r| == if |k| >= 3 then |k| - 3 else 0
  {
    if |k| >= 3 then k[..|k| - 3] else ""
  }

  /** The last three characters, or all of a shorter string. */
  function Last3(k: string): (r: string)
    ensures |r| == if |k| >= 3 then 3 else |k|
  {
    if |k| >= 3 then k[|k| - 3..] else k
  }

  /** The timecode of a menu key: underscores become dots and a dot goes before the last three characters, so "00_01_23456" becomes "00.01.23.456". */
  function ChapterTime(k: string): (t: string)
    ensures |t| == |k| + 1
  {
    DropLast3(ReplaceChar(k, '_', '.')) + "." + Last3(k)
  }

  /** Reading a timecode back into its menu key: the "." inserted before the last three characters goes, the others become "_". */
  function ChapterKeyOf(t: string): string
    requires |t| >= 1
  {
    var cut := if |t| - 1 >= 3 then |t| - 4 else 0;
    ReplaceChar(t[..cut], '.', '_') + t[cut + 1..]
  }

  predicate DigitsOrUnderscores(k: string) {
    forall i :: 0 <= i < |k| ==> IsDigit(k[i]) || k[i] == '_'
  }

  lemma AllDigitsCons(c: char, s: string)
    ensures AllDigits([c] + s) <==> IsDigit(c) && AllDigits(s)
  {
    var t := [c] + s;
    assert t[0] == c;
    if AllDigits(t) {
      forall i | 0 <= i < |s| ensures IsDigit(s[i]) {
        assert t[i + 1] == s[i];
      }
    }
  }

  lemma DigitsOrUnderscoresCons(k: string)
    requires k != []
    ensures DigitsOrUnderscores(k) <==> (IsDigit(k[0]) || k[0] == '_') && DigitsOrUnderscores(k[1..])
  {
    assert forall i :: 1 <= i < |k| ==> k[i] == k[1..][i - 1];
  }

  /** Removing the underscores leaves only digits exactly when the key is digits and underscores. */
  lemma {:induction false} UnderscoresRemoved(k: string)
    ensures AllDigits(ReplaceAll(k, "_", "")) <==> DigitsOrUnderscores(k)
    decreases |k|
  {
    if k != [] {
      UnderscoresRemoved(k[1..]);
      DigitsOrUnderscoresCons(k);
      if k[0] == '_' {
        assert IsPrefix("_", k);
        assert ReplaceAll(k, "_", "") == ReplaceAll(k[1..], "_", "");
      } else {
        assert !IsPrefix("_", k);
        assert ReplaceAll(k, "_", "") == [k[0]] + ReplaceAll(k[1..], "_", "");
        AllDigitsCons(k[0], ReplaceAll(k[1..], "_", ""));
      }
    }
  }

  /** A key is kept exactly when it is made of digits and underscores; the leading "1" lets the empty key through. */
  lemma ChapterKeyMeans(k: string)
    ensures ChapterKey(k) <==> DigitsOrUnderscores(k)
  {
    UnderscoresRemoved(k);
    AllDigitsCons('1', ReplaceAll(k, "_", ""));
  }

  lemma ReplaceCharBack(s: string)
    requires '.' !in s
    ensures ReplaceChar(ReplaceChar(s, '_', '.'), '.', '_') == ReplaceChar(s, '.', '.')
    ensures ReplaceChar(ReplaceChar(s, '_', '.'), '.', '_') == s
  {
  }

  /** The timecode determines the key it came from. */
  lemma ChapterTimeRoundTrip(k: string)
    requires ChapterKey(k)
    ensures ChapterKeyOf(ChapterTime(k)) == k
  {
    ChapterKeyMeans(k);
    var t := ChapterTime(k);
    var cut := if |k| >= 3 then |k| - 3 else 0;
    assert t[..cut] == ReplaceChar(k[..cut], '_', '.');
    assert t[cut + 1..] == k[cut..];
    ReplaceCharBack(k[..cut]);
    assert k[..cut] + k[cut..] == k;
  }

  /** So two kept keys never collide on one timecode. */
  lemma ChapterTimeInjective()
    ensures forall a, b :: ChapterKey(a) && ChapterKey(b) && ChapterTime(a) == ChapterTime(b) ==> a == b
  {
    forall a, b | ChapterKey(a) && ChapterKey(b) && ChapterTime(a) == ChapterTime(b) ensures a == b {
      ChapterTimeRoundTrip(a);
      ChapterTimeRoundTrip(b);
    }
  }

  /** The chapters comprehension over the menu track's data. */
  function Chapters(menu: map<string, string>): map<string, string> {
    ChapterTimeInjective();
    map k | k in menu && ChapterKey(k) :: ChapterTime(k) := Strip(menu[k], {':'})
  }

  /** Every kept key appears under its timecode with its stripped label. */
  lemma ChaptersKept(menu: map<string, string>, k: string)
    requires k in menu && ChapterKey(k)
    ensures ChapterTime(k) in Chapters(menu)
    ensures Chapters(menu)[ChapterTime(k)] == Strip(menu[k], {':'})
  {
    ChapterTimeInjective();
  }

  /** Every timecode comes from a kept key, which it reads back as. */
  lemma ChaptersOnlyKept(menu: map<string, string>, t: string)
    requires t in Chapters(menu)
    ensures |t| >= 1 && ChapterKeyOf(t) in menu && ChapterKey(ChapterKeyOf(t))
    ensures ChapterTime(ChapterKeyOf(t)) == t
  {
    var k :| k in menu && ChapterKey(k) && ChapterTime(k) == t;
    ChapterTimeRoundTrip(k);
  }

  /** A label loses only the colons at its two ends. */
  lemma ChapterLabel(menu: map<string, string>, k: string)
    requires k in menu && ChapterKey(k)
    ensures ChapterTime(k) in Chapters(menu)
    ensures var v := Chapters(menu)[ChapterTime(k)];
      v == [] || (v[0] != ':' && v[|v| - 1] != ':')
    ensures Contains(menu[k], Chapters(menu)[ChapterTime(k)])
  {
    ChaptersKept(menu, k);
    StripShape(menu[k], {':'});
  }

  /** The example from the menu format: "00_01_23456" becomes "00.01.23.456". */
  lemma ChapterTimeExample(k: string)
    requires k == "00_01_23456"
    ensures ChapterTime(k) == "00.01.23.456"
  {
    var r := ReplaceChar(k, '_', '.');
    assert r == "00.01.23456";
    assert DropLast3(r) == "00.01.23";
    assert Last3(k) == "456";
  }

  /** Keys shorter than three characters get the "." in front. */
  lemma ShortChapterKey(k: string)
    requires |k| < 3
    ensures ChapterTime(k) == "." + k
  {
  }

  // ---------------------------------------------------------------------
  // Primary language

  /** The tracks sorted by stream order, stably: a track is inserted after every track not later than it. */
  function InsertByOrder(t: MediaTrack, s: seq<MediaTrack>): (r: seq<MediaTrack>)
    ensures multiset(r) == multiset(s) + multiset{t}
  {
    if s == [] || t.streamOrder < s[0].streamOrder then [t] + s
    else
      assert s == [s[0]] + s[1..];
      [s[0]] + InsertByOrder(t, s[1..])
  }

  function SortByOrder(ts: seq<MediaTrack>): (r: seq<MediaTrack>)
    ensures multiset(r) == multiset(ts)
  {
    if ts == [] then []
    else
      assert ts == ts[..|ts| - 1] + [ts[|ts| - 1]];
      InsertByOrder(ts[|ts| - 1], SortByOrder(ts[..|ts| - 1]))
  }

  predicate SortedByOrder(s: seq<MediaTrack>) {
    forall i, j :: 0 <= i < j < |s| ==> s[i].streamOrder <= s[j].streamOrder
  }

  lemma {:induction false} InsertSorted(t: MediaTrack, s: seq<MediaTrack>)
    requires SortedByOrder(s)
    ensures SortedByOrder(InsertByOrder(t, s))
  {
    if s != [] && t.streamOrder >= s[0].streamOrder {
      InsertSorted(t, s[1..]);
      var r := InsertByOrder(t, s[1..]);
      forall x: MediaTrack | x in multiset(r) ensures x.streamOrder >= s[0].streamOrder {
        assert x in multiset(s[1..]) + multiset{t};
        if x in multiset(s[1..]) {
          var j :| 0 <= j < |s[1..]| && s[1..][j] == x;
          assert s[j + 1] == x;
        }
      }
      forall j | 0 <= j < |r| ensures r[j].streamOrder >= s[0].streamOrder {
        assert r[j] in multiset(r);
      }
    }
  }

  /** The stream-order sort is ordered. */
  lemma {:induction false} SortSorted(ts: seq<MediaTrack>)
    ensures SortedByOrder(SortByOrder(ts))
  {
    if ts != [] {
      SortSorted(ts[..|ts| - 1]);
      InsertSorted(ts[|ts| - 1], SortByOrder(ts[..|ts| - 1]));
    }
  }

  predicate HasLanguage(t: MediaTrack) { Truthy(t.language) }

  /** The first track of a sequence whose raw language is truthy. */
  function FirstWithLanguage(s: seq<MediaTrack>): (r: Option<MediaTrack>)
    ensures r.None? <==> forall i :: 0 <= i < |s| ==> !HasLanguage(s[i])
    ensures r.Some? ==> HasLanguage(r.value) && r.value in s
  {
    if s == [] then None
    else if HasLanguage(s[0]) then Some(s[0])
    else FirstWithLanguage(s[1..])
  }

  /**
   * `primary_lang`: the language of the first truthy-language audio track in
   * stream order, defaulting to the first catalog language code.  The default
   * is evaluated first, so no language codes raises even when a track has one.
   */
  function PrimaryLanguage(audio: seq<MediaTrack>, codes: seq<string>): (r: Result<string, TemplateError>)
    ensures r.Err? <==> codes == []
    ensures r.Err? ==> r.error == NoLanguageCodes
  {
    if codes == [] then Err(NoLanguageCodes)
    else match FirstWithLanguage(SortByOrder(audio))
      case None => Ok(codes[0])
      case Some(t) => Ok(t.language.value)
  }

  /** Track i is the one stream order prefers: it has a language, and it is the earliest of the lowest order among those. */
  predicate Preferred(ts: seq<MediaTrack>, i: int) {
    0 <= i < |ts| && HasLanguage(ts[i])
    && forall j :: 0 <= j < |ts| && HasLanguage(ts[j]) ==>
      ts[i].streamOrder < ts[j].streamOrder || (ts[i].streamOrder == ts[j].streamOrder && i <= j)
  }

  /** Inserting a track changes the first track with a language only when it has one and comes strictly earlier. */
  lemma {:induction false} InsertFirst(t: MediaTrack, s: seq<MediaTrack>)
    requires SortedByOrder(s)
    ensures FirstWithLanguage(InsertByOrder(t, s)) ==
      if !HasLanguage(t) then FirstWithLanguage(s)
      else if FirstWithLanguage(s).None? || FirstWithLanguage(s).value.streamOrder > t.streamOrder then Some(t)
      else FirstWithLanguage(s)
  {
    if s == [] {
    } else if t.streamOrder < s[0].streamOrder {
      var f := FirstWithLanguage(s);
      if f.Some? {
        var j :| 0 <= j < |s| && s[j] == f.value;
        assert s[0].streamOrder <= s[j].streamOrder;
      }
      assert InsertByOrder(t, s)[1..] == s;
    } else {
      InsertFirst(t, s[1..]);
      assert InsertByOrder(t, s)[1..] == InsertByOrder(t, s[1..]);
      assert s[1..] == s[1..];
    }
  }

  /** At most one track is preferred. */
  lemma PreferredUnique(ts: seq<MediaTrack>, i: int, j: int)
    requires Preferred(ts, i) && Preferred(ts, j)
    ensures i == j
  {
  }

  /** A preferred track of a prefix keeps its place when a later track joins, unless that track has a language and a lower order. */
  lemma PreferredExtend(init: seq<MediaTrack>, x: MediaTrack, p: int)
    requires Preferred(init, p)
    ensures Preferred(init + [x], p) <==> !HasLanguage(x) || x.streamOrder >= init[p].streamOrder
    ensures Preferred(init + [x], |init|) <==> HasLanguage(x) && x.streamOrder < init[p].streamOrder
  {
    var ts := init + [x];
    assert forall j :: 0 <= j < |init| ==> ts[j] == init[j];
    assert ts[|init|] == x;
  }

  /** A preferred track of the longer sequence that is not the new one is preferred in the prefix. */
  lemma PreferredRestrict(init: seq<MediaTrack>, x: MediaTrack, i: int)
    requires Preferred(init + [x], i) && i < |init|
    ensures Preferred(init, i)
  {
    var ts := init + [x];
    assert forall j :: 0 <= j < |init| ==> ts[j] == init[j];
  }

  /** Without a language in the prefix, the new track is preferred exactly when it has one. */
  lemma PreferredAlone(init: seq<MediaTrack>, x: MediaTrack)
    requires forall j :: 0 <= j < |init| ==> !HasLanguage(init[j])
    ensures HasLanguage(x) ==> Preferred(init + [x], |init|)
    ensures forall i :: Preferred(init + [x], i) ==> i == |init|
  {
    var ts := init + [x];
    assert forall j :: 0 <= j < |init| ==> ts[j] == init[j];
  }

  /** One insertion step when the sorted prefix already has a first track with a language. */
  lemma InsertStepFound(init: seq<MediaTrack>, x: MediaTrack, p: int, s: seq<MediaTrack>)
    requires Preferred(init, p) && SortedByOrder(s) && FirstWithLanguage(s) == Some(init[p])
    ensures exists i :: Preferred(init + [x], i)
    ensures forall i :: Preferred(init + [x], i) ==> FirstWithLanguage(InsertByOrder(x, s)) == Some((init + [x])[i])
  {
    InsertFirst(x, s);
    PreferredExtend(init, x, p);
    var ts := init + [x];
    if !Preferred(ts, p) {
      assert Preferred(ts, |init|);
    }
    forall i | Preferred(ts, i) ensures FirstWithLanguage(InsertByOrder(x, s)) == Some(ts[i]) {
      if i < |init| {
        PreferredRestrict(init, x, i);
        PreferredUnique(init, i, p);
        assert ts[i] == init[i];
      } else {
        PreferredUnique(ts, i, |init|);
      }
    }
  }

  /** One insertion step when no track of the prefix has a language. */
  lemma InsertStepNone(init: seq<MediaTrack>, x: MediaTrack, s: seq<MediaTrack>)
    requires SortedByOrder(s) && FirstWithLanguage(s) == None
    requires forall j :: 0 <= j < |init| ==> !HasLanguage(init[j])
    ensures FirstWithLanguage(InsertByOrder(x, s)).Some? ==> exists i :: Preferred(init + [x], i)
    ensures forall i :: Preferred(init + [x], i) ==> FirstWithLanguage(InsertByOrder(x, s)) == Some((init + [x])[i])
  {
    InsertFirst(x, s);
    PreferredAlone(init, x);
  }

  /** The first track with a language after sorting is exactly the preferred one. */
  lemma {:induction false} FirstAfterSort(ts: seq<MediaTrack>)
    ensures FirstWithLanguage(SortByOrder(ts)).Some? ==> exists i :: Preferred(ts, i)
    ensures forall i :: Preferred(ts, i) ==> FirstWithLanguage(SortByOrder(ts)) == Some(ts[i])
  {
    if ts != [] {
      var n := |ts| - 1;
      var init := ts[..n];
      var x := ts[n];
      assert ts == init + [x];
      var s := SortByOrder(init);
      assert SortByOrder(ts) == InsertByOrder(x, s);
      FirstAfterSort(init);
      SortSorted(init);
      if FirstWithLanguage(s).Some? {
        var p :| Preferred(init, p);
        InsertStepFound(init, x, p, s);
      } else {
        forall j | 0 <= j < |init| ensures !HasLanguage(init[j]) {
          assert init[j] in multiset(s);
        }
        InsertStepNone(init, x, s);
      }
    }
  }

  /**
   * The primary language, stated without the sort: the preferred audio track's
   * raw language when some track has one (so "und" can win), the first catalog
   * code when none does.
   */
  lemma PrimaryLanguageChoice(audio: seq<MediaTrack>, codes: seq<string>)
    requires codes != []
    ensures (forall j :: 0 <= j < |audio| ==> !HasLanguage(audio[j])) ==> PrimaryLanguage(audio, codes) == Ok(codes[0])
    ensures forall i :: Preferred(audio, i) ==> PrimaryLanguage(audio, codes) == Ok(audio[i].language.value)
    ensures PrimaryLanguage(audio, codes).Ok? &&
      (PrimaryLanguage(audio, codes).value == codes[0] || exists i :: Preferred(audio, i))
  {
    FirstAfterSort(audio);
    var s := SortByOrder(audio);
    if forall j :: 0 <= j < |audio| ==> !HasLanguage(audio[j]) {
      forall j | 0 <= j < |s| ensures !HasLanguage(s[j]) {
        assert s[j] in multiset(audio);
      }
    }
  }

  // ---------------------------------------------------------------------
  // Catalog entry and helpers

  /**
   * The fields of the IMDb entry the templates read, each already in the form
   * an f-string prints it.  `episodes` maps season and episode numbers to
   * episode titles.
   */
  datatype Catalog = Catalog(
    title: string,
    kind: string,
    year: string,
    seriesYears: string,
    episodes: map<int, map<int, string>>,
    languageCodes: seq<string>,
    movieId: string)

  /** The catalog's kind in title case, with "Tv" spelt "TV". */
  function TypeLabel(kind: string): string {
    ReplaceAll(TitleCase(kind), "Tv", "TV")
  }

  /** The type label is as long as the kind, and before the "Tv" respelling each letter is capitalised exactly when no letter precedes it. */
  lemma TypeLabelShape(kind: string)
    ensures |TypeLabel(kind)| == |kind|
    ensures forall i :: 0 < i < |kind| ==>
      TitleCase(kind)[i] == if IsAsciiLetter(kind[i - 1]) then LowerChar(kind[i]) else UpperChar(kind[i])
    ensures kind != [] ==> TitleCase(kind)[0] == UpperChar(kind[0])
  {
    ReplaceAllLength(TitleCase(kind), "Tv", "TV");
    TitleFromChars(kind, false);
  }

  /**
   * The helpers the templates call whose code is not part of this model, as
   * uninterpreted functions: `indented_wrap(text, width, indent)` (None for the
   * default indent), the three summaries, `get_chapter_list`, `layout(items,
   * width)`, `get_banner_image(tvdb, language)` and `get_preview_images(preview)`.
   */
  datatype Helpers = Helpers(
    wrap: (string, int, Option<string>) -> string,
    videoSummary: MediaTrack -> string,
    audioSummary: MediaTrack -> string,
    subtitleSummary: MediaTrack -> string,
    chapterList: Option<map<string, string>> -> seq<string>,
    layout: (seq<string>, int) -> string,
    banner: (TvdbId, string) -> Option<string>,
    previews: Option<string> -> seq<(string, string)>)

  /** The wrap every text template uses: 66 columns, indented by two spaces. */
  function Wrap66(h: Helpers, text: string): string {
    h.wrap(text, 66, Some("  "))
  }

  // ---------------------------------------------------------------------
  // Document blocks shared by the templates

  const VideoHeading := "──┤    Video    ├─────────────────────────────────────────────[ "
  const AudioHeading := "──┤    Audio    ├─────────────────────────────────────────────[ "
  const SubtitlesHeading := "──┤    Subtitles     ├────────────────────────────────────────[ "
  const ChaptersHeading := "──┤    Chapters    ├──────────────────────────────────────────[ "

  /** `f"{heading}{count:0>2} ]──"` */
  function SectionHeader(heading: string, count: nat): string {
    heading + ZeroPad(NatToString(count), 2) + " ]──"
  }

  /** A section opens with a blank line, its header and another blank line. */
  function SectionOpening(heading: string, count: nat): seq<string> {
    ["", SectionHeader(heading, count), ""]
  }

  /** The count in a header is at least two digits wide and reads back as the count it was made from. */
  lemma SectionHeaderCount(heading: string, count: nat)
    ensures var h := SectionHeader(heading, count);
      |h| >= |heading| + 6 && h[..|heading|] == heading
      && AllDigits(h[|heading|..|h| - 4]) && |h[|heading|..|h| - 4]| >= 2
      && DecimalValue(h[|heading|..|h| - 4]) == count
  {
    CountPadded(count);
    var d := ZeroPad(NatToString(count), 2);
    var h := SectionHeader(heading, count);
    assert h[|heading|..|h| - 4] == d;
  }

  /** Different counts give different headers. */
  lemma SectionHeaderInjective(heading: string, a: nat, b: nat)
    requires SectionHeader(heading, a) == SectionHeader(heading, b)
    ensures a == b
  {
    SectionHeaderCount(heading, a);
    SectionHeaderCount(heading, b);
  }

  /** Every line of a text wrapped at 66 with a two-space indent. */
  function WrapEach(h: Helpers, lines: seq<string>): (r: seq<string>)
    ensures |r| == |lines|
    ensures forall i :: 0 <= i < |lines| ==> r[i] == Wrap66(h, lines[i])
  {
    seq(|lines|, i requires 0 <= i < |lines| => Wrap66(h, lines[i]))
  }

  /** One summary per track, in track order. */
  function Summaries(summary: MediaTrack -> string, tracks: seq<MediaTrack>): (r: seq<string>)
    ensures |r| == |tracks|
    ensures forall i :: 0 <= i < |tracks| ==> r[i] == summary(tracks[i])
  {
    seq(|tracks|, i requires 0 <= i < |tracks| => summary(tracks[i]))
  }

  /** The wrapped lines of every video summary, track after track. */
  function VideoLines(h: Helpers, tracks: seq<MediaTrack>): seq<string> {
    if tracks == [] then []
    else VideoLines(h, tracks[..|tracks| - 1]) + WrapEach(h, SplitLines(h.videoSummary(tracks[|tracks| - 1])))
  }

  /** The body of the video section: the summary lines, or "  --" without video tracks. */
  function VideoBody(h: Helpers, tracks: seq<MediaTrack>): seq<string> {
    if tracks == [] then ["  --"] else VideoLines(h, tracks)
  }

  /** The body of the audio or subtitle section: one wrapped summary per track, or "  --" without tracks. */
  function TrackBody(h: Helpers, summary: MediaTrack -> string, tracks: seq<MediaTrack>): seq<string> {
    if tracks == [] then ["  --"] else WrapEach(h, Summaries(summary, tracks))
  }

  /** The chapter list, or "--" when it is empty, each line wrapped. */
  function ChapterBody(h: Helpers, chapters: Option<map<string, string>>): seq<string> {
    var lines := h.chapterList(chapters);
    WrapEach(h, if lines == [] then ["--"] else lines)
  }

  /** A track section holds one line per track, the wrapped summary of that track, and the placeholder only when there is no track. */
  lemma TrackBodyLines(h: Helpers, summary: MediaTrack -> string, tracks: seq<MediaTrack>)
    ensures tracks == [] ==> TrackBody(h, summary, tracks) == ["  --"]
    ensures tracks != [] ==> |TrackBody(h, summary, tracks)| == |tracks|
    ensures tracks != [] ==>
      forall i :: 0 <= i < |tracks| ==> TrackBody(h, summary, tracks)[i] == Wrap66(h, summary(tracks[i]))
  {
  }

  lemma VideoLinesStep(h: Helpers, tracks: seq<MediaTrack>, i: nat)
    requires i < |tracks|
    ensures VideoLines(h, tracks[..i + 1]) == VideoLines(h, tracks[..i]) + WrapEach(h, SplitLines(h.videoSummary(tracks[i])))
  {
    assert tracks[..i + 1][..i] == tracks[..i];
  }

  /** Each video track contributes the lines of its own summary, wrapped. */
  lemma VideoLinesOfOne(h: Helpers, t: MediaTrack)
    ensures VideoLines(h, [t]) == WrapEach(h, SplitLines(h.videoSummary(t)))
  {
    assert [t][..0] == [];
  }

  /** The chapters body is never empty: without chapter lines it is the wrapped placeholder "--". */
  lemma ChapterBodyPlaceholder(h: Helpers, chapters: Option<map<string, string>>)
    ensures |ChapterBody(h, chapters)| >= 1
    ensures h.chapterList(chapters) == [] ==> ChapterBody(h, chapters) == [Wrap66(h, "--")]
    ensures h.chapterList(chapters) != [] ==> ChapterBody(h, chapters) == WrapEach(h, h.chapterList(chapters))
  {
  }

  /** The chapters section: its header block with the given count, then the chapter body. */
  function ChapterSection(h: Helpers, count: nat, chapters: Option<map<string, string>>): seq<string> {
    SectionOpening(ChaptersHeading, count) + ChapterBody(h, chapters)
  }

  /** "Yes" for a non-empty chapter map, "No" otherwise. */
  function HasChapters(chapters: Option<map<string, string>>): string {
    if chapters.Some? && chapters.value != map[] then "Yes" else "No"
  }

  /** The plain-text Chapters line says Yes exactly when there is a non-empty chapter map. */
  lemma ChaptersLine(chapters: Option<map<string, string>>)
    ensures "  Chapters : " + HasChapters(chapters) == "  Chapters : Yes" <==> (chapters.Some? && chapters.value != map[])
  {
    var line := "  Chapters : " + HasChapters(chapters);
    if line == "  Chapters : Yes" {
      assert line[13..] == HasChapters(chapters);
    }
  }

  /** The optional Source and Note blocks of the text templates. */
  function SourceBlock(h: Helpers, source: Option<string>): seq<string> {
    if Truthy(source) then ["", "  Source :", Wrap66(h, source.value)] else []
  }

  function NoteBlock(h: Helpers, note: Option<string>): seq<string> {
    if Truthy(note) then ["", "  Note :", Wrap66(h, note.value)] else []
  }

  /** A section header is longer than its heading, hence never one of the short block labels. */
  lemma SectionHeaderLong(heading: string, count: nat)
    ensures |SectionHeader(heading, count)| >= |heading| + 4
  {
  }

  /**
   * Between a prefix and anything not starting with a block label, the Source
   * label is printed exactly for a non-empty source and the Note label exactly
   * for a non-empty note, each followed by its wrapped text.
   */
  lemma BlocksShown(h: Helpers, source: Option<string>, note: Option<string>, prefix: seq<string>, rest: seq<string>, tail: seq<string>)
    requires |rest| >= 2 && rest[1] != "  Source :" && rest[1] != "  Note :"
    ensures var d := prefix + SourceBlock(h, source) + NoteBlock(h, note) + rest + tail;
      var p := |prefix|;
      var k := p + |SourceBlock(h, source)|;
      |d| >= k + |NoteBlock(h, note)| + 2
      && (d[p + 1] == "  Source :" <==> Truthy(source))
      && (d[k + 1] == "  Note :" <==> Truthy(note))
      && (Truthy(source) ==> d[p + 2] == Wrap66(h, source.value))
      && (Truthy(note) ==> d[k + 2] == Wrap66(h, note.value))
  {
    var d := prefix + SourceBlock(h, source) + NoteBlock(h, note) + rest + tail;
    var p := |prefix|;
    var k := p + |SourceBlock(h, source)|;
    if Truthy(source) {
      assert d[p + 1] == "  Source :" && d[p + 2] == Wrap66(h, source.value);
    } else if Truthy(note) {
      assert d[p + 1] == "  Note :";
    } else {
      assert d[p + 1] == rest[1];
    }
    if Truthy(note) {
      assert d[k + 1] == "  Note :" && d[k + 2] == Wrap66(h, note.value);
    } else {
      assert d[k + 1] == rest[1];
    }
  }

  /** The size of a chapter map that may be absent, an absent one counting as empty. */
  function ChapterCount(chapters: Option<map<string, string>>): nat {
    if chapters.Some? then |chapters.value| else 0
  }

  /** The video section: its header block, then the wrapped summary lines or the placeholder. */
  function VideoSection(h: Helpers, video: seq<MediaTrack>): seq<string> {
    SectionOpening(VideoHeading, |video|) + VideoBody(h, video)
  }

  /** An audio or subtitle section: its header block, then one wrapped summary per track or the placeholder. */
  function TrackSection(h: Helpers, heading: string, summary: MediaTrack -> string, tracks: seq<MediaTrack>): seq<string> {
    SectionOpening(heading, |tracks|) + TrackBody(h, summary, tracks)
  }

  /** The video, audio and subtitle sections, in that order, as every template prints them. */
  function TrackSections(h: Helpers, video: seq<MediaTrack>, audio: seq<MediaTrack>, text: seq<MediaTrack>): seq<string> {
    VideoSection(h, video)
    + TrackSection(h, AudioHeading, h.audioSummary, audio)
    + TrackSection(h, SubtitlesHeading, h.subtitleSummary, text)
  }

  /** A section is a blank line, its header, a blank line, then its body. */
  lemma SectionShape(heading: string, count: nat, body: seq<string>)
    ensures var s := SectionOpening(heading, count) + body;
      |s| == |body| + 3 && s[0] == "" && s[1] == SectionHeader(heading, count) && s[2] == ""
      && s[3..] == body
  {
  }

  /** The sections follow one another: video, then audio, then subtitles, and the video header comes second. */
  lemma TrackSectionsLayout(h: Helpers, video: seq<MediaTrack>, audio: seq<MediaTrack>, text: seq<MediaTrack>)
    ensures var s := TrackSections(h, video, audio, text);
      var v := VideoSection(h, video);
      var a := TrackSection(h, AudioHeading, h.audioSummary, audio);
      var t := TrackSection(h, SubtitlesHeading, h.subtitleSummary, text);
      |s| == |v| + |a| + |t| && |v| >= 3
      && s[..|v|] == v && s[|v|..|v| + |a|] == a && s[|v| + |a|..] == t
      && s[1] == SectionHeader(VideoHeading, |video|)
  {
    var v := VideoSection(h, video);
    var a := TrackSection(h, AudioHeading, h.audioSummary, audio);
    var t := TrackSection(h, SubtitlesHeading, h.subtitleSummary, text);
    SectionShape(VideoHeading, |video|, VideoBody(h, video));
    ThreeParts(v, a, t);
  }

  /** `d` ends with `body`, which stands two lines under `header` (a blank line between). */
  predicate EndsUnder(d: seq<string>, body: seq<string>, header: string) {
    |d| >= |body| + 3 && d[|d| - |body|..] == body && d[|d| - |body| - 2] == header
  }

  /** The sections end with the subtitle body, which is never empty, under the subtitle header. */
  lemma TrackSectionsEnd(h: Helpers, video: seq<MediaTrack>, audio: seq<MediaTrack>, text: seq<MediaTrack>)
    ensures |TrackBody(h, h.subtitleSummary, text)| >= 1
    ensures EndsUnder(TrackSections(h, video, audio, text), TrackBody(h, h.subtitleSummary, text),
      SectionHeader(SubtitlesHeading, |text|))
  {
    SubtitleSectionLast(h, video, audio, text);
    SubtitleSectionShape(h, text);
    TailUnderHeader(TrackSections(h, video, audio, text), TrackSection(h, SubtitlesHeading, h.subtitleSummary, text),
      TrackBody(h, h.subtitleSummary, text), SectionHeader(SubtitlesHeading, |text|));
  }

  lemma SubtitleSectionLast(h: Helpers, video: seq<MediaTrack>, audio: seq<MediaTrack>, text: seq<MediaTrack>)
    ensures var s := TrackSections(h, video, audio, text);
      var t := TrackSection(h, SubtitlesHeading, h.subtitleSummary, text);
      |s| >= |t| && s[|s| - |t|..] == t
  {
    var s := TrackSections(h, video, audio, text);
    var front := VideoSection(h, video) + TrackSection(h, AudioHeading, h.audioSummary, audio);
    var t := TrackSection(h, SubtitlesHeading, h.subtitleSummary, text);
    assert s == front + t;
    assert s[|front|..] == t;
  }

  lemma SubtitleSectionShape(h: Helpers, text: seq<MediaTrack>)
    ensures var t := TrackSection(h, SubtitlesHeading, h.subtitleSummary, text);
      var body := TrackBody(h, h.subtitleSummary, text);
      |body| >= 1 && |t| == |body| + 3 && t[|t| - |body|..] == body && t[1] == SectionHeader(SubtitlesHeading, |text|)
  {
    var body := TrackBody(h, h.subtitleSummary, text);
    TrackBodyLines(h, h.subtitleSummary, text);
    SectionShape(SubtitlesHeading, |text|, body);
  }

  /** A sequence ending with a section ends with that section's body, two lines under its header. */
  lemma TailUnderHeader(s: seq<string>, t: seq<string>, body: seq<string>, header: string)
    requires |s| >= |t| && s[|s| - |t|..] == t
    requires |t| == |body| + 3 && t[|t| - |body|..] == body && t[1] == header
    ensures EndsUnder(s, body, header)
  {
    SuffixOfSuffix(s, t, |body|);
    SuffixOfSuffix(s, t, |body| + 1);
  }

  /** What a sequence's tail ends with, the whole sequence ends with. */
  lemma TailOfTail(d: seq<string>, s: seq<string>, body: seq<string>, header: string)
    requires |d| >= |s| && d[|d| - |s|..] == s
    requires EndsUnder(s, body, header)
    ensures EndsUnder(d, body, header)
  {
    SuffixOfSuffix(d, s, |body|);
    SuffixOfSuffix(d, s, |body| + 1);
  }

  /** Without tracks of a kind, that kind's section is its header block followed by the placeholder alone. */
  lemma EmptySectionsPlaceholder(h: Helpers, video: seq<MediaTrack>, audio: seq<MediaTrack>, text: seq<MediaTrack>)
    ensures video == [] ==> VideoSection(h, video) == ["", SectionHeader(VideoHeading, 0), "", "  --"]
    ensures audio == [] ==> TrackSection(h, AudioHeading, h.audioSummary, audio) == ["", SectionHeader(AudioHeading, 0), "", "  --"]
    ensures text == [] ==> TrackSection(h, SubtitlesHeading, h.subtitleSummary, text) == ["", SectionHeader(SubtitlesHeading, 0), "", "  --"]
  {
  }

  /** The TMDB and TVDB links of the episode and season templates, each printed only when that ID is truthy. */
  function IdLines(t: Template): seq<string> {
    (if Truthy(t.tmdb) then ["  TMDB     : https://themoviedb.org/" + t.tmdb.value] else [])
    + (if TvdbTruthy(t.tvdb) then ["  TVDB     : https://thetvdb.com/?tab=series&id=" + TvdbString(t.tvdb.value)] else [])
  }

  /** A TMDB link is printed exactly for a non-empty TMDB ID, a TVDB link exactly for a truthy TVDB ID, TMDB first. */
  lemma IdLinesShown(t: Template)
    ensures |IdLines(t)| == (if Truthy(t.tmdb) then 1 else 0) + (if TvdbTruthy(t.tvdb) then 1 else 0)
    ensures Truthy(t.tmdb) ==> IdLines(t)[0] == "  TMDB     : https://themoviedb.org/" + t.tmdb.value
    ensures TvdbTruthy(t.tvdb) ==> IdLines(t)[|IdLines(t)| - 1] == "  TVDB     : https://thetvdb.com/?tab=series&id=" + TvdbString(t.tvdb.value)
  {
  }

  // ---------------------------------------------------------------------
  // The template object

  /** `_nfo`: a list of lines while the document is built, the joined string once it is done. */
  datatype NfoState = Building(lines: seq<string>) | Done(text: string)

  class Template {
    const file: FilePath
    const catalog: Catalog
    const tmdb: Option<string>
    const tvdb: Option<TvdbId>
    const source: Option<string>
    const note: Option<string>
    const preview: Option<string>
    const args: map<string, int>
    const videoTracks: seq<MediaTrack>
    const audioTracks: seq<MediaTrack>
    const textTracks: seq<MediaTrack>
    const chapters: Option<map<string, string>>
    const primaryLang: string
    const helpers: Helpers
    var nfo: NfoState

    /** Where a document property can start: nothing built yet, or a cached text, which is never empty. */
    predicate Valid()
      reads this
    {
      nfo == Building([]) || (nfo.Done? && nfo.text != "")
    }

    /**
     * `__init__` once the IDs are known to be valid: `lookup` is the IMDb
     * query, the track lists and the menu-track data are what MediaInfo
     * reports for the file.
     */
    constructor (
      file: FilePath, imdb: string, tmdb: Option<string>, tvdb: Option<TvdbId>,
      source: Option<string>, note: Option<string>, preview: Option<string>, args: map<string, int>,
      lookup: string -> Catalog, videoTracks: seq<MediaTrack>, audioTracks: seq<MediaTrack>,
      textTracks: seq<MediaTrack>, menu: Option<map<string, string>>, helpers: Helpers)
      requires CheckIds(imdb, tmdb, tvdb).Ok?
      requires PrimaryLanguage(audioTracks, lookup(LStrip(imdb, {'t'})).languageCodes).Ok?
      ensures this.file == file && this.tmdb == tmdb && this.tvdb == tvdb
      ensures this.source == source && this.note == note && this.preview == preview && this.args == args
      ensures catalog == lookup(LStrip(imdb, {'t'}))
      ensures this.videoTracks == videoTracks && this.audioTracks == audioTracks && this.textTracks == textTracks
      ensures chapters == if menu.Some? then Some(Chapters(menu.value)) else None
      ensures primaryLang == PrimaryLanguage(audioTracks, catalog.languageCodes).value
      ensures this.helpers == helpers
      ensures nfo == Building([]) && Valid()
    {
      this.nfo := Building([]);
      this.file := file;
      this.catalog := lookup(LStrip(imdb, {'t'}));
      this.tmdb := tmdb;
      this.tvdb := tvdb;
      this.source := source;
      this.note := note;
      this.preview := preview;
      this.args := args;
      this.videoTracks := videoTracks;
      this.audioTracks := audioTracks;
      this.textTracks := textTracks;
      var chapters: Option<map<string, string>> := None;
      if menu.Some? {
        chapters := Some(Chapters(menu.value));
      }
      this.chapters := chapters;
      this.primaryLang := PrimaryLanguage(audioTracks, lookup(LStrip(imdb, {'t'})).languageCodes).value;
      this.helpers := helpers;
    }

    /** Construction as the caller sees it: the first failed ID check, or no language codes, raises. */
    static method New(
      file: FilePath, imdb: string, tmdb: Option<string>, tvdb: Option<TvdbId>,
      source: Option<string>, note: Option<string>, preview: Option<string>, args: map<string, int>,
      lookup: string -> Catalog, videoTracks: seq<MediaTrack>, audioTracks: seq<MediaTrack>,
      textTracks: seq<MediaTrack>, menu: Option<map<string, string>>, helpers: Helpers)
      returns (r: Result<Template, TemplateError>)
      ensures r.Ok? <==> CheckIds(imdb, tmdb, tvdb).Ok? && lookup(LStrip(imdb, {'t'})).languageCodes != []
      ensures CheckIds(imdb, tmdb, tvdb).Err? ==> r == Err(CheckIds(imdb, tmdb, tvdb).error)
      ensures CheckIds(imdb, tmdb, tvdb).Ok? && lookup(LStrip(imdb, {'t'})).languageCodes == [] ==>
        r == Err(NoLanguageCodes)
      ensures r.Ok? ==> fresh(r.value) && r.value.nfo == Building([]) && r.value.Valid()
      ensures r.Ok? ==> r.value.catalog == lookup(LStrip(imdb, {'t'})) && r.value.file == file
      ensures r.Ok? ==> r.value.tmdb == tmdb && r.value.tvdb == tvdb
      ensures r.Ok? ==> r.value.source == source && r.value.note == note && r.value.preview == preview
      ensures r.Ok? ==> r.value.args == args && r.value.helpers == helpers
      ensures r.Ok? ==> r.value.videoTracks == videoTracks && r.value.audioTracks == audioTracks
      ensures r.Ok? ==> r.value.textTracks == textTracks
      ensures r.Ok? ==> r.value.chapters == (if menu.Some? then Some(Chapters(menu.value)) else None)
      ensures r.Ok? ==> r.value.primaryLang == PrimaryLanguage(audioTracks, r.value.catalog.languageCodes).value
    {
      var ids := CheckIds(imdb, tmdb, tvdb);
      if ids.Err? {
        return Err(ids.error);
      }
      var primary := PrimaryLanguage(audioTracks, lookup(LStrip(imdb, {'t'})).languageCodes);
      if primary.Err? {
        return Err(primary.error);
      }
      var t := new Template(file, imdb, tmdb, tvdb, source, note, preview, args, lookup,
        videoTracks, audioTracks, textTracks, menu, helpers);
      return Ok(t);
    }

    /** `self._nfo = lines`: the accumulator starts over from the given lines, whatever it held. */
    method Reset(lines: seq<string>)
      modifies this
      ensures nfo == Building(lines)
    {
      nfo := Building(lines);
    }

    /** The lines are added at the end of the accumulator. */
    method Extend(lines: seq<string>)
      requires nfo.Building?
      modifies this
      ensures nfo == Building(old(nfo.lines) + lines)
    {
      nfo := Building(nfo.lines + lines);
    }

    /** Each line is wrapped and added at the end of the accumulator, in order. */
    method AppendWrapped(lines: seq<string>)
      requires nfo.Building?
      modifies this
      ensures nfo == Building(old(nfo.lines) + WrapEach(helpers, lines))
    {
      ghost var start := nfo.lines;
      var j := 0;
      while j < |lines|
        invariant 0 <= j <= |lines|
        invariant nfo == Building(start + WrapEach(helpers, lines[..j]))
      {
        assert WrapEach(helpers, lines[..j + 1]) == WrapEach(helpers, lines[..j]) + [Wrap66(helpers, lines[j])];
        nfo := Building(nfo.lines + [Wrap66(helpers, lines[j])]);
        j := j + 1;
      }
      assert lines[..j] == lines;
    }

    /** The loop over the video tracks: the wrapped lines of every summary, track after track. */
    method AppendVideoLines()
      requires nfo.Building?
      modifies this
      ensures nfo == Building(old(nfo.lines) + VideoLines(helpers, videoTracks))
    {
      ghost var start := nfo.lines;
      var i := 0;
      while i < |videoTracks|
        invariant 0 <= i <= |videoTracks|
        invariant nfo.Building? && nfo.lines == start + VideoLines(helpers, videoTracks[..i])
      {
        var summary := SplitLines(helpers.videoSummary(videoTracks[i]));
        VideoLinesStep(helpers, videoTracks, i);
        AppendWrapped(summary);
        AppendAssoc(start, VideoLines(helpers, videoTracks[..i]), WrapEach(helpers, summary));
        i := i + 1;
      }
      assert videoTracks[..i] == videoTracks;
    }

    /** The video section: its opening, then every summary line of every video track wrapped, or "  --". */
    method AppendVideoSection()
      requires nfo.Building?
      modifies this
      ensures nfo == Building(old(nfo.lines) + VideoSection(helpers, videoTracks))
    {
      ghost var start := nfo.lines;
      Extend(SectionOpening(VideoHeading, |videoTracks|));
      if videoTracks != [] {
        AppendVideoLines();
      } else {
        nfo := Building(nfo.lines + ["  --"]);
      }
      AppendAssoc(start, SectionOpening(VideoHeading, |videoTracks|), VideoBody(helpers, videoTracks));
    }

    /** An audio or subtitle section: its opening, then one wrapped summary per track, or "  --". */
    method AppendTrackSection(heading: string, tracks: seq<MediaTrack>, summary: MediaTrack -> string)
      requires nfo.Building?
      modifies this
      ensures nfo == Building(old(nfo.lines) + TrackSection(helpers, heading, summary, tracks))
    {
      AppendAssoc(nfo.lines, SectionOpening(heading, |tracks|), TrackBody(helpers, summary, tracks));
      Extend(SectionOpening(heading, |tracks|));
      ghost var start := nfo.lines;
      if tracks != [] {
        var i := 0;
        while i < |tracks|
          invariant 0 <= i <= |tracks|
          invariant nfo == Building(start + WrapEach(helpers, Summaries(summary, tracks[..i])))
        {
          assert WrapEach(helpers, Summaries(summary, tracks[..i + 1]))
            == WrapEach(helpers, Summaries(summary, tracks[..i])) + [Wrap66(helpers, summary(tracks[i]))];
          nfo := Building(nfo.lines + [Wrap66(helpers, summary(tracks[i]))]);
          i := i + 1;
        }
        assert tracks[..i] == tracks;
      } else {
        nfo := Building(nfo.lines + ["  --"]);
      }
    }

    /** The video, audio and subtitle sections, one after the other. */
    method AppendTrackSections()
      requires nfo.Building?
      modifies this
      ensures nfo == Building(old(nfo.lines) + TrackSections(helpers, videoTracks, audioTracks, textTracks))
    {
      ghost var start := nfo.lines;
      AppendVideoSection();
      AppendTrackSection(AudioHeading, audioTracks, helpers.audioSummary);
      AppendTrackSection(SubtitlesHeading, textTracks, helpers.subtitleSummary);
      ghost var v, a, t := VideoSection(helpers, videoTracks),
        TrackSection(helpers, AudioHeading, helpers.audioSummary, audioTracks),
        TrackSection(helpers, SubtitlesHeading, helpers.subtitleSummary, textTracks);
      AppendAssoc(start, v, a);
      AppendAssoc(start, v + a, t);
    }

    /** The TMDB and TVDB links, each only when that ID is truthy. */
    method AppendIdLines()
      requires nfo.Building?
      modifies this
      ensures nfo == Building(old(nfo.lines) + IdLines(this))
    {
      ghost var start := nfo.lines;
      if Truthy(tmdb) {
        Extend(["  TMDB     : https://themoviedb.org/" + tmdb.value]);
      }
      if TvdbTruthy(tvdb) {
        Extend(["  TVDB     : https://thetvdb.com/?tab=series&id=" + TvdbString(tvdb.value)]);
      }
      if Truthy(tmdb) && TvdbTruthy(tvdb) {
        AppendAssoc(start, [IdLines(this)[0]], [IdLines(this)[1]]);
      }
    }

    /** The chapters section: its opening with the given count, then the wrapped chapter list. */
    method AppendChapterSection(count: nat)
      requires nfo.Building?
      modifies this
      ensures nfo == Building(old(nfo.lines) + ChapterSection(helpers, count, chapters))
    {
      Extend(SectionOpening(ChaptersHeading, count));
      var listed := helpers.chapterList(chapters);
      AppendWrapped(if listed == [] then ["--"] else listed);
      assert nfo.lines == old(nfo.lines) + ChapterSection(helpers, count, chapters);
    }

    /** The lines joined by newlines replace the accumulator and become the cached text. */
    method Finish() returns (r: string)
      requires nfo.Building? && |nfo.lines| >= 2
      modifies this
      ensures r == Join(old(nfo.lines), "\n") && nfo == Done(r) && Valid()
    {
      r := Join(nfo.lines, "\n");
      assert |r| >= 1;
      nfo := Done(r);
    }
  }
}
