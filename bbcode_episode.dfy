/** examples/templates/bbcode/Episode.py: the BBCode template for one TV episode, written to a ".txt" file. */
module BBCodeEpisode {
  import opened Wrappers
  import opened Text
  import opened Paths
  import opened Template
  import PlainEpisode = Episode

  /** `get_banner_image(tvdb, primary_lang)`, asked only when there is a truthy TVDB ID. */
  function Banner(t: Template): Option<string> {
    if TvdbTruthy(t.tvdb) then t.helpers.banner(t.tvdb.value, t.primaryLang) else None
  }

  /** One linked thumbnail per preview image: `[url=…][img]…[/img][/url]`. */
  function PreviewImages(images: seq<(string, string)>): (r: seq<string>)
    ensures |r| == |images|
    ensures forall i :: 0 <= i < |images| ==> r[i] == "[url=" + images[i].0 + "][img]" + images[i].1 + "[/img][/url]"
  {
    if images == [] then []
    else ["[url=" + images[0].0 + "][img]" + images[0].1 + "[/img][/url]"] + PreviewImages(images[1..])
  }

  /** The banner image under a rule, when there is a banner. */
  function BannerBlock(banner: Option<string>): seq<string> {
    if Truthy(banner) then ["[img]" + banner.value + "[/img]", "", "[hr][/hr]", ""] else []
  }

  /** The centred block: the banner if any, the preview thumbnails laid out two per row. */
  function Top(t: Template): seq<string> {
    ["[align=center]"] + BannerBlock(Banner(t))
    + [t.helpers.layout(PreviewImages(t.helpers.previews(t.preview)), 2), "[/align]"]
  }

  /** The release, title, type, episode and IMDb lines, after a blank line. */
  function Info(t: Template): seq<string>
    requires PlainEpisode.EpisodeKnown(t)
  {
    [ "",
      "Release  : " + Stem(Name(t.file)),
      "Title    : " + t.catalog.title,
      "Type     : " + TypeLabel(t.catalog.kind) + " (" + t.catalog.seriesYears + ")",
      "Episode  : " + IntToString(t.args["season"]) + "x" + IntToString(t.args["episode"]) + " \"" + PlainEpisode.EpisodeName(t) + "\"",
      "IMDb     : https://imdb.com/title/tt" + t.catalog.movieId ]
  }

  /** The TVDB link, printed only for a truthy TVDB ID. */
  function TvdbLine(t: Template): seq<string> {
    if TvdbTruthy(t.tvdb) then ["TVDB     : https://thetvdb.com/?tab=series&id=" + TvdbString(t.tvdb.value)] else []
  }

  /** Preview, chapters and source are always printed; an absent preview or source shows as "None". */
  function Status(t: Template): seq<string> {
    ["Preview  : " + Show(t.preview), "Chapters : " + HasChapters(t.chapters), "Source   : " + Show(t.source)]
  }

  /** The note inside `[note]` tags, wrapped to 70 columns with the default indent, when there is a note. */
  function NoteTag(t: Template): seq<string> {
    if Truthy(t.note) then ["", "[note]" + t.helpers.wrap(t.note.value, 70, None) + "[/note]"] else []
  }

  /** Everything between the centred block and the track sections. */
  function Details(t: Template): seq<string>
    requires PlainEpisode.EpisodeKnown(t)
  {
    Info(t) + TvdbLine(t) + Status(t) + NoteTag(t) + ["", "[hr][/hr]"]
  }

  /**
   * The lines `nfo` joins. `self.tmdb.id` fails on the string ID the
   * constructor stores, so no TMDB line is printed; the chapter count is
   * the size of the chapter map, an absent map counting as empty.
   */
  function Document(t: Template): seq<string>
    requires PlainEpisode.EpisodeKnown(t)
  {
    Top(t) + Details(t) + TrackSections(t.helpers, t.videoTracks, t.audioTracks, t.textTracks)
    + ChapterSection(t.helpers, ChapterCount(t.chapters), t.chapters)
  }

  /** The centred block opens the document and is closed before the details; the banner is shown only for a truthy banner. */
  lemma TopLines(t: Template)
    ensures var n := |BannerBlock(Banner(t))|;
      |Top(t)| == n + 3 && (n == 4 <==> Truthy(Banner(t))) && (n == 0 <==> !Truthy(Banner(t)))
      && Top(t)[0] == "[align=center]"
      && Top(t)[n + 1] == t.helpers.layout(PreviewImages(t.helpers.previews(t.preview)), 2)
      && Top(t)[n + 2] == "[/align]"
    ensures Truthy(Banner(t)) ==> Top(t)[1] == "[img]" + Banner(t).value + "[/img]"
  {
  }

  /** Without a truthy TVDB ID no banner is asked for, and the centred block holds only the thumbnails. */
  lemma NoTvdbNoBanner(t: Template)
    requires !TvdbTruthy(t.tvdb)
    ensures Top(t) == ["[align=center]", t.helpers.layout(PreviewImages(t.helpers.previews(t.preview)), 2), "[/align]"]
  {
  }

  /** The details name the unwrapped release, print a TVDB link exactly for a truthy TVDB ID, and always print the source line. */
  lemma DetailsLines(t: Template)
    requires PlainEpisode.EpisodeKnown(t)
    ensures var k := 6 + |TvdbLine(t)|;
      |Details(t)| == k + 3 + |NoteTag(t)| + 2
      && Details(t)[1] == "Release  : " + Stem(Name(t.file))
      && (|TvdbLine(t)| == 1 <==> TvdbTruthy(t.tvdb))
      && Details(t)[k + 2] == "Source   : " + Show(t.source)
      && Details(t)[|Details(t)| - 1] == "[hr][/hr]"
  {
    FiveParts(Info(t), TvdbLine(t), Status(t), NoteTag(t), ["", "[hr][/hr]"], 1, 2);
  }

  /** The note is printed, wrapped in `[note]` tags, exactly when there is a non-empty note. */
  lemma NoteShown(t: Template)
    ensures |NoteTag(t)| == 2 <==> Truthy(t.note)
    ensures |NoteTag(t)| == 0 <==> !Truthy(t.note)
    ensures Truthy(t.note) ==> NoteTag(t)[1] == "[note]" + t.helpers.wrap(t.note.value, 70, None) + "[/note]"
  {
  }

  /** The document ends with the chapters section, whose header counts no chapters when there is no chapter map. */
  lemma ChaptersCounted(t: Template)
    requires PlainEpisode.EpisodeKnown(t)
    ensures var c := ChapterSection(t.helpers, ChapterCount(t.chapters), t.chapters);
      |Document(t)| >= |c| && Document(t)[|Document(t)| - |c|..] == c
      && c[1] == SectionHeader(ChaptersHeading, ChapterCount(t.chapters))
    ensures t.chapters.None? ==> ChapterCount(t.chapters) == 0
  {
    var c := ChapterSection(t.helpers, ChapterCount(t.chapters), t.chapters);
    var front := Top(t) + Details(t) + TrackSections(t.helpers, t.videoTracks, t.audioTracks, t.textTracks);
    assert Document(t) == front + c;
    assert Document(t)[|front|..] == c;
  }

  class Episode {
    const base: Template

    constructor (base: Template)
      ensures this.base == base
    {
      this.base := base;
    }

    /** `release_name`: the file's stem. */
    function ReleaseName(): (r: string)
      ensures r + Suffix(Name(base.file)) == Name(base.file)
    {
      Stem(Name(base.file))
    }

    /** `file_ext`: BBCode is saved as text. */
    function FileExt(): (r: string)
      ensures r == ".txt"
    {
      ".txt"
    }

    /** The centred block; `_nfo` starts over as a fresh list holding "[align=center]". */
    method StartTop()
      modifies base
      ensures base.nfo == Building(Top(base))
    {
      var banner := if TvdbTruthy(base.tvdb) then base.helpers.banner(base.tvdb.value, base.primaryLang) else None;
      var images := PreviewImages(base.helpers.previews(base.preview));
      base.Reset(["[align=center]"]);
      if Truthy(banner) {
        base.Extend(["[img]" + banner.value + "[/img]", "", "[hr][/hr]", ""]);
      }
      base.Extend([base.helpers.layout(images, 2), "[/align]"]);
    }

    /** The details, from the blank line before the release name to the rule before the sections. */
    method AppendDetails()
      requires base.nfo.Building? && PlainEpisode.EpisodeKnown(base)
      modifies base
      ensures base.nfo == Building(old(base.nfo.lines) + Details(base))
    {
      ghost var start := base.nfo.lines;
      base.Extend(Info(base));
      if TvdbTruthy(base.tvdb) {
        base.Extend(["TVDB     : https://thetvdb.com/?tab=series&id=" + TvdbString(base.tvdb.value)]);
      }
      assert base.nfo.lines == start + Info(base) + TvdbLine(base);
      base.Extend(Status(base));
      if Truthy(base.note) {
        base.Extend(["", "[note]" + base.helpers.wrap(base.note.value, 70, None) + "[/note]"]);
      }
      assert base.nfo.lines == start + Info(base) + TvdbLine(base) + Status(base) + NoteTag(base);
      base.Extend(["", "[hr][/hr]"]);
      AppendAssoc(start, Info(base), TvdbLine(base));
      AppendAssoc(start, Info(base) + TvdbLine(base), Status(base));
      AppendAssoc(start, Info(base) + TvdbLine(base) + Status(base), NoteTag(base));
      AppendAssoc(start, Info(base) + TvdbLine(base) + Status(base) + NoteTag(base), ["", "[hr][/hr]"]);
    }

    /**
     * `nfo`: a cached text is returned as it is; otherwise the lines are
     * accumulated in `_nfo`, joined, and the text replaces the list.
     */
    method Nfo() returns (r: string)
      requires base.Valid() && PlainEpisode.EpisodeKnown(base) && !Truthy(base.tmdb)
      modifies base
      ensures base.Valid() && base.nfo == Done(r)
      ensures old(base.nfo).Done? ==> r == old(base.nfo).text
      ensures old(base.nfo) == Building([]) ==> r == Join(Document(base), "\n")
    {
      if base.nfo.Done? {
        return base.nfo.text;
      }
      StartTop();
      AppendDetails();
      base.AppendTrackSections();
      base.AppendChapterSection(ChapterCount(base.chapters));
      assert base.nfo.lines == Document(base);
      r := base.Finish();
    }
  }
}
