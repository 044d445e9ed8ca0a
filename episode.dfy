/** examples/templates/Episode.py: the plain-text template for one TV episode. */
module Episode {
  import opened Wrappers
  import opened Text
  import opened Paths
  import opened Template

  /**
   * The episode the arguments name is in the catalog: `self.args["season"]`,
   * `self.args["episode"]` and the `episodes` lookup raise otherwise.
   */
  predicate EpisodeKnown(t: Template) {
    "season" in t.args && "episode" in t.args
    && t.args["season"] in t.catalog.episodes
    && t.args["episode"] in t.catalog.episodes[t.args["season"]]
  }

  /** The episode's title as the catalog lists it. */
  function EpisodeName(t: Template): string
    requires EpisodeKnown(t)
  {
    t.catalog.episodes[t.args["season"]][t.args["episode"]]
  }

  /** The fixed opening lines: release name, title, type with the series years, episode, IMDb link. */
  function Intro(t: Template): seq<string>
    requires EpisodeKnown(t)
  {
    [ Wrap66(t.helpers, Stem(Name(t.file))),
      "",
      "  Title    : " + t.catalog.title,
      "  Type     : " + TypeLabel(t.catalog.kind) + " (" + t.catalog.seriesYears + ")",
      "  Episode  : " + IntToString(t.args["season"]) + "x" + IntToString(t.args["episode"]) + " \"" + EpisodeName(t) + "\"",
      "  IMDb     : https://imdb.com/title/tt" + t.catalog.movieId ]
  }

  /** The header: the opening lines, the ID links, then preview and whether there are chapters. */
  function Head(t: Template): seq<string>
    requires EpisodeKnown(t)
  {
    Intro(t) + IdLines(t) + ["  Preview  : " + Show(t.preview), "  Chapters : " + HasChapters(t.chapters)]
  }

  /** The lines `nfo` joins for an episode; `len(self.chapters)` needs a chapter map. */
  function Document(t: Template): seq<string>
    requires EpisodeKnown(t) && t.chapters.Some?
  {
    Head(t) + SourceBlock(t.helpers, t.source) + NoteBlock(t.helpers, t.note)
    + TrackSections(t.helpers, t.videoTracks, t.audioTracks, t.textTracks) + ChapterSection(t.helpers, |t.chapters.value|, t.chapters)
  }

  /** The episode line names the season and episode numbers the arguments give and the catalog's title for them. */
  lemma IntroLines(t: Template)
    requires EpisodeKnown(t)
    ensures |Intro(t)| == 6
    ensures Intro(t)[4] == "  Episode  : " + IntToString(t.args["season"]) + "x" + IntToString(t.args["episode"])
      + " \"" + t.catalog.episodes[t.args["season"]][t.args["episode"]] + "\""
    ensures Intro(t)[3] == "  Type     : " + TypeLabel(t.catalog.kind) + " (" + t.catalog.seriesYears + ")"
  {
  }

  /** The header ends with the preview and chapters lines, right after the links. */
  lemma HeadLines(t: Template)
    requires EpisodeKnown(t)
    ensures var n := 6 + |IdLines(t)|;
      |Head(t)| == n + 2
      && Head(t)[..6] == Intro(t)
      && Head(t)[6..n] == IdLines(t)
      && Head(t)[n] == "  Preview  : " + Show(t.preview)
  {
    ThreeParts(Intro(t), IdLines(t), ["  Preview  : " + Show(t.preview), "  Chapters : " + HasChapters(t.chapters)]);
  }

  /** The last header line says Yes exactly when there are chapters. */
  lemma ChaptersFlag(t: Template)
    requires EpisodeKnown(t)
    ensures Head(t)[|Head(t)| - 1] == "  Chapters : Yes" <==> (t.chapters.Some? && t.chapters.value != map[])
  {
    assert Head(t)[|Head(t)| - 1] == "  Chapters : " + HasChapters(t.chapters);
    ChaptersLine(t.chapters);
  }

  /** The document opens with the header. */
  lemma HeadFirst(t: Template)
    requires EpisodeKnown(t) && t.chapters.Some?
    ensures |Document(t)| > |Head(t)|
    ensures forall i :: 0 <= i < |Head(t)| ==> Document(t)[i] == Head(t)[i]
  {
  }

  /** Right after the header the Source block appears exactly for a non-empty source, then the Note block exactly for a non-empty note. */
  lemma BlocksAfterHead(t: Template)
    requires EpisodeKnown(t) && t.chapters.Some?
    ensures var p := |Head(t)|;
      var k := p + |SourceBlock(t.helpers, t.source)|;
      |Document(t)| > k + 2
      && (Document(t)[p + 1] == "  Source :" <==> Truthy(t.source))
      && (Document(t)[k + 1] == "  Note :" <==> Truthy(t.note))
  {
    var h := t.helpers;
    var tracks := TrackSections(h, t.videoTracks, t.audioTracks, t.textTracks);
    TrackSectionsLayout(h, t.videoTracks, t.audioTracks, t.textTracks);
    SectionHeaderLong(VideoHeading, |t.videoTracks|);
    assert |tracks[1]| > 10;
    BlocksShown(h, t.source, t.note, Head(t), tracks, ChapterSection(h, |t.chapters.value|, t.chapters));
  }

  /** After the blocks come the track sections and then the chapters section, which ends the document. */
  lemma SectionsLast(t: Template)
    requires EpisodeKnown(t) && t.chapters.Some?
    ensures var tracks := TrackSections(t.helpers, t.videoTracks, t.audioTracks, t.textTracks);
      var chapters := ChapterSection(t.helpers, |t.chapters.value|, t.chapters);
      var n := |Document(t)| - |chapters|;
      n >= |tracks| + |Head(t)|
      && Document(t)[n - |tracks|..n] == tracks
      && Document(t)[n..] == chapters
      && Document(t)[n + 1] == SectionHeader(ChaptersHeading, |t.chapters.value|)
  {
    var h := t.helpers;
    var tracks := TrackSections(h, t.videoTracks, t.audioTracks, t.textTracks);
    var front := Head(t) + SourceBlock(h, t.source) + NoteBlock(h, t.note);
    assert Document(t) == front + tracks + ChapterSection(h, |t.chapters.value|, t.chapters);
  }

  class Episode {
    const base: Template

    constructor (base: Template)
      ensures this.base == base
    {
      this.base := base;
    }

    /** `release_name`: the file's stem. */
    function ReleaseName(): (r: string)
      ensures r + Suffix(Name(base.file)) == Name(base.file)
    {
      Stem(Name(base.file))
    }

    /** `file_ext` */
    function FileExt(): (r: string)
      ensures r == ".nfo"
    {
      ".nfo"
    }

    /** The header: opening lines, links, preview and chapters. */
    method AppendHeader()
      requires base.nfo.Building? && EpisodeKnown(base)
      modifies base
      ensures base.nfo == Building(old(base.nfo.lines) + Head(base))
    {
      ghost var start := base.nfo.lines;
      base.Extend(Intro(base));
      base.AppendIdLines();
      base.Extend(["  Preview  : " + Show(base.preview), "  Chapters : " + HasChapters(base.chapters)]);
      AppendAssoc(start, Intro(base), IdLines(base));
      AppendAssoc(start, Intro(base) + IdLines(base), ["  Preview  : " + Show(base.preview), "  Chapters : " + HasChapters(base.chapters)]);
    }

    /** The header and the optional Source and Note blocks. */
    method AppendHead()
      requires base.nfo.Building? && EpisodeKnown(base)
      modifies base
      ensures base.nfo == Building(old(base.nfo.lines) + Head(base) + SourceBlock(base.helpers, base.source) + NoteBlock(base.helpers, base.note))
    {
      var h := base.helpers;
      ghost var start := base.nfo.lines;
      AppendHeader();
      if Truthy(base.source) {
        base.Extend(SourceBlock(h, base.source));
      } else {
        assert start + Head(base) + SourceBlock(h, base.source) == start + Head(base);
      }
      ghost var front := start + Head(base) + SourceBlock(h, base.source);
      assert base.nfo.lines == front;
      if Truthy(base.note) {
        base.Extend(NoteBlock(h, base.note));
      } else {
        assert front + NoteBlock(h, base.note) == front;
      }
    }

    /**
     * `nfo`: a cached text is returned as it is; otherwise the lines are
     * accumulated in `_nfo`, joined, and the text replaces the list.
     */
    method Nfo() returns (r: string)
      requires base.Valid() && EpisodeKnown(base) && base.chapters.Some?
      modifies base
      ensures base.Valid() && base.nfo == Done(r)
      ensures old(base.nfo).Done? ==> r == old(base.nfo).text
      ensures old(base.nfo) == Building([]) ==> r == Join(Document(base), "\n")
    {
      if base.nfo.Done? {
        return base.nfo.text;
      }
      assert base.nfo.lines == [];
      AppendHead();
      EmptyAppend(Head(base));
      base.AppendTrackSections();
      base.AppendChapterSection(|base.chapters.value|);
      assert base.nfo.lines == Document(base);
      r := base.Finish();
    }
  }
}
