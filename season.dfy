/** examples/templates/Season.py: the plain-text template for a whole TV season. */
module Season {
  import opened Wrappers
  import opened Text
  import opened Paths
  import opened Template

  /** The season the arguments name is in the catalog: `self.args["season"]` and the `episodes` lookup raise otherwise. */
  predicate SeasonKnown(t: Template) {
    "season" in t.args && t.args["season"] in t.catalog.episodes
  }

  /** The number of episodes the catalog lists for the season. */
  function EpisodeCount(t: Template): nat
    requires SeasonKnown(t)
  {
    |t.catalog.episodes[t.args["season"]]|
  }

  /** `release_name`: a season is released as a folder, so the name is that of the file's parent directory. */
  function ReleaseName(t: Template): string {
    Name(Parent(t.file))
  }

  /** The fixed opening lines: release name, title, type with the series years, season with its episode count, IMDb link. */
  function Intro(t: Template): seq<string>
    requires SeasonKnown(t)
  {
    [ Wrap66(t.helpers, ReleaseName(t)),
      "",
      "  Title    : " + t.catalog.title,
      "  Type     : " + TypeLabel(t.catalog.kind) + " (" + t.catalog.seriesYears + ")",
      "  Season   : " + IntToString(t.args["season"]) + " (" + NatToString(EpisodeCount(t)) + " Episodes)",
      "  IMDb     : https://imdb.com/title/tt" + t.catalog.movieId ]
  }

  /** The header: the opening lines, the ID links, then preview and whether there are chapters. */
  function Head(t: Template): seq<string>
    requires SeasonKnown(t)
  {
    Intro(t) + IdLines(t) + ["  Preview  : " + Show(t.preview), "  Chapters : " + HasChapters(t.chapters)]
  }

  /** The lines `nfo` joins for a season: as for an episode, but without a chapters section. */
  function Document(t: Template): seq<string>
    requires SeasonKnown(t)
  {
    Head(t) + SourceBlock(t.helpers, t.source) + NoteBlock(t.helpers, t.note)
    + TrackSections(t.helpers, t.videoTracks, t.audioTracks, t.textTracks)
  }

  /** The season line carries the season number and the number of episodes in the catalog, in decimal. */
  lemma SeasonLine(t: Template)
    requires SeasonKnown(t)
    ensures |Intro(t)| == 6
    ensures var line := Intro(t)[4];
      var count := NatToString(|t.catalog.episodes[t.args["season"]]|);
      line == "  Season   : " + IntToString(t.args["season"]) + " (" + count + " Episodes)"
      && DecimalValue(count) == |t.catalog.episodes[t.args["season"]]|
  {
  }

  /** The release name is the parent directory's name: the one component before the file's own. */
  lemma ReleaseNameIsParent(t: Template)
    requires |t.file.parts| >= 2
    ensures ReleaseName(t) == t.file.parts[|t.file.parts| - 2]
  {
  }

  /** The header ends with the preview and chapters lines, right after the links. */
  lemma HeadLines(t: Template)
    requires SeasonKnown(t)
    ensures var n := 6 + |IdLines(t)|;
      |Head(t)| == n + 2
      && Head(t)[..6] == Intro(t)
      && Head(t)[6..n] == IdLines(t)
      && Head(t)[n] == "  Preview  : " + Show(t.preview)
  {
    ThreeParts(Intro(t), IdLines(t), ["  Preview  : " + Show(t.preview), "  Chapters : " + HasChapters(t.chapters)]);
  }

  /** The last header line says Yes exactly when there are chapters. */
  lemma ChaptersFlag(t: Template)
    requires SeasonKnown(t)
    ensures Head(t)[|Head(t)| - 1] == "  Chapters : Yes" <==> (t.chapters.Some? && t.chapters.value != map[])
  {
    assert Head(t)[|Head(t)| - 1] == "  Chapters : " + HasChapters(t.chapters);
    ChaptersLine(t.chapters);
  }

  /** Right after the header the Source block appears exactly for a non-empty source, then the Note block exactly for a non-empty note. */
  lemma BlocksAfterHead(t: Template)
    requires SeasonKnown(t)
    ensures var p := |Head(t)|;
      var k := p + |SourceBlock(t.helpers, t.source)|;
      |Document(t)| > k + 2
      && (Document(t)[p + 1] == "  Source :" <==> Truthy(t.source))
      && (Document(t)[k + 1] == "  Note :" <==> Truthy(t.note))
  {
    var h := t.helpers;
    var tracks := TrackSections(h, t.videoTracks, t.audioTracks, t.textTracks);
    TrackSectionsLayout(h, t.videoTracks, t.audioTracks, t.textTracks);
    SectionHeaderLong(VideoHeading, |t.videoTracks|);
    assert |tracks[1]| > 10;
    BlocksShown(h, t.source, t.note, Head(t), tracks, []);
    assert Head(t) + SourceBlock(h, t.source) + NoteBlock(h, t.note) + tracks + [] == Document(t);
  }

  /** The document ends with the track sections. */
  lemma EndsWithTracks(t: Template)
    requires SeasonKnown(t)
    ensures var tracks := TrackSections(t.helpers, t.videoTracks, t.audioTracks, t.textTracks);
      |Document(t)| >= |tracks| + |Head(t)| && Document(t)[|Document(t)| - |tracks|..] == tracks
  {
    var h := t.helpers;
    var tracks := TrackSections(h, t.videoTracks, t.audioTracks, t.textTracks);
    var front := Head(t) + SourceBlock(h, t.source) + NoteBlock(h, t.note);
    assert Document(t) == front + tracks;
  }

  /** The last section is the subtitle section: there is no chapters section after it. */
  lemma EndsWithSubtitles(t: Template)
    requires SeasonKnown(t)
    ensures EndsUnder(Document(t), TrackBody(t.helpers, t.helpers.subtitleSummary, t.textTracks),
      SectionHeader(SubtitlesHeading, |t.textTracks|))
  {
    var front := Head(t) + SourceBlock(t.helpers, t.source) + NoteBlock(t.helpers, t.note);
    var tracks := TrackSections(t.helpers, t.videoTracks, t.audioTracks, t.textTracks);
    assert Document(t) == front + tracks;
    AppendTail(front, tracks);
    TrackSectionsEnd(t.helpers, t.videoTracks, t.audioTracks, t.textTracks);
    TailOfTail(Document(t), tracks, TrackBody(t.helpers, t.helpers.subtitleSummary, t.textTracks),
      SectionHeader(SubtitlesHeading, |t.textTracks|));
  }

  class Season {
    const base: Template

    constructor (base: Template)
      ensures this.base == base
    {
      this.base := base;
    }

    /** The header and the optional Source and Note blocks. */
    method AppendHead()
      requires base.nfo.Building? && SeasonKnown(base)
      modifies base
      ensures base.nfo == Building(old(base.nfo.lines) + Head(base) + SourceBlock(base.helpers, base.source) + NoteBlock(base.helpers, base.note))
    {
      var h := base.helpers;
      ghost var start := base.nfo.lines;
      base.Extend(Intro(base));
      base.AppendIdLines();
      base.Extend(["  Preview  : " + Show(base.preview), "  Chapters : " + HasChapters(base.chapters)]);
      AppendAssoc(start, Intro(base), IdLines(base));
      AppendAssoc(start, Intro(base) + IdLines(base), ["  Preview  : " + Show(base.preview), "  Chapters : " + HasChapters(base.chapters)]);
      assert base.nfo.lines == start + Head(base);
      if Truthy(base.source) {
        base.Extend(SourceBlock(h, base.source));
      } else {
        assert start + Head(base) + SourceBlock(h, base.source) == start + Head(base);
      }
      ghost var front := start + Head(base) + SourceBlock(h, base.source);
      assert base.nfo.lines == front;
      if Truthy(base.note) {
        base.Extend(NoteBlock(h, base.note));
      } else {
        assert front + NoteBlock(h, base.note) == front;
      }
    }

    /**
     * `nfo`: a cached text is returned as it is; otherwise the lines are
     * accumulated in `_nfo`, joined, and the text replaces the list.
     */
    method Nfo() returns (r: string)
      requires base.Valid() && SeasonKnown(base)
      modifies base
      ensures base.Valid() && base.nfo == Done(r)
      ensures old(base.nfo).Done? ==> r == old(base.nfo).text
      ensures old(base.nfo) == Building([]) ==> r == Join(Document(base), "\n")
    {
      if base.nfo.Done? {
        return base.nfo.text;
      }
      assert base.nfo.lines == [];
      AppendHead();
      EmptyAppend(Head(base));
      base.AppendTrackSections();
      assert base.nfo.lines == Document(base);
      r := base.Finish();
    }
  }
}
