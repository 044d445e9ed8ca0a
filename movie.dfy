/** examples/templates/Movie.py: the plain-text movie template. */
module Movie {
  import opened Wrappers
  import opened Text
  import opened Paths
  import opened Template

  /** The seven header lines: release name, title, type and year, IMDb link, preview, whether there are chapters. */
  function Head(t: Template): seq<string> {
    [ Wrap66(t.helpers, Stem(Name(t.file))),
      "",
      "  Title    : " + t.catalog.title,
      "  Type     : " + TypeLabel(t.catalog.kind) + " (" + t.catalog.year + ")",
      "  IMDb     : https://imdb.com/title/tt" + t.catalog.movieId,
      "  Preview  : " + Show(t.preview),
      "  Chapters : " + HasChapters(t.chapters) ]
  }

  /**
   * The lines `nfo` joins for a movie: the header, the optional Source and
   * Note blocks, then the video, audio, subtitle and chapter sections.
   * `self.tmdb.id` fails on the string ID the constructor stores, so a movie
   * prints no TMDB line, and `len(self.chapters)` needs a chapter map.
   */
  function Document(t: Template): seq<string>
    requires t.chapters.Some?
  {
    Head(t) + SourceBlock(t.helpers, t.source) + NoteBlock(t.helpers, t.note)
    + TrackSections(t.helpers, t.videoTracks, t.audioTracks, t.textTracks) + ChapterSection(t.helpers, |t.chapters.value|, t.chapters)
  }

  /** The header lines name the release, the catalog title, type, year and IMDb ID, the preview, and say Yes exactly when there are chapters. */
  lemma HeadLines(t: Template)
    ensures |Head(t)| == 7
    ensures Head(t)[0] == Wrap66(t.helpers, Stem(Name(t.file))) && Head(t)[1] == ""
    ensures Head(t)[2] == "  Title    : " + t.catalog.title
    ensures Head(t)[4] == "  IMDb     : https://imdb.com/title/tt" + t.catalog.movieId
    ensures Head(t)[6] == "  Chapters : Yes" <==> (t.chapters.Some? && t.chapters.value != map[])
  {
    ChaptersLine(t.chapters);
  }

  /** The document opens with the header. */
  lemma HeadFirst(t: Template)
    requires t.chapters.Some?
    ensures |Document(t)| > 7 && Document(t)[..7] == Head(t)
  {
  }

  /** Right after the header the Source block appears exactly for a non-empty source, then the Note block exactly for a non-empty note. */
  lemma BlocksAfterHead(t: Template)
    requires t.chapters.Some?
    ensures var k := 7 + |SourceBlock(t.helpers, t.source)|;
      |Document(t)| > k + 2
      && (Document(t)[8] == "  Source :" <==> Truthy(t.source))
      && (Document(t)[k + 1] == "  Note :" <==> Truthy(t.note))
  {
    var h := t.helpers;
    var tracks := TrackSections(h, t.videoTracks, t.audioTracks, t.textTracks);
    TrackSectionsLayout(h, t.videoTracks, t.audioTracks, t.textTracks);
    SectionHeaderLong(VideoHeading, |t.videoTracks|);
    assert |tracks[1]| > 10;
    BlocksShown(h, t.source, t.note, Head(t), tracks, ChapterSection(h, |t.chapters.value|, t.chapters));
  }

  /** After the blocks come the track sections and then the chapters section, which ends the document. */
  lemma SectionsLast(t: Template)
    requires t.chapters.Some?
    ensures var tracks := TrackSections(t.helpers, t.videoTracks, t.audioTracks, t.textTracks);
      var n := |Document(t)| - |ChapterSection(t.helpers, |t.chapters.value|, t.chapters)|;
      n >= |tracks| + 7
      && Document(t)[n - |tracks|..n] == tracks
      && Document(t)[n..] == ChapterSection(t.helpers, |t.chapters.value|, t.chapters)
      && Document(t)[n + 1] == SectionHeader(ChaptersHeading, |t.chapters.value|)
  {
    var h := t.helpers;
    var tracks := TrackSections(h, t.videoTracks, t.audioTracks, t.textTracks);
    var front := Head(t) + SourceBlock(h, t.source) + NoteBlock(h, t.note);
    assert Document(t) == front + tracks + ChapterSection(t.helpers, |t.chapters.value|, t.chapters);
  }

  class Movie {
    const base: Template

    constructor (base: Template)
      ensures this.base == base
    {
      this.base := base;
    }

    /** `release_name`: the file's stem. */
    function ReleaseName(): (r: string)
      ensures r + Suffix(Name(base.file)) == Name(base.file)
    {
      Stem(Name(base.file))
    }

    /** `file_ext` */
    function FileExt(): (r: string)
      ensures r == ".nfo"
    {
      ".nfo"
    }

    /** The header and the optional Source and Note blocks. */
    method AppendHead()
      requires base.nfo.Building?
      modifies base
      ensures base.nfo == Building(old(base.nfo.lines) + Head(base) + SourceBlock(base.helpers, base.source) + NoteBlock(base.helpers, base.note))
    {
      var h := base.helpers;
      base.Extend(Head(base));
      if Truthy(base.source) {
        base.Extend(SourceBlock(h, base.source));
      }
      if Truthy(base.note) {
        base.Extend(NoteBlock(h, base.note));
      }
    }

    /**
     * `nfo`: a cached text is returned as it is; otherwise the lines are
     * accumulated in `_nfo`, joined, and the text replaces the list.
     */
    method Nfo() returns (r: string)
      requires base.Valid() && !Truthy(base.tmdb) && base.chapters.Some?
      modifies base
      ensures base.Valid() && base.nfo == Done(r)
      ensures old(base.nfo).Done? ==> r == old(base.nfo).text
      ensures old(base.nfo) == Building([]) ==> r == Join(Document(base), "\n")
    {
      if base.nfo.Done? {
        return base.nfo.text;
      }
      assert base.nfo.lines == [];
      AppendHead();
      EmptyAppend(Head(base));
      base.AppendTrackSections();
      base.AppendChapterSection(|base.chapters.value|);
      assert base.nfo.lines == Document(base);
      r := base.Finish();
    }
  }
}
