# nfog core, modelled in Dafny

nfog generates NFO and BBCode release descriptions for video files. A
template reads the catalog entry (IMDb) and the probed tracks (MediaInfo) of a
file and builds a document line by line. An optional artwork can wrap the
document. The document is then written beside the input file. This project
models the deterministic core of that pipeline and proves what it promises:

- the track rules: the audio codec shorthand, the weighted channel count, the
  subtitle codec relabelling, the display language and the "redundant title"
  check (`Constants`, `BaseTrack`, `Audio`, `Subtitle`);
- template construction: IMDb/TMDB/TVDB ID validation, conversion of
  menu-track keys into chapter timecodes, the primary language, and the empty
  output accumulator (`Template`);
- document assembly by the Movie, Episode, Season and BBCode Episode
  templates. Each is a class over a shared `Template` object whose `nfo` field
  is a list of lines while it is built and the cached text afterwards
  (`Movie`, `Episode`, `Season`, `BBCodeEpisode`);
- the MiU artwork composition (`MiU`);
- template discovery and lookup by the command group (`Group`);
- the `config` command's dotted-key editing, the ID fallback of `generate`
  and the output path of `generator` (`Cli`).

`Text` and `Paths` model the Python `str` methods and the POSIX `pathlib`
rules the core relies on. `Wrappers` holds `Option` and `Result`.

Two rules are worth stating as the code has them:

- the primary language is the raw language of the first audio track, in
  stream order, whose raw language is non-empty, so "und" can be chosen. The
  catalog's first language code is evaluated even when a track has a
  language, so an empty list of codes raises in every case
  (nfog/templates/Template.py:69-77);
- the redundant-title check looks for a language name (through langcodes) and
  for nine candidates: the format with and without non-word characters, the
  codec shorthand likewise (with "+" spelt "P"), the first word of the writing
  library, and "Mono", "Stereo", "Surround" and "Atmos"
  (nfog/tracks/BaseTrack.py:84-114).

Functions that only define a value carry no contract of their own. The lemmas
in the table state what they mean:

- `Template.Chapters`: ChaptersKept, ChaptersOnlyKept and ChapterLabel;
- `Template.SectionHeader`: SectionHeaderCount, SectionHeaderInjective and SectionHeaderLong;
- `Template.TypeLabel`: TypeLabelShape;
- the `Head` and `Document` functions of Movie, Episode, Season and BBCodeEpisode:
  their HeadLines, HeadFirst, BlocksAfterHead, SectionsLast, EndsWith… and
  DetailsLines lemmas;
- `Season.ReleaseName`: ReleaseNameIsParent;
- `Season.EpisodeCount`: SeasonLine;
- `Episode.EpisodeName`: IntroLines;
- BBCodeEpisode's `Banner`, `Top`, `Info`, `Details` and `NoteTag`: TopLines,
  NoTvdbNoBanner, DetailsLines and NoteShown;
- MiU's `Lines`, `Inner`, `Footer`, `ReleaseNameWidth` and `WithTemplate`
  (the join of `Lines`): NfoBranch, DropsTwo, OtherBranch, InnerOrder,
  ReleaseLineWidth, TagCentred and ClockCentred;
- Group's `Listed`, `CommandName` and `Excluded`: ListedMembers, ListedStep,
  EntryIsName, CommandNameShape and CommandNameSegments;
- `Group.SortNames`: SortNamesSorts;
- Cli's `SetResult`, `UnsetResult`, `ResolvedIds` and `OutputPath`: SetThenGet,
  UnsetRemovesLeaf, GivenIdsKept and OutputBesideInput;
- `Text.Strip`: StripEnds and StripInside.

## Model

| member | source | states |
|---|---|---|
| Constants.DynamicRangeMap | nfog/constants.py:6-12 | every label is HDR10, HDR10+ or DV; a label that is itself a key maps to itself (HDR10, HDR10+), and DV is not a key |
| Constants.DynamicRangeLabels | nfog/constants.py:6-12 | SMPTE ST 2086 → HDR10, SMPTE ST 2094 App 4 → HDR10+, Dolby Vision → DV; five entries |
| Constants.AudioChannelLayoutWeight | nfog/constants.py:14-16 | the only key is "LFE", weighing one tenth of a channel |
| Audio.WeightTablesAgree | nfog/tracks/Audio.py:11-13 | the weight table inside Audio equals the one in constants.py |
| Audio.Codec | nfog/tracks/Audio.py:19-27 | E-AC-3 → DD+, AC-3 → DD, every other format unchanged |
| Audio.Channels | nfog/tracks/Audio.py:29-37 | a non-empty layout gives its weighted token count; otherwise the raw channel count; with neither, an error |
| Audio.WeightSumCounts | nfog/tracks/Audio.py:33-36 | the count in tenths is 10 per non-LFE token plus 1 per LFE token |
| Audio.WeightSumBound | nfog/tracks/Audio.py:33-36 | the count never exceeds one channel per token, and equals it exactly when no token is LFE |
| Audio.WeightSumPermutation | nfog/tracks/Audio.py:33-36 | the count depends only on the multiset of tokens |
| Audio.LayoutOrderIrrelevant | nfog/tracks/Audio.py:32-36 | two layouts with the same tokens in any order give the same channels |
| Audio.LayoutOfTokens | nfog/tracks/Audio.py:35 | a layout of space-joined tokens counts exactly those tokens |
| Audio.FivePointOne | nfog/tracks/Audio.py:32-36 | "L R C LFE Ls Rs" gives 5.1 channels |
| Audio.NearLfe | nfog/tracks/Audio.py:34 | "lfe" and "LFE2" each count as a whole channel |
| Audio.DoubledSpace | nfog/tracks/Audio.py:35 | a doubled space adds an empty token that counts as a whole channel |
| Audio.NoLayout | nfog/tracks/Audio.py:32-37 | an absent or empty layout falls back to the channel count; with no count, an error |
| Audio.AudioTitle | nfog/tracks/BaseTrack.py:84-114 | None exactly when the stripped title is blank, names a language, or contains a candidate built from the audio codec shorthand; otherwise the stripped title |
| Audio.Ac3Candidates | nfog/tracks/BaseTrack.py:96-111 | for AC-3 and any writing library, the title check looks for AC-3, AC3, DD (twice), the library's first word, Mono, Stereo, Surround and Atmos |
| Subtitle.Codec | nfog/tracks/Subtitle.py:14-22 | UTF-8 → "SubRip (SRT)", every other format (including "SubRip (SRT)") unchanged; total |
| Subtitle.CodecIdempotent | nfog/tracks/Subtitle.py:20-22 | relabelling twice equals relabelling once |
| Subtitle.SubtitleTitle | nfog/tracks/BaseTrack.py:84-114 | None exactly when the stripped title is blank, names a language, or contains a candidate built from the relabelled subtitle codec; otherwise the stripped title |
| Subtitle.Utf8Candidates | nfog/tracks/BaseTrack.py:96-102 | for UTF-8 and any writing library, the first candidates are UTF-8, UTF8, SubRip (SRT) and SubRipSRT |
| Subtitle.Utf8TitleDropped | nfog/tracks/BaseTrack.py:96-112 | a UTF-8 subtitle whose title contains any of those four, ignoring case, has no title |
| Subtitle.Utf8CandidateLengths | nfog/tracks/BaseTrack.py:96-111 | for UTF-8 and any writing library, every candidate but the library's word is at least four characters long |
| Subtitle.ShortUtf8Title | nfog/tracks/BaseTrack.py:84-114 | a UTF-8 subtitle title of at most three characters (such as "SRT") that names no language is kept exactly when the writing library's first word is empty or does not occur in it, ignoring case; otherwise None |
| BaseTrack.TrackLanguage | nfog/tracks/BaseTrack.py:46-54 | no language exactly when the raw code is missing, empty or "und"; otherwise the parsed code |
| BaseTrack.Candidates | nfog/tracks/BaseTrack.py:96-111 | nine candidates, in order: the format, its word characters, the codec, its word characters with "+" as "P", the writing library's first word, Mono, Stereo, Surround, Atmos |
| BaseTrack.LibraryCandidate | nfog/tracks/BaseTrack.py:104 | the library candidate is a space-free prefix of the writing library, after which the library ends or a space follows; no library gives "" |
| BaseTrack.AnyInMeans | nfog/tracks/BaseTrack.py:96-111 | the check fires exactly when some non-empty candidate occurs in the title, both lower-cased |
| BaseTrack.EmptyCandidateIgnored | nfog/tracks/BaseTrack.py:111 | an empty candidate never suppresses a title, although "" occurs in every string |
| BaseTrack.LetterlessTitle | nfog/tracks/BaseTrack.py:96-112 | a title without letters (such as "2.0") matches no candidate that starts with a letter |
| BaseTrack.Title | nfog/tracks/BaseTrack.py:56-114 | None exactly when the stripped title is blank, names a language, or contains a candidate; otherwise the stripped title |
| BaseTrack.TitleDropsCandidate | nfog/tracks/BaseTrack.py:96-112 | any non-empty candidate found in the title, in any letter case, gives None |
| BaseTrack.TitleKept | nfog/tracks/BaseTrack.py:84-114 | a non-blank title that names no language and contains no candidate is returned stripped |
| BaseTrack.ShortTitleKept | nfog/tracks/BaseTrack.py:96-114 | a title shorter than every non-empty candidate survives unless it names a language |
| BaseTrack.LibraryWordDecides | nfog/tracks/BaseTrack.py:96-114 | when every other candidate is longer than the title, the title is dropped exactly when the library's word is non-empty and occurs in it |
| Template.CheckIds | nfog/templates/Template.py:33-46 | succeeds iff the IMDb ID matches and the truthy TMDB and TVDB IDs match; the checks run in order and the first failure decides the error: an empty IMDb ID gives ImdbRequired, a non-matching one ImdbInvalid with that ID, then TmdbInvalid with the TMDB ID, then TvdbInvalid with the TVDB ID as a string; never NoLanguageCodes |
| Template.NumericTvdbRule | nfog/templates/Template.py:43-46 | a non-zero integer TVDB ID is accepted exactly when it is not negative |
| Template.IntStringEndsInDigit | nfog/templates/Template.py:43 | `str(n)` of an integer ends in a digit, so the `$` newline never applies to it |
| Template.FalsyIdsSkipped | nfog/templates/Template.py:39-46 | a missing or empty TMDB ID and a missing or zero TVDB ID are not checked |
| Template.ImdbCheckedFirst | nfog/templates/Template.py:33-38 | an invalid IMDb ID is the error raised, whatever the other IDs are |
| Template.ImdbEightDigits | nfog/templates/Template.py:14 | tt10810424 is valid |
| Template.ImdbSixDigits | nfog/templates/Template.py:35-38 | tt048783 is rejected |
| Template.TmdbShapes | nfog/templates/Template.py:39-42 | tv/2490 is accepted and a bare 2490 rejected |
| Template.ImdbQuery | nfog/templates/Template.py:48 | `lstrip("tt")` of a valid IMDb ID is exactly what follows "tt" |
| Template.ImdbDigits | nfog/templates/Template.py:14 | after "tt" come 7 or 8 digits, possibly followed by the one newline `$` admits |
| Template.ChapterKeyMeans | nfog/templates/Template.py:66 | a menu key is kept exactly when it consists of digits and underscores |
| Template.ChapterTime | nfog/templates/Template.py:64 | the timecode is one character longer than the key |
| Template.ChapterTimeRoundTrip | nfog/templates/Template.py:64 | the key can be recovered from its timecode |
| Template.ChapterTimeInjective | nfog/templates/Template.py:63-67 | two kept keys never share a timecode |
| Template.ChaptersKept | nfog/templates/Template.py:62-67 | every kept key appears under its timecode with the label stripped of ":" |
| Template.ChaptersOnlyKept | nfog/templates/Template.py:62-67 | every timecode comes from a kept key of the menu |
| Template.ChapterLabel | nfog/templates/Template.py:64 | a label loses only colons at its two ends and occurs in the raw value |
| Template.ChapterTimeExample | nfog/templates/Template.py:64 | 00_01_23456 becomes 00.01.23.456 |
| Template.ShortChapterKey | nfog/templates/Template.py:64 | a key shorter than three characters gets the "." in front |
| Template.SortSorted | nfog/templates/Template.py:72 | the stream-order sort is ordered and a permutation |
| Template.FirstWithLanguage | nfog/templates/Template.py:69-74 | the first track with a truthy language, or None exactly when no track has one |
| Template.FirstAfterSort | nfog/templates/Template.py:69-74 | after the stable sort, the first track with a language is the preferred one: lowest stream order, earliest on a tie |
| Template.PrimaryLanguage | nfog/templates/Template.py:69-77 | raises exactly when the catalog has no language codes |
| Template.PrimaryLanguageChoice | nfog/templates/Template.py:69-77 | the preferred track's raw language when one has a language (so "und" can win), else the first catalog code |
| Template.TypeLabelShape | examples/templates/Movie.py:32 | the type label is as long as the kind; before "Tv" becomes "TV", a letter is capitalised exactly when no letter precedes it |
| Template.SectionHeaderCount | examples/templates/Movie.py:68 | a header holds its count zero-padded to at least two digits, and that count reads back |
| Template.SectionHeaderInjective | examples/templates/Movie.py:68 | different counts give different headers |
| Template.SectionShape | examples/templates/Movie.py:66-70 | a section is a blank line, its header, a blank line, then its body |
| Template.TrackBodyLines | examples/templates/Movie.py:85-89 | "  --" with no tracks, otherwise one wrapped summary per track in track order |
| Template.VideoLinesOfOne | examples/templates/Movie.py:72-75 | a video track contributes each line of its summary, wrapped |
| Template.ChapterBodyPlaceholder | examples/templates/Movie.py:109-110 | the chapter lines wrapped, or a wrapped "--" when there are none |
| Template.ChaptersLine | examples/templates/Movie.py:34 | "Chapters : Yes" exactly when the chapter map is non-empty |
| Template.BlocksShown | examples/templates/Movie.py:52-64 | the Source and Note blocks appear exactly for a non-empty value, each followed by the wrapped text |
| Template.SectionHeaderLong | examples/templates/Movie.py:68 | a section header is longer than its heading, so it is never a block label |
| Template.TrackSectionsLayout | examples/templates/Movie.py:66-101 | video, audio and subtitle sections follow one another; the video header comes second |
| Template.EmptySectionsPlaceholder | examples/templates/Movie.py:72-101 | an empty track list gives its header block followed by "  --" alone |
| Template.TrackSectionsEnd | examples/templates/Movie.py:91-101 | the sections end with the non-empty subtitle body, two lines below the subtitle header |
| Template.IdLinesShown | examples/templates/Episode.py:53-57 | a TMDB link exactly for a non-empty TMDB ID and a TVDB link exactly for a truthy TVDB ID, TMDB first |
| Template.Template.constructor | nfog/templates/Template.py:18-79 | stores the arguments, the catalog entry, the tracks, the converted chapters and the primary language; `_nfo` starts empty |
| Template.Template.New | nfog/templates/Template.py:18-79 | succeeds exactly when the IDs pass and the catalog has a language code; otherwise raises the first failing ID check, or NoLanguageCodes; on success a fresh template holding every argument, the catalog entry, the converted chapters and the primary language, with an empty accumulator |
| Template.Template.Reset | examples/templates/bbcode/Episode.py:53 | the accumulator is replaced by the given lines |
| Template.Template.Extend | examples/templates/Movie.py:47-50 | the lines are appended to the accumulator |
| Template.Template.AppendWrapped | examples/templates/Movie.py:109-110 | each line is appended wrapped, in order |
| Template.Template.AppendVideoLines | examples/templates/Movie.py:72-75 | every summary line of every video track is appended wrapped |
| Template.Template.AppendVideoSection | examples/templates/Movie.py:66-77 | appends the video section |
| Template.Template.AppendTrackSection | examples/templates/Movie.py:79-89 | appends an audio or subtitle section |
| Template.Template.AppendTrackSections | examples/templates/Movie.py:66-101 | appends the three track sections in order |
| Template.Template.AppendIdLines | examples/templates/Episode.py:53-57 | appends the TMDB and TVDB links |
| Template.Template.AppendChapterSection | examples/templates/Movie.py:103-110 | appends the chapters section with the given count |
| Template.Template.Finish | examples/templates/Movie.py:112-113 | the joined lines become the cached text |
| Movie.HeadLines | examples/templates/Movie.py:31-50 | release name, title, IMDb link, and "Chapters : Yes" exactly for a non-empty chapter map |
| Movie.HeadFirst | examples/templates/Movie.py:36-50 | the document opens with the seven header lines |
| Movie.BlocksAfterHead | examples/templates/Movie.py:52-64 | after the header, Source appears exactly for a non-empty source, then Note exactly for a non-empty note |
| Movie.SectionsLast | examples/templates/Movie.py:66-110 | the track sections are followed by the chapters section, which ends the document |
| Movie.Movie.constructor | examples/templates/Movie.py:22-23 | wraps the constructed template |
| Movie.Movie.ReleaseName | examples/templates/Movie.py:115-118 | the file's stem: the name without its suffix |
| Movie.Movie.FileExt | examples/templates/Movie.py:120-123 | ".nfo" |
| Movie.Movie.AppendHead | examples/templates/Movie.py:36-64 | appends the header and the optional blocks |
| Movie.Movie.Nfo | examples/templates/Movie.py:25-113 | a cached text is returned unchanged; otherwise the text is the joined document, and it is cached |
| Episode.IntroLines | examples/templates/Episode.py:35-51 | the Episode line is season x episode with the catalog name; the Type line uses the series years |
| Episode.HeadLines | examples/templates/Episode.py:44-62 | the ID links come between the IMDb line and the preview and chapters lines |
| Episode.ChaptersFlag | examples/templates/Episode.py:42-61 | the last header line says Yes exactly for a non-empty chapter map |
| Episode.HeadFirst | examples/templates/Episode.py:44-62 | the document opens with the header |
| Episode.BlocksAfterHead | examples/templates/Episode.py:64-76 | Source and Note appear exactly for non-empty values |
| Episode.SectionsLast | examples/templates/Episode.py:78-122 | the track sections are followed by the chapters section, which ends the document |
| Episode.Episode.constructor | examples/templates/Episode.py:26-27 | wraps the constructed template |
| Episode.Episode.ReleaseName | examples/templates/Episode.py:127-130 | the file's stem |
| Episode.Episode.FileExt | examples/templates/Episode.py:132-135 | ".nfo" |
| Episode.Episode.AppendHeader | examples/templates/Episode.py:44-62 | appends the header with its ID links |
| Episode.Episode.AppendHead | examples/templates/Episode.py:44-76 | appends the header and the optional blocks |
| Episode.Episode.Nfo | examples/templates/Episode.py:29-125 | a cached text is returned unchanged; otherwise the joined document, cached |
| Season.SeasonLine | examples/templates/Season.py:24-37 | the Season line holds the season number and the catalog's episode count for it |
| Season.ReleaseNameIsParent | examples/templates/Season.py:106-109 | the release name is the component before the file's own |
| Season.HeadLines | examples/templates/Season.py:32-50 | the ID links come between the IMDb line and the preview and chapters lines |
| Season.ChaptersFlag | examples/templates/Season.py:30-49 | the header still says Yes exactly for a non-empty chapter map |
| Season.BlocksAfterHead | examples/templates/Season.py:52-64 | Source and Note appear exactly for non-empty values |
| Season.EndsWithTracks | examples/templates/Season.py:66-101 | the document ends with the three track sections |
| Season.EndsWithSubtitles | examples/templates/Season.py:91-104 | the last lines are the subtitle body under its header: there is no chapters section |
| Season.Season.constructor | examples/templates/Season.py:15-16 | wraps the constructed template |
| Season.Season.AppendHead | examples/templates/Season.py:32-64 | appends the header and the optional blocks |
| Season.Season.Nfo | examples/templates/Season.py:18-104 | a cached text is returned unchanged; otherwise the joined document, cached |
| BBCodeEpisode.PreviewImages | examples/templates/bbcode/Episode.py:43-46 | one `[url=…][img]…[/img][/url]` per preview pair, in order |
| BBCodeEpisode.TopLines | examples/templates/bbcode/Episode.py:53-62 | opens with [align=center]; the banner block exactly for a truthy banner; the layout two per row; then [/align] |
| BBCodeEpisode.NoTvdbNoBanner | examples/templates/bbcode/Episode.py:39-42 | without a truthy TVDB ID there is no banner block |
| BBCodeEpisode.DetailsLines | examples/templates/bbcode/Episode.py:64-94 | the unindented Release line, a TVDB link exactly for a truthy ID, an always-printed Source line, a closing rule |
| BBCodeEpisode.NoteShown | examples/templates/bbcode/Episode.py:85-89 | the note in [note] tags, wrapped at 70, exactly for a non-empty note |
| BBCodeEpisode.ChaptersCounted | examples/templates/bbcode/Episode.py:133-140 | the chapters section ends the document; an absent chapter map counts 0 |
| BBCodeEpisode.Episode.constructor | examples/templates/bbcode/Episode.py:26-27 | wraps the constructed template |
| BBCodeEpisode.Episode.ReleaseName | examples/templates/bbcode/Episode.py:145-148 | the file's stem |
| BBCodeEpisode.Episode.FileExt | examples/templates/bbcode/Episode.py:150-153 | ".txt" |
| BBCodeEpisode.Episode.StartTop | examples/templates/bbcode/Episode.py:53-62 | the accumulator is replaced by the centred block, discarding what it held |
| BBCodeEpisode.Episode.AppendDetails | examples/templates/bbcode/Episode.py:64-94 | appends the details |
| BBCodeEpisode.Episode.Nfo | examples/templates/bbcode/Episode.py:29-143 | a cached text is returned unchanged; otherwise the joined document, cached |
| MiU.PadWidth | examples/artwork/MiU.py:41-47 | 70, or the release-line width when it is larger and the line contains " : " |
| MiU.Padded | examples/artwork/MiU.py:46-54 | every line, in order, left-justified to its padding width |
| MiU.NfoBranch | examples/artwork/MiU.py:57-65 | art, "", the template lines from the third on, "", the centred "-- --", the footer |
| MiU.DropsTwo | examples/artwork/MiU.py:61 | exactly the first two template lines are dropped |
| MiU.OtherBranch | examples/artwork/MiU.py:43-56 | [align=center], every inner line padded, [/align] |
| MiU.InnerOrder | examples/artwork/MiU.py:48-53 | art, "", the template lines, the rule, the footer, in that order |
| MiU.PaddingKeepsLine | examples/artwork/MiU.py:47 | padding never truncates: the line followed by spaces up to the width |
| MiU.ReleaseLineWidth | examples/artwork/MiU.py:41-47 | the release line is padded to exactly its own width when that exceeds 70 |
| MiU.LabelLinesAlign | examples/artwork/MiU.py:41-47 | label lines no longer than the release line come out the same width |
| MiU.TagCentred | examples/artwork/MiU.py:32-39 | the group tag has 28 spaces on either side |
| MiU.ClockCentred | examples/artwork/MiU.py:10-39 | a `%Y.%m.%d %H:%M` timestamp has 27 spaces on either side |
| Paths.Stem | examples/templates/Movie.py:118 | the stem followed by the suffix is the name |
| Text.Lower | nfog/tracks/BaseTrack.py:96 | same length; each ASCII capital lowered, every other character unchanged |
| Text.RemoveNonWord | nfog/tracks/BaseTrack.py:99 | no longer than the input and made of word characters only |
| Text.RemoveNonWordAppend | nfog/tracks/BaseTrack.py:99 | removal distributes over concatenation |
| Text.RemoveNonWordOf | nfog/tracks/BaseTrack.py:99 | a string of word characters is kept whole, a string without any is removed entirely |
| Text.Split | nfog/tracks/Audio.py:35 | at least one piece, and no piece holds the separator |
| Text.JoinSplit | nfog/tracks/Audio.py:35 | joining the pieces with the separator gives the string back |
| Text.SplitJoin | nfog/nfog.py:132 | splitting a join of separator-free pieces gives the pieces back |
| Text.SplitFirst | nfog/tracks/BaseTrack.py:104 | the first piece is a prefix, after which the string ends or the separator follows |
| Text.SplitLines | examples/artwork/MiU.py:11 | no lines exactly for the empty text, and no line holds a line boundary |
| Text.LJust | examples/artwork/MiU.py:47 | the string followed by spaces up to the width, never truncated |
| Text.LStrip | nfog/templates/Template.py:48 | a suffix of the input, all of whose dropped characters are stripped ones, not starting with one |
| Text.RStrip | nfog/templates/Template.py:64 | a prefix of the input, all of whose dropped characters are stripped ones, not ending with one |
| Text.StripEnds | nfog/tracks/BaseTrack.py:84 | the stripped string neither starts nor ends with a stripped character |
| Text.StripInside | nfog/tracks/BaseTrack.py:84 | the stripped string occurs in the original |
| Paths.WithSuffix | nfog/templates/Group.py:31 | fails exactly for a path without components; otherwise same parent, name = stem + suffix |
| Group.EntryIsName | nfog/templates/Group.py:19-20 | a file contributes its command name exactly when its lower-cased stem is not `__init__` or `group` |
| Group.ListedMembers | nfog/templates/Group.py:15-20 | a name is listed exactly when some found, non-excluded file is listed under it |
| Group.ListedStep | nfog/templates/Group.py:17-20 | each found file adds its entry at the end, in the order found |
| Group.SortNamesSorts | nfog/templates/Group.py:23 | the sort is ordered and a permutation |
| Group.ListCommands | nfog/templates/Group.py:13-24 | fails exactly when there is no directory or nothing is listed; otherwise the listed names sorted |
| Group.NameSegments | nfog/templates/Group.py:29 | a name splits into at least one segment |
| Group.GetCommand | nfog/templates/Group.py:26-33 | with p the templates directory joined with the name's segments: BadPath exactly when p has no parts (with_suffix refuses it); otherwise it succeeds exactly when p with its suffix replaced by ".py" is in the existing files, and fails with TemplateNotFound naming the last segment; on success the file has p's parent and p's stem plus ".py", and the class is the last segment |
| Group.CommandNameShape | nfog/templates/Group.py:18-20 | a listed name is the file's directories and stem, joined by "/" |
| Group.CommandNameSegments | nfog/templates/Group.py:20-30 | splitting a listed name on "/" gives the directories and the stem |
| Group.ListedFile | nfog/templates/Group.py:18-31 | for a stem with no suffix, the lookup path of a listed name is the file it was listed for |
| Group.ListedTemplateResolves | nfog/templates/Group.py:13-33 | such a listed template resolves to its stem as class and to its own file |
| Group.DottedStemNotResolved | nfog/templates/Group.py:31 | a listed file whose stem still has a suffix is looked up under another name and not found |
| Group.GetCommandAppendingSuffix | nfog/templates/Group.py:26-33 | as `get_command`, with ".py" appended to the last segment |
| Group.ListedTemplateResolvesAppending | nfog/templates/Group.py:13-33 | with the suffix appended, every listed template resolves to its own file |
| Cli.Prepare | nfog/nfog.py:132-137 | after the walk, the table at the path exists |
| Cli.PutTableAt | nfog/nfog.py:149 | setting a key changes the table at the path in that key alone |
| Cli.RemoveTableAt | nfog/nfog.py:140-141 | removing a key changes the table at the path in that key alone |
| Cli.RemoveAbsent | nfog/nfog.py:140 | removing an absent key changes nothing |
| Cli.PrepareExisting | nfog/nfog.py:134-137 | where the tables exist the walk creates nothing |
| Cli.PrepareOne | nfog/nfog.py:134-137 | a missing or None key becomes an empty table, an existing table is kept |
| Cli.PrepareSnoc | nfog/nfog.py:134-137 | the walk over a path is the walk over its prefix plus one step |
| Cli.WalkablePrefix | nfog/nfog.py:134-137 | a walkable path is walkable along every prefix |
| Cli.KeyPath | nfog/nfog.py:132 | a dotted key splits into at least one dot-free segment |
| Cli.GetResult | nfog/nfog.py:144-147 | an error exactly when the leaf is missing from the walked table |
| Cli.SetThenGet | nfog/nfog.py:148-152 | after a set, the walk changes nothing, a get returns the value, and only the leaf changed |
| Cli.UnsetRemovesLeaf | nfog/nfog.py:139-142 | unset removes the leaf alone, is a no-op when it is absent, and a get then fails |
| Cli.GetOfExistingPathChangesNothing | nfog/nfog.py:132-147 | with the tables present, a get creates nothing and succeeds exactly when the leaf exists |
| Cli.Config.constructor | nfog/nfog.py:124 | the loaded configuration is both the data and the saved file |
| Cli.Config.Walk | nfog/nfog.py:132-137 | the data becomes the walked tree; the file is untouched |
| Cli.Config.Command | nfog/nfog.py:124-152 | shows everything when neither key nor value is given; otherwise walks, then unsets, gets or sets; only a set saves |
| Cli.Params.constructor | nfog/nfog.py:63 | holds the given IDs |
| Cli.Params.Generate | nfog/nfog.py:63-90 | a missing path or a non-file fails and changes nothing; "-" without a metadata IMDb ID fails; otherwise the IDs become the resolved ones |
| Cli.GivenIdsKept | nfog/nfog.py:78-90 | a given IMDb ID and truthy TMDB/TVDB IDs are kept; the others come from the metadata |
| Cli.OutputBesideInput | nfog/nfog.py:114 | the output is in the input's directory, named release name + extension |

## Left out

- The IMDb client, `IMDb().get_movie` and `Template.session` are network code. The catalog entry is the result of a `lookup` parameter.
- `MediaInfo.parse` is I/O. Tracks are `MediaTrack` records, the menu track is a map, and the general track's IDs are a `Metadata` value.
- `Template.Chapters`: the menu is a Dafny `map`, so the insertion order of the chapters dict (the menu's key order, nfog/templates/Template.py:62-67), which a template's `get_chapter_list` iterates, is not modelled. `Helpers.chapterList` sees only the set of pairs, so two menus with the same entries in different orders give the same Chapters section here, but not necessarily in the program. ChaptersKept and ChaptersOnlyKept state the entries, not their order.
- `indented_wrap`, `layout`, the three `get_*_summary` functions, `get_chapter_list`, `get_banner_image` and `get_preview_images` are not part of this model. They are uninterpreted function fields of `Template.Helpers`, so nothing is assumed about wrapping, grids or summaries.
- The Video track class (nfog/tracks/__init__.py) is not part of this model.
- The langcodes calls `Language.get` and `Language.find` are foreign code, passed in as functions. "Names a language" is a predicate over their result.
- `Audio.Channels`: counts in tenths of a channel as an integer, not a float. `float()` of a non-numeric raw count is not modelled.
- `Text.Lower`, `Text.TitleCase`, `Text.RemoveNonWord` and the `\d` and `isdigit` checks cover ASCII only. Python's Unicode case mapping, word and digit classes are wider. `Text.StripSpace` removes Python's full whitespace set.
- `MiU.WithTemplate`: takes the template's text, extension and release name as values, and the clock reading as a parameter.
- Loading code with `compile`/`eval` (nfog/templates/Group.py:34-37, nfog/nfog.py:101-110) runs arbitrary files. `Group.GetCommand` stops at the class name and file it would load.
- `Group.ListCommands`: the `is_dir` result and the `rglob` results are parameters. `Group.GetCommand`: `exists` is a set of existing files. Paths are POSIX paths, where a backslash is an ordinary filename character: `Group.CommandName` models the replacement of backslashes by "/" (nfog/templates/Group.py:20), so a file a\\b.py is listed as "a/b" and looked up as a/b.py. `Group.CommandNameShape`, `Group.CommandNameSegments`, `Group.ListedFile`, `Group.ListedTemplateResolves`, `Group.DottedStemNotResolved` and `Group.ListedTemplateResolvesAppending` require a relative path without backslashes, so they say nothing about such a file, for which the listed name and the file looked up differ.
- `Group.SortNames`: `rv.sort()` is specified by an insertion sort on code-point order. It is proved ordered and a permutation, and that determines the result.
- Writing files, TOML and gzip I/O, the `export`, `import` and `version` commands, nfog/config.py, logging and printing are plumbing. `Cli.Config.Command` returns what it would print as a `Report`, and `saved` stands for the configuration file.
- Click decorators, nfog/artwork/Artwork.py and the PHOENiX, RPG and Pikachu artworks add nothing beyond glue and literal art.
- Track fields: `format` is always a string, and `streamOrder` always an integer. A missing format makes the non-word substitution raise (nfog/tracks/BaseTrack.py:99), and MediaInfo's own stream-order values are not modelled.
- `BaseTrack.__getattr__`, `all_properties` and `bitrate` reach into the MediaInfo object and are not modelled.
- `Template.Template.constructor`: requires valid IDs and at least one catalog language code. `Template.Template.New` models the raising path.
- `Movie.Movie.Nfo`: requires a falsy TMDB ID, because `self.tmdb.id` fails on the string ID (examples/templates/Movie.py:45). It also requires a chapter map, because `len(self.chapters)` fails on None (examples/templates/Movie.py:105).
- `BBCodeEpisode.Episode.Nfo`: requires a falsy TMDB ID for the same reason (examples/templates/bbcode/Episode.py:74). It also requires the season and episode to be in the catalog, because the lookup at examples/templates/bbcode/Episode.py:37 raises otherwise.
- `Episode.Episode.Nfo`: requires a chapter map, and requires the season and episode to be in the catalog (the lookups at examples/templates/Episode.py:35-37 raise otherwise).
- `Season.Season.Nfo`: requires the season to be in the catalog. Season defines no `file_ext`, so the output name of nfog/nfog.py:114 does not exist for a season and has no member here.
- `Cli.Config.Command`: requires a key whenever a key or a value is given. With a value and no key, `key.split` fails on None. It also requires every intermediate key to be absent, None or a table (`Cli.Walkable`). A non-table value before the last table key makes the walk fail, because it has no `get` (nfog/nfog.py:135). A non-table value at the last table key ends the walk with that value in hand, and the leaf test at nfog/nfog.py:140 and 145 then becomes a membership test on it, a substring test for a string; on a number or boolean that test itself fails. A set then always fails, and an unset or a get fails when the leaf occurs in the value. Two clean outcomes are not modelled: with config `{"a": "xyz"}`, `config a.b --unset` only logs and changes nothing, and `config a.b` raises "Key a.b does not exist in the config".
- `Cli.Params.Generate`: a TVDB ID taken from the metadata is kept as text, the form the metadata reports it in.

## Findings

| source | as written | input that shows it | evidently intended | confidence | as-written member | corrected member |
|---|---|---|---|---|---|---|
| nfog/templates/Group.py:31 | `with_suffix(".py")` replaces the suffix of the name's last segment. A template file whose stem contains a dot is listed under one name but looked up under another | templates/my.movie.py is listed as "my.movie", which is then looked up as templates/my.py: "not found" | append ".py" to the last segment, so every listed name resolves to its own file (proved as Group.ListedTemplateResolvesAppending). The correction stops at the file: the class looked up is still the last segment, "my.movie", which a file named my.movie.py cannot define, so loading it would still fail at nfog/templates/Group.py:37 | not executed | Group.DottedStemNotResolved | Group.GetCommandAppendingSuffix |
