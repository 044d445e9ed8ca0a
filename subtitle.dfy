/** nfog/tracks/Subtitle.py: subtitle codec relabelling. */
module Subtitle {
  import opened Wrappers
  import opened Text
  import opened BaseTrack

  /** `codec`: "UTF-8" is shown as "SubRip (SRT)"; every other format, "SubRip (SRT)" included, is kept. */
  function Codec(format: string): (r: string)
    ensures format == "UTF-8" ==> r == "SubRip (SRT)"
    ensures format != "UTF-8" ==> r == format
  {
    var relabel := map["UTF-8" := "SubRip (SRT)"];
    if format in relabel then relabel[format] else format
  }

  /** Relabelling twice is relabelling once. */
  lemma CodecIdempotent(format: string)
    ensures Codec(Codec(format)) == Codec(format)
  {
  }

  /**
   * `title` of a subtitle track: the base rule with this track kind's codec, so
   * None exactly when the stripped title is blank, names a language or repeats
   * a candidate built from the relabelled codec.
   */
  function SubtitleTitle(t: MediaTrack, find: string -> LanguageSearch, get: string -> Language): (r: Option<string>)
    ensures r.Some? ==> r.value == StripSpace(t.title.GetOr("")) && r.value != ""
    ensures r.None? <==>
      (StripSpace(t.title.GetOr("")) == ""
       || NamesLanguage(find(StripSpace(t.title.GetOr(""))), get)
       || AnyIn(StripSpace(t.title.GetOr("")), Candidates(t.format, Codec(t.format), t.writingLibrary)))
  {
    Title(t.title, t.format, Codec(t.format), t.writingLibrary, find, get)
  }

  /** "UTF-8" without its non-word characters. */
  lemma Utf8Word()
    ensures RemoveNonWord("UTF-8") == "UTF8"
  {
    assert "UTF-8" == "UTF" + "-" + "8" + "";
    RemoveNonWordPieces("UTF", "-", "8", "");
    assert "UTF" + "8" == "UTF8";
  }

  /** "SubRip (SRT)" without its non-word characters. */
  lemma SubRipWord()
    ensures RemoveNonWord("SubRip (SRT)") == "SubRipSRT"
  {
    assert "SubRip (SRT)" == "SubRip" + " (" + "SRT" + ")";
    RemoveNonWordPieces("SubRip", " (", "SRT", ")");
    assert "SubRip" + "SRT" == "SubRipSRT";
  }

  /** The UTF-8 codec label holds no "+", so spelling "+" as "P" leaves it alone. */
  lemma SubRipNoPlus()
    ensures ReplaceChar("SubRip (SRT)", '+', 'P') == "SubRip (SRT)"
  {
    ReplaceAbsent("SubRip (SRT)", '+', 'P');
  }

  /** The UTF-8 codec label with "+" spelt "P" and its non-word characters removed. */
  lemma SubRipCodecWord()
    ensures Codec("UTF-8") == "SubRip (SRT)"
    ensures RemoveNonWord(ReplaceChar(Codec("UTF-8"), '+', 'P')) == "SubRipSRT"
  {
    SubRipNoPlus();
    SubRipWord();
  }

  /** For a UTF-8 track the title check looks for "UTF-8", "UTF8", "SubRip (SRT)" and "SubRipSRT" first. */
  lemma Utf8Candidates(format: string, writingLibrary: Option<string>)
    requires format == "UTF-8"
    ensures var c := Candidates(format, Codec(format), writingLibrary);
      c[0] == "UTF-8" && c[1] == "UTF8" && c[2] == "SubRip (SRT)" && c[3] == "SubRipSRT"
  {
    Utf8Word();
    SubRipCodecWord();
  }

  /** A UTF-8 subtitle titled with its own codec name, in any letter case, has no title. */
  lemma Utf8TitleDropped(t: MediaTrack, find: string -> LanguageSearch, get: string -> Language, i: nat)
    requires t.format == "UTF-8" && i < 4
    requires Contains(Lower(StripSpace(t.title.GetOr(""))), Lower(["UTF-8", "UTF8", "SubRip (SRT)", "SubRipSRT"][i]))
    ensures SubtitleTitle(t, find, get) == None
  {
    Utf8Candidates(t.format, t.writingLibrary);
    var c := Candidates(t.format, Codec(t.format), t.writingLibrary);
    assert c[i] == ["UTF-8", "UTF8", "SubRip (SRT)", "SubRipSRT"][i] by {
      if i == 0 { } else if i == 1 { } else if i == 2 { } else { }
    }
    TitleDropsCandidate(t.title, t.format, Codec(t.format), t.writingLibrary, find, get, i);
  }

  /** Every candidate of a UTF-8 track except the writing library's word is at least four characters long. */
  lemma Utf8CandidateLengths(format: string, writingLibrary: Option<string>)
    requires format == "UTF-8"
    ensures forall i :: 0 <= i < 9 && i != 4 ==> |Candidates(format, Codec(format), writingLibrary)[i]| >= 4
  {
    var c := Candidates(format, Codec(format), writingLibrary);
    Utf8Candidates(format, writingLibrary);
    assert |c[0]| == 5 && |c[1]| == 4 && |c[2]| == 12 && |c[3]| == 9;
    assert |c[5]| >= 4 && |c[6]| >= 4 && |c[7]| >= 4 && |c[8]| >= 4;
    NoShortCandidate(c);
  }

  lemma NoShortCandidate(c: seq<string>)
    requires |c| == 9
    requires |c[0]| >= 4 && |c[1]| >= 4 && |c[2]| >= 4 && |c[3]| >= 4
    requires |c[5]| >= 4 && |c[6]| >= 4 && |c[7]| >= 4 && |c[8]| >= 4
    ensures forall i :: 0 <= i < 9 && i != 4 ==> |c[i]| >= 4
  {
    forall i | 0 <= i < 9 && i != 4 ensures |c[i]| >= 4 {
      if i < 4 { } else { }
    }
  }

  /**
   * A UTF-8 subtitle title of at most three characters that names no language
   * (such as "SRT") is shorter than every candidate but the writing library's
   * first word, so it survives exactly when that word is empty or does not
   * occur in it, ignoring case.
   */
  lemma ShortUtf8Title(t: MediaTrack, find: string -> LanguageSearch, get: string -> Language)
    requires t.format == "UTF-8"
    requires 0 < |StripSpace(t.title.GetOr(""))| <= 3
    requires !NamesLanguage(find(StripSpace(t.title.GetOr(""))), get)
    ensures var title := StripSpace(t.title.GetOr(""));
      var word := Split(t.writingLibrary.GetOr(""), ' ')[0];
      SubtitleTitle(t, find, get) == if word != "" && Contains(Lower(title), Lower(word)) then None else Some(title)
  {
    Utf8CandidateLengths(t.format, t.writingLibrary);
    LibraryWordDecides(t.title, t.format, Codec(t.format), t.writingLibrary, find, get);
  }
}
