/**
 * nfog/tracks/BaseTrack.py: the fields of a probed track that the track rules
 * read, the `language` property and the `title` redundancy check.
 */
module BaseTrack {
  import opened Wrappers
  import opened Text

  /** One stream of the probed file, reduced to the fields the core reads. */
  datatype MediaTrack = MediaTrack(
    format: string,
    language: Option<string>,
    title: Option<string>,
    writingLibrary: Option<string>,
    channelLayout: Option<string>,
    channelCount: Option<int>,
    streamOrder: int)

  /** A langcodes Language object; only equality between them is used. */
  datatype Language = Language(tag: string)

  /** What `Language.find(name)` does: return a language, or raise LookupError. */
  datatype LanguageSearch = Found(language: Language) | LookupError

  /**
   * `language`: no language when the raw code is missing, empty or "und";
   * otherwise `Language.get` of the raw code (`get` is the foreign parser).
   */
  function TrackLanguage(raw: Option<string>, get: string -> Language): (r: Option<Language>)
    ensures r.None? <==> (raw.None? || raw.value == "" || raw.value == "und")
    ensures r.Some? ==> r.value == get(raw.value)
  {
    if Truthy(raw) && raw.value != "und" then Some(get(raw.value)) else None
  }

  /**
   * The strings `title` looks for inside a title: the format with and without
   * non-word characters, the simplified codec likewise (with "+" spelt "P"),
   * the first word of the writing library, and four generic channel names.
   */
  function Candidates(format: string, codec: string, writingLibrary: Option<string>): (c: seq<string>)
    ensures |c| == 9
    ensures c[0] == format && c[1] == RemoveNonWord(format)
    ensures c[2] == codec && c[3] == RemoveNonWord(ReplaceChar(codec, '+', 'P'))
    ensures c[4] == Split(writingLibrary.GetOr(""), ' ')[0]
    ensures c[5] == "Mono" && c[6] == "Stereo" && c[7] == "Surround" && c[8] == "Atmos"
  {
    [
      format,
      RemoveNonWord(format),
      codec,
      RemoveNonWord(ReplaceChar(codec, '+', 'P')),
      Split(writingLibrary.GetOr(""), ' ')[0],
      "Mono",
      "Stereo",
      "Surround",
      "Atmos"
    ]
  }

  /**
   * The writing-library candidate is the library's first word: a prefix of it
   * holding no space, after which the library ends or a space follows; with no
   * library it is empty.
   */
  lemma LibraryCandidate(format: string, codec: string, writingLibrary: Option<string>)
    ensures var w := Candidates(format, codec, writingLibrary)[4];
      var library := writingLibrary.GetOr("");
      IsPrefix(w, library) && ' ' !in w
      && (|w| < |library| ==> library[|w|] == ' ')
      && (writingLibrary == None ==> w == "")
  {
    SplitFirst(writingLibrary.GetOr(""), ' ');
  }

  /** Some non-empty candidate occurs in the title, both lower-cased. */
  predicate AnyIn(title: string, candidates: seq<string>) {
    candidates != []
    && ((candidates[0] != "" && Contains(Lower(title), Lower(candidates[0])))
        || AnyIn(title, candidates[1..]))
  }

  /** The check fires exactly when some non-empty candidate occurs in the title, ignoring case. */
  lemma {:induction false} AnyInMeans(title: string, candidates: seq<string>)
    ensures AnyIn(title, candidates) <==>
      exists i :: 0 <= i < |candidates| && candidates[i] != "" && Contains(Lower(title), Lower(candidates[i]))
  {
    if candidates != [] {
      AnyInMeans(title, candidates[1..]);
      if AnyIn(title, candidates[1..]) {
        var j :| 0 <= j < |candidates[1..]| && candidates[1..][j] != "" && Contains(Lower(title), Lower(candidates[1..][j]));
        assert candidates[j + 1] == candidates[1..][j];
      }
      if exists i :: 0 <= i < |candidates| && candidates[i] != "" && Contains(Lower(title), Lower(candidates[i])) {
        var i :| 0 <= i < |candidates| && candidates[i] != "" && Contains(Lower(title), Lower(candidates[i]));
        if i > 0 {
          assert candidates[1..][i - 1] == candidates[i];
        }
      }
    }
  }

  /** A title without letters repeats no candidate that starts with a letter. */
  lemma {:induction false} LetterlessTitle(title: string, candidates: seq<string>)
    requires forall j :: 0 <= j < |title| ==> !IsAsciiLetter(title[j])
    requires forall i :: 0 <= i < |candidates| && candidates[i] != "" ==> IsAsciiLetter(candidates[i][0])
    ensures !AnyIn(title, candidates)
  {
    if candidates != [] {
      LetterlessTitle(title, candidates[1..]);
      var c := candidates[0];
      if c != "" && Contains(Lower(title), Lower(c)) {
        ContainsChars(Lower(title), Lower(c), 0);
        assert false;
      }
    }
  }

  /** An empty candidate is skipped, although "" occurs in every title. */
  lemma {:induction false} EmptyCandidateIgnored(title: string, before: seq<string>, after: seq<string>)
    ensures Contains(Lower(title), "")
    ensures AnyIn(title, before + [""] + after) == AnyIn(title, before + after)
  {
    assert IsPrefix("", Lower(title));
    if before != [] {
      assert (before + [""] + after)[1..] == before[1..] + [""] + after;
      assert (before + after)[1..] == before[1..] + after;
      EmptyCandidateIgnored(title, before[1..], after);
    } else {
      assert (before + [""] + after)[1..] == after;
      assert before + after == after;
    }
  }

  /** The language search found a language other than "und"; a LookupError counts as no match. */
  predicate NamesLanguage(search: LanguageSearch, get: string -> Language) {
    search.Found? && search.language != get("und")
  }

  /**
   * `title`: the stripped title, or None when it is blank, names a language, or
   * repeats one of the candidates.
   */
  function Title(
    raw: Option<string>, format: string, codec: string, writingLibrary: Option<string>,
    find: string -> LanguageSearch, get: string -> Language): (r: Option<string>)
    ensures r.Some? ==> r.value == StripSpace(raw.GetOr("")) && r.value != ""
    ensures r.None? <==>
      (StripSpace(raw.GetOr("")) == ""
       || NamesLanguage(find(StripSpace(raw.GetOr(""))), get)
       || AnyIn(StripSpace(raw.GetOr("")), Candidates(format, codec, writingLibrary)))
  {
    var title := StripSpace(raw.GetOr(""));
    if title == "" then None
    else if NamesLanguage(find(title), get) then None
    else if AnyIn(title, Candidates(format, codec, writingLibrary)) then None
    else Some(title)
  }

  /** Any non-empty candidate found in the title, in any letter case, suppresses it. */
  lemma TitleDropsCandidate(
    raw: Option<string>, format: string, codec: string, writingLibrary: Option<string>,
    find: string -> LanguageSearch, get: string -> Language, i: nat)
    requires i < 9
    requires Candidates(format, codec, writingLibrary)[i] != ""
    requires Contains(Lower(StripSpace(raw.GetOr(""))), Lower(Candidates(format, codec, writingLibrary)[i]))
    ensures Title(raw, format, codec, writingLibrary, find, get) == None
  {
    AnyInMeans(StripSpace(raw.GetOr("")), Candidates(format, codec, writingLibrary));
  }

  /** A title survives exactly when it is not blank, names no language and repeats no candidate. */
  lemma TitleKept(
    raw: Option<string>, format: string, codec: string, writingLibrary: Option<string>,
    find: string -> LanguageSearch, get: string -> Language)
    requires StripSpace(raw.GetOr("")) != ""
    requires !NamesLanguage(find(StripSpace(raw.GetOr(""))), get)
    requires forall i :: 0 <= i < 9 && Candidates(format, codec, writingLibrary)[i] != "" ==>
      !Contains(Lower(StripSpace(raw.GetOr(""))), Lower(Candidates(format, codec, writingLibrary)[i]))
    ensures Title(raw, format, codec, writingLibrary, find, get) == Some(StripSpace(raw.GetOr("")))
  {
    AnyInMeans(StripSpace(raw.GetOr("")), Candidates(format, codec, writingLibrary));
  }

  /** A title shorter than every non-empty candidate repeats none of them, so it survives unless it names a language. */
  lemma ShortTitleKept(
    raw: Option<string>, format: string, codec: string, writingLibrary: Option<string>,
    find: string -> LanguageSearch, get: string -> Language)
    requires StripSpace(raw.GetOr("")) != ""
    requires !NamesLanguage(find(StripSpace(raw.GetOr(""))), get)
    requires forall i :: 0 <= i < 9 ==>
      |Candidates(format, codec, writingLibrary)[i]| == 0 || |Candidates(format, codec, writingLibrary)[i]| > |StripSpace(raw.GetOr(""))|
    ensures Title(raw, format, codec, writingLibrary, find, get) == Some(StripSpace(raw.GetOr("")))
  {
    var title := StripSpace(raw.GetOr(""));
    var c := Candidates(format, codec, writingLibrary);
    forall i | 0 <= i < 9 && c[i] != "" ensures !Contains(Lower(title), Lower(c[i])) {
      if Contains(Lower(title), Lower(c[i])) {
        ContainsShorter(Lower(title), Lower(c[i]));
      }
    }
    TitleKept(raw, format, codec, writingLibrary, find, get);
  }

  /**
   * When every candidate but the writing library's word is longer than the
   * title, that word alone decides: the title is dropped exactly when the word
   * is non-empty and occurs in it, ignoring case.
   */
  lemma LibraryWordDecides(
    raw: Option<string>, format: string, codec: string, writingLibrary: Option<string>,
    find: string -> LanguageSearch, get: string -> Language)
    requires StripSpace(raw.GetOr("")) != ""
    requires !NamesLanguage(find(StripSpace(raw.GetOr(""))), get)
    requires forall i :: 0 <= i < 9 && i != 4 ==>
      |Candidates(format, codec, writingLibrary)[i]| > |StripSpace(raw.GetOr(""))|
    ensures var title := StripSpace(raw.GetOr(""));
      var word := Candidates(format, codec, writingLibrary)[4];
      Title(raw, format, codec, writingLibrary, find, get)
        == if word != "" && Contains(Lower(title), Lower(word)) then None else Some(title)
  {
    var title := StripSpace(raw.GetOr(""));
    var c := Candidates(format, codec, writingLibrary);
    if c[4] != "" && Contains(Lower(title), Lower(c[4])) {
      TitleDropsCandidate(raw, format, codec, writingLibrary, find, get, 4);
    } else {
      forall i | 0 <= i < 9 && c[i] != "" ensures !Contains(Lower(title), Lower(c[i])) {
        if i != 4 && Contains(Lower(title), Lower(c[i])) {
          ContainsShorter(Lower(title), Lower(c[i]));
        }
      }
      TitleKept(raw, format, codec, writingLibrary, find, get);
    }
  }
}
