/** nfog/tracks/Audio.py: codec shorthand and the weighted channel count, in tenths of a channel. */
module Audio {
  import opened Wrappers
  import opened Text
  import opened BaseTrack
  import Constants

  /** Audio.AUDIO_CHANNEL_LAYOUT_WEIGHT, in tenths: the same table as the one in nfog/constants.py. */
  const ChannelLayoutWeight: map<string, nat> := map["LFE" := 1]

  lemma WeightTablesAgree()
    ensures ChannelLayoutWeight == Constants.AudioChannelLayoutWeight()
  {
  }

  /** `codec`: Dolby Digital formats get their P2P shorthand, every other format is kept. */
  function Codec(format: string): (r: string)
    ensures format == "E-AC-3" ==> r == "DD+"
    ensures format == "AC-3" ==> r == "DD"
    ensures format != "E-AC-3" && format != "AC-3" ==> r == format
  {
    var shorthand := map["E-AC-3" := "DD+", "AC-3" := "DD"];
    if format in shorthand then shorthand[format] else format
  }

  /** The weight of one layout token, in tenths: the table entry, or a whole channel for any other token. */
  function TokenWeight(token: string): nat {
    if token in ChannelLayoutWeight then ChannelLayoutWeight[token] else 10
  }

  function WeightSum(tokens: seq<string>): nat {
    if tokens == [] then 0 else TokenWeight(tokens[0]) + WeightSum(tokens[1..])
  }

  /** The weighted channel count of a layout string, split on single spaces. */
  function LayoutTenths(layout: string): nat {
    WeightSum(Split(layout, ' '))
  }

  /** Why `channels` raises: no layout and no raw channel count (there is nothing to convert to a number). */
  datatype ChannelError = NoChannelCount

  /**
   * `channels`, in tenths of a channel: the weighted layout when the layout is
   * non-empty, otherwise the raw channel count.
   */
  function Channels(layout: Option<string>, channelCount: Option<int>): (r: Result<int, ChannelError>)
    ensures Truthy(layout) ==> r == Ok(LayoutTenths(layout.value))
    ensures !Truthy(layout) && channelCount.Some? ==> r == Ok(10 * channelCount.value)
    ensures !Truthy(layout) && channelCount.None? ==> r == Err(NoChannelCount)
  {
    if Truthy(layout) then Ok(LayoutTenths(layout.value))
    else if channelCount.Some? then Ok(10 * channelCount.value)
    else Err(NoChannelCount)
  }

  /** Every token but "LFE" is a whole channel; each "LFE" is a tenth. */
  lemma {:induction false} WeightSumCounts(tokens: seq<string>)
    ensures multiset(tokens)["LFE"] <= |tokens|
    ensures WeightSum(tokens) == 10 * (|tokens| - multiset(tokens)["LFE"]) + multiset(tokens)["LFE"]
  {
    if tokens != [] {
      assert tokens == [tokens[0]] + tokens[1..];
      WeightSumCounts(tokens[1..]);
    }
  }

  /** The count never exceeds one channel per token, and reaches it exactly when no token is "LFE". */
  lemma WeightSumBound(tokens: seq<string>)
    ensures WeightSum(tokens) <= 10 * |tokens|
    ensures WeightSum(tokens) == 10 * |tokens| <==> "LFE" !in tokens
  {
    WeightSumCounts(tokens);
  }

  /** The count is a sum over tokens: reordering the tokens does not change it. */
  lemma WeightSumPermutation(a: seq<string>, b: seq<string>)
    requires multiset(a) == multiset(b)
    ensures WeightSum(a) == WeightSum(b)
  {
    WeightSumCounts(a);
    WeightSumCounts(b);
    assert |a| == |multiset(a)| == |multiset(b)| == |b|;
  }

  lemma {:induction false} JoinEmpty(parts: seq<string>)
    requires |parts| >= 1
    ensures Join(parts, " ") == "" <==> |parts| == 1 && parts[0] == ""
  {
    if |parts| > 1 {
      assert |Join(parts, " ")| >= 1;
    }
  }

  /** A layout written with its tokens in another order gives the same channel count. */
  lemma LayoutOrderIrrelevant(a: seq<string>, b: seq<string>, channelCount: Option<int>)
    requires |a| >= 1 && multiset(a) == multiset(b)
    requires forall i :: 0 <= i < |a| ==> ' ' !in a[i]
    ensures Channels(Some(Join(a, " ")), channelCount) == Channels(Some(Join(b, " ")), channelCount)
  {
    assert |a| == |multiset(a)| == |multiset(b)| == |b|;
    forall i | 0 <= i < |b| ensures ' ' !in b[i] {
      assert b[i] in multiset(b);
      var j :| 0 <= j < |a| && a[j] == b[i];
    }
    SplitJoin(a, ' ');
    SplitJoin(b, ' ');
    WeightSumPermutation(a, b);
    JoinEmpty(a);
    JoinEmpty(b);
    if |a| == 1 {
      assert multiset(b) == multiset{a[0]} && b == [b[0]];
      assert b[0] in multiset(a);
    }
  }

  /** A layout written as tokens joined by single spaces counts exactly those tokens. */
  lemma LayoutOfTokens(tokens: seq<string>)
    requires |tokens| >= 1
    requires forall i :: 0 <= i < |tokens| ==> ' ' !in tokens[i]
    ensures LayoutTenths(Join(tokens, " ")) == WeightSum(tokens)
  {
    SplitJoin(tokens, ' ');
  }

  /** The layout "L R C LFE Ls Rs" is 5.1 channels. */
  lemma FivePointOne(tokens: seq<string>, count: Option<int>)
    requires tokens == ["L", "R", "C", "LFE", "Ls", "Rs"]
    ensures Channels(Some(Join(tokens, " ")), count) == Ok(51)
  {
    assert WeightSum(["L", "R", "C", "LFE", "Ls", "Rs"]) == 51;
    LayoutOfTokens(tokens);
  }

  /** Matching is exact and case-sensitive: "lfe" and "LFE2" are whole channels. */
  lemma NearLfe(tokens: seq<string>, count: Option<int>)
    requires tokens == ["L", "R", "lfe", "LFE2"]
    ensures Channels(Some(Join(tokens, " ")), count) == Ok(40)
  {
    assert WeightSum(["L", "R", "lfe", "LFE2"]) == 40;
    LayoutOfTokens(tokens);
  }

  /** A doubled space splits off an empty token, which counts as a whole channel. */
  lemma DoubledSpace(tokens: seq<string>, count: Option<int>)
    requires tokens == ["L", "", "R"]
    ensures Join(tokens, " ") == "L  R"
    ensures Channels(Some(Join(tokens, " ")), count) == Ok(30)
  {
    assert Join(["L", "", "R"], " ") == "L  R";
    assert WeightSum(["L", "", "R"]) == 30;
    LayoutOfTokens(tokens);
  }

  /** Without a layout the raw channel count is used; without either, the conversion to a number raises. */
  lemma NoLayout(count: int)
    ensures Channels(None, Some(count)) == Ok(10 * count)
    ensures Channels(Some(""), Some(count)) == Ok(10 * count)
    ensures Channels(None, None) == Err(NoChannelCount)
  {
  }

  /**
   * `title` of an audio track: the base rule with this track kind's codec
   * shorthand, so None exactly when the stripped title is blank, names a
   * language or repeats a candidate built from the shorthand.
   */
  function AudioTitle(t: MediaTrack, find: string -> LanguageSearch, get: string -> Language): (r: Option<string>)
    ensures r.Some? ==> r.value == StripSpace(t.title.GetOr("")) && r.value != ""
    ensures r.None? <==>
      (StripSpace(t.title.GetOr("")) == ""
       || NamesLanguage(find(StripSpace(t.title.GetOr(""))), get)
       || AnyIn(StripSpace(t.title.GetOr("")), Candidates(t.format, Codec(t.format), t.writingLibrary)))
  {
    Title(t.title, t.format, Codec(t.format), t.writingLibrary, find, get)
  }

  /** For AC-3 the title check looks for AC-3, AC3, DD (twice), the writing library's first word and the channel names. */
  lemma Ac3Candidates(format: string, writingLibrary: Option<string>)
    requires format == "AC-3"
    ensures Candidates(format, Codec(format), writingLibrary)
      == ["AC-3", "AC3", "DD", "DD", Split(writingLibrary.GetOr(""), ' ')[0], "Mono", "Stereo", "Surround", "Atmos"]
  {
    assert "AC-3" == "AC" + "-" + "3" + "";
    RemoveNonWordPieces("AC", "-", "3", "");
    assert "AC" + "3" == "AC3";
    ReplaceAbsent("DD", '+', 'P');
    RemoveNonWordOf("DD");
  }
}
