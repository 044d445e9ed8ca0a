/** The lookup tables of nfog/constants.py. */
module Constants {

  /** DYNAMIC_RANGE_MAP: raw HDR format names to the short labels printed in summaries. */
  function DynamicRangeMap(): (m: map<string, string>)
    ensures m.Values <= {"HDR10", "HDR10+", "DV"}
    // mapping a label again changes nothing where the label is itself a key ...
    ensures forall k :: k in m && m[k] in m ==> m[m[k]] == m[k]
    // ... which it is for HDR10 and HDR10+, but not for DV
    ensures "HDR10" in m && "HDR10+" in m && "DV" !in m
  {
    map[
      "SMPTE ST 2086" := "HDR10",
      "HDR10" := "HDR10",
      "SMPTE ST 2094 App 4" := "HDR10+",
      "HDR10+" := "HDR10+",
      "Dolby Vision" := "DV"
    ]
  }

  /** The three raw HDR names the table translates. */
  lemma DynamicRangeLabels()
    ensures DynamicRangeMap()["SMPTE ST 2086"] == "HDR10"
    ensures DynamicRangeMap()["SMPTE ST 2094 App 4"] == "HDR10+"
    ensures DynamicRangeMap()["Dolby Vision"] == "DV"
    ensures |DynamicRangeMap()| == 5
  {
    var m := DynamicRangeMap();
    assert m.Keys == {"SMPTE ST 2086", "HDR10", "SMPTE ST 2094 App 4", "HDR10+", "Dolby Vision"};
  }

  /**
   * AUDIO_CHANNEL_LAYOUT_WEIGHT, in tenths of a channel: an "LFE" token weighs one tenth (0.1).
   * Tokens absent from the table weigh a whole channel (10 tenths) where it is used.
   */
  function AudioChannelLayoutWeight(): (m: map<string, nat>)
    ensures m.Keys == {"LFE"} && m["LFE"] == 1
  {
    map["LFE" := 1]
  }
}
