/** The quality selector of a submission and the bitrate pair it selects (main.py:54-59). */
module Quality {

  /** A (video bitrate, audio bitrate) pair, as the encoder's `-b:v` and `-b:a` values. */
  datatype Bitrates = Bitrates(video: string, audio: string)

  /** The fixed table of known quality names. */
  const BitrateTable: map<string, Bitrates> :=
    map["high" := Bitrates("2000k", "192k"),
        "medium" := Bitrates("1000k", "128k"),
        "low" := Bitrates("500k", "96k")]

  /** `bitrates.get(quality, bitrates['low'])`: a known name selects its own pair,
      any other string falls back to the pair of "low". */
  function BitratesFor(quality: string): (r: Bitrates)
    ensures r in BitrateTable.Values
    ensures quality !in BitrateTable ==> r == BitrateTable["low"]
  {
    if quality in BitrateTable then BitrateTable[quality] else BitrateTable["low"]
  }

  /** The three named qualities and the fallback, as concrete pairs. */
  lemma QualityLookup(quality: string)
    ensures BitratesFor("high") == Bitrates("2000k", "192k")
    ensures BitratesFor("medium") == Bitrates("1000k", "128k")
    ensures BitratesFor("low") == Bitrates("500k", "96k")
    ensures quality != "high" && quality != "medium" ==> BitratesFor(quality) == Bitrates("500k", "96k")
  {
  }
}
