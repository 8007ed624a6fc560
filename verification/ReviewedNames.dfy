/** The reviewed files of a completed run, name by name. */
module ReviewedNames {
  import opened Names
  import opened Groups
  import opened RunState
  import opened PrimaryProcessing

  /** A source by its stem. */
  function Source(stem: string): string { stem + ".script-aligned.srt" }

  lemma SourceStem(stem: string)
    ensures EndsWith(Source(stem), ALIGNED) && Source(stem)[..|Source(stem)| - |ALIGNED|] == stem
  {
  }

  /** Every source yields the file of its own stem in its own season. */
  lemma ReviewedFileExactly(stem: string, season: nat)
    ensures EndsWith(Source(stem), ALIGNED)
    ensures ReviewedFile(Source(stem), season) ==
      "reviewed/season-" + (if season < 10 then "0" + Decimal(season) else Decimal(season)) + "/" + stem + ".automated-reviewed.srt"
  {
    SourceStem(stem);
    Concatenate("reviewed/season-" + Pad2(season), "/", stem, ".automated-reviewed.srt");
  }

  lemma Concatenate(a: string, b: string, c: string, d: string)
    ensures a + b + c + d == a + b + (c + d)
  {
  }

  lemma ReviewedFileLiteral()
    ensures EndsWith("pilot.script-aligned.srt", ALIGNED)
    ensures ReviewedFile("pilot.script-aligned.srt", 2) == "reviewed/season-" + "02" + "/pilot.automated-reviewed.srt"
    ensures ReviewedFile("pilot.script-aligned.srt", 12) == "reviewed/season-" + "12" + "/pilot.automated-reviewed.srt"
  {
    hide ReviewedFile, EndsWith, Decimal;
    PilotSource();
    ReviewedFileExactly("pilot", 2);
    ReviewedFileExactly("pilot", 12);
    SmallDecimals();
    PilotIn("02");
    PilotIn("12");
  }

  lemma PilotSource()
    ensures Source("pilot") == "pilot.script-aligned.srt"
  {
  }

  lemma SmallDecimals()
    ensures "0" + Decimal(2) == "02" && Decimal(12) == "12"
  {
    assert Decimal(1) == "1" && Decimal(2) == "2";
    assert Decimal(12) == Decimal(1) + "2";
  }

  lemma PilotIn(season: string)
    ensures "reviewed/season-" + season + "/" + "pilot" + ".automated-reviewed.srt"
         == "reviewed/season-" + season + "/pilot.automated-reviewed.srt"
  {
    assert "/" + "pilot" + ".automated-reviewed.srt" == "/pilot.automated-reviewed.srt";
    Regroup("reviewed/season-" + season, "/", "pilot", ".automated-reviewed.srt");
  }

  lemma Regroup(a: string, b: string, c: string, d: string)
    ensures a + b + c + d == a + (b + c + d)
  {
  }

  predicate IsSource(n: string) { |n| >= 19 && n[|n| - 19..] == ".script-aligned.srt" }

  /** `f` is the reviewed file of source `n`. */
  predicate IsReviewed(f: string, n: string, reader: Reader) {
    IsSource(n) && reader.season(n).Some? &&
    var season := reader.season(n).value;
    f == "reviewed/season-" + (if season < 10 then "0" + Decimal(season) else Decimal(season)) + "/" + n[..|n| - 19]
         + ".automated-reviewed.srt"
  }

  /** `d` is the directory of its season. */
  predicate IsSeason(d: string, n: string, reader: Reader) {
    reader.season(n).Some? &&
    var season := reader.season(n).value;
    d == "reviewed/season-" + (if season < 10 then "0" + Decimal(season) else Decimal(season))
  }

  lemma SourceOkExactly(reader: Reader, n: string)
    ensures SourceOk(reader, n) <==> IsSource(n) && reader.season(n).Some?
  {
    assert |ALIGNED| == 19;
  }

  lemma OneSource(reader: Reader, n: string)
    requires SourceOk(reader, n)
    ensures forall f :: IsReviewed(f, n, reader) <==> f == ReviewedFile(n, reader.season(n).value)
    ensures forall d :: IsSeason(d, n, reader) <==> d == SeasonDirectory(reader.season(n).value)
  {
    SourceOkExactly(reader, n);
    var stem := n[..|n| - 19];
    assert n == Source(stem);
    ReviewedFileExactly(stem, reader.season(n).value);
    hide ReviewedFile, Source, Decimal;
  }

  /** A manifest's outputs: refused unless there is a source and each ends in
      ".script-aligned.srt" and names a season; then one file a source and one
      directory a season. */
  lemma CompletedOutputsExactly(reader: Reader, manifest: Bytes)
    ensures CompletedOutputs(reader, manifest).Some? <==>
      && reader.sources(manifest).Some? && reader.sources(manifest).value != {}
      && forall n :: n in reader.sources(manifest).value ==> IsSource(n) && reader.season(n).Some?
    ensures CompletedOutputs(reader, manifest).Some? ==>
      var (sources, out) := (reader.sources(manifest).value, CompletedOutputs(reader, manifest).value);
      && (forall f :: f in out.files <==> exists n :: n in sources && IsReviewed(f, n, reader))
      && (forall d :: d in out.directories <==> d == "reviewed" || exists n :: n in sources && IsSeason(d, n, reader))
  {
    hide ReviewedFile, SeasonDirectory, IsReviewed, IsSeason, IsSource, EndsWith;
    if reader.sources(manifest).Some? {
      var sources := reader.sources(manifest).value;
      forall n | n in sources
        ensures SourceOk(reader, n) <==> IsSource(n) && reader.season(n).Some?
      {
        SourceOkExactly(reader, n);
      }
      if forall n :: n in sources ==> SourceOk(reader, n) {
        forall n | n in sources
          ensures forall f :: IsReviewed(f, n, reader) <==> f == ReviewedFile(n, reader.season(n).value)
          ensures forall d :: IsSeason(d, n, reader) <==> d == SeasonDirectory(reader.season(n).value)
        {
          OneSource(reader, n);
        }
      }
    }
  }
}
