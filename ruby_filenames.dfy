/** The Ruby prototype's list of files to create (generate_filenames.rb):
    the score's filename, then one part filename per instrument, in the
    order the instruments come. */
module RubyFilenames {
  import opened Outcomes
  import opened RubyInstrument
  import RubyOutput
  import RubyOutputClasses

  /** `generate_filenames(headers, instruments)`. The prefix is built as
      in methods/output_classes.rb; a missing title is the call's error. */
  method GenerateFilenames(headers: map<string, string>, instruments: seq<Instrument>)
    returns (r: Result<seq<string>>)
    ensures r.Ok? <==> RubyOutputClasses.FilenamePrefix(headers).Ok?
    ensures r.Err? ==> r.error == RubyOutputClasses.FilenamePrefix(headers).error
    ensures r.Ok? ==> |r.value| == 1 + |instruments|
    ensures r.Ok? ==> Ok(r.value[0]) == RubyOutputClasses.Score(headers).Filename()
    ensures r.Ok? ==> forall i :: 0 <= i < |instruments| ==>
      Ok(r.value[i + 1]) == RubyOutputClasses.Part(headers, instruments[i]).Filename()
  {
    var pre := RubyOutputClasses.FilenamePrefix(headers);
    if pre.Err? {
      return Err(pre.error);
    }
    var prefix := pre.value;
    var filenames := [RubyOutput.ScoreFile(prefix)];
    var i := 0;
    while i < |instruments|
      invariant 0 <= i <= |instruments| && |filenames| == 1 + i
      invariant filenames[0] == RubyOutput.ScoreFile(prefix)
      invariant forall j :: 0 <= j < i ==> filenames[j + 1] == RubyOutput.PartFile(prefix, instruments[j].file)
    {
      filenames := filenames + [RubyOutput.PartFile(prefix, instruments[i].file)];
      i := i + 1;
    }
    return Ok(filenames);
  }

  /** The names are all different when the instruments' names are and
      none is called `score`. */
  lemma GeneratedNamesDistinct(headers: map<string, string>, instruments: seq<Instrument>, names: seq<string>)
    requires RubyOutputClasses.FilenamePrefix(headers).Ok?
    requires |names| == 1 + |instruments|
    requires Ok(names[0]) == RubyOutputClasses.Score(headers).Filename()
    requires forall i :: 0 <= i < |instruments| ==>
      Ok(names[i + 1]) == RubyOutputClasses.Part(headers, instruments[i]).Filename()
    requires forall i :: 0 <= i < |instruments| ==> instruments[i].file != "score"
    requires forall i, j :: 0 <= i < j < |instruments| ==> instruments[i].file != instruments[j].file
    ensures forall i, j :: 0 <= i < j < |names| ==> names[i] != names[j]
  {
    var p := RubyOutputClasses.FilenamePrefix(headers).value;
    forall i, j | 0 <= i < j < |names|
      ensures names[i] != names[j]
    {
      assert names[j] == RubyOutput.PartFile(p, instruments[j - 1].file);
      if i == 0 {
        RubyOutput.ScoreIsNotPart(p, instruments[j - 1].file);
      } else {
        assert names[i] == RubyOutput.PartFile(p, instruments[i - 1].file);
        RubyOutput.PartFileInjective(p, instruments[i - 1].file, instruments[j - 1].file);
      }
    }
  }
}
