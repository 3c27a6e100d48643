/** The later copy of the Ruby output classes (methods/output_classes.rb):
    the same prefix but with only the literal `Op. ` shortened, the score
    and part filenames, and a `Defs` file whose include list is read from
    a comma-separated line. */
module RubyOutputClasses {
  import opened Outcomes
  import opened Text
  import opened RubyText
  import opened RubyInstrument
  import RubyOutput

  /** The prefix from an opus: each literal `Op. ` becomes `O`, spaces
      become underscores, upper case. */
  function OpusPrefix(opus: string): string {
    Upper(Tr(Replace(opus, "Op. ", "O"), ' ', '_'))
  }

  /** `filename_prefix`: as in the earlier copy but for the opus rewrite. */
  function FilenamePrefix(heads: map<string, string>): (r: Result<string>)
    ensures r.Err? <==> "opus" !in heads && "title" !in heads
    ensures r.Err? ==> r.error == RubyOutput.MissingTitle
  {
    if "opus" in heads then Ok(OpusPrefix(heads["opus"]))
    else if "title" in heads then Ok(RubyOutput.TitlePrefix(heads["title"]))
    else Err(RubyOutput.MissingTitle)
  }

  /** `i.gsub(/^ /, '')` on one include: a single leading space goes. */
  function DropLeadingSpace(s: string): (r: string)
    ensures s != [] && s[0] == ' ' ==> r == s[1..]
    ensures (s == [] || s[0] != ' ') ==> r == s
  {
    if s != [] && s[0] == ' ' then s[1..] else s
  }

  function DropLeadingSpaces(xs: seq<string>): (r: seq<string>)
    ensures |r| == |xs| && forall i :: 0 <= i < |xs| ==> r[i] == DropLeadingSpace(xs[i])
  {
    if xs == [] then [] else [DropLeadingSpace(xs[0])] + DropLeadingSpaces(xs[1..])
  }

  /** The include list `Defs.new` reads from the line `gets.chomp`
      returns. */
  function Includes(line: string): seq<string> {
    DropLeadingSpaces(Split(line, ","))
  }

  /** An output file of the later copy. */
  datatype Output = Base(heads: map<string, string>) | Score(heads: map<string, string>)
    | Part(heads: map<string, string>, instr: Instrument)
    | Defs(heads: map<string, string>, includes: seq<string>)
  {
    /** `filename`: the placeholder, the score or part ending on the
        prefix, or the fixed `defs.ily`, which needs no prefix. */
    function Filename(): (r: Result<string>)
      ensures Base? ==> r == Ok("not_sublcass")
      ensures Defs? ==> r == Ok("defs.ily")
      ensures Score? || Part? ==> (r.Ok? <==> FilenamePrefix(heads).Ok?)
      ensures (Score? || Part?) && r.Err? ==> r.error == RubyOutput.MissingTitle
      ensures Score? && r.Ok? ==> r.value == RubyOutput.ScoreFile(FilenamePrefix(heads).value)
      ensures Part? && r.Ok? ==> r.value == RubyOutput.PartFile(FilenamePrefix(heads).value, instr.file)
    {
      match this
      case Base(_) => Ok("not_sublcass")
      case Score(h) =>
        var p :- FilenamePrefix(h);
        Ok(RubyOutput.ScoreFile(p))
      case Part(h, ins) =>
        var p :- FilenamePrefix(h);
        Ok(RubyOutput.PartFile(p, ins.file))
      case Defs(_, _) => Ok("defs.ily")
    }

    /** `name`: `Defs` inherits the base class's placeholder. */
    function Name(): string {
      match this
      case Base(_) => "superceded"
      case Score(_) => "Score"
      case Part(_, ins) => Pretty(ins.file)
      case Defs(_, _) => "superceded"
    }
  }

  /** `Defs.new(version, language, headers)` with its input line. */
  function NewDefs(heads: map<string, string>, line: string): (d: Output)
    ensures d.Defs? && d.heads == heads && d.includes == Includes(line)
  {
    Defs(heads, Includes(line))
  }

  // ---------------------------------------------------------------------
  // The prefix

  /** The later prefix has the same shape: no space, nothing in lower
      case on the opus side. */
  lemma OpusPrefixShape(opus: string)
    ensures var r := OpusPrefix(opus);
      ' ' !in r && forall i :: 0 <= i < |r| ==> !('a' <= r[i] <= 'z')
  {
    var t := Tr(Replace(opus, "Op. ", "O"), ' ', '_');
    RubyOutput.TrRemovesSpace(Replace(opus, "Op. ", "O"));
    var r := Upper(t);
    forall i | 0 <= i < |r|
      ensures r[i] != ' ' && !('a' <= r[i] <= 'z')
    {
      assert r[i] == UpperChar(t[i]);
      assert t[i] != ' ';
    }
  }

  lemma PrefixNoSpace(heads: map<string, string>)
    requires FilenamePrefix(heads).Ok?
    ensures ' ' !in FilenamePrefix(heads).value
  {
    if "opus" in heads {
      OpusPrefixShape(heads["opus"]);
    } else {
      RubyOutput.TitlePrefixShape(heads["title"]);
    }
  }

  /** Without an opus the two copies agree; with one, the opus still
      wins on the key alone. */
  lemma TitleBranchesAgree(heads: map<string, string>, title: string)
    ensures "opus" !in heads ==> FilenamePrefix(heads) == RubyOutput.FilenamePrefix(heads)
    ensures "opus" in heads ==>
      FilenamePrefix(heads) == FilenamePrefix(heads["title" := title]) == Ok(OpusPrefix(heads["opus"]))
  {
    if "opus" in heads {
      assert "opus" in heads["title" := title] && heads["title" := title]["opus"] == heads["opus"];
    }
  }

  lemma ReplaceOpusSpaced(rest: string)
    requires rest == "15"
    ensures Replace("Op. " + rest, "Op. ", "O") == "O15"
  {
    var s := "Op. " + rest;
    assert s[..4] == "Op. " && s[4..] == rest;
    assert Replace(rest, "Op. ", "O") == rest;
  }

  lemma ReplaceOpusTight(s: string)
    requires s == "Op.15"
    ensures Replace(s, "Op. ", "O") == s
  {
    assert s[..4][3] == '1';
    var t := s[1..];
    assert t[..4][0] == 'p';
    assert Replace(t[1..], "Op. ", "O") == t[1..];
    assert [t[0]] + t[1..] == t;
    assert [s[0]] + s[1..] == s;
  }

  /** "Op. 15" gives `O15` in both copies, but "Op.15" gives `OP.15`
      here where the earlier copy gives `O15`: only the literal `Op. `
      is shortened. */
  lemma CopiesDifferOnTightOpus(spaced: string, tight: string)
    requires spaced == "Op. 15" && tight == "Op.15"
    ensures OpusPrefix(spaced) == RubyOutput.OpusPrefix(spaced) == "O15"
    ensures OpusPrefix(tight) == "OP.15" && RubyOutput.OpusPrefix(tight) == "O15"
  {
    RubyOutput.OpusFifteen(spaced, tight);
    SpacedOpus(spaced);
    TightOpus(tight);
  }

  lemma SpacedOpus(spaced: string)
    requires spaced == "Op. 15"
    ensures OpusPrefix(spaced) == "O15"
  {
    assert spaced == "Op. " + "15";
    ReplaceOpusSpaced("15");
    assert Tr("O15", ' ', '_') == "O15" && Upper("O15") == "O15";
  }

  lemma TightOpus(tight: string)
    requires tight == "Op.15"
    ensures OpusPrefix(tight) == "OP.15"
  {
    ReplaceOpusTight(tight);
    assert Tr(tight, ' ', '_') == tight;
    assert Upper(tight) == "OP.15";
  }

  // ---------------------------------------------------------------------
  // The filenames

  /** The later copy names a score and a part as the earlier one does,
      given the same prefix, and prints the same names on them: "Score"
      and the instrument's printed name. */
  lemma FilenamesMatchEarlierCopy(heads: map<string, string>, ins: Instrument)
    requires "opus" !in heads
    ensures Score(heads).Filename() == RubyOutput.Score(heads).Filename()
    ensures Part(heads, ins).Filename() == RubyOutput.Part(heads, ins).Filename()
    ensures Score(heads).Name() == RubyOutput.Score(heads).Name() == "Score"
    ensures Part(heads, ins).Name() == RubyOutput.Part(heads, ins).Name() == Pretty(ins.file)
  {
    TitleBranchesAgree(heads, "");
  }

  /** A `Defs` file is named `defs.ily` even when the headers can give no
      prefix, and never shares the score's name. */
  lemma DefsAlwaysNamed(heads: map<string, string>, includes: seq<string>)
    ensures Defs(heads, includes).Filename() == Ok("defs.ily")
    ensures Score(heads).Filename() != Defs(heads, includes).Filename()
  {
    var r := Score(heads).Filename();
    if r.Ok? {
      assert |r.value| >= 9;
    }
  }

  // ---------------------------------------------------------------------
  // The includes

  function Spaced(xs: seq<string>): (r: seq<string>)
    ensures |r| == |xs| && forall i :: 0 <= i < |xs| ==> r[i] == " " + xs[i]
  {
    if xs == [] then [] else [" " + xs[0]] + Spaced(xs[1..])
  }

  /** A list written out with `, ` splits at the commas into its first
      item and the others each with the space before it. */
  lemma {:induction false} FieldsOfJoin(xs: seq<string>)
    requires xs != [] && forall i :: 0 <= i < |xs| ==> ',' !in xs[i]
    ensures Fields(Join(xs, ", "), ",") == [xs[0]] + Spaced(xs[1..])
    decreases |xs|
  {
    if |xs| == 1 {
      FieldsPlain(xs[0], ',');
    } else {
      var rest := Join(xs[1..], ", ");
      assert Join(xs, ", ") == xs[0] + [','] + (" " + rest);
      FieldsConcat(xs[0], ',', " " + rest);
      FieldsPlain(xs[0], ',');
      FieldsOfJoin(xs[1..]);
      var fs := Fields(rest, ",");
      assert fs == [xs[1]] + Spaced(xs[2..]);
      FieldsStep(" " + rest, ',');
      assert (" " + rest)[1..] == rest;
      assert Fields(" " + rest, ",") == [" " + xs[1]] + Spaced(xs[2..]);
      assert xs[1..][1..] == xs[2..];
      assert Spaced(xs[1..]) == [" " + xs[1]] + Spaced(xs[2..]);
    }
  }

  lemma SplitOfJoin(xs: seq<string>)
    requires xs != [] && xs[|xs| - 1] != []
    requires forall i :: 0 <= i < |xs| ==> ',' !in xs[i]
    ensures Split(Join(xs, ", "), ",") == [xs[0]] + Spaced(xs[1..])
  {
    FieldsOfJoin(xs);
    var fs := [xs[0]] + Spaced(xs[1..]);
    assert fs[|fs| - 1] != [];
  }

  lemma DropSpacesOfSpaced(xs: seq<string>)
    requires xs != []
    requires forall i :: 0 <= i < |xs| ==> xs[i] != [] && xs[i][0] != ' '
    ensures DropLeadingSpaces([xs[0]] + Spaced(xs[1..])) == xs
  {
    var fs := [xs[0]] + Spaced(xs[1..]);
    var r := DropLeadingSpaces(fs);
    forall i | 0 <= i < |xs|
      ensures r[i] == xs[i]
    {
      assert r[i] == DropLeadingSpace(fs[i]);
      if i > 0 {
        assert fs[i] == Spaced(xs[1..])[i - 1] == " " + xs[i];
        assert (" " + xs[i])[1..] == xs[i];
      } else {
        assert fs[0] == xs[0];
      }
    }
  }

  /** The include list round-trips: items without commas, not empty and
      not starting with a space, written out with `, `, are read back as
      they were. */
  lemma IncludesRoundTrip(xs: seq<string>)
    requires xs != []
    requires forall i :: 0 <= i < |xs| ==> xs[i] != [] && xs[i][0] != ' ' && ',' !in xs[i]
    ensures Includes(Join(xs, ", ")) == xs
  {
    SplitOfJoin(xs);
    DropSpacesOfSpaced(xs);
  }
}
