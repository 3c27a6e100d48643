/** The Ruby prototype's output files (classes/output_class.rb, with the
    one-method subclasses classes/score_class.rb and
    classes/part_class.rb): a filename prefix taken from the opus when
    the headers have one and from the title otherwise, and the score and
    part filenames built on it. */
module RubyOutput {
  import opened Outcomes
  import opened Text
  import opened RubyText
  import opened RubyInstrument

  // `gsub(/Op\.\s*/, 'O')`: every `Op.` and the whitespace after it
  // become `O`, scanning left to right.
  function OpStrip(s: string): string
    decreases |s|
  {
    if |s| < 3 then s
    else if s[..3] == "Op." then "O" + OpStrip(SkipRegexSpace(s[3..]))
    else [s[0]] + OpStrip(s[1..])
  }

  /** The prefix from an opus: `Op.` and its spacing shortened to `O`,
      spaces to underscores, upper case. */
  function OpusPrefix(opus: string): string {
    Upper(Tr(OpStrip(opus), ' ', '_'))
  }

  /** The prefix from a title: lower case, spaces to underscores, every
      `.` removed. */
  function TitlePrefix(title: string): string {
    Replace(Tr(Lower(title), ' ', '_'), ".", "")
  }

  /** `nil.downcase`: the headers have neither an opus nor a title. */
  const MissingTitle: Error := NoMethod("undefined method `downcase' for nil:NilClass")

  /** `filename_prefix`: the opus when the key is present, whatever its
      value; otherwise the title; otherwise the `NoMethodError`. */
  function FilenamePrefix(heads: map<string, string>): (r: Result<string>)
    ensures r.Err? <==> "opus" !in heads && "title" !in heads
    ensures r.Err? ==> r.error == MissingTitle
  {
    if "opus" in heads then Ok(OpusPrefix(heads["opus"]))
    else if "title" in heads then Ok(TitlePrefix(heads["title"]))
    else Err(MissingTitle)
  }

  /** `Score#filename`'s shape. */
  function ScoreFile(prefix: string): string {
    prefix + "_score.ly"
  }

  /** `Part#filename`'s shape. */
  function PartFile(prefix: string, file: string): string {
    prefix + "_" + file + ".ly"
  }

  /** An output file: the base class, a score, or one instrument's part.
      Only the headers and the instrument bear on the names. */
  datatype Output = Base(heads: map<string, string>) | Score(heads: map<string, string>)
    | Part(heads: map<string, string>, instr: Instrument)
  {
    /** `filename`: the base class's placeholder, or the prefix with the
        score or part ending; a missing prefix is the call's error. */
    function Filename(): (r: Result<string>)
      ensures Base? ==> r == Ok("not_sublcass")
      ensures !Base? ==> (r.Ok? <==> FilenamePrefix(heads).Ok?)
      ensures !Base? && r.Err? ==> r.error == MissingTitle
      ensures Score? && r.Ok? ==> IsPrefix(FilenamePrefix(heads).value, r.value) && IsSuffix("_score.ly", r.value)
      ensures Part? && r.Ok? ==> IsPrefix(FilenamePrefix(heads).value + "_", r.value) && IsSuffix(instr.file + ".ly", r.value)
      ensures Score? && r.Ok? ==> r.value == ScoreFile(FilenamePrefix(heads).value)
      ensures Part? && r.Ok? ==> r.value == PartFile(FilenamePrefix(heads).value, instr.file)
    {
      match this
      case Base(_) => Ok("not_sublcass")
      case Score(h) =>
        var p :- FilenamePrefix(h);
        Ok(ScoreFile(p))
      case Part(h, ins) =>
        var p :- FilenamePrefix(h);
        assert PartFile(p, ins.file) == (p + "_") + (ins.file + ".ly");
        Ok(PartFile(p, ins.file))
    }

    /** `name`: the placeholder, "Score", or the instrument's printed
        name. */
    function Name(): string {
      match this
      case Base(_) => "Something in missing in the sublcass name() method"
      case Score(_) => "Score"
      case Part(_, ins) => Pretty(ins.file)
    }
  }

  // ---------------------------------------------------------------------
  // The prefix

  lemma TrRemovesSpace(s: string)
    ensures ' ' !in Tr(s, ' ', '_')
  {
    var t := Tr(s, ' ', '_');
    forall i | 0 <= i < |t|
      ensures t[i] != ' '
    {
    }
  }

  /** Every `.` goes. */
  lemma {:induction false} ReplaceDropsChar(s: string, c: char)
    ensures c !in Replace(s, [c], "")
    decreases |s|
  {
    if |s| >= 1 {
      ReplaceDropsChar(s[1..], c);
    }
  }

  /** An opus prefix has no space and no lower-case letter. */
  lemma OpusPrefixShape(opus: string)
    ensures var r := OpusPrefix(opus);
      ' ' !in r && forall i :: 0 <= i < |r| ==> !('a' <= r[i] <= 'z')
  {
    TrRemovesSpace(OpStrip(opus));
    var t := Tr(OpStrip(opus), ' ', '_');
    var r := Upper(t);
    forall i | 0 <= i < |r|
      ensures r[i] != ' ' && !('a' <= r[i] <= 'z')
    {
      assert r[i] == UpperChar(t[i]);
      assert t[i] != ' ';
    }
  }

  /** A title prefix has no space, no `.` and no upper-case letter. */
  lemma TitlePrefixShape(title: string)
    ensures var r := TitlePrefix(title);
      ' ' !in r && '.' !in r && forall i :: 0 <= i < |r| ==> !('A' <= r[i] <= 'Z')
  {
    var t := Tr(Lower(title), ' ', '_');
    var r := TitlePrefix(title);
    TrRemovesSpace(Lower(title));
    ReplaceKeepsAbsentChar(t, ".", "", ' ');
    ReplaceDropsChar(t, '.');
    forall i | 0 <= i < |r|
      ensures !('A' <= r[i] <= 'Z')
    {
      var c := r[i];
      if 'A' <= c <= 'Z' {
        assert c !in t by {
          forall j | 0 <= j < |t|
            ensures t[j] != c
          {
            assert t[j] == if Lower(title)[j] == ' ' then '_' else LowerChar(title[j]);
          }
        }
        ReplaceKeepsAbsentChar(t, ".", "", c);
      }
    }
  }

  /** The prefix never holds a space, whichever header it comes from. */
  lemma PrefixNoSpace(heads: map<string, string>)
    requires FilenamePrefix(heads).Ok?
    ensures ' ' !in FilenamePrefix(heads).value
  {
    if "opus" in heads {
      OpusPrefixShape(heads["opus"]);
    } else {
      TitlePrefixShape(heads["title"]);
    }
  }

  /** The opus wins on the key alone: whatever the title, or without one,
      the prefix is the opus's. Without an opus it is the title's. */
  lemma OpusWins(heads: map<string, string>, title: string)
    ensures "opus" in heads ==>
      FilenamePrefix(heads) == FilenamePrefix(heads["title" := title]) == FilenamePrefix(heads - {"title"})
        == Ok(OpusPrefix(heads["opus"]))
    ensures "opus" !in heads && "title" in heads ==> FilenamePrefix(heads) == Ok(TitlePrefix(heads["title"]))
  {
    if "opus" in heads {
      assert "opus" in heads["title" := title] && heads["title" := title]["opus"] == heads["opus"];
      assert "opus" in heads - {"title"} && (heads - {"title"})["opus"] == heads["opus"];
    }
  }

  lemma {:induction false} SkipPadding(pad: string, x: string)
    requires forall j :: 0 <= j < |pad| ==> IsRegexSpace(pad[j])
    requires x == [] || !IsRegexSpace(x[0])
    ensures SkipRegexSpace(pad + x) == x
    decreases |pad|
  {
    if pad != [] {
      assert (pad + x)[1..] == pad[1..] + x;
      SkipPadding(pad[1..], x);
    } else {
      assert pad + x == x;
    }
  }

  /** However much whitespace follows `Op.`, none of it survives. */
  lemma OpStripSpacing(pad: string, rest: string)
    requires forall j :: 0 <= j < |pad| ==> IsRegexSpace(pad[j])
    requires rest == [] || !IsRegexSpace(rest[0])
    ensures OpStrip("Op." + pad + rest) == "O" + OpStrip(rest)
  {
    var s := "Op." + pad + rest;
    assert s[..3] == "Op.";
    assert s[3..] == pad + rest;
    SkipPadding(pad, rest);
  }

  lemma OpusFifteenPieces(rest: string)
    requires rest == "15"
    ensures Upper(Tr("O" + OpStrip(rest), ' ', '_')) == "O15"
  {
    assert OpStrip(rest) == "15";
    assert Tr("O15", ' ', '_') == "O15";
    assert Upper("O15") == "O15";
  }

  /** "Op. 15" and "Op.15" both give the prefix `O15`. */
  lemma OpusFifteen(spaced: string, tight: string)
    requires spaced == "Op. 15" && tight == "Op.15"
    ensures OpusPrefix(spaced) == OpusPrefix(tight) == "O15"
  {
    assert spaced == "Op." + " " + "15";
    OpStripSpacing(" ", "15");
    assert tight == "Op." + "" + "15";
    OpStripSpacing("", "15");
    OpusFifteenPieces("15");
  }

  // ---------------------------------------------------------------------
  // The filenames

  lemma CancelFront(a: string, x: string, y: string)
    ensures a + x == a + y <==> x == y
  {
    if a + x == a + y {
      assert x == (a + x)[|a|..];
    }
  }

  lemma CancelBack(x: string, y: string, b: string)
    ensures x + b == y + b <==> x == y
  {
    if x + b == y + b {
      assert x == (x + b)[..|x|];
    }
  }

  /** Two parts under one prefix share a filename exactly when their
      instruments share a `file`. */
  lemma PartFileInjective(prefix: string, f: string, g: string)
    ensures PartFile(prefix, f) == PartFile(prefix, g) <==> f == g
  {
    CancelFront(prefix + "_", f + ".ly", g + ".ly");
    CancelBack(f, g, ".ly");
    assert PartFile(prefix, f) == (prefix + "_") + (f + ".ly");
    assert PartFile(prefix, g) == (prefix + "_") + (g + ".ly");
  }

  /** The score's filename is a part's only for an instrument whose
      `file` is `score`. */
  lemma ScoreIsNotPart(prefix: string, f: string)
    ensures ScoreFile(prefix) == PartFile(prefix, f) <==> f == "score"
  {
    var tail := "_" + f + ".ly";
    assert PartFile(prefix, f) == prefix + tail;
    CancelFront(prefix, "_score.ly", tail);
    if tail == "_score.ly" {
      assert f == tail[1..6];
    }
  }

  /** The score and the parts of one header set: the parts' names differ
      when the instruments' names do, and none is the score's unless an
      instrument is called `score`. */
  lemma OutputFilenamesDistinct(heads: map<string, string>, a: Instrument, b: Instrument)
    requires FilenamePrefix(heads).Ok?
    ensures Part(heads, a).Filename() == Part(heads, b).Filename() <==> a.file == b.file
    ensures Score(heads).Filename() == Part(heads, a).Filename() <==> a.file == "score"
  {
    var p := FilenamePrefix(heads).value;
    PartFileInjective(p, a.file, b.file);
    ScoreIsNotPart(p, a.file);
  }
}
