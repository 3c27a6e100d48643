/** The Ruby prototype's first instrument reader (get_instruments.rb):
    the line is split at ", ", each entry lower-cased with spaces turned
    into underscores, then rewritten in place — numerals, then number
    words — and returned with the list of variable names beside it. */
module RubyGetInstruments {
  import opened Text
  import opened RubyText
  import opened RubyNames
  import opened RubyInstrument

  function VariableAll(xs: seq<string>): (r: seq<string>)
    ensures |r| == |xs| && forall i :: 0 <= i < |xs| ==> r[i] == Variable(xs[i])
  {
    if xs == [] then [] else [Variable(xs[0])] + VariableAll(xs[1..])
  }

  /** The body of `parts.each`: the numeral rewrite, then the nine
      number-word rewrites, on one part. */
  method RenumberPart(part: string) returns (r: string)
    ensures r == WordsToDigits(RomanToDigits(part))
  {
    r := RomanToDigits(part);
    r := ReplaceNumberWords(r);
  }

  /** `parts.each do |ins| ... end`: each part rewritten in place. */
  method RenumberParts(spaced: seq<string>) returns (parts: seq<string>)
    ensures parts == WordsAll(RomanAll(spaced))
  {
    parts := spaced;
    var i := 0;
    while i < |parts|
      invariant 0 <= i <= |parts| == |spaced|
      invariant forall j :: 0 <= j < i ==> parts[j] == WordsToDigits(RomanToDigits(spaced[j]))
      invariant forall j :: i <= j < |parts| ==> parts[j] == spaced[j]
    {
      var ins := RenumberPart(parts[i]);
      parts := parts[i := ins];
      i := i + 1;
    }
  }

  /** `get_instruments`, given the line `gets.chomp` returns: one part
      per entry, normalised, and beside each part its variable name. */
  method GetInstruments(line: string) returns (parts: seq<string>, vars: seq<string>)
    ensures parts == NormalizedAll(Split(line, ", ")) && vars == VariableAll(parts)
  {
    var entries := Split(line, ", ");
    parts := RenumberParts(UnderscoredAll(entries));
    StepsAll(entries);
    vars := VariableAll(parts);
  }

  /** Only ", " separates: a line without it is one entry, commas and
      all. */
  lemma OneEntry(line: string)
    requires line != [] && !Contains(line, ", ")
    ensures Split(line, ", ") == [line]
  {
    FieldsNoSep(line, ", ");
  }

  /** A numbered entry, with the numeral or with the word, gives the part
      `<name>_<digit>` and the variable `<name>_<word>`. */
  lemma NumberedEntry(name: string, t: string, k: int)
    requires 1 <= k <= 9
    requires Lower(t) == RomanTails[k - 1] || Lower(t) == WordTails[k - 1]
    ensures Normalized(name + " " + t) == Underscored(name) + "_" + [DigitChar(k)]
    ensures Variable(Normalized(name + " " + t)) == Underscored(name) + "_" + WordTails[k - 1]
  {
    if Lower(t) == RomanTails[k - 1] {
      NormalizedRoman(name, t, k);
    } else {
      NormalizedWord(name, t, k);
    }
    VariableNumbered(Underscored(name), k);
  }

  /** "violin ii" gives the part `violin_2` ... */
  lemma ViolinIi(name: string, numeral: string)
    requires name == "violin" && numeral == "ii"
    ensures Normalized(name + " " + numeral) == "violin_2"
  {
    assert Lower(numeral) == RomanTails[1];
    NumberedEntry(name, numeral, 2);
    ViolinName(name);
  }

  /** ... and beside it the variable `violin_two`. */
  lemma ViolinTwoVariable(name: string, part: string)
    requires name == "violin" && part == name + "_2"
    ensures Variable(part) == "violin_two"
  {
    assert part == name + "_" + [DigitChar(2)];
    VariableNumbered(name, 2);
    assert name + "_" + WordTails[1] == "violin_two";
  }
}
