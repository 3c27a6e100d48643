/** The Ruby prototype's instrument list (classes/all_instruments_class.rb):
    the class-wide `@@input` holds the entries read from one line, which
    four steps rewrite in place — split, spaces and capitals, numerals,
    number words — before one `Instrument` per entry is appended to the
    class-wide `@@all`. */
module RubyAllInstruments {
  import opened Text
  import opened RubyText
  import opened RubyNames
  import opened RubyInstrument

  function StrippedAll(xs: seq<string>): (r: seq<string>)
    ensures |r| == |xs| && forall i :: 0 <= i < |xs| ==> r[i] == LStrip(xs[i])
  {
    if xs == [] then [] else [LStrip(xs[0])] + StrippedAll(xs[1..])
  }

  /** The entries `get_instruments` stores: the line split at commas,
      each entry without leading whitespace. */
  function Entries(line: string): seq<string> {
    StrippedAll(Split(line, ","))
  }

  /** The class variables of `AllInstruments`. One object stands for the
      class: every instance shares `@@input` and `@@all`. */
  class AllInstruments {
    var input: seq<string>
    var all: seq<Instrument>

    constructor ()
      ensures input == [] && all == []
    {
      input := [];
      all := [];
    }

    /** `get_instruments`, given the line `gets.chomp` returns. */
    method GetInstruments(line: string)
      modifies this
      ensures input == Entries(line) && all == old(all)
    {
      input := Entries(line);
    }

    /** `remove_spaces_and_caps`: `tr!(' A-Z', '_a-z')` on each entry. */
    method RemoveSpacesAndCaps()
      modifies this
      ensures input == UnderscoredAll(old(input)) && all == old(all)
    {
      var i := 0;
      while i < |input|
        invariant 0 <= i <= |input| == |old(input)|
        invariant forall j :: 0 <= j < i ==> input[j] == Underscored(old(input)[j])
        invariant forall j :: i <= j < |input| ==> input[j] == old(input)[j]
        invariant all == old(all)
      {
        input := input[i := Underscored(input[i])];
        i := i + 1;
      }
    }

    /** `normalize_roman_numerals`: the numeral hash on each entry. */
    method NormalizeRomanNumerals()
      modifies this
      ensures input == RomanAll(old(input)) && all == old(all)
    {
      var i := 0;
      while i < |input|
        invariant 0 <= i <= |input| == |old(input)|
        invariant forall j :: 0 <= j < i ==> input[j] == RomanToDigits(old(input)[j])
        invariant forall j :: i <= j < |input| ==> input[j] == old(input)[j]
        invariant all == old(all)
      {
        input := input[i := RomanToDigits(input[i])];
        i := i + 1;
      }
    }

    /** `normalize_number_words`: the nine word rewrites on each entry. */
    method NormalizeNumberWords()
      modifies this
      ensures input == WordsAll(old(input)) && all == old(all)
    {
      var i := 0;
      while i < |input|
        invariant 0 <= i <= |input| == |old(input)|
        invariant forall j :: 0 <= j < i ==> input[j] == WordsToDigits(old(input)[j])
        invariant forall j :: i <= j < |input| ==> input[j] == old(input)[j]
        invariant all == old(all)
      {
        var e := ReplaceNumberWords(input[i]);
        input := input[i := e];
        i := i + 1;
      }
    }

    /** `create_instrument_objects`: one new `Instrument` per entry, in
        order, appended both to `@@all` and to the instruments' own list. */
    method CreateInstrumentObjects(registry: Registry)
      modifies this, registry
      ensures input == old(input)
      ensures |all| == |old(all)| + |input| && all[..|old(all)|] == old(all)
      ensures forall i :: 0 <= i < |input| ==> all[|old(all)| + i].file == input[i]
      ensures registry.instances == old(registry.instances) + all[|old(all)|..]
    {
      var i := 0;
      while i < |input|
        invariant 0 <= i <= |input| && input == old(input)
        invariant |all| == |old(all)| + i && all[..|old(all)|] == old(all)
        invariant forall j :: 0 <= j < i ==> all[|old(all)| + j].file == input[j]
        invariant registry.instances == old(registry.instances) + all[|old(all)|..]
      {
        var ins := new Instrument(input[i], registry);
        assert (all + [ins])[|old(all)|..] == all[|old(all)|..] + [ins];
        all := all + [ins];
        i := i + 1;
      }
    }

    /** `AllInstruments.new`: the five steps in order. The entries end up
        normalised, and the new instruments, one per entry and in entry
        order, follow whatever `@@all` already held. */
    method Initialize(line: string, registry: Registry)
      modifies this, registry
      ensures input == NormalizedAll(Entries(line))
      ensures |all| == |old(all)| + |input| && all[..|old(all)|] == old(all)
      ensures forall i :: 0 <= i < |input| ==> all[|old(all)| + i].file == input[i]
      ensures registry.instances == old(registry.instances) + all[|old(all)|..]
    {
      GetInstruments(line);
      RemoveSpacesAndCaps();
      NormalizeRomanNumerals();
      NormalizeNumberWords();
      StepsAll(Entries(line));
      CreateInstrumentObjects(registry);
    }
  }

  // ---------------------------------------------------------------------
  // The line

  /** Leading whitespace before a word is what `lstrip` takes away. */
  lemma {:induction false} StripPadding(pad: string, x: string)
    requires forall j :: 0 <= j < |pad| ==> IsStripSpace(pad[j])
    requires x != [] && !IsStripSpace(x[0])
    ensures LStrip(pad + x) == x
  {
    if pad != [] {
      assert (pad + x)[1..] == pad[1..] + x;
      StripPadding(pad[1..], x);
    } else {
      assert pad + x == x;
    }
  }

  /** A line with one comma holds two entries. */
  lemma TwoFields(first: string, second: string)
    requires ',' !in first && ',' !in second && second != []
    ensures Split(first + [','] + second, ",") == [first, second]
  {
    FieldsConcat(first, ',', second);
    FieldsPlain(first, ',');
    FieldsPlain(second, ',');
  }

  lemma TwoEntries(first: string, pad: string, second: string)
    requires ',' !in first && ',' !in pad && ',' !in second
    requires first != [] && !IsStripSpace(first[0])
    requires second != [] && !IsStripSpace(second[0])
    requires forall j :: 0 <= j < |pad| ==> IsStripSpace(pad[j])
    ensures Entries(first + "," + pad + second) == [first, second]
  {
    TwoFields(first, pad + second);
    assert first + "," + pad + second == first + [','] + (pad + second);
    StripPadding([], first);
    assert [] + first == first;
    StripPadding(pad, second);
  }

  /** The numeral and the word for the same number name one instrument. */
  lemma SameInstrument(name: string, t: string, u: string, k: int)
    requires 1 <= k <= 9
    requires Lower(t) == RomanTails[k - 1] && Lower(u) == WordTails[k - 1]
    ensures Normalized(name + " " + t) == Normalized(name + " " + u) == Underscored(name) + "_" + [DigitChar(k)]
  {
    NormalizedRoman(name, t, k);
    NormalizedWord(name, u, k);
  }

  lemma NamedEntries(name: string, t: string, u: string, pad: string)
    requires ',' !in name && ',' !in t && ',' !in u
    requires name != [] && !IsStripSpace(name[0])
    requires (forall j :: 0 <= j < |pad| ==> IsStripSpace(pad[j])) && ',' !in pad
    ensures Entries((name + " " + t) + "," + pad + (name + " " + u)) == [name + " " + t, name + " " + u]
  {
    var first := name + " " + t;
    var second := name + " " + u;
    assert ',' !in first by { assert first == name + (" " + t); }
    assert ',' !in second by { assert second == name + (" " + u); }
    assert first[0] == name[0] && second[0] == name[0];
    TwoEntries(first, pad, second);
  }

  /** Two entries written with the numeral and with the word are read as
      the same instrument, whatever whitespace follows the comma. */
  lemma SameEntryLine(name: string, t: string, u: string, k: int, pad: string)
    requires 1 <= k <= 9
    requires Lower(t) == RomanTails[k - 1] && Lower(u) == WordTails[k - 1]
    requires ',' !in name && ',' !in t && ',' !in u
    requires name != [] && !IsStripSpace(name[0])
    requires (forall j :: 0 <= j < |pad| ==> IsStripSpace(pad[j])) && ',' !in pad
    ensures var es := Entries((name + " " + t) + "," + pad + (name + " " + u));
      |es| == 2 && Normalized(es[0]) == Normalized(es[1]) == Underscored(name) + "_" + [DigitChar(k)]
  {
    NamedEntries(name, t, u, pad);
    SameInstrument(name, t, u, k);
  }
}
