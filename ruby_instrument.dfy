/** The Ruby prototype's instrument (classes/instrument_class.rb): an
    object holding the normalised name as `file`, recorded in a class-wide
    list of every instance, and two names derived from `file` — the
    variable name, with the trailing digit spelled out, and the printed
    name, capitalised with the trailing digit as a roman numeral. */
module RubyInstrument {
  import opened Text
  import opened RubyText
  import opened RubyNames

  /** The hash of `variable`'s `gsub(/_[0-9]*$/, ...)`. */
  const DigitWords: map<string, string> := map[
    "_1" := "_one", "_2" := "_two", "_3" := "_three", "_4" := "_four", "_5" := "_five",
    "_6" := "_six", "_7" := "_seven", "_8" := "_eight", "_9" := "_nine"]

  /** The hash of `pretty`'s `gsub(/ [0-9]*$/, ...)`. */
  const DigitRomans: map<string, string> := map[
    " 1" := " I", " 2" := " II", " 3" := " III", " 4" := " IV", " 5" := " V",
    " 6" := " VI", " 7" := " VII", " 8" := " VIII", " 9" := " IX"]

  const Digits: set<char> := {'0', '1', '2', '3', '4', '5', '6', '7', '8', '9'}

  /** The upper-case numerals for 1..9, by position. */
  const Numerals: seq<string> := ["I", "II", "III", "IV", "V", "VI", "VII", "VIII", "IX"]

  /** `ins.variable` for an instrument whose `file` is `file`. */
  function Variable(file: string): string {
    TailSub(file, '_', Digits, DigitWords)
  }

  /** `ins.pretty`: split on `_`, capitalise each piece, join with
      spaces, then rewrite a trailing ` <digits>`. */
  function Pretty(file: string): string {
    TailSub(Join(CapitalizeAll(Split(file, "_")), " "), ' ', Digits, DigitRomans)
  }

  /** The digit k is spelled as number word k. */
  lemma DigitWordsAt(k: int)
    requires 1 <= k <= 9
    ensures DigitChar(k) in Digits
    ensures "_" + [DigitChar(k)] in DigitWords && DigitWords["_" + [DigitChar(k)]] == "_" + WordTails[k - 1]
  {
    if k == 1 {
      assert "_" + [DigitChar(1)] == "_1";
    } else if k == 2 {
      assert "_" + [DigitChar(2)] == "_2";
    } else if k == 3 {
      assert "_" + [DigitChar(3)] == "_3";
    } else if k == 4 {
      assert "_" + [DigitChar(4)] == "_4";
    } else if k == 5 {
      assert "_" + [DigitChar(5)] == "_5";
    } else if k == 6 {
      assert "_" + [DigitChar(6)] == "_6";
    } else if k == 7 {
      assert "_" + [DigitChar(7)] == "_7";
    } else if k == 8 {
      assert "_" + [DigitChar(8)] == "_8";
    } else {
      assert "_" + [DigitChar(9)] == "_9";
    }
  }

  /** The digit k is printed as numeral k. */
  lemma DigitRomansAt(k: int)
    requires 1 <= k <= 9
    ensures DigitChar(k) in Digits
    ensures " " + [DigitChar(k)] in DigitRomans && DigitRomans[" " + [DigitChar(k)]] == " " + Numerals[k - 1]
  {
    if k == 1 {
      assert " " + [DigitChar(1)] == " 1";
    } else if k == 2 {
      assert " " + [DigitChar(2)] == " 2";
    } else if k == 3 {
      assert " " + [DigitChar(3)] == " 3";
    } else if k == 4 {
      assert " " + [DigitChar(4)] == " 4";
    } else if k == 5 {
      assert " " + [DigitChar(5)] == " 5";
    } else if k == 6 {
      assert " " + [DigitChar(6)] == " 6";
    } else if k == 7 {
      assert " " + [DigitChar(7)] == " 7";
    } else if k == 8 {
      assert " " + [DigitChar(8)] == " 8";
    } else {
      assert " " + [DigitChar(9)] == " 9";
    }
  }

  // ---------------------------------------------------------------------
  // variable

  /** A trailing `_1`..`_9` is spelled out. */
  lemma VariableNumbered(a: string, k: int)
    requires 1 <= k <= 9
    ensures Variable(a + "_" + [DigitChar(k)]) == a + "_" + WordTails[k - 1]
  {
    DigitWordsAt(k);
    TailSubHit(a, '_', Digits, DigitWords, [DigitChar(k)]);
  }

  /** Any other trailing run of digits after an underscore (`_10`, `_0`,
      a bare `_`) is deleted with it: the hash has no value for it. */
  lemma VariableDeletes(a: string, ds: string)
    requires forall j :: 0 <= j < |ds| ==> ds[j] in Digits
    requires "_" + ds !in DigitWords
    ensures Variable(a + "_" + ds) == a
  {
    TailSubHit(a, '_', Digits, DigitWords, ds);
  }

  /** `_10` is not a key of the hash, so `violin_10` loses its number. */
  lemma VariableTen(a: string, ds: string)
    requires ds == "10"
    ensures Variable(a + "_" + ds) == a
  {
    assert ds[0] in Digits && ds[1] in Digits;
    assert "_" + ds == "_10";
    VariableDeletes(a, ds);
  }

  /** A last part that is not all digits, or no underscore at all: the
      name is its own variable name. */
  lemma VariableKeeps(a: string, t: string, j: nat)
    requires '_' !in t && j < |t| && t[j] !in Digits
    ensures Variable(a + "_" + t) == a + "_" + t
  {
    TailSubMiss(a, '_', Digits, DigitWords, t, j);
  }

  lemma VariablePlain(s: string)
    requires '_' !in s
    ensures Variable(s) == s
  {
  }

  /** The variable name and the normalised name are inverse on a
      numbered name: spelling out the digit and reading the word back
      return where they started, both ways round. */
  lemma VariableRoundTrip(a: string, k: int)
    requires 1 <= k <= 9
    ensures WordsToDigits(Variable(a + "_" + [DigitChar(k)])) == a + "_" + [DigitChar(k)]
    ensures Variable(WordsToDigits(a + "_" + WordTails[k - 1])) == a + "_" + WordTails[k - 1]
  {
    VariableNumbered(a, k);
    WordsToDigitsNumbered(a, k);
  }

  // ---------------------------------------------------------------------
  // pretty

  lemma CapitalizeDigits(ds: string)
    requires forall j :: 0 <= j < |ds| ==> ds[j] in Digits
    ensures Capitalize(ds) == ds
  {
    if ds != [] {
      assert Lower(ds[1..]) == ds[1..];
    }
  }

  /** The pieces before a last piece `ds` that is not empty. */
  lemma PrettyPieces(a: string, ds: string)
    requires ds != [] && '_' !in ds
    ensures Join(CapitalizeAll(Split(a + "_" + ds, "_")), " ") ==
      Join(CapitalizeAll(Fields(a, "_")), " ") + " " + Capitalize(ds)
  {
    SplitLast(a, '_', ds);
    var fs := Fields(a, "_") + [ds];
    assert CapitalizeAll(fs) == CapitalizeAll(Fields(a, "_")) + [Capitalize(ds)];
    JoinSnoc(CapitalizeAll(Fields(a, "_")), Capitalize(ds), " ");
  }

  lemma DigitsNoUnderscore(ds: string)
    requires forall j :: 0 <= j < |ds| ==> ds[j] in Digits
    ensures '_' !in ds
  {
    forall j | 0 <= j < |ds|
      ensures ds[j] != '_'
    {
      assert ds[j] in Digits;
    }
  }

  lemma PrettyLookup(pieces: string, ds: string)
    requires forall j :: 0 <= j < |ds| ==> ds[j] in Digits
    ensures TailSub(pieces + [' '] + ds, ' ', Digits, DigitRomans) == pieces + Get(DigitRomans, " " + ds)
  {
    TailSubHit(pieces, ' ', Digits, DigitRomans, ds);
  }

  /** `pretty` once the pieces are joined: the tail after the last
      space is looked up. */
  lemma PrettyTail(a: string, ds: string)
    requires ds != [] && forall j :: 0 <= j < |ds| ==> ds[j] in Digits
    ensures Pretty(a + "_" + ds) ==
      Join(CapitalizeAll(Fields(a, "_")), " ") + Get(DigitRomans, " " + ds)
  {
    DigitsNoUnderscore(ds);
    CapitalizeDigits(ds);
    PrettyPieces(a, ds);
    PrettyLookup(Join(CapitalizeAll(Fields(a, "_")), " "), ds);
  }

  /** `pretty` on a numbered name: the pieces capitalised and joined by
      spaces, and the digit printed as its upper-case numeral. */
  lemma PrettyNumbered(a: string, k: int)
    requires 1 <= k <= 9
    ensures Pretty(a + "_" + [DigitChar(k)]) == Join(CapitalizeAll(Fields(a, "_")), " ") + " " + Numerals[k - 1]
  {
    DigitRomansAt(k);
    var d := [DigitChar(k)];
    assert forall j :: 0 <= j < |d| ==> d[j] in Digits;
    PrettyTail(a, d);
    var pieces := Join(CapitalizeAll(Fields(a, "_")), " ");
    assert Get(DigitRomans, " " + d) == " " + Numerals[k - 1];
    ConcatAssoc(pieces, " ", Numerals[k - 1]);
  }

  /** Any other trailing number (`_10`, `_0`) is dropped from the printed
      name, with the space before it. */
  lemma PrettyDropsNumber(a: string, ds: string)
    requires ds != [] && forall j :: 0 <= j < |ds| ==> ds[j] in Digits
    requires " " + ds !in DigitRomans
    ensures Pretty(a + "_" + ds) == Join(CapitalizeAll(Fields(a, "_")), " ")
  {
    PrettyTail(a, ds);
  }

  /** A one-piece name without spaces is only capitalised. */
  lemma PrettyPlain(a: string)
    requires a != [] && '_' !in a && ' ' !in a
    ensures Pretty(a) == Capitalize(a)
  {
    FieldsPlain(a, '_');
    assert Split(a, "_") == [a];
    assert CapitalizeAll([a]) == [Capitalize(a)];
    var c := Capitalize(a);
    assert ' ' !in c by {
      forall j | 0 <= j < |c|
        ensures c[j] != ' '
      {
        if j > 0 {
          assert c[j] == Lower(a[1..])[j - 1] == LowerChar(a[j]);
        }
      }
    }
  }

  /** A name without an underscore is a single piece. */
  lemma OnePiece(name: string)
    requires '_' !in name
    ensures Join(CapitalizeAll(Fields(name, "_")), " ") == Capitalize(name)
  {
    FieldsPlain(name, '_');
    assert CapitalizeAll([name]) == [Capitalize(name)];
  }

  lemma ViolinPieces(name: string)
    requires name == "violin"
    ensures Join(CapitalizeAll(Fields(name, "_")), " ") == "Violin"
  {
    OnePiece(name);
    CapitalizeLowerWord(name);
    assert [UpperChar(name[0])] + name[1..] == "Violin";
  }

  /** A trailing `_1` is printed as " I". */
  lemma PrettyFirst(a: string, file: string)
    requires file == a + "_1"
    ensures Pretty(file) == Join(CapitalizeAll(Fields(a, "_")), " ") + " I"
  {
    assert file == a + "_" + [DigitChar(1)];
    PrettyNumbered(a, 1);
  }

  /** `violin_1` is printed "Violin I". */
  lemma ViolinOnePretty(name: string, file: string)
    requires name == "violin" && file == name + "_1"
    ensures Pretty(file) == "Violin I"
  {
    PrettyFirst(name, file);
    ViolinPieces(name);
  }

  /** The variable name of `violin_1` is `violin_one`. */
  lemma ViolinOneVariable(name: string, file: string)
    requires name == "violin" && file == name + "_1"
    ensures Variable(file) == "violin_one"
  {
    assert file == name + "_" + [DigitChar(1)];
    VariableNumbered(name, 1);
  }

  // ---------------------------------------------------------------------
  // The object and the class-wide list

  /** `Instrument.all_instances`: the class-wide `@@array`. */
  class Registry {
    var instances: seq<Instrument>

    constructor ()
      ensures instances == []
    {
      instances := [];
    }
  }

  class Instrument {
    /** `attr_reader :file`. */
    const file: string

    /** `Instrument.new(input_name)`: stores the name and appends the new
        object to the class-wide list, which keeps creation order. */
    constructor (inputName: string, registry: Registry)
      modifies registry
      ensures file == inputName
      ensures registry.instances == old(registry.instances) + [this]
    {
      file := inputName;
      new;
      registry.instances := registry.instances + [this];
    }
  }
}
