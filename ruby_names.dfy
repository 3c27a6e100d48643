/** The Ruby prototype's normalisation of an entered instrument name
    (classes/all_instruments_class.rb and get_instruments.rb, which carry
    the same code): spaces become underscores and capitals small letters,
    then a trailing roman numeral `_i`..`_ix` and then a trailing number
    word `_one`..`_nine` become the digit `_1`..`_9`. */
module RubyNames {
  import opened Text
  import opened RubyText

  /** The hash of `gsub!(/_[ivx]*$/, ...)`. */
  const RomanDigits: map<string, string> := map[
    "_i" := "_1", "_ii" := "_2", "_iii" := "_3", "_iv" := "_4", "_v" := "_5",
    "_vi" := "_6", "_vii" := "_7", "_viii" := "_8", "_ix" := "_9"]

  const RomanLetters: set<char> := {'i', 'v', 'x'}

  /** The nine `gsub!(/_<word>$/, '_<digit>')` calls, in the order they run. */
  const WordDigits: seq<(string, string)> := [
    ("_one", "_1"), ("_two", "_2"), ("_three", "_3"), ("_four", "_4"), ("_five", "_5"),
    ("_six", "_6"), ("_seven", "_7"), ("_eight", "_8"), ("_nine", "_9")]

  /** The numerals and number words for 1..9, by position. */
  const RomanTails: seq<string> := ["i", "ii", "iii", "iv", "v", "vi", "vii", "viii", "ix"]
  const WordTails: seq<string> := ["one", "two", "three", "four", "five", "six", "seven", "eight", "nine"]

  /** The tables say what their names say: numeral k and word k both
      stand for the digit k. */
  lemma TablesAt(k: int)
    requires 1 <= k <= 9
    ensures "_" + RomanTails[k - 1] in RomanDigits && RomanDigits["_" + RomanTails[k - 1]] == "_" + [DigitChar(k)]
    ensures WordDigits[k - 1] == ("_" + WordTails[k - 1], "_" + [DigitChar(k)])
  {
    if k == 1 {
      assert "_" + RomanTails[0] == "_i";
      assert "_" + WordTails[0] == "_one";
    } else if k == 2 {
      assert "_" + RomanTails[1] == "_ii";
      assert "_" + WordTails[1] == "_two";
    } else if k == 3 {
      assert "_" + RomanTails[2] == "_iii";
      assert "_" + WordTails[2] == "_three";
    } else if k == 4 {
      assert "_" + RomanTails[3] == "_iv";
      assert "_" + WordTails[3] == "_four";
    } else if k == 5 {
      assert "_" + RomanTails[4] == "_v";
      assert "_" + WordTails[4] == "_five";
    } else if k == 6 {
      assert "_" + RomanTails[5] == "_vi";
      assert "_" + WordTails[5] == "_six";
    } else if k == 7 {
      assert "_" + RomanTails[6] == "_vii";
      assert "_" + WordTails[6] == "_seven";
    } else if k == 8 {
      assert "_" + RomanTails[7] == "_viii";
      assert "_" + WordTails[7] == "_eight";
    } else {
      assert "_" + RomanTails[8] == "_ix";
      assert "_" + WordTails[8] == "_nine";
    }
  }

  /** A numeral is made of numeral letters; a number word starts with a
      letter that is not one, ends with a small letter, and holds no
      underscore and no space. */
  lemma TailsAt(k: int)
    requires 1 <= k <= 9
    ensures var t := RomanTails[k - 1];
      (forall j :: 0 <= j < |t| ==> t[j] in RomanLetters) && ' ' !in t
    ensures var w := WordTails[k - 1];
      w != [] && '_' !in w && ' ' !in w && w[0] !in RomanLetters && 'a' <= w[|w| - 1] <= 'z'
  {
    if k == 1 {} else if k == 2 {} else if k == 3 {} else if k == 4 {}
    else if k == 5 {} else if k == 6 {} else if k == 7 {} else if k == 8 {}
  }

  lemma WordTailsDistinct(i: int, j: int)
    requires 0 <= i < 9 && 0 <= j < 9 && i != j
    ensures WordTails[i] != WordTails[j]
  {
  }

  /** `tr(' A-Z', '_a-z')`. */
  function Underscored(s: string): string {
    Lower(Tr(s, ' ', '_'))
  }

  /** `gsub!(/_[ivx]*$/, RomanDigits)`. */
  function RomanToDigits(s: string): string {
    TailSub(s, '_', RomanLetters, RomanDigits)
  }

  /** The chain of `gsub!` calls, one pair after another. */
  function EndSubs(s: string, pairs: seq<(string, string)>): string
    decreases |pairs|
  {
    if pairs == [] then s else EndSubs(EndSub(s, pairs[0].0, pairs[0].1), pairs[1..])
  }

  /** The nine number-word rewrites. */
  function WordsToDigits(s: string): string {
    EndSubs(s, WordDigits)
  }

  /** One entry of the pipeline: spaces and capitals, then numerals, then
      number words. */
  function Normalized(s: string): string {
    WordsToDigits(RomanToDigits(Underscored(s)))
  }

  /** The nine `gsub!(/_<word>$/, '_<digit>')` calls on one entry, in
      order. */
  method ReplaceNumberWords(s: string) returns (r: string)
    ensures r == WordsToDigits(s)
  {
    r := s;
    var j := 0;
    assert WordDigits[j..] == WordDigits;
    while j < |WordDigits|
      invariant 0 <= j <= |WordDigits|
      invariant EndSubs(r, WordDigits[j..]) == WordsToDigits(s)
    {
      assert WordDigits[j..][1..] == WordDigits[j + 1..];
      r := EndSub(r, WordDigits[j].0, WordDigits[j].1);
      j := j + 1;
    }
  }

  // ---------------------------------------------------------------------
  // The steps over a whole list of entries

  function UnderscoredAll(xs: seq<string>): (r: seq<string>)
    ensures |r| == |xs| && forall i :: 0 <= i < |xs| ==> r[i] == Underscored(xs[i])
  {
    if xs == [] then [] else [Underscored(xs[0])] + UnderscoredAll(xs[1..])
  }

  function RomanAll(xs: seq<string>): (r: seq<string>)
    ensures |r| == |xs| && forall i :: 0 <= i < |xs| ==> r[i] == RomanToDigits(xs[i])
  {
    if xs == [] then [] else [RomanToDigits(xs[0])] + RomanAll(xs[1..])
  }

  function WordsAll(xs: seq<string>): (r: seq<string>)
    ensures |r| == |xs| && forall i :: 0 <= i < |xs| ==> r[i] == WordsToDigits(xs[i])
  {
    if xs == [] then [] else [WordsToDigits(xs[0])] + WordsAll(xs[1..])
  }

  function NormalizedAll(xs: seq<string>): (r: seq<string>)
    ensures |r| == |xs| && forall i :: 0 <= i < |xs| ==> r[i] == Normalized(xs[i])
  {
    if xs == [] then [] else [Normalized(xs[0])] + NormalizedAll(xs[1..])
  }

  /** The three list-wide steps, one after another, normalise each entry. */
  lemma StepsAll(xs: seq<string>)
    ensures WordsAll(RomanAll(UnderscoredAll(xs))) == NormalizedAll(xs)
  {
    var r := WordsAll(RomanAll(UnderscoredAll(xs)));
    assert forall i :: 0 <= i < |xs| ==> r[i] == NormalizedAll(xs)[i];
  }

  // ---------------------------------------------------------------------
  // The literal and the anchored rewrites

  lemma {:induction false} EndSubsSkip(s: string, pairs: seq<(string, string)>)
    requires forall i :: 0 <= i < |pairs| ==> !IsSuffix(pairs[i].0, s)
    ensures EndSubs(s, pairs) == s
    decreases |pairs|
  {
    if pairs != [] {
      EndSubsSkip(s, pairs[1..]);
    }
  }

  lemma {:induction false} EndSubsHit(s: string, pairs: seq<(string, string)>, k: nat)
    requires k < |pairs|
    requires forall i :: 0 <= i < k ==> !IsSuffix(pairs[i].0, s)
    requires IsSuffix(pairs[k].0, s)
    requires forall i :: k < i < |pairs| ==> !IsSuffix(pairs[i].0, EndSub(s, pairs[k].0, pairs[k].1))
    ensures EndSubs(s, pairs) == EndSub(s, pairs[k].0, pairs[k].1)
    decreases k
  {
    if k == 0 {
      EndSubsSkip(EndSub(s, pairs[0].0, pairs[0].1), pairs[1..]);
    } else {
      EndSubsHit(s, pairs[1..], k - 1);
    }
  }

  /** An underscore-led suffix of text ending in `_t` is `_t` itself
      when neither tail holds an underscore. */
  lemma UnderscoreTail(a: string, t: string, u: string)
    requires '_' !in t && '_' !in u
    ensures IsSuffix("_" + u, a + "_" + t) ==> u == t
  {
    var s := a + "_" + t;
    if IsSuffix("_" + u, s) {
      var p := |s| - |u| - 1;
      assert s == s[..p] + "_" + u;
      LastIndexBefore(s[..p], '_', u);
      LastIndexBefore(a, '_', t);
      assert s[p + 1..] == u;
    }
  }

  lemma LastCharOfSuffix(p: string, s: string)
    requires p != [] && s != [] && p[|p| - 1] != s[|s| - 1]
    ensures !IsSuffix(p, s)
  {
  }

  lemma DigitIsDigit(k: nat)
    requires k < 10
    ensures IsDigit(DigitChar(k))
  {
    if k == 0 {} else if k == 1 {} else if k == 2 {} else if k == 3 {} else if k == 4 {}
    else if k == 5 {} else if k == 6 {} else if k == 7 {} else if k == 8 {}
  }

  /** Text ending in a digit is left alone by the number-word chain. */
  lemma WordsSkipDigit(s: string)
    requires s != [] && IsDigit(s[|s| - 1])
    ensures WordsToDigits(s) == s
  {
    forall i | 0 <= i < |WordDigits|
      ensures !IsSuffix(WordDigits[i].0, s)
    {
      TablesAt(i + 1);
      TailsAt(i + 1);
      LastCharOfSuffix(WordDigits[i].0, s);
    }
    EndSubsSkip(s, WordDigits);
  }

  // ---------------------------------------------------------------------
  // What each step does

  /** A trailing numeral `_i`..`_ix` becomes its digit. */
  lemma RomanToDigitsNumbered(a: string, k: int)
    requires 1 <= k <= 9
    ensures RomanToDigits(a + "_" + RomanTails[k - 1]) == a + "_" + [DigitChar(k)]
  {
    TablesAt(k);
    TailsAt(k);
    TailSubHit(a, '_', RomanLetters, RomanDigits, RomanTails[k - 1]);
  }

  /** Any other trailing run of `i`, `v` and `x` after an underscore,
      the bare underscore included, is deleted with it. */
  lemma RomanToDigitsDeletes(a: string, t: string)
    requires forall j :: 0 <= j < |t| ==> t[j] in RomanLetters
    requires "_" + t !in RomanDigits
    ensures RomanToDigits(a + "_" + t) == a
  {
    TailSubHit(a, '_', RomanLetters, RomanDigits, t);
  }

  /** A last word that is not a run of numeral letters is kept. */
  lemma RomanToDigitsKeeps(a: string, t: string, j: nat)
    requires '_' !in t && j < |t| && t[j] !in RomanLetters
    ensures RomanToDigits(a + "_" + t) == a + "_" + t
  {
    TailSubMiss(a, '_', RomanLetters, RomanDigits, t, j);
  }

  /** A trailing `_one`..`_nine` becomes its digit; the other eight
      rewrites leave the text alone. */
  lemma WordsToDigitsNumbered(a: string, k: int)
    requires 1 <= k <= 9
    ensures WordsToDigits(a + "_" + WordTails[k - 1]) == a + "_" + [DigitChar(k)]
  {
    var s := a + "_" + WordTails[k - 1];
    TablesAt(k);
    TailsAt(k);
    forall i | 0 <= i < k - 1
      ensures !IsSuffix(WordDigits[i].0, s)
    {
      TablesAt(i + 1);
      TailsAt(i + 1);
      WordTailsDistinct(i, k - 1);
      UnderscoreTail(a, WordTails[k - 1], WordTails[i]);
    }
    var s' := EndSub(s, WordDigits[k - 1].0, WordDigits[k - 1].1);
    assert s[..|s| - |WordDigits[k - 1].0|] == a;
    assert s' == a + "_" + [DigitChar(k)];
    forall i | k - 1 < i < 9
      ensures !IsSuffix(WordDigits[i].0, s')
    {
      TablesAt(i + 1);
      TailsAt(i + 1);
      LastCharOfSuffix(WordDigits[i].0, s');
    }
    EndSubsHit(s, WordDigits, k - 1);
  }

  lemma UnderscoredConcat(x: string, y: string)
    ensures Underscored(x + y) == Underscored(x) + Underscored(y)
  {
  }

  lemma UnderscoredPlain(t: string)
    requires ' ' !in Lower(t)
    ensures Underscored(t) == Lower(t)
  {
    assert forall i :: 0 <= i < |t| ==> t[i] != ' ' by {
      forall i | 0 <= i < |t|
        ensures t[i] != ' '
      {
        assert Lower(t)[i] == LowerChar(t[i]);
      }
    }
    TrAbsent(t, ' ', '_');
  }

  /** The first step on a name, a space and a tail without spaces. */
  lemma UnderscoredSpaced(name: string, t: string)
    requires ' ' !in Lower(t)
    ensures Underscored(name + " " + t) == Underscored(name) + "_" + Lower(t)
  {
    assert Underscored(" ") == "_";
    UnderscoredConcat(name, " ");
    UnderscoredConcat(name + " ", t);
    UnderscoredPlain(t);
  }

  /** A name followed by a roman numeral (in either case) is the name
      with `_` and the digit. */
  lemma NormalizedRoman(name: string, t: string, k: int)
    requires 1 <= k <= 9 && Lower(t) == RomanTails[k - 1]
    ensures Normalized(name + " " + t) == Underscored(name) + "_" + [DigitChar(k)]
  {
    TailsAt(k);
    var n := Underscored(name);
    UnderscoredSpaced(name, t);
    var u := Underscored(name + " " + t);
    assert u == n + "_" + RomanTails[k - 1];
    RomanToDigitsNumbered(n, k);
    var r := n + "_" + [DigitChar(k)];
    assert RomanToDigits(u) == r;
    assert r[|r| - 1] == DigitChar(k);
    DigitIsDigit(k);
    WordsSkipDigit(r);
  }

  /** A name followed by a number word (in either case) is the name with
      `_` and the digit. */
  lemma NormalizedWord(name: string, u: string, k: int)
    requires 1 <= k <= 9 && Lower(u) == WordTails[k - 1]
    ensures Normalized(name + " " + u) == Underscored(name) + "_" + [DigitChar(k)]
  {
    TailsAt(k);
    var n := Underscored(name);
    UnderscoredSpaced(name, u);
    RomanToDigitsKeeps(n, WordTails[k - 1], 0);
    WordsToDigitsNumbered(n, k);
  }

  lemma ViolinName(name: string)
    requires name == "Violin" || name == "violin"
    ensures Underscored(name) + "_" + [DigitChar(2)] == "violin_2"
  {
    assert Underscored(name) == "violin";
  }

  /** "Violin II" is `violin_2`. */
  lemma ViolinTwoNumeral(name: string, numeral: string)
    requires name == "Violin" && numeral == "II"
    ensures Normalized(name + " " + numeral) == "violin_2"
  {
    assert Lower(numeral) == RomanTails[1];
    NormalizedRoman(name, numeral, 2);
    ViolinName(name);
  }

  /** "violin two" is `violin_2` as well. */
  lemma ViolinTwoWord(name: string, word: string)
    requires name == "violin" && word == "two"
    ensures Normalized(name + " " + word) == "violin_2"
  {
    assert Lower(word) == WordTails[1];
    NormalizedWord(name, word, 2);
    ViolinName(name);
  }
}
