/** Name derivation (lilyskel/lynames.py, first half): name
    normalisation, the number forms (digits, words, the generator's own
    roman numerals) and the file, directory and variable names derived
    from a `LyName`. */
module LyNames {
  import opened Outcomes
  import opened Text

  // ---------------------------------------------------------------------
  // normalize_name

  /** A character of the class `[-_\s]`. */
  predicate IsSep(c: char) {
    c == '-' || c == '_' || IsSpace(c)
  }

  /** Drop a leading run of separators. */
  function DropSeps(s: string): (r: string)
    ensures |r| <= |s| && r == s[|s| - |r|..]
    ensures r == [] || !IsSep(r[0])
  {
    if s != [] && IsSep(s[0]) then DropSeps(s[1..]) else s
  }

  /** `re.sub(r"[-_\s]+", "_", s)`: every maximal run of separators
      becomes one underscore. */
  function Collapse(s: string): (r: string)
    ensures |r| <= |s|
    ensures s != [] && !IsSep(s[0]) ==> r != [] && r[0] == s[0]
    ensures s != [] && IsSep(s[0]) ==> r != [] && r[0] == '_'
    ensures s == [] <==> r == []
    decreases |s|
  {
    if s == [] then []
    else if IsSep(s[0]) then "_" + Collapse(DropSeps(s[1..]))
    else [s[0]] + Collapse(s[1..])
  }

  /** `normalize_name` on a string. */
  function Normalize(name: string): string {
    Lower(Collapse(Strip(name)))
  }

  /** `normalize_name`: `None` passes through. */
  function NormalizeName(name: Option<string>): (r: Option<string>)
    ensures r.None? <==> name.None?
    ensures name.Some? ==> r.value == Normalize(name.value)
  {
    match name
    case None => None
    case Some(s) => Some(Normalize(s))
  }

  /** What a normalised name looks like: no whitespace, no hyphen, no
      upper-case ASCII letter and no two underscores in a row. */
  predicate IsNormal(s: string) {
    (forall i :: 0 <= i < |s| ==> !IsSpace(s[i]) && s[i] != '-' && !('A' <= s[i] <= 'Z'))
    && (forall i :: 0 <= i < |s| - 1 ==> !(s[i] == '_' && s[i + 1] == '_'))
  }

  /** No separator other than `_` survives the collapse, and no two
      underscores are adjacent. */
  lemma {:induction false} CollapseShape(s: string)
    ensures forall i :: 0 <= i < |Collapse(s)| ==> !IsSpace(Collapse(s)[i]) && Collapse(s)[i] != '-'
    ensures forall i :: 0 <= i < |Collapse(s)| - 1 ==> !(Collapse(s)[i] == '_' && Collapse(s)[i + 1] == '_')
    decreases |s|
  {
    if s == [] {
    } else if IsSep(s[0]) {
      var rest := DropSeps(s[1..]);
      CollapseShape(rest);
    } else {
      CollapseShape(s[1..]);
    }
  }

  /** A string already in collapsed form is left alone. */
  lemma {:induction false} CollapseFixed(s: string)
    requires forall i :: 0 <= i < |s| ==> !IsSpace(s[i]) && s[i] != '-'
    requires forall i :: 0 <= i < |s| - 1 ==> !(s[i] == '_' && s[i + 1] == '_')
    ensures Collapse(s) == s
    decreases |s|
  {
    if s != [] {
      CollapseFixed(s[1..]);
      if IsSep(s[0]) {
        assert s[0] == '_';
        assert DropSeps(s[1..]) == s[1..];
      }
    }
  }

  lemma LowerKeepsShape(s: string)
    requires forall i :: 0 <= i < |s| ==> !IsSpace(s[i]) && s[i] != '-'
    requires forall i :: 0 <= i < |s| - 1 ==> !(s[i] == '_' && s[i + 1] == '_')
    ensures IsNormal(Lower(s))
  {
    var r := Lower(s);
    forall i | 0 <= i < |r|
      ensures !IsSpace(r[i]) && r[i] != '-' && !('A' <= r[i] <= 'Z')
    {
      LowerCharShape(s[i]);
    }
    forall i | 0 <= i < |r| - 1
      ensures !(r[i] == '_' && r[i + 1] == '_')
    {
      LowerCharShape(s[i]);
      LowerCharShape(s[i + 1]);
    }
  }

  /** Lower-casing a character leaves no upper-case letter and keeps
      whitespace, hyphens and underscores what they were. */
  lemma LowerCharShape(c: char)
    ensures !('A' <= LowerChar(c) <= 'Z')
    ensures IsSpace(LowerChar(c)) <==> IsSpace(c)
    ensures LowerChar(c) == '-' <==> c == '-'
    ensures LowerChar(c) == '_' <==> c == '_'
  {
  }

  /** `normalize_name` produces a normal name, and normalising it again
      changes nothing. */
  lemma NormalizeIdempotent(name: string)
    ensures IsNormal(Normalize(name))
    ensures Normalize(Normalize(name)) == Normalize(name)
  {
    var c := Collapse(Strip(name));
    CollapseShape(Strip(name));
    LowerKeepsShape(c);
    NormalFixed(Normalize(name));
  }

  /** A normal name is its own normalisation. */
  lemma NormalFixed(s: string)
    requires IsNormal(s)
    ensures Normalize(s) == s
  {
    StripNoSpace(s);
    CollapseFixed(s);
    assert Lower(s) == s;
  }

  // ---------------------------------------------------------------------
  // _roman_numeral

  /** The fixed table `numeral_dict`, 1..10. */
  const NumeralDict: map<int, string> := map[
    1 := "I", 2 := "II", 3 := "III", 4 := "IV", 5 := "V",
    6 := "VI", 7 := "VII", 8 := "VIII", 9 := "IX", 10 := "X"]

  /** What the `while num_copy > 10` loop and the final table lookup
      append for the remainder `c`. */
  function Tail(c: nat): string {
    if c > 10 then "X" + Tail(c - 10)
    else if c == 0 then ""
    else if c in NumeralDict then NumeralDict[c] else ""
  }

  /** The numeral `_roman_numeral` builds for 1..89: `L` for fifty and
      up, `IL` for the forties, then the tail of the remainder. */
  function RomanSpec(n: int): string
    requires 1 <= n <= 89
  {
    if n >= 50 then "L" + Tail(n - 50)
    else if n >= 40 then "IL" + Tail(n - 40)
    else Tail(n)
  }

  /** `_roman_numeral(num)` as a value: a non-int is a `TypeError`, an
      int outside 1..89 a `ValueError`. */
  function RomanOf(num: Arg<int>): Result<string> {
    match num
    case Foreign => Err(TypeErr("'num' must be an int"))
    case Expected(n) =>
      if n > 89 || n < 1 then Err(ValueErr("Only supports numbers between 1 and 89"))
      else Ok(RomanSpec(n))
  }

  /** `_roman_numeral`. */
  method RomanNumeral(num: Arg<int>) returns (r: Result<string>)
    ensures r == RomanOf(num)
  {
    if num.Foreign? {
      return Err(TypeErr("'num' must be an int"));
    }
    var n := num.value;
    if n > 89 || n < 1 {
      return Err(ValueErr("Only supports numbers between 1 and 89"));
    }
    var numCopy := n;
    var roman := "";
    if n >= 50 {
      roman := roman + "L";
      numCopy := numCopy - 50;
    } else if 40 <= n < 50 {
      roman := roman + "IL";
      numCopy := numCopy - 40;
    }
    while numCopy > 10
      invariant 0 <= numCopy
      invariant roman + Tail(numCopy) == RomanSpec(n)
    {
      roman := roman + "X";
      numCopy := numCopy - 10;
    }
    if numCopy != 0 {
      roman := roman + (if numCopy in NumeralDict then NumeralDict[numCopy] else "");
    } else {
      assert roman + Tail(numCopy) == roman;
    }
    return Ok(roman);
  }

  /** The standard (subtractive, greedy) roman numeral, for comparison. */
  function StdRoman(n: nat): string {
    if n >= 50 then "L" + StdRoman(n - 50)
    else if n >= 40 then "XL" + StdRoman(n - 40)
    else if n >= 10 then "X" + StdRoman(n - 10)
    else if n == 9 then "IX"
    else if n >= 5 then "V" + StdRoman(n - 5)
    else if n == 4 then "IV"
    else if n >= 1 then "I" + StdRoman(n - 1)
    else ""
  }

  lemma TableIsStandard(c: nat)
    requires 1 <= c <= 10
    ensures c in NumeralDict && NumeralDict[c] == StdRoman(c)
  {
    if c <= 4 {
      TableIsStandardLow(c);
    } else {
      TableIsStandardHigh(c);
    }
  }

  lemma TableIsStandardLow(c: nat)
    requires 1 <= c <= 4
    ensures c in NumeralDict && NumeralDict[c] == StdRoman(c)
  {
    if c == 3 {
      assert StdRoman(3) == "I" + ("I" + "I");
    }
  }

  lemma TableIsStandardHigh(c: nat)
    requires 5 <= c <= 10
    ensures c in NumeralDict && NumeralDict[c] == StdRoman(c)
  {
    if c == 10 {
      assert StdRoman(10) == "X" + StdRoman(0);
    } else if c < 9 {
      assert StdRoman(c) == "V" + StdRoman(c - 5);
      if c > 5 {
        TableIsStandardLow(c - 5);
      }
    }
  }

  lemma {:induction false} TailIsStandard(c: nat)
    requires c < 40
    ensures Tail(c) == StdRoman(c)
  {
    if c > 10 {
      TailIsStandard(c - 10);
    } else if c >= 1 {
      TableIsStandard(c);
    }
  }

  /** `_roman_numeral` agrees with standard roman numerals except in the
      forties, where it writes `IL` (fifty less ten) followed by the
      standard numeral of the units. */
  lemma RomanAgainstStandard(n: int)
    requires 1 <= n <= 89
    ensures 40 <= n < 50 ==> RomanSpec(n) == "IL" + StdRoman(n - 40)
    ensures !(40 <= n < 50) ==> RomanSpec(n) == StdRoman(n)
  {
    if n >= 50 {
      TailIsStandard(n - 50);
    } else if n >= 40 {
      TailIsStandard(n - 40);
    } else {
      TailIsStandard(n);
    }
  }

  /** The outputs pinned by the generator's tests. */
  lemma RomanExamples()
    ensures RomanOf(Expected(40)) == Ok("IL")
    ensures RomanOf(Expected(43)) == Ok("ILIII")
    ensures RomanOf(Expected(20)) == Ok("XX")
    ensures RomanOf(Expected(89)) == Ok("LXXXIX")
    ensures RomanOf(Expected(0)).Err? && RomanOf(Expected(0)).error.ValueErr?
    ensures RomanOf(Expected(90)).Err? && RomanOf(Expected(90)).error.ValueErr?
    ensures RomanOf(Foreign).Err? && RomanOf(Foreign).error.TypeErr?
  {
    assert Tail(0) == "";
    assert Tail(3) == "III";
    assert Tail(10) == "X";
    assert Tail(20) == "X" + "X";
    assert Tail(9) == "IX";
    assert Tail(19) == "X" + "IX";
    assert Tail(29) == "X" + "XIX";
    assert Tail(39) == "X" + "XXIX";
    assert RomanSpec(40) == "IL" + "" == "IL";
    assert RomanSpec(43) == "IL" + "III" == "ILIII";
    assert RomanSpec(20) == "X" + "X" == "XX";
    assert RomanSpec(89) == "L" + "XXXIX" == "LXXXIX";
  }

  // ---------------------------------------------------------------------
  // _form_num

  /** The `num2words` library: cardinal and ordinal English words for an
      integer. It is outside this model and supplied by the caller. */
  datatype NumWords = NumWords(cardinal: int -> string, ordinal: int -> string)

  /** The `form` keyword: one of the four names the code knows, or any
      other string. */
  datatype Form = FNum | FWord | FOrd | FRoman | FOther

  /** `_form_num(num, form=...)`. */
  function FormNum(num: int, form: Form, words: NumWords): (r: Result<string>)
    ensures r.Err? <==> form.FOther? || (form.FRoman? && !(1 <= num <= 89))
    ensures form.FNum? ==> r == Ok(IntToString(num))
    ensures form.FWord? ==> r == Ok(Normalize(words.cardinal(num)))
    ensures form.FOrd? ==> r == Ok(Normalize(words.ordinal(num)))
    ensures form.FRoman? && 1 <= num <= 89 ==> r == Ok(RomanSpec(num))
    ensures form.FOther? ==> r == Err(ValueErr("'form' must be 'num', 'ord', or 'word'"))
  {
    match form
    case FNum => Ok(IntToString(num))
    case FWord => Ok(Normalize(words.cardinal(num)))
    case FOrd => Ok(Normalize(words.ordinal(num)))
    case FRoman => RomanOf(Expected(num))
    case FOther => Err(ValueErr("'form' must be 'num', 'ord', or 'word'"))
  }

  // ---------------------------------------------------------------------
  // LyName

  /** A name with an optional number; `numword` and `roman` are the
      private `_numword` and `_roman` (empty unless set). */
  datatype LyName = LyName(name: string, number: Option<int>, numword: string, roman: string)

  /** `LyName(name)`: the name is normalised, nothing else is set. */
  function NewLyName(name: string): (r: LyName)
    ensures r.name == Normalize(name) && r.number == None && r.numword == "" && r.roman == ""
  {
    LyName(Normalize(name), None, "", "")
  }

  /** The name with the instrument's number in the given form: the word
      form for "ord" and "word", the digits otherwise. */
  function FullName(ly: LyName, form: Form): string {
    match ly.number
    case None => ly.name
    case Some(k) => if form.FOrd? || form.FWord? then ly.name + "_" + ly.numword else ly.name + IntToString(k)
  }

  /** `LyName._movement(mov_num, form=...)`. */
  function Movement(ly: LyName, movNum: Arg<int>, form: Form, words: NumWords): Result<string> {
    match movNum
    case Foreign => Err(TypeErr("'mov_num' must be an integer"))
    case Expected(m) =>
      var num :- FormNum(m, form, words);
      Ok(FullName(ly, form) + "_" + (if form.FOrd? then num + "_mov" else num))
  }

  /** `LyName.mov_file_name`. */
  function MovFileName(ly: LyName, movNum: Arg<int>, words: NumWords): Result<string> {
    var base :- Movement(ly, movNum, FNum, words);
    Ok(base + ".ily")
  }

  /** The `prefix` argument of `part_file_name`: a string, an int, or
      `None`. */
  datatype Prefix = PStr(s: string) | PInt(i: int) | PNone

  predicate PrefixTruthy(p: Prefix) {
    match p
    case PStr(s) => s != []
    case PInt(i) => i != 0
    case PNone => false
  }

  /** `str(prefix)`. */
  function PrefixText(p: Prefix): string {
    match p
    case PStr(s) => s
    case PInt(i) => IntToString(i)
    case PNone => "None"
  }

  /** `LyName.part_file_name`. */
  function PartFileName(ly: LyName, prefix: Prefix): string {
    var name := if PrefixTruthy(prefix) then PrefixText(prefix) + "_" + ly.name else ly.name;
    (if ly.number.Some? then name + IntToString(ly.number.value) else name) + ".ly"
  }

  /** `LyName.dir_name`. */
  function DirName(ly: LyName): (r: string)
    ensures ly.number.None? ==> r == ly.name
    ensures ly.number.Some? ==> IsPrefix(ly.name, r) && r[|ly.name|..] == IntToString(ly.number.value)
  {
    if ly.number.Some? then ly.name + IntToString(ly.number.value) else ly.name
  }

  /** `LyName.var_name`. */
  function VarName(ly: LyName, movNum: Arg<int>, slash: bool, words: NumWords): Result<string> {
    var base :- Movement(ly, movNum, FOrd, words);
    Ok((if slash then "\\" else "") + base)
  }

  /** The movement file name is the directory name, `_`, the movement's
      digits and `.ily`; a non-int movement is a `TypeError`. */
  lemma MovFileNameShape(ly: LyName, movNum: Arg<int>, words: NumWords)
    ensures movNum.Foreign? ==> MovFileName(ly, movNum, words) == Err(TypeErr("'mov_num' must be an integer"))
    ensures movNum.Expected? ==> MovFileName(ly, movNum, words) == Ok(DirName(ly) + "_" + IntToString(movNum.value) + ".ily")
  {
  }

  /** Different movements of the same part get different file names. */
  lemma MovFileNameInjective(ly: LyName, a: int, b: int, words: NumWords)
    requires MovFileName(ly, Expected(a), words) == MovFileName(ly, Expected(b), words)
    ensures a == b
  {
    MovFileNameShape(ly, Expected(a), words);
    MovFileNameShape(ly, Expected(b), words);
    var d := DirName(ly) + "_";
    var sa, sb := IntToString(a), IntToString(b);
    var fa, fb := d + sa + ".ily", d + sb + ".ily";
    assert fa == fb;
    assert |sa| == |sb|;
    assert fa[|d|..|d| + |sa|] == sa;
    assert fb[|d|..|d| + |sb|] == sb;
    IntToStringInjective(a, b);
  }

  /** The part file name is the optional prefix with `_`, the directory
      name and `.ly`; the prefix is used exactly when it is truthy. */
  lemma PartFileNameShape(ly: LyName, prefix: Prefix)
    ensures PrefixTruthy(prefix) ==> PartFileName(ly, prefix) == PrefixText(prefix) + "_" + DirName(ly) + ".ly"
    ensures !PrefixTruthy(prefix) ==> PartFileName(ly, prefix) == DirName(ly) + ".ly"
  {
  }

  /** The variable name is the optional backslash, the name (with `_` and
      the cardinal word when numbered), `_`, the normalised ordinal word
      of the movement, and `_mov`. */
  lemma VarNameShape(ly: LyName, movNum: Arg<int>, slash: bool, words: NumWords)
    ensures movNum.Foreign? ==> VarName(ly, movNum, slash, words) == Err(TypeErr("'mov_num' must be an integer"))
    ensures movNum.Expected? ==> (VarName(ly, movNum, slash, words) ==
      Ok((if slash then "\\" else "") + ly.name + (if ly.number.Some? then "_" + ly.numword else "")
         + "_" + Normalize(words.ordinal(movNum.value)) + "_mov"))
  {
    if movNum.Expected? {
      var m := movNum.value;
      var w := Normalize(words.ordinal(m));
      var opt := if ly.number.Some? then "_" + ly.numword else "";
      var full := ly.name + opt;
      assert FormNum(m, FOrd, words) == Ok(w);
      assert FullName(ly, FOrd) == full;
      assert Movement(ly, movNum, FOrd, words) == Ok(full + "_" + (w + "_mov"));
      assert full + "_" + (w + "_mov") == full + "_" + w + "_mov";
      var pre := if slash then "\\" else "";
      assert VarName(ly, movNum, slash, words) == Ok(pre + (full + "_" + w + "_mov"));
      ConcatAssoc(pre, full + "_" + w, "_mov");
      ConcatAssoc(pre, full + "_", w);
      ConcatAssoc(pre, full, "_");
      ConcatAssoc(pre, ly.name, opt);
    }
  }

  /** The movement file names pinned by the generator's tests, for
      `global` and for `test` numbered 2. */
  lemma MovFileNameExamples(g: LyName, t: LyName, words: NumWords)
    requires g == LyName("global", None, "", "")
    requires t == LyName("test", Some(2), "two", "")
    ensures MovFileName(g, Expected(1), words) == Ok("global_1.ily")
    ensures MovFileName(t, Expected(1), words) == Ok("test2_1.ily")
  {
    assert IntToString(1) == "1" && IntToString(2) == "2";
    assert Movement(g, Expected(1), FNum, words) == Ok("global" + "_" + "1");
    assert Movement(t, Expected(1), FNum, words) == Ok("test" + "2" + "_" + "1");
    assert "global" + "_" + "1" + ".ily" == "global_1.ily";
    assert "test" + "2" + "_" + "1" + ".ily" == "test2_1.ily";
  }

  /** The part file and directory names pinned by the generator's tests:
      an int prefix is written before the name, an empty one is left out. */
  lemma PartFileNameExamples(g: LyName, t: LyName)
    requires g == LyName("global", None, "", "")
    requires t == LyName("test", Some(2), "two", "")
    ensures PartFileName(g, PInt(123)) == "123_global.ly"
    ensures PartFileName(t, PStr("")) == "test2.ly"
    ensures DirName(t) == "test2"
  {
    PrefixedExample(g);
    PlainExample(t);
    assert IntToString(2) == "2";
  }

  lemma PrefixedExample(g: LyName)
    requires g == LyName("global", None, "", "")
    ensures PartFileName(g, PInt(123)) == "123_global.ly"
  {
    IntToString123();
    PrefixedPartFile(g, PInt(123));
    assert "123" + "_" + "global" + ".ly" == "123_global.ly";
  }

  lemma PlainExample(t: LyName)
    requires t == LyName("test", Some(2), "two", "")
    ensures PartFileName(t, PStr("")) == "test2.ly"
  {
    PlainPartFile(t, PStr(""));
    assert IntToString(2) == "2";
    assert "test" + "2" + ".ly" == "test2.ly";
  }

  /** An unnumbered name after a prefix. */
  lemma PrefixedPartFile(ly: LyName, prefix: Prefix)
    requires ly.number.None? && PrefixTruthy(prefix)
    ensures PartFileName(ly, prefix) == PrefixText(prefix) + "_" + ly.name + ".ly"
  {
  }

  /** A numbered name without a prefix. */
  lemma PlainPartFile(ly: LyName, prefix: Prefix)
    requires ly.number.Some? && !PrefixTruthy(prefix)
    ensures PartFileName(ly, prefix) == ly.name + IntToString(ly.number.value) + ".ly"
  {
  }

  lemma IntToString123()
    ensures IntToString(123) == "123"
  {
    assert NatToString(1) == "1";
    assert NatToString(12) == "1" + "2";
    assert NatToString(123) == "1" + "2" + "3";
  }

  /** A word of lower-case ASCII letters is already normal. */
  lemma LowerWordNormal(w: string)
    requires forall i :: 0 <= i < |w| ==> 'a' <= w[i] <= 'z'
    ensures Normalize(w) == w
  {
    NormalFixed(w);
  }
}
