/** The Ruby string operations the prototype's name derivations are built
    from: `lstrip`, `split` with a literal separator, `join`, `capitalize`,
    and the two shapes of `gsub` it uses — a pattern anchored at the end of
    the text (`/_[0-9]*$/`, `/_one$/`) and a literal pattern.

    Ruby's `$` matches at the end of the text and also before any line
    feed; every text the prototype rewrites comes from one `gets.chomp`
    line, so the rewrites here anchor at the end of the text only. */
module RubyText {
  import opened Outcomes
  import opened Text

  /** The characters `lstrip` removes: NUL, tab through carriage return,
      and space. */
  predicate IsStripSpace(c: char) {
    c == '\0' || ('\t' <= c <= '\r') || c == ' '
  }

  /** The regex class `\s`: space and tab through carriage return. */
  predicate IsRegexSpace(c: char) {
    c == ' ' || ('\t' <= c <= '\r')
  }

  /** `s.lstrip`. */
  function LStrip(s: string): (r: string)
    ensures |r| <= |s|
    ensures r == [] || !IsStripSpace(r[0])
    ensures forall i :: 0 <= i < |s| - |r| ==> IsStripSpace(s[i])
    ensures forall i :: 0 <= i < |r| ==> r[i] == s[|s| - |r| + i]
  {
    if s != [] && IsStripSpace(s[0]) then LStrip(s[1..]) else s
  }

  /** A leading run of `\s` characters, as `\s*` consumes it. */
  function SkipRegexSpace(s: string): (r: string)
    ensures |r| <= |s|
    ensures r == [] || !IsRegexSpace(r[0])
  {
    if s != [] && IsRegexSpace(s[0]) then SkipRegexSpace(s[1..]) else s
  }

  /** The fields between the non-overlapping occurrences of `sep`, found
      left to right, trailing empty fields included. */
  function Fields(s: string, sep: string): (r: seq<string>)
    requires sep != []
    ensures r != []
    decreases |s|
  {
    if |s| < |sep| then [s]
    else if s[..|sep|] == sep then [[]] + Fields(s[|sep|..], sep)
    else
      var rest := Fields(s[1..], sep);
      [[s[0]] + rest[0]] + rest[1..]
  }

  /** `Fields` one character at a time, for a one-character separator. */
  lemma FieldsStep(s: string, c: char)
    ensures s == [] ==> Fields(s, [c]) == [[]]
    ensures s != [] && s[0] == c ==> Fields(s, [c]) == [[]] + Fields(s[1..], [c])
    ensures s != [] && s[0] != c ==>
      Fields(s, [c]) == [[s[0]] + Fields(s[1..], [c])[0]] + Fields(s[1..], [c])[1..]
  {
    if s != [] {
      assert s[..1][0] == s[0];
      assert s[0] == c ==> s[..1] == [c];
    }
  }

  /** `ws.join(sep)`. */
  function Join(ws: seq<string>, sep: string): string {
    if ws == [] then ""
    else if |ws| == 1 then ws[0]
    else ws[0] + sep + Join(ws[1..], sep)
  }

  lemma JoinFront(c: char, ws: seq<string>, sep: string)
    requires ws != []
    ensures Join([[c] + ws[0]] + ws[1..], sep) == [c] + Join(ws, sep)
  {
    var vs := [[c] + ws[0]] + ws[1..];
    assert vs[1..] == ws[1..];
  }

  lemma JoinEmptyFront(ws: seq<string>, sep: string)
    requires ws != []
    ensures Join([[]] + ws, sep) == sep + Join(ws, sep)
  {
    var vs := [[]] + ws;
    assert vs[1..] == ws;
  }

  /** Joining the fields with the separator gives the text back: no
      character is lost or invented by the split. */
  lemma {:induction false} JoinFields(s: string, sep: string)
    requires sep != []
    ensures Join(Fields(s, sep), sep) == s
    decreases |s|
  {
    if |s| < |sep| {
      assert Fields(s, sep) == [s];
    } else if s[..|sep|] == sep {
      var rest := Fields(s[|sep|..], sep);
      assert Fields(s, sep) == [[]] + rest;
      JoinFields(s[|sep|..], sep);
      JoinEmptyFront(rest, sep);
      assert s == s[..|sep|] + s[|sep|..];
    } else {
      var rest := Fields(s[1..], sep);
      assert Fields(s, sep) == [[s[0]] + rest[0]] + rest[1..];
      JoinFields(s[1..], sep);
      JoinFront(s[0], rest, sep);
      assert s == [s[0]] + s[1..];
    }
  }

  /** Splitting at a separator splits the two sides apart. */
  lemma {:induction false} FieldsConcat(a: string, c: char, t: string)
    ensures Fields(a + [c] + t, [c]) == Fields(a, [c]) + Fields(t, [c])
    decreases |a|
  {
    var s := a + [c] + t;
    if a == [] {
      FieldsStep(s, c);
      FieldsStep(a, c);
      assert s[0] == c && s[1..] == t;
    } else {
      assert s[0] == a[0] && s[1..] == a[1..] + [c] + t;
      FieldsConcat(a[1..], c, t);
      FieldsSameFront(s, a, c, Fields(t, [c]));
    }
  }

  /** Two texts with the same first character whose remainders' fields
      differ by a suffix `ft` have fields that differ by `ft`. */
  lemma FieldsSameFront(s: string, a: string, c: char, ft: seq<string>)
    requires s != [] && a != [] && s[0] == a[0]
    requires Fields(s[1..], [c]) == Fields(a[1..], [c]) + ft
    ensures Fields(s, [c]) == Fields(a, [c]) + ft
  {
    var ra := Fields(a[1..], [c]);
    var r1 := Fields(s[1..], [c]);
    if s[0] == c {
      assert Fields(s, [c]) == [[]] + r1 by { FieldsStep(s, c); }
      assert Fields(a, [c]) == [[]] + ra by { FieldsStep(a, c); }
      SameHead([], r1, ra, ft);
    } else {
      var h := [s[0]] + ra[0];
      assert Fields(s, [c]) == [[s[0]] + r1[0]] + r1[1..] by { FieldsStep(s, c); }
      assert Fields(a, [c]) == [h] + ra[1..] by { FieldsStep(a, c); }
      SameHeadTail(s[0], r1, ra, ft);
    }
  }

  /** Sequence algebra for `FieldsSameFront`, kept apart from `Fields`. */
  lemma SameHead<T>(x: T, r1: seq<T>, ra: seq<T>, ft: seq<T>)
    requires r1 == ra + ft
    ensures [x] + r1 == ([x] + ra) + ft
  {
  }

  lemma SameHeadTail(x: char, r1: seq<string>, ra: seq<string>, ft: seq<string>)
    requires ra != [] && r1 == ra + ft
    ensures [[x] + r1[0]] + r1[1..] == ([[x] + ra[0]] + ra[1..]) + ft
  {
    assert r1[0] == ra[0] && r1[1..] == ra[1..] + ft;
  }

  /** A last field that is not empty is kept by `split`. */
  lemma SplitLast(a: string, c: char, t: string)
    requires t != [] && c !in t && [c] != " "
    ensures Split(a + [c] + t, [c]) == Fields(a, [c]) + [t]
  {
    FieldsConcat(a, c, t);
    FieldsPlain(t, c);
  }

  lemma {:induction false} FieldsPlain(t: string, c: char)
    requires c !in t
    ensures Fields(t, [c]) == [t]
    decreases |t|
  {
    FieldsStep(t, c);
    if t != [] {
      FieldsPlain(t[1..], c);
      assert [t[0]] + t[1..] == t;
    }
  }

  lemma {:induction false} JoinSnoc(ws: seq<string>, x: string, sep: string)
    requires ws != []
    ensures Join(ws + [x], sep) == Join(ws, sep) + sep + x
    decreases |ws|
  {
    if |ws| > 1 {
      assert (ws + [x])[1..] == ws[1..] + [x];
      JoinSnoc(ws[1..], x, sep);
    }
  }

  /** With a one-character separator no field holds that character. */
  lemma {:induction false} FieldsFree(s: string, c: char)
    ensures forall i :: 0 <= i < |Fields(s, [c])| ==> c !in Fields(s, [c])[i]
    decreases |s|
  {
    if |s| >= 1 {
      FieldsFree(s[1..], c);
      if s[..1] != [c] {
        assert s[0] != c;
        var rest := Fields(s[1..], [c]);
        assert c !in rest[0];
        assert c !in [s[0]] + rest[0];
      }
    }
  }

  /** A text that never holds the separator is one field. */
  lemma {:induction false} FieldsNoSep(s: string, sep: string)
    requires sep != [] && !Contains(s, sep)
    ensures Fields(s, sep) == [s]
    decreases |s|
  {
    if |s| >= |sep| {
      assert s[..|sep|] != sep;
      FieldsNoSep(s[1..], sep);
      assert [s[0]] + s[1..] == s;
    }
  }

  /** The fields with the trailing empty ones suppressed. */
  function DropTrailingEmpty(ws: seq<string>): (r: seq<string>)
    ensures |r| <= |ws| && r == ws[..|r|]
    ensures r == [] || r[|r| - 1] != []
    ensures forall i :: |r| <= i < |ws| ==> ws[i] == []
  {
    if ws == [] || ws[|ws| - 1] != [] then ws else DropTrailingEmpty(ws[..|ws| - 1])
  }

  /** `s.split(sep)` with a literal separator other than a single space:
      the fields of the text, trailing empty fields suppressed (so the
      empty text has no fields). */
  function Split(s: string, sep: string): seq<string>
    requires sep != [] && sep != " "
  {
    DropTrailingEmpty(Fields(s, sep))
  }

  /** `w.capitalize`: the first letter upper case, the rest lower case
      (ASCII letters). */
  function Capitalize(w: string): (r: string)
    ensures |r| == |w|
  {
    if w == [] then [] else [UpperChar(w[0])] + Lower(w[1..])
  }

  /** A word whose letters after the first are not upper case keeps
      them as they are. */
  lemma CapitalizeLowerWord(w: string)
    requires w != [] && forall j :: 1 <= j < |w| ==> !('A' <= w[j] <= 'Z')
    ensures Capitalize(w) == [UpperChar(w[0])] + w[1..]
  {
    assert Lower(w[1..]) == w[1..];
  }

  function CapitalizeAll(ws: seq<string>): (r: seq<string>)
    ensures |r| == |ws| && forall i :: 0 <= i < |ws| ==> r[i] == Capitalize(ws[i])
  {
    if ws == [] then [] else [Capitalize(ws[0])] + CapitalizeAll(ws[1..])
  }

  /** The position of the last occurrence of `c`. */
  function LastIndex(s: string, c: char): (r: Option<nat>)
    ensures r.None? ==> c !in s
    ensures r.Some? ==> r.value < |s| && s[r.value] == c && c !in s[r.value + 1..]
  {
    if s == [] then None
    else if s[|s| - 1] == c then Some(|s| - 1)
    else
      var r := LastIndex(s[..|s| - 1], c);
      assert r.Some? ==> s[r.value + 1..] == s[..|s| - 1][r.value + 1..] + [s[|s| - 1]];
      assert r.None? ==> s == s[..|s| - 1] + [s[|s| - 1]];
      r
  }

  /** Text whose last `c` is the one just before `t`. */
  lemma {:induction false} LastIndexBefore(a: string, c: char, t: string)
    requires c !in t
    ensures LastIndex(a + [c] + t, c) == Some(|a|)
    decreases |t|
  {
    var s := a + [c] + t;
    if t != [] {
      var t' := t[..|t| - 1];
      assert s[..|s| - 1] == a + [c] + t';
      assert s[|s| - 1] == t[|t| - 1];
      LastIndexBefore(a, c, t');
    }
  }

  /** The replacement `gsub` takes from a hash for a match: the value at
      that key, or the empty string when the key is absent. */
  function Get(table: map<string, string>, key: string): string {
    if key in table then table[key] else ""
  }

  /** The pattern `<sep>[<cls>]*$` matches at position `p`. */
  predicate AnchoredAt(s: string, p: nat, sep: char, cls: set<char>)
    requires p < |s|
  {
    s[p] == sep && forall j :: p < j < |s| ==> s[j] in cls
  }

  /** `gsub(/<sep>[<cls>]*$/, table)` as Ruby scans it: from position `p`
      on, the first position where the pattern matches is replaced by the
      table's value for the matched text; a match reaches the end of the
      text, so the scan stops there. */
  function ScanSub(s: string, sep: char, cls: set<char>, table: map<string, string>, p: nat): string
    requires p <= |s|
    decreases |s| - p
  {
    if p == |s| then s
    else if AnchoredAt(s, p, sep, cls) then s[..p] + Get(table, s[p..])
    else ScanSub(s, sep, cls, table, p + 1)
  }

  /** The same rewrite found from the right: only the last separator can
      start a match, since any earlier one is followed by a separator,
      which is outside the class. */
  function TailSub(s: string, sep: char, cls: set<char>, table: map<string, string>): string {
    match LastIndex(s, sep)
    case None => s
    case Some(k) => if forall j :: k < j < |s| ==> s[j] in cls then s[..k] + Get(table, s[k..]) else s
  }

  lemma {:induction false} ScanNone(s: string, sep: char, cls: set<char>, table: map<string, string>, p: nat)
    requires p <= |s|
    requires forall q :: p <= q < |s| ==> s[q] != sep
    ensures ScanSub(s, sep, cls, table, p) == s
    decreases |s| - p
  {
    if p < |s| {
      ScanNone(s, sep, cls, table, p + 1);
    }
  }

  lemma {:induction false} ScanFrom(s: string, sep: char, cls: set<char>, table: map<string, string>, p: nat)
    requires sep !in cls
    requires LastIndex(s, sep).Some? && p <= LastIndex(s, sep).value
    ensures ScanSub(s, sep, cls, table, p) == TailSub(s, sep, cls, table)
    decreases |s| - p
  {
    var k := LastIndex(s, sep).value;
    if p < k {
      assert !AnchoredAt(s, p, sep, cls) by {
        assert s[k] !in cls;
      }
      assert ScanSub(s, sep, cls, table, p) == ScanSub(s, sep, cls, table, p + 1);
      ScanFrom(s, sep, cls, table, p + 1);
    } else {
      ScanAtLast(s, sep, cls, table, k);
    }
  }

  /** The scan reaching the last separator. */
  lemma ScanAtLast(s: string, sep: char, cls: set<char>, table: map<string, string>, k: nat)
    requires LastIndex(s, sep) == Some(k)
    ensures ScanSub(s, sep, cls, table, k) == TailSub(s, sep, cls, table)
  {
    if AnchoredAt(s, k, sep, cls) {
      assert ScanSub(s, sep, cls, table, k) == s[..k] + Get(table, s[k..]);
      TailSubAt(s, sep, cls, table, k);
    } else {
      assert TailSub(s, sep, cls, table) == s;
      assert ScanSub(s, sep, cls, table, k) == ScanSub(s, sep, cls, table, k + 1);
      forall q | k + 1 <= q < |s|
        ensures s[q] != sep
      {
        assert s[k + 1..][q - k - 1] == s[q];
      }
      ScanNone(s, sep, cls, table, k + 1);
    }
  }

  /** The right-to-left description is the left-to-right scan: with a
      separator outside the class, at most one match is replaced, the one
      starting at the last separator. */
  lemma TailSubIsScan(s: string, sep: char, cls: set<char>, table: map<string, string>)
    requires sep !in cls
    ensures TailSub(s, sep, cls, table) == ScanSub(s, sep, cls, table, 0)
  {
    if LastIndex(s, sep).Some? {
      ScanFrom(s, sep, cls, table, 0);
    } else {
      ScanNone(s, sep, cls, table, 0);
    }
  }

  lemma OutsideClass(t: string, c: char, cls: set<char>)
    requires c !in cls && forall j :: 0 <= j < |t| ==> t[j] in cls
    ensures c !in t
  {
    forall j | 0 <= j < |t|
      ensures t[j] != c
    {
      assert t[j] in cls;
    }
  }

  /** The tail after the last separator, all in the class, is looked up. */
  lemma TailSubAt(s: string, sep: char, cls: set<char>, table: map<string, string>, k: nat)
    requires LastIndex(s, sep) == Some(k)
    requires forall j :: k < j < |s| ==> s[j] in cls
    ensures TailSub(s, sep, cls, table) == s[..k] + Get(table, s[k..])
  {
  }

  /** A separator followed by a tail in the class: the tail is looked up. */
  lemma TailSubHit(a: string, sep: char, cls: set<char>, table: map<string, string>, t: string)
    requires sep !in cls
    requires forall j :: 0 <= j < |t| ==> t[j] in cls
    ensures TailSub(a + [sep] + t, sep, cls, table) == a + Get(table, [sep] + t)
  {
    var s := a + [sep] + t;
    OutsideClass(t, sep, cls);
    LastIndexBefore(a, sep, t);
    assert forall j :: |a| < j < |s| ==> s[j] in cls by {
      forall j | |a| < j < |s|
        ensures s[j] in cls
      {
        assert s[j] == t[j - |a| - 1];
      }
    }
    TailSubAt(s, sep, cls, table, |a|);
    assert s[..|a|] == a;
    assert s[|a|..] == [sep] + t;
  }

  /** A separator followed by a tail that leaves the class: no change. */
  lemma TailSubMiss(a: string, sep: char, cls: set<char>, table: map<string, string>, t: string, j: nat)
    requires sep !in t
    requires j < |t| && t[j] !in cls
    ensures TailSub(a + [sep] + t, sep, cls, table) == a + [sep] + t
  {
    var s := a + [sep] + t;
    LastIndexBefore(a, sep, t);
    assert s[|a| + 1 + j] == t[j];
  }

  /** `gsub!(/<pat>$/, rep)` with a pattern of plain characters: it can
      match only as the end of the text. */
  function EndSub(s: string, pat: string, rep: string): (r: string)
    ensures IsSuffix(pat, s) ==> r == s[..|s| - |pat|] + rep
    ensures !IsSuffix(pat, s) ==> r == s
  {
    if IsSuffix(pat, s) then s[..|s| - |pat|] + rep else s
  }
}
