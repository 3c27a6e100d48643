/** The piece description (lilyskel/info.py): the composer with its
    derived short and Mutopia names, the movement records with their key
    signatures, the headers, and the piece that ties them to the
    instruments, together with the dictionary forms `dump` writes and
    `load` reads back. */
module Info {
  import opened Outcomes
  import opened Text
  import opened Values
  import opened LyNames
  import opened LyInstruments

  // ---------------------------------------------------------------------
  // Composer

  /** What a composer's equality and `dump` see. */
  datatype ComposerInfo = ComposerInfo(name: string, mutopianame: Value, shortname: Value)

  /** The initials of `parts`: each word's first letter followed by a dot. */
  function Initials(parts: seq<string>): (r: string)
    requires forall i :: 0 <= i < |parts| ==> parts[i] != []
    ensures |r| == 2 * |parts|
  {
    if parts == [] then ""
    else Initials(parts[..|parts| - 1]) + [parts[|parts| - 1][0]] + "."
  }

  /** Position `2k` holds the first letter of word `k`, position `2k + 1`
      a dot. */
  lemma {:induction false} InitialsLayout(parts: seq<string>)
    requires forall i :: 0 <= i < |parts| ==> parts[i] != []
    ensures forall k :: 0 <= k < |parts| ==> Initials(parts)[2 * k] == parts[k][0] && Initials(parts)[2 * k + 1] == '.'
  {
    if parts != [] {
      var front := parts[..|parts| - 1];
      InitialsLayout(front);
      assert forall k :: 0 <= k < |front| ==> front[k] == parts[k];
    }
  }

  /** The short name made from the words of a name: the initials of all
      words but the last, a space when there are any, then the last word. */
  function ShortName(parts: seq<string>): string
    requires parts != [] && forall i :: 0 <= i < |parts| ==> parts[i] != []
  {
    var sname := Initials(parts[..|parts| - 1]);
    (if sname != "" then sname + " " else "") + parts[|parts| - 1]
  }

  /** The short name of `name`; a name without words fails at `pop`. */
  function ShortNameOf(name: string): Result<string> {
    var parts := Words(name);
    if parts == [] then Err(IndexErr("pop from empty list")) else Ok(ShortName(parts))
  }

  /** A one-word name is its own short name; otherwise the short name is
      one initial and a dot per leading word, one space, and the last
      word in full. */
  lemma ShortNameLayout(parts: seq<string>)
    requires parts != [] && forall i :: 0 <= i < |parts| ==> parts[i] != []
    ensures |parts| == 1 ==> ShortName(parts) == parts[0]
    ensures var n, r := |parts| - 1, ShortName(parts);
      n > 0 ==> (|r| == 2 * n + 1 + |parts[n]|
        && (forall k :: 0 <= k < n ==> r[2 * k] == parts[k][0] && r[2 * k + 1] == '.')
        && r[2 * n] == ' ' && r[2 * n + 1..] == parts[n])
  {
    var n := |parts| - 1;
    var sname := Initials(parts[..n]);
    InitialsLayout(parts[..n]);
    if n > 0 {
      assert forall k :: 0 <= k < n ==> parts[..n][k] == parts[k];
      assert ShortName(parts) == sname + " " + parts[n];
      assert (sname + " " + parts[n])[2 * n + 1..] == parts[n];
    } else {
      assert sname == "";
      assert ShortName(parts) == "" + parts[0];
    }
  }

  /** The words of "Ludwig van Beethoven", taken as already split, are
      shortened to "L.v. Beethoven". */
  lemma ShortNameBeethoven()
    ensures ShortName(["Ludwig", "van", "Beethoven"]) == "L.v. Beethoven"
  {
    var ws := ["Ludwig", "van", "Beethoven"];
    assert ws[..2] == ["Ludwig", "van"];
    InitialsLv();
    assert ShortName(ws) == "L.v." + " " + "Beethoven";
  }

  lemma InitialsLv()
    ensures Initials(["Ludwig", "van"]) == "L.v."
  {
    assert ["Ludwig", "van"][..1] == ["Ludwig"];
    assert ["Ludwig"][..0] == [];
    assert Initials(["Ludwig"]) == "" + "L" + ".";
    assert Initials(["Ludwig", "van"]) == "L." + "v" + ".";
  }

  /** A single-word name such as "Anonymous" is kept whole. */
  lemma ShortNameSingleWord(name: string)
    requires name != [] && NoSpace(name)
    ensures ShortNameOf(name) == Ok(name)
  {
    assert JoinWords([name]) == name;
    WordsOfJoined([name]);
    assert [name][..0] == [];
    assert ShortName([name]) == "" + name;
    assert "" + name == name;
  }

  /** A name of whitespace only has no words and fails at `pop`. */
  lemma ShortNameEmpty(name: string)
    requires forall i :: 0 <= i < |name| ==> IsSpace(name[i])
    ensures ShortNameOf(name) == Err(IndexErr("pop from empty list"))
  {
    BlankHasNoWords(name);
  }

  lemma {:induction false} BlankHasNoWords(s: string)
    requires forall i :: 0 <= i < |s| ==> IsSpace(s[i])
    ensures Words(s) == []
  {
    if s != [] {
      BlankHasNoWords(s[1..]);
    }
  }

  /** `get_short_name` as a value: a preset short name is returned as it
      is, otherwise the name is shortened. */
  function CachedShortName(c: ComposerInfo): Result<Value> {
    if c.shortname != VNone then Ok(c.shortname)
    else
      var s :- ShortNameOf(c.name);
      Ok(VStr(s))
  }

  /** Once a short name has been returned and stored, it is what every
      later call returns. */
  lemma ShortNameCached(c: ComposerInfo)
    requires CachedShortName(c).Ok?
    ensures CachedShortName(c.(shortname := CachedShortName(c).value)) == CachedShortName(c)
  {
  }

  /** The host side of `get_mutopia_name`: `process.extractOne` picks the
      best match of a name among candidates, or nothing when there are
      none. */
  type ExtractOne = (string, seq<string>) -> Option<string>

  /** `get_mutopia_name(guess)` as a value, given Mutopia's composer list:
      a stored name wins; without one, guessing must be asked for; a
      guess is accepted only when it contains the last word of the name. */
  function MutopiaName(c: ComposerInfo, guess: bool, composers: seq<string>, extractOne: ExtractOne): Result<Value> {
    if c.mutopianame != VNone then Ok(c.mutopianame)
    else if !guess then Err(AttributeErr("No mutopia name defined."))
    else
      var parts := Words(c.name);
      if parts == [] then Err(IndexErr("pop from empty list"))
      else match extractOne(c.name, composers)
        case None => Err(TypeErr("cannot unpack non-iterable NoneType object"))
        case Some(choice) =>
          if !Contains(choice, parts[|parts| - 1]) then Err(MutopiaErr("No matching composer found."))
          else Ok(VStr(choice))
  }

  /** A guessed name always contains the composer's last name, and a
      guess that does not is refused with `MutopiaError`. */
  lemma MutopiaGuessHasSurname(c: ComposerInfo, composers: seq<string>, extractOne: ExtractOne)
    requires c.mutopianame == VNone && Words(c.name) != []
    ensures var r, parts := MutopiaName(c, true, composers, extractOne), Words(c.name);
      r.Ok? ==> r.value.VStr? && Contains(r.value.s, parts[|parts| - 1])
    ensures var parts := Words(c.name);
      extractOne(c.name, composers).Some? && !Contains(extractOne(c.name, composers).value, parts[|parts| - 1]) ==>
        MutopiaName(c, true, composers, extractOne) == Err(MutopiaErr("No matching composer found."))
  {
  }

  /** After a successful call has stored its answer, the answer comes back
      without guessing and whatever the catalog. */
  lemma MutopiaNameCached(c: ComposerInfo, guess: bool, composers: seq<string>, extractOne: ExtractOne,
                          guess2: bool, composers2: seq<string>, extractOne2: ExtractOne)
    requires MutopiaName(c, guess, composers, extractOne).Ok?
    ensures var r := MutopiaName(c, guess, composers, extractOne);
      MutopiaName(c.(mutopianame := r.value), guess2, composers2, extractOne2) == r
  {
  }

  /** The entry of `d` under `key`, or `None`. */
  function Get(d: Record, key: string): Value {
    if key in d then d[key] else VNone
  }

  /** `Composer.load(d)` as a value: the name is popped and must be a
      string; `mutopianame` and `shortname` are assigned when present;
      other keys land outside the compared attributes. */
  function ComposerLoad(d: Record): Result<ComposerInfo> {
    if "name" !in d then Err(KeyErr("name"))
    else if !d["name"].VStr? then Err(TypeErr("'name' must be <class 'str'>"))
    else Ok(ComposerInfo(d["name"].s, Get(d, "mutopianame"), Get(d, "shortname")))
  }

  /** `Composer.dump()`: `attr.asdict`. */
  function ComposerDump(c: ComposerInfo): Record {
    map["name" := VStr(c.name), "mutopianame" := c.mutopianame, "shortname" := c.shortname]
  }

  /** Loading a composer's dump gives the same composer. */
  lemma ComposerRoundTrip(c: ComposerInfo)
    ensures ComposerLoad(ComposerDump(c)) == Ok(c)
  {
    var d := ComposerDump(c);
    assert Get(d, "mutopianame") == c.mutopianame && Get(d, "shortname") == c.shortname;
  }

  /** A composer; the short and Mutopia names are computed once and then
      kept. */
  class Composer {
    var name: string
    var mutopianame: Value
    var shortname: Value

    constructor (name: string, mutopianame: Value, shortname: Value)
      ensures Info() == ComposerInfo(name, mutopianame, shortname)
    {
      this.name := name;
      this.mutopianame := mutopianame;
      this.shortname := shortname;
    }

    function Info(): ComposerInfo
      reads this
    {
      ComposerInfo(name, mutopianame, shortname)
    }

    function Dump(): Record
      reads this
    {
      ComposerDump(Info())
    }

    /** `get_short_name`: the result is stored as the short name. */
    method GetShortName() returns (r: Result<Value>)
      modifies this
      ensures r == CachedShortName(old(Info()))
      ensures Info() == if r.Ok? then old(Info()).(shortname := r.value) else old(Info())
    {
      if shortname != VNone {
        return Ok(shortname);
      }
      var parts := Words(name);
      if parts == [] {
        return Err(IndexErr("pop from empty list"));
      }
      var lname := parts[|parts| - 1];
      var front := parts[..|parts| - 1];
      var sname := "";
      var i := 0;
      while i < |front|
        invariant 0 <= i <= |front|
        invariant forall k :: 0 <= k < |front| ==> front[k] != []
        invariant sname == Initials(front[..i])
      {
        assert front[..i + 1][..i] == front[..i];
        sname := sname + [front[i][0]] + ".";
        i := i + 1;
      }
      assert front[..i] == front;
      if sname != "" {
        sname := sname + " ";
      }
      sname := sname + lname;
      shortname := VStr(sname);
      return Ok(VStr(sname));
    }

    /** `get_mutopia_name(guess)`, with Mutopia's composer list and the
        fuzzy matcher supplied: an accepted guess is stored. */
    method GetMutopiaName(guess: bool, composers: seq<string>, extractOne: ExtractOne) returns (r: Result<Value>)
      modifies this
      ensures r == MutopiaName(old(Info()), guess, composers, extractOne)
      ensures Info() == if r.Ok? then old(Info()).(mutopianame := r.value) else old(Info())
    {
      if mutopianame != VNone {
        return Ok(mutopianame);
      }
      if !guess {
        return Err(AttributeErr("No mutopia name defined."));
      }
      var namelist := Words(name);
      if namelist == [] {
        return Err(IndexErr("pop from empty list"));
      }
      var lname := namelist[|namelist| - 1];
      var best := extractOne(name, composers);
      if best.None? {
        return Err(TypeErr("cannot unpack non-iterable NoneType object"));
      }
      if !Contains(best.value, lname) {
        return Err(MutopiaErr("No matching composer found."));
      }
      mutopianame := VStr(best.value);
      return Ok(VStr(best.value));
    }

    /** `Composer.load(d)`: build from the popped name, then assign the
        remaining entries one by one. */
    static method Load(d: Record) returns (r: Result<Composer>)
      ensures r.Ok? <==> ComposerLoad(d).Ok?
      ensures r.Err? ==> r.error == ComposerLoad(d).error
      ensures r.Ok? ==> fresh(r.value) && r.value.Info() == ComposerLoad(d).value
    {
      if "name" !in d {
        return Err(KeyErr("name"));
      }
      if !d["name"].VStr? {
        return Err(TypeErr("'name' must be <class 'str'>"));
      }
      var c := new Composer(d["name"].s, VNone, VNone);
      var rest := d - {"name"};
      var keys := rest.Keys;
      while keys != {}
        invariant keys <= rest.Keys
        invariant c.name == d["name"].s
        invariant c.mutopianame == if "mutopianame" in rest.Keys - keys then d["mutopianame"] else VNone
        invariant c.shortname == if "shortname" in rest.Keys - keys then d["shortname"] else VNone
        decreases |keys|
      {
        var k :| k in keys;
        if k == "mutopianame" {
          c.mutopianame := rest[k];
        } else if k == "shortname" {
          c.shortname := rest[k];
        }
        keys := keys - {k};
      }
      return Ok(c);
    }
  }

  // ---------------------------------------------------------------------
  // convert_license

  const CC4: string := "Creative Commons Attribution 4.0"
  const CCSA4: string := "Creative Commons Attribution-ShareAlike 4.0"
  const PD: string := "Public Domain"

  /** `convert_license`: the full name of a known licence code, `None`
      for any other hashable code; a list or a dictionary cannot be
      looked up in the table and raises `TypeError`. */
  function ConvertLicense(code: Value): Result<Option<string>> {
    match code
    case VList(_) => Err(TypeErr("unhashable type: 'list'"))
    case VMap(_) => Err(TypeErr("unhashable type: 'dict'"))
    case _ =>
      if code == VStr("cc4") then Ok(Some(CC4))
      else if code == VStr("ccsa4") then Ok(Some(CCSA4))
      else if code == VStr("pd") then Ok(Some(PD))
      else Ok(None)
  }

  /** The licence code a full name comes from. */
  function LicenseCode(full: string): Option<Value> {
    if full == CC4 then Some(VStr("cc4"))
    else if full == CCSA4 then Some(VStr("ccsa4"))
    else if full == PD then Some(VStr("pd"))
    else None
  }

  /** A list or dictionary code fails and every other code is looked up;
      exactly the three codes are known, and each full name identifies its
      code. */
  lemma LicenseCodes(code: Value)
    ensures ConvertLicense(code).Err? <==> code.VList? || code.VMap?
    ensures ConvertLicense(code).Err? ==> ConvertLicense(code).error.TypeErr?
    ensures ConvertLicense(code).Ok? && ConvertLicense(code).value.Some? <==> code in [VStr("cc4"), VStr("ccsa4"), VStr("pd")]
    ensures ConvertLicense(code).Ok? && ConvertLicense(code).value.Some? ==>
      LicenseCode(ConvertLicense(code).value.value) == Some(code)
  {
    assert CC4 != CCSA4 && CC4 != PD && CCSA4 != PD by {
      assert CC4[0] != PD[0] && CCSA4[0] != PD[0];
      assert |CC4| != |CCSA4|;
    }
  }

  // ---------------------------------------------------------------------
  // Movement

  /** `KeySignature(note, mode)`. */
  datatype KeySignature = KeySignature(note: Value, mode: Value)

  /** `convert_key`: the first two items of the argument. */
  function ConvertKey(keyinfo: Value): Result<KeySignature> {
    var note :- PyIndex(keyinfo, 0);
    var mode :- PyIndex(keyinfo, 1);
    Ok(KeySignature(note, mode))
  }

  const KeyError: Error := AttributeErr("'key' must be tuple of note and major or minor")

  const NoteLetters: seq<Value> := [VStr("a"), VStr("b"), VStr("c"), VStr("d"), VStr("e"), VStr("f"), VStr("g")]
  const Accidentals: seq<Value> := [VStr("f"), VStr("b")]
  const Modes: seq<Value> := [VStr("major"), VStr("minor")]

  /** `validate_key`: the note's first item is a letter a..g, a second
      item (when there is one) is `f` or `b`, and the mode is `major` or
      `minor`. A note without a first item fails at the index. */
  function ValidateKey(key: KeySignature): Result<()> {
    var first :- PyIndex(key.note, 0);
    if first !in NoteLetters then Err(KeyError)
    else
      var second := PyIndex(key.note, 1);
      if second.Err? && !second.error.IndexErr? then Err(second.error)
      else if second.Ok? && second.value !in Accidentals then Err(KeyError)
      else if key.mode !in Modes then Err(KeyError)
      else Ok(())
  }

  /** For a note written as a string: it is accepted exactly when it
      starts with a..g, its second character (if any) is `f` or `b`, and
      the mode is major or minor; anything after the second character is
      not looked at. An empty note fails at the index. */
  lemma ValidateKeyString(s: string, mode: Value)
    ensures s == [] ==> ValidateKey(KeySignature(VStr(s), mode)) == Err(IndexErr("string index out of range"))
    ensures ValidateKey(KeySignature(VStr(s), mode)).Ok? <==>
      s != [] && s[0] in "abcdefg" && (|s| >= 2 ==> s[1] in "fb") && mode in Modes
    ensures ValidateKey(KeySignature(VStr(s), mode)).Err? ==>
      ValidateKey(KeySignature(VStr(s), mode)) in [Err(KeyError), Err(IndexErr("string index out of range"))]
  {
    if s != [] {
      assert VStr([s[0]]) in NoteLetters <==> s[0] in "abcdefg";
      if |s| >= 2 {
        assert VStr([s[1]]) in Accidentals <==> s[1] in "fb";
      }
    }
  }

  /** The movement record. */
  datatype Movement = Movement(num: int, tempo: Value, time: Value, key: KeySignature)

  /** `Movement(num=num, key=keyinfo)`: the key is converted first, then
      the number and the key are validated, in that order. */
  function NewMovement(num: Value, keyinfo: Value): (r: Result<Movement>)
    ensures r.Ok? <==> ConvertKey(keyinfo).Ok? && num.VInt? && ValidateKey(ConvertKey(keyinfo).value).Ok?
    ensures ConvertKey(keyinfo).Err? ==> r == Err(ConvertKey(keyinfo).error)
    ensures ConvertKey(keyinfo).Ok? && !num.VInt? ==> r == Err(TypeErr("'num' must be <class 'int'>"))
    ensures ConvertKey(keyinfo).Ok? && num.VInt? && ValidateKey(ConvertKey(keyinfo).value).Err? ==>
      r == Err(ValidateKey(ConvertKey(keyinfo).value).error)
    ensures r.Ok? ==> (ValidateKey(r.value.key).Ok? && VInt(r.value.num) == num
      && r.value.tempo == VStr("") && r.value.time == VStr(""))
  {
    var key :- ConvertKey(keyinfo);
    if !num.VInt? then Err(TypeErr("'num' must be <class 'int'>"))
    else
      var _ :- ValidateKey(key);
      Ok(Movement(num.i, VStr(""), VStr(""), key))
  }

  /** The default movement, `Movement(num=1)`, plays in C major. */
  lemma DefaultMovement()
    ensures NewMovement(VInt(1), VList([VStr("c"), VStr("major")]))
      == Ok(Movement(1, VStr(""), VStr(""), KeySignature(VStr("c"), VStr("major"))))
  {
    ValidateKeyString("c", VStr("major"));
  }

  const NoMovementAttribute: Error := AttributeErr("'Movement' object has no attribute")

  /** `Movement.load(d)` as a value: `num` and `key` are popped and
      passed to the constructor; the rest may only be `tempo` and `time`,
      which are assigned as they are. */
  function MovementLoad(d: Record): Result<Movement> {
    if "num" !in d then Err(KeyErr("num"))
    else if "key" !in d then Err(KeyErr("key"))
    else
      var m :- NewMovement(d["num"], d["key"]);
      var rest := d - {"num", "key"};
      if exists k :: k in rest && k != "tempo" && k != "time" then Err(NoMovementAttribute)
      else Ok(m.(tempo := if "tempo" in rest then rest["tempo"] else m.tempo,
                 time := if "time" in rest then rest["time"] else m.time))
  }

  /** `Movement.dump()`: `attr.asdict`, the key pair written as a list. */
  function MovementDump(m: Movement): Record {
    map["num" := VInt(m.num), "tempo" := m.tempo, "time" := m.time,
        "key" := VList([m.key.note, m.key.mode])]
  }

  /** A movement with a valid key loads back from its dump unchanged. */
  lemma MovementRoundTrip(m: Movement)
    requires ValidateKey(m.key).Ok?
    ensures MovementLoad(MovementDump(m)) == Ok(m)
  {
    var d := MovementDump(m);
    assert ConvertKey(d["key"]) == Ok(m.key);
    var rest := d - {"num", "key"};
    assert rest.Keys == {"tempo", "time"};
  }

  // ---------------------------------------------------------------------
  // Headers

  /** The headers of a piece. `mutopiaheaders` is only modelled while it
      holds no Mutopia headers. */
  datatype Headers = Headers(
    title: Value, composer: ComposerInfo, dedication: Value, subtitle: Value, subsubtitle: Value,
    poet: Value, meter: Value, arranger: Value, tagline: Value, copyright: Value, mutopiaheaders: Value)

  /** `Composer.load(v)` on whatever the headers hold: only a dictionary
      can be popped by key. */
  function ComposerOf(v: Value): Result<ComposerInfo> {
    match v
    case VMap(m) => ComposerLoad(m)
    case VList(_) => Err(TypeErr("'str' object cannot be interpreted as an integer"))
    case _ => Err(AttributeErr("object has no attribute 'pop'"))
  }

  /** The headers dictionary carries Mutopia headers. */
  predicate HasMutopiaHeaders(v: Value) {
    v.VMap? && "mutopiaheaders" in v.m && Truthy(v.m["mutopiaheaders"])
  }

  /** `Headers.load(d)` as a value: the composer is popped and loaded, the
      title popped, and every other header assigned when present. */
  function HeadersLoad(v: Value): Result<Headers>
    requires !HasMutopiaHeaders(v)
  {
    match v
    case VMap(d) =>
      if "composer" !in d then Err(KeyErr("composer"))
      else
        var comp :- ComposerOf(d["composer"]);
        if "title" !in d then Err(KeyErr("title"))
        else Ok(Headers(d["title"], comp, Get(d, "dedication"), Get(d, "subtitle"), Get(d, "subsubtitle"),
          Get(d, "poet"), Get(d, "meter"), Get(d, "arranger"), Get(d, "tagline"), Get(d, "copyright"),
          Get(d, "mutopiaheaders")))
    case VList(_) => Err(TypeErr("'str' object cannot be interpreted as an integer"))
    case _ => Err(AttributeErr("object has no attribute 'pop'"))
  }

  /** `Headers.dump()`: every header, the composer as its own dictionary. */
  function HeadersDump(h: Headers): Record {
    map["title" := h.title, "composer" := VMap(ComposerDump(h.composer)),
        "dedication" := h.dedication, "subtitle" := h.subtitle, "subsubtitle" := h.subsubtitle,
        "poet" := h.poet, "meter" := h.meter, "arranger" := h.arranger, "tagline" := h.tagline,
        "copyright" := h.copyright, "mutopiaheaders" := h.mutopiaheaders]
  }

  /** Headers without Mutopia headers load back from their dump
      unchanged. */
  lemma HeadersRoundTrip(h: Headers)
    requires !Truthy(h.mutopiaheaders)
    ensures !HasMutopiaHeaders(VMap(HeadersDump(h)))
    ensures HeadersLoad(VMap(HeadersDump(h))) == Ok(h)
  {
    var d := HeadersDump(h);
    HeadersDumpFront(h);
    HeadersDumpRest(h);
    ComposerRoundTrip(h.composer);
    assert ComposerOf(d["composer"]) == Ok(h.composer);
  }

  lemma HeadersDumpFront(h: Headers)
    ensures var d := HeadersDump(h);
      "title" in d && d["title"] == h.title
      && "composer" in d && d["composer"] == VMap(ComposerDump(h.composer))
      && Get(d, "dedication") == h.dedication && Get(d, "subtitle") == h.subtitle
      && Get(d, "subsubtitle") == h.subsubtitle && "mutopiaheaders" in d && d["mutopiaheaders"] == h.mutopiaheaders
  {
  }

  lemma HeadersDumpRest(h: Headers)
    ensures var d := HeadersDump(h);
      Get(d, "poet") == h.poet && Get(d, "meter") == h.meter && Get(d, "arranger") == h.arranger
      && Get(d, "tagline") == h.tagline && Get(d, "copyright") == h.copyright
      && Get(d, "mutopiaheaders") == h.mutopiaheaders
  {
  }

  // ---------------------------------------------------------------------
  // Piece

  /** What a validator of `Piece` is handed: a list (element by element
      an instance of the expected class or not), an `Ensemble`, or
      anything else. */
  datatype Shaped<T> = AList(elems: seq<Arg<T>>) | AnEnsemble | Other

  /** `validate_version`: the version string must start with a digit. */
  function ValidateVersion(v: Value): (r: Result<()>)
    ensures r.Ok? <==> v.VStr? && v.s != [] && IsDigit(v.s[0])
  {
    match v
    case VStr(s) =>
      if s != [] && IsDigit(s[0]) then Ok(())
      else Err(AttributeErr("Lilypond version number does not appear to  be valid. Check you installation."))
    case _ => Err(TypeErr("expected string or bytes-like object"))
  }

  const InstrumentListError: Error := AttributeErr("instrument_list must be a list of instruments.")
  const MovementsError: Error := AttributeErr("Movements are not valid, Must be a list of Movement objects.")

  /** `validate_instrument_list`: an ensemble, or a list whose first
      element is an instrument. An empty list fails at the index. */
  function ValidateInstrumentList(v: Shaped<Instrument>): Result<()> {
    match v
    case AnEnsemble => Ok(())
    case Other => Err(InstrumentListError)
    case AList(xs) =>
      if xs == [] then Err(IndexErr("list index out of range"))
      else if xs[0].Foreign? then Err(InstrumentListError)
      else Ok(())
  }

  /** `movements_validator`: a list whose first element is a movement. */
  function ValidateMovements(v: Shaped<Movement>): Result<()> {
    match v
    case AList(xs) =>
      if xs == [] then Err(IndexErr("list index out of range"))
      else if xs[0].Foreign? then Err(MovementsError)
      else Ok(())
    case _ => Err(MovementsError)
  }

  /** Only the first element of a list is inspected: lists that agree on
      it are judged alike, and a list is accepted exactly when it starts
      with an object of the right class. */
  lemma ValidatorsFirstOnly(xs: seq<Arg<Instrument>>, ys: seq<Arg<Instrument>>, ms: seq<Arg<Movement>>, ns: seq<Arg<Movement>>)
    requires xs != [] && ys != [] && xs[0] == ys[0]
    requires ms != [] && ns != [] && ms[0] == ns[0]
    ensures ValidateInstrumentList(AList(xs)) == ValidateInstrumentList(AList(ys))
    ensures ValidateMovements(AList(ms)) == ValidateMovements(AList(ns))
    ensures ValidateInstrumentList(AList(xs)).Ok? <==> xs[0].Expected?
    ensures ValidateMovements(AList(ms)).Ok? <==> ms[0].Expected?
  {
  }

  function Wrapped<T>(xs: seq<T>): (r: seq<Arg<T>>)
    ensures |r| == |xs| && forall i :: 0 <= i < |xs| ==> r[i] == Expected(xs[i])
  {
    seq(|xs|, i requires 0 <= i < |xs| => Expected(xs[i]))
  }

  /** The piece. An `Ensemble` given as the instruments is represented by
      its member list. */
  datatype Piece = Piece(headers: Headers, version: Value, instruments: seq<Instrument>,
    language: Value, opus: Value, movements: seq<Movement>)

  /** `Piece(...)`: the validators run in field order (version,
      instruments, movements). */
  function NewPiece(headers: Headers, version: Value, instruments: seq<Instrument>, language: Value,
                    opus: Value, movements: seq<Movement>): (r: Result<Piece>)
    ensures r.Ok? <==> ValidateVersion(version).Ok? && instruments != [] && movements != []
    ensures r.Ok? ==> r.value == Piece(headers, version, instruments, language, opus, movements)
  {
    var _ :- ValidateVersion(version);
    var _ :- ValidateInstrumentList(AList(Wrapped(instruments)));
    var _ :- ValidateMovements(AList(Wrapped(movements)));
    Ok(Piece(headers, version, instruments, language, opus, movements))
  }

  /** A list comprehension `[load(x) for x in v]`: a list is loaded
      element by element; the items of a non-empty string or dictionary
      are strings, which the loaders refuse at the first `pop`. */
  function LoadEach<T>(v: Value, load: Value -> Result<T>): Result<seq<T>> {
    match v
    case VList(xs) => LoadAll(xs, load)
    case VStr(s) => if s == [] then Ok([]) else Err(AttributeErr("'str' object has no attribute 'pop'"))
    case VMap(m) => if m == map[] then Ok([]) else Err(AttributeErr("'str' object has no attribute 'pop'"))
    case _ => Err(TypeErr("object is not iterable"))
  }

  /** `Instrument.load(v)` on a stored value. */
  function InstrumentOf(v: Value, words: NumWords): Result<Instrument> {
    match v
    case VMap(m) => Load(FromDict(m), words)
    case VStr(s) =>
      if Contains(s, "number") then Err(TypeErr("string indices must be integers"))
      else Err(AttributeErr("'str' object has no attribute 'pop'"))
    case VList(xs) =>
      if VStr("number") in xs then Err(TypeErr("list indices must be integers or slices, not str"))
      else Err(TypeErr("'str' object cannot be interpreted as an integer"))
    case _ => Err(TypeErr("argument is not iterable"))
  }

  function InstrumentLoader(words: NumWords): Value -> Result<Instrument> {
    v => InstrumentOf(v, words)
  }

  /** `Movement.load(v)` on a stored value. */
  function MovementOf(v: Value): Result<Movement> {
    match v
    case VMap(m) => MovementLoad(m)
    case VList(_) => Err(TypeErr("'str' object cannot be interpreted as an integer"))
    case _ => Err(AttributeErr("object has no attribute 'pop'"))
  }

  function MovementLoader(): Value -> Result<Movement> {
    v => MovementOf(v)
  }

  /** `Piece.load(d)` as a value: the instruments are loaded first, then
      the headers, version, opus, movements and language are popped in
      that order, and the piece is built. */
  function PieceLoad(d: Record, words: NumWords): Result<Piece>
    requires !("headers" in d && HasMutopiaHeaders(d["headers"]))
  {
    if "instruments" !in d then Err(KeyErr("instruments"))
    else
      var instruments :- LoadEach(d["instruments"], InstrumentLoader(words));
      if "headers" !in d then Err(KeyErr("headers"))
      else
        var headers :- HeadersLoad(d["headers"]);
        if "version" !in d then Err(KeyErr("version"))
        else if "opus" !in d then Err(KeyErr("opus"))
        else if "movements" !in d then Err(KeyErr("movements"))
        else
          var movements :- LoadEach(d["movements"], MovementLoader());
          if "language" !in d then Err(KeyErr("language"))
          else NewPiece(headers, d["version"], instruments, d["language"], d["opus"], movements)
  }

  function InstrumentDumps(xs: seq<Instrument>): (r: seq<Value>)
    ensures |r| == |xs| && forall i :: 0 <= i < |xs| ==> r[i] == VMap(AsDict(xs[i]))
  {
    seq(|xs|, i requires 0 <= i < |xs| => VMap(AsDict(xs[i])))
  }

  function MovementDumps(ms: seq<Movement>): (r: seq<Value>)
    ensures |r| == |ms| && forall i :: 0 <= i < |ms| ==> r[i] == VMap(MovementDump(ms[i]))
  {
    seq(|ms|, i requires 0 <= i < |ms| => VMap(MovementDump(ms[i])))
  }

  /** `Piece.dump()`. */
  function PieceDump(p: Piece): Record {
    map["headers" := VMap(HeadersDump(p.headers)), "version" := p.version,
        "instruments" := VList(InstrumentDumps(p.instruments)), "language" := p.language,
        "opus" := p.opus, "movements" := VList(MovementDumps(p.movements))]
  }

  /** The instruments a piece can carry through its dump: a normalised
      name, and no number, zero or one in 1..89. */
  predicate Reloadable(ins: Instrument) {
    IsNormal(ins.ly.name) && (ins.ly.number.Some? ==> ins.ly.number.value == 0 || 1 <= ins.ly.number.value <= 89)
  }

  lemma InstrumentsRoundTrip(xs: seq<Instrument>, words: NumWords)
    requires forall i :: 0 <= i < |xs| ==> Reloadable(xs[i])
    ensures LoadEach(VList(InstrumentDumps(xs)), InstrumentLoader(words)) == Ok(xs)
  {
    forall i | 0 <= i < |xs|
      ensures InstrumentLoader(words)(InstrumentDumps(xs)[i]) == Ok(xs[i])
    {
      LoadAsDict(xs[i], words);
    }
    LoadAllEach(InstrumentDumps(xs), InstrumentLoader(words), xs);
  }

  lemma MovementsRoundTrip(ms: seq<Movement>)
    requires forall i :: 0 <= i < |ms| ==> ValidateKey(ms[i].key).Ok?
    ensures LoadEach(VList(MovementDumps(ms)), MovementLoader()) == Ok(ms)
  {
    forall i | 0 <= i < |ms|
      ensures MovementLoader()(MovementDumps(ms)[i]) == Ok(ms[i])
    {
      MovementRoundTrip(ms[i]);
    }
    LoadAllEach(MovementDumps(ms), MovementLoader(), ms);
  }

  /** The six entries a piece's dump holds. */
  lemma PieceDumpEntries(p: Piece)
    ensures var d := PieceDump(p);
      "headers" in d && d["headers"] == VMap(HeadersDump(p.headers))
      && "version" in d && d["version"] == p.version
      && "instruments" in d && d["instruments"] == VList(InstrumentDumps(p.instruments))
      && "language" in d && d["language"] == p.language
      && "opus" in d && d["opus"] == p.opus
      && "movements" in d && d["movements"] == VList(MovementDumps(p.movements))
  {
  }

  /** A record whose six entries all load is loaded into the piece built
      from them. */
  lemma PieceLoadEntries(d: Record, words: NumWords, hs: Headers, ins: seq<Instrument>, ms: seq<Movement>)
    requires "headers" in d && "version" in d && "instruments" in d
    requires "language" in d && "opus" in d && "movements" in d
    requires !HasMutopiaHeaders(d["headers"])
    requires LoadEach(d["instruments"], InstrumentLoader(words)) == Ok(ins)
    requires HeadersLoad(d["headers"]) == Ok(hs)
    requires LoadEach(d["movements"], MovementLoader()) == Ok(ms)
    ensures PieceLoad(d, words) == NewPiece(hs, d["version"], ins, d["language"], d["opus"], ms)
  {
  }

  /** A piece without Mutopia headers whose movement keys are valid and
      whose instruments can be reloaded loads back from its dump as the
      same piece, so its dump is reproduced. */
  lemma PieceRoundTrip(p: Piece, words: NumWords)
    requires NewPiece(p.headers, p.version, p.instruments, p.language, p.opus, p.movements) == Ok(p)
    requires !Truthy(p.headers.mutopiaheaders)
    requires forall i :: 0 <= i < |p.instruments| ==> Reloadable(p.instruments[i])
    requires forall i :: 0 <= i < |p.movements| ==> ValidateKey(p.movements[i].key).Ok?
    ensures !HasMutopiaHeaders(PieceDump(p)["headers"])
    ensures PieceLoad(PieceDump(p), words) == Ok(p)
    ensures PieceDump(PieceLoad(PieceDump(p), words).value) == PieceDump(p)
  {
    var d := PieceDump(p);
    PieceDumpEntries(p);
    HeadersRoundTrip(p.headers);
    InstrumentsRoundTrip(p.instruments, words);
    MovementsRoundTrip(p.movements);
    PieceLoadEntries(d, words, p.headers, p.instruments, p.movements);
  }
}
