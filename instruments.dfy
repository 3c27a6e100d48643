/** Instruments (lilyskel/lynames.py, `Instrument`): a `LyName` with the
    attributes the generator prints and stores, its clef check, printed
    part name, numbered construction, and the way it is loaded from and
    saved to the record store. */
module LyInstruments {
  import opened Outcomes
  import opened Text
  import opened Values
  import opened RecordStore
  import opened LyNames

  /** `VALID_CLEFS`. */
  const ValidClefs: seq<string> := [
    "G", "treble", "french", "tenorG", "soprano", "C", "tenor", "varC",
    "tenorvarC", "varbaritone", "F", "subbass", "G2", "violin", "GG",
    "mezzosoprano", "alto", "baritone", "altovarC", "baritonevarC",
    "baritonevarF", "bass"]

  /** An instrument. The attribute fields hold whatever value was given or
      stored: assigning by name after construction bypasses the clef check
      and the family normalisation. */
  datatype Instrument = Instrument(
    ly: LyName,
    abbr: Value,
    clef: Value,
    transposition: Value,
    keyboard: Value,
    midi: Value,
    family: Value,
    mutopianame: Value)

  /** The keyword arguments of the constructor. */
  datatype Options = Options(
    abbr: Value, clef: Value, transposition: Value, keyboard: Value, midi: Value, family: Option<string>)

  /** The constructor's defaults. */
  const Defaults: Options := Options(VStr(""), VStr("treble"), VNone, VBool(false), VNone, None)

  /** `validate_clef`: the clef must be one of the known names. */
  predicate ClefOk(clef: Value) {
    clef.VStr? && clef.s in ValidClefs
  }

  function OptValue(s: Option<string>): Value {
    match s
    case None => VNone
    case Some(x) => VStr(x)
  }

  /** `Instrument(name, ...)`: the name and the family are normalised, the
      clef is checked; an unknown clef rejects the construction. */
  function NewInstrument(name: string, opts: Options): (r: Result<Instrument>)
    ensures r.Ok? <==> ClefOk(opts.clef)
    ensures r.Err? ==> r.error == ClefRejected("Not a valid clef")
    ensures r.Ok? ==> (r.value.ly == NewLyName(name) && r.value.clef == opts.clef
      && r.value.family == OptValue(NormalizeName(opts.family)) && r.value.mutopianame == VNone)
    ensures r.Ok? ==> (r.value.abbr == opts.abbr && r.value.transposition == opts.transposition
      && r.value.keyboard == opts.keyboard && r.value.midi == opts.midi)
  {
    if !ClefOk(opts.clef) then Err(ClefRejected("Not a valid clef"))
    else Ok(Instrument(NewLyName(name), opts.abbr, opts.clef, opts.transposition, opts.keyboard,
                       opts.midi, OptValue(NormalizeName(opts.family)), VNone))
  }

  /** The default clef is accepted, so a plain `Instrument(name)` never
      fails. */
  lemma DefaultsAccepted(name: string)
    ensures NewInstrument(name, Defaults).Ok?
  {
    assert ValidClefs[1] == "treble";
  }

  /** A clef outside the list is refused, whatever the other arguments. */
  lemma UnknownClefRejected(name: string, opts: Options)
    requires opts.clef == VStr("piano") || !opts.clef.VStr?
    ensures NewInstrument(name, opts) == Err(ClefRejected("Not a valid clef"))
  {
    assert "piano" !in ValidClefs;
  }

  // ---------------------------------------------------------------------
  // part_name

  /** What `.*` matches: everything up to the next newline. */
  function DropLine(s: string): (r: string)
    ensures |r| <= |s| && r == s[|s| - |r|..]
    ensures r == [] || r[0] == '\n'
    ensures '\n' !in s ==> r == []
  {
    if s == [] || s[0] == '\n' then s else DropLine(s[1..])
  }

  /** `re.sub(" in .*", "", s)`. */
  function SubIn(s: string): string
    decreases |s|
  {
    if |s| < 4 then s
    else if s[..4] == " in " then SubIn(DropLine(s[4..]))
    else [s[0]] + SubIn(s[1..])
  }

  /** On one line, the substitution cuts the text at the first " in ":
      what is left is a prefix of the input with no " in " in it. */
  lemma {:induction false} SubInCuts(s: string)
    requires '\n' !in s
    ensures IsPrefix(SubIn(s), s)
    ensures !Contains(SubIn(s), " in ")
    decreases |s|
  {
    if |s| < 4 {
      assert !IsPrefix(" in ", s);
      if s != [] {
        ShortNoMatch(s[1..]);
      }
    } else if s[..4] == " in " {
    } else {
      SubInCuts(s[1..]);
      var t := SubIn(s[1..]);
      assert SubIn(s) == [s[0]] + t;
    }
  }

  lemma {:induction false} ShortNoMatch(s: string)
    requires |s| < 4
    ensures !Contains(s, " in ")
  {
    if s != [] {
      ShortNoMatch(s[1..]);
    }
  }

  /** A text without " in " is left alone. */
  lemma {:induction false} SubInNoMatch(s: string)
    requires !Contains(s, " in ")
    ensures SubIn(s) == s
    decreases |s|
  {
    if |s| >= 4 {
      SubInNoMatch(s[1..]);
    }
  }

  /** " ".join(name.split("_")): every underscore becomes a space. */
  function Spaced(name: string): string {
    Tr(name, '_', ' ')
  }

  /** `Instrument.part_name(key)`. The `titlecase` library is outside the
      model and supplied by the caller. */
  function PartName(ins: Instrument, key: bool, titlecase: string -> string): string {
    var name := titlecase(Spaced(ins.ly.name));
    var name' := if !key && Contains(name, " in ") then SubIn(name) else name;
    if ins.ly.roman != "" then name' + " " + ins.ly.roman else name'
  }

  /** With `key` the title-cased name is kept whole; without it the name
      is cut before its first " in " (when on one line); the numeral of a
      numbered instrument is appended in both cases, after the cut. */
  lemma PartNameShape(ins: Instrument, key: bool, titlecase: string -> string)
    ensures var t := titlecase(Spaced(ins.ly.name));
      var suffix := if ins.ly.roman != "" then " " + ins.ly.roman else "";
      (key ==> PartName(ins, key, titlecase) == t + suffix)
      && (!key && '\n' !in t ==> exists p :: IsPrefix(p, t) && !Contains(p, " in ") && PartName(ins, key, titlecase) == p + suffix)
      && (!Contains(t, " in ") ==> PartName(ins, key, titlecase) == t + suffix)
  {
    var t := titlecase(Spaced(ins.ly.name));
    var suffix := if ins.ly.roman != "" then " " + ins.ly.roman else "";
    PartNameOf(ins, key, titlecase);
    if !key && '\n' !in t {
      if Contains(t, " in ") {
        SubInCuts(t);
        assert PartName(ins, key, titlecase) == SubIn(t) + suffix;
      } else {
        assert IsPrefix(t, t);
        assert PartName(ins, key, titlecase) == t + suffix;
      }
    }
  }

  /** `part_name` with the title-cased name named. */
  lemma PartNameOf(ins: Instrument, key: bool, titlecase: string -> string)
    ensures var t := titlecase(Spaced(ins.ly.name));
      var suffix := if ins.ly.roman != "" then " " + ins.ly.roman else "";
      PartName(ins, key, titlecase) == (if !key && Contains(t, " in ") then SubIn(t) else t) + suffix
  {
  }

  /** When the first " in " of a one-line text follows `a`, the
      substitution leaves exactly `a`. */
  lemma {:induction false} SubInFirst(a: string, b: string)
    requires '\n' !in b
    requires forall k :: 0 <= k < |a| ==> (a + " in " + b)[k..][..4] != " in "
    ensures SubIn(a + " in " + b) == a
    decreases |a|
  {
    var s := a + " in " + b;
    if a == [] {
      assert s[..4] == " in ";
      assert s[4..] == b;
    } else {
      assert s[1..] == a[1..] + " in " + b;
      forall k | 0 <= k < |a[1..]|
        ensures (a[1..] + " in " + b)[k..][..4] != " in "
      {
        assert (a[1..] + " in " + b)[k..] == s[k + 1..];
      }
      SubInFirst(a[1..], b);
      assert s[0..][..4] != " in ";
    }
  }

  /** A one-line text whose first " in " follows `a`: no " in " starts
      inside `a` exactly when `a + " in"` holds none. */
  lemma FirstInAfter(a: string, b: string)
    requires !Contains(a + " in", " in ")
    ensures forall k :: 0 <= k < |a| ==> (a + " in " + b)[k..][..4] != " in "
  {
    var s := a + " in " + b;
    forall k | 0 <= k < |a|
      ensures s[k..][..4] != " in "
    {
      if s[k..][..4] == " in " {
        assert (a + " in")[k..k + 4] == s[k..][..4];
        ContainsAt(a + " in", " in ", k);
      }
    }
  }

  /** The printed name of an instrument whose title-cased name is
      `a + " in " + b`, with the first " in " right after `a`: without the
      key it is `a` (the clarinet in B flat prints as "Clarinet"), with the
      key the whole name ("Clarinet in Bb"); the numeral follows either. */
  lemma PartNameCut(ins: Instrument, titlecase: string -> string, a: string, b: string)
    requires titlecase(Spaced(ins.ly.name)) == a + " in " + b
    requires '\n' !in b
    requires !Contains(a + " in", " in ")
    ensures PartName(ins, false, titlecase) == a + (if ins.ly.roman != "" then " " + ins.ly.roman else "")
    ensures PartName(ins, true, titlecase) == a + " in " + b + (if ins.ly.roman != "" then " " + ins.ly.roman else "")
  {
    FirstInAfter(a, b);
    ContainsSelfConcat(a, " in ", b);
    SubInFirst(a, b);
  }

  /** A one-word name is title-cased as it is, and printed whole when the
      title-cased word holds no " in ". */
  lemma PartNameOneWord(ins: Instrument, key: bool, titlecase: string -> string)
    requires '_' !in ins.ly.name
    requires !Contains(titlecase(ins.ly.name), " in ")
    ensures PartName(ins, key, titlecase) == titlecase(ins.ly.name) + (if ins.ly.roman != "" then " " + ins.ly.roman else "")
  {
    TrAbsent(ins.ly.name, '_', ' ');
  }

  // ---------------------------------------------------------------------
  // numbered_name

  /** `Instrument.numbered_name`: construct, then set the number, its
      normalised cardinal word and its roman numeral. */
  function NumberedName(name: string, number: int, opts: Options, words: NumWords): (r: Result<Instrument>)
    ensures r.Ok? <==> ClefOk(opts.clef) && 1 <= number <= 89
    ensures !ClefOk(opts.clef) ==> r == Err(ClefRejected("Not a valid clef"))
    ensures ClefOk(opts.clef) && !(1 <= number <= 89) ==> r.Err? && r.error.ValueErr?
    ensures r.Ok? ==> r.value.ly == LyName(Normalize(name), Some(number), Normalize(words.cardinal(number)), RomanSpec(number))
    ensures r.Ok? ==> r.value.(ly := NewLyName(name)) == NewInstrument(name, opts).value
  {
    var obj :- NewInstrument(name, opts);
    var numword := Normalize(words.cardinal(number));
    var roman :- RomanOf(Expected(number));
    Ok(obj.(ly := obj.ly.(number := Some(number), numword := numword, roman := roman)))
  }

  /** A numbered instrument with a numeral prints it after its name: the
      numbers 1 and 2 give "Violin I" and "Violoncello II" when the
      title-cased names are "Violin" and "Violoncello". */
  lemma NumberedPartName(name: string, number: int, opts: Options, words: NumWords, titlecase: string -> string)
    requires NumberedName(name, number, opts, words).Ok?
    requires !Contains(titlecase(Spaced(Normalize(name))), " in ")
    ensures PartName(NumberedName(name, number, opts, words).value, false, titlecase)
      == titlecase(Spaced(Normalize(name))) + " " + RomanSpec(number)
  {
    var ins := NumberedName(name, number, opts, words).value;
    RomanNonEmpty(number);
    PartNameShape(ins, false, titlecase);
  }

  lemma RomanNonEmpty(n: int)
    requires 1 <= n <= 89
    ensures RomanSpec(n) != ""
  {
  }

  // ---------------------------------------------------------------------
  // Assigning stored fields by name (the `setattr` loops)

  /** The attribute names of an `Instrument` (a slotted class: no others
      can be assigned). */
  const Slots: set<string> := {"name", "number", "_numword", "_roman", "abbr", "clef",
                               "transposition", "keyboard", "midi", "family", "mutopianame"}

  /** The attributes that hold arbitrary values. */
  const ValueSlots: set<string> := {"abbr", "clef", "transposition", "keyboard", "midi", "family", "mutopianame"}

  /** `setattr(ins, key, v)` succeeds: the key is an attribute, and the
      value fits the field (the name fields hold strings, the number an
      int or `None`). */
  predicate Assignable(key: string, v: Value) {
    key in Slots
    && (key == "name" ==> v.VStr?)
    && (key == "number" ==> v.VNone? || v.VInt?)
    && (key == "_numword" ==> v.VStr?)
    && (key == "_roman" ==> v.VStr?)
  }

  function AsNumber(v: Value): Option<int> {
    if v.VInt? then Some(v.i) else None
  }

  /** `setattr(ins, key, v)` for an assignable pair. */
  function SetAttr(ins: Instrument, key: string, v: Value): Instrument
    requires Assignable(key, v)
  {
    if key == "name" then ins.(ly := ins.ly.(name := v.s))
    else if key == "number" then ins.(ly := ins.ly.(number := AsNumber(v)))
    else if key == "_numword" then ins.(ly := ins.ly.(numword := v.s))
    else if key == "_roman" then ins.(ly := ins.ly.(roman := v.s))
    else if key == "abbr" then ins.(abbr := v)
    else if key == "clef" then ins.(clef := v)
    else if key == "transposition" then ins.(transposition := v)
    else if key == "keyboard" then ins.(keyboard := v)
    else if key == "midi" then ins.(midi := v)
    else if key == "family" then ins.(family := v)
    else ins.(mutopianame := v)
  }

  predicate AllAssignable(data: Record) {
    forall k :: k in data ==> Assignable(k, data[k])
  }

  /** `ins` with the fields named in `done` taken from `data`. */
  function Assigned(ins: Instrument, data: Record, done: set<string>): Instrument
    requires forall k :: k in done ==> k in data && Assignable(k, data[k])
  {
    Instrument(
      LyName(
        if "name" in done && data["name"].VStr? then data["name"].s else ins.ly.name,
        if "number" in done then AsNumber(data["number"]) else ins.ly.number,
        if "_numword" in done && data["_numword"].VStr? then data["_numword"].s else ins.ly.numword,
        if "_roman" in done && data["_roman"].VStr? then data["_roman"].s else ins.ly.roman),
      if "abbr" in done then data["abbr"] else ins.abbr,
      if "clef" in done then data["clef"] else ins.clef,
      if "transposition" in done then data["transposition"] else ins.transposition,
      if "keyboard" in done then data["keyboard"] else ins.keyboard,
      if "midi" in done then data["midi"] else ins.midi,
      if "family" in done then data["family"] else ins.family,
      if "mutopianame" in done then data["mutopianame"] else ins.mutopianame)
  }

  const NoAttribute: Error := AttributeErr("'Instrument' object has no attribute")

  /** The result of assigning every entry of `data`, whatever the order:
      each field named in `data` takes the stored value, the others stay;
      a key that is not an attribute fails. */
  function Hydrated(ins: Instrument, data: Record): (r: Result<Instrument>)
    ensures r.Ok? <==> AllAssignable(data)
    ensures r.Err? ==> r.error == NoAttribute
  {
    if AllAssignable(data) then Ok(Assigned(ins, data, data.Keys)) else Err(NoAttribute)
  }

  /** Each attribute named in the data takes the stored value; the
      others keep theirs. */
  lemma HydratedFields(ins: Instrument, data: Record)
    requires AllAssignable(data)
    ensures forall k :: k in data && k in ValueSlots ==> Field(Hydrated(ins, data).value, k) == data[k]
    ensures forall k :: k in ValueSlots && k !in data ==> Field(Hydrated(ins, data).value, k) == Field(ins, k)
  {
    var r := Assigned(ins, data, data.Keys);
    assert Hydrated(ins, data).value == r;
    forall k | k in ValueSlots
      ensures Field(r, k) == if k in data then data[k] else Field(ins, k)
    {
      AssignedField(ins, data, data.Keys, k);
    }
  }

  /** An attribute holding an arbitrary value, after the assignment. */
  lemma AssignedField(ins: Instrument, data: Record, done: set<string>, k: string)
    requires forall j :: j in done ==> j in data && Assignable(j, data[j])
    requires k in ValueSlots
    ensures Field(Assigned(ins, data, done), k) == if k in done then data[k] else Field(ins, k)
  {
  }

  /** The attribute `key` of an instrument, as a value. */
  function Field(ins: Instrument, key: string): Value
    requires key in ValueSlots
  {
    if key == "abbr" then ins.abbr
    else if key == "clef" then ins.clef
    else if key == "transposition" then ins.transposition
    else if key == "keyboard" then ins.keyboard
    else if key == "midi" then ins.midi
    else if key == "family" then ins.family
    else ins.mutopianame
  }

  lemma AssignStep(ins: Instrument, data: Record, done: set<string>, k: string)
    requires forall j :: j in done ==> j in data && Assignable(j, data[j])
    requires k in data && Assignable(k, data[k]) && k !in done
    ensures SetAttr(Assigned(ins, data, done), k, data[k]) == Assigned(ins, data, done + {k})
  {
    if k == "name" || k == "number" || k == "_numword" || k == "_roman" {
      AssignStepLy(ins, data, done, k);
    } else {
      AssignStepValue(ins, data, done, k);
    }
  }

  lemma AssignStepLy(ins: Instrument, data: Record, done: set<string>, k: string)
    requires forall j :: j in done ==> j in data && Assignable(j, data[j])
    requires k in data && Assignable(k, data[k]) && k !in done
    requires k == "name" || k == "number" || k == "_numword" || k == "_roman"
    ensures SetAttr(Assigned(ins, data, done), k, data[k]) == Assigned(ins, data, done + {k})
  {
  }

  lemma AssignStepValue(ins: Instrument, data: Record, done: set<string>, k: string)
    requires forall j :: j in done ==> j in data && Assignable(j, data[j])
    requires k in data && Assignable(k, data[k]) && k !in done
    requires !(k == "name" || k == "number" || k == "_numword" || k == "_roman")
    ensures SetAttr(Assigned(ins, data, done), k, data[k]) == Assigned(ins, data, done + {k})
  {
    assert Assigned(ins, data, done + {k}).ly == Assigned(ins, data, done).ly;
    if k == "abbr" || k == "clef" || k == "transposition" {
      AssignStepFirst(ins, data, done, k);
    } else {
      AssignStepLast(ins, data, done, k);
    }
  }

  lemma AssignStepFirst(ins: Instrument, data: Record, done: set<string>, k: string)
    requires forall j :: j in done ==> j in data && Assignable(j, data[j])
    requires k in data && Assignable(k, data[k]) && k !in done
    requires k == "abbr" || k == "clef" || k == "transposition"
    ensures SetAttr(Assigned(ins, data, done), k, data[k]) == Assigned(ins, data, done + {k})
  {
  }

  lemma AssignStepLast(ins: Instrument, data: Record, done: set<string>, k: string)
    requires forall j :: j in done ==> j in data && Assignable(j, data[j])
    requires k in data && Assignable(k, data[k]) && k !in done
    requires !(k == "name" || k == "number" || k == "_numword" || k == "_roman")
    requires !(k == "abbr" || k == "clef" || k == "transposition")
    ensures SetAttr(Assigned(ins, data, done), k, data[k]) == Assigned(ins, data, done + {k})
  {
  }

  /** `for key, val in data.items(): setattr(ins, key, val)`. */
  method SetAttrs(ins: Instrument, data: Record) returns (r: Result<Instrument>)
    ensures r == Hydrated(ins, data)
  {
    var cur := ins;
    var keys := data.Keys;
    while keys != {}
      invariant keys <= data.Keys
      invariant forall k :: k in data.Keys - keys ==> Assignable(k, data[k])
      invariant cur == Assigned(ins, data, data.Keys - keys)
      decreases |keys|
    {
      var k :| k in keys;
      if !Assignable(k, data[k]) {
        return Err(NoAttribute);
      }
      AssignStep(ins, data, data.Keys - keys, k);
      assert data.Keys - keys + {k} == data.Keys - (keys - {k});
      cur := SetAttr(cur, k, data[k]);
      keys := keys - {k};
    }
    assert data.Keys - keys == data.Keys;
    return Ok(cur);
  }

  // ---------------------------------------------------------------------
  // load_from_db / add_to_db

  /** The instrument `load_from_db` builds before assigning the stored
      fields: numbered when a number is asked for, plain otherwise. */
  function Blank(n: string, number: Option<int>, words: NumWords): (r: Result<Instrument>)
    ensures r.Ok? <==> (number.Some? ==> 1 <= number.value <= 89)
    ensures r.Ok? ==> r.value.ly.name == Normalize(n) && r.value.ly.number == number
    ensures r.Ok? && number.Some? ==>
      r.value.ly.numword == Normalize(words.cardinal(number.value)) && r.value.ly.roman == RomanSpec(number.value)
  {
    DefaultsAccepted(n);
    if number.Some? then NumberedName(n, number.value, Defaults, words) else NewInstrument(n, Defaults)
  }

  /** `Instrument.load_from_db(name, db, number)` as a value: normalise the
      name, look it up (a missing record is `DataNotFoundError`), build a
      plain or numbered instrument and assign every stored field. */
  function LoadSpec(name: string, store: Store, number: Option<int>, words: NumWords): Result<Instrument> {
    var n := Normalize(name);
    var data :- LoadNameFromTable(n, store, "instruments");
    var obj :- Blank(n, number, words);
    Hydrated(obj, data)
  }

  /** `Instrument.load_from_db`. */
  method LoadFromDb(name: string, db: Database, number: Option<int>, words: NumWords) returns (r: Result<Instrument>)
    ensures r == LoadSpec(name, db.tables, number, words)
  {
    var n := Normalize(name);
    var data := LoadNameFromTable(n, db.tables, "instruments");
    if data.Err? {
      return Err(data.error);
    }
    var obj := if number.Some? then NumberedName(n, number.value, Defaults, words) else NewInstrument(n, Defaults);
    if obj.Err? {
      return Err(obj.error);
    }
    r := SetAttrs(obj.value, data.value);
  }

  /** A name not in the `instruments` table fails with the lookup's
      `DataNotFoundError`, before anything is built. */
  lemma LoadMissing(name: string, store: Store, number: Option<int>, words: NumWords)
    requires forall rec :: rec in TableOf(store, "instruments") ==> !Named(rec, Normalize(name))
    ensures LoadSpec(name, store, number, words) == Err(NotInTable(Normalize(name), "instruments"))
  {
  }

  /** A found record with a number outside 1..89 asked for fails with the
      numeral's `ValueError`. */
  lemma LoadBadNumber(name: string, store: Store, k: int, words: NumWords)
    requires LoadNameFromTable(Normalize(name), store, "instruments").Ok?
    requires !(1 <= k <= 89)
    ensures LoadSpec(name, store, Some(k), words) == Err(ValueErr("Only supports numbers between 1 and 89"))
  {
    var n := Normalize(name);
    DefaultsAccepted(n);
    assert RomanOf(Expected(k)) == Err(ValueErr("Only supports numbers between 1 and 89"));
    assert Blank(n, Some(k), words) == Err(ValueErr("Only supports numbers between 1 and 89"));
  }

  /** A successful load carries the normalised name and every stored
      attribute; the number (when the record has none) is the requested
      one, with its word and numeral. */
  lemma LoadFields(name: string, store: Store, number: Option<int>, words: NumWords, data: Record, ins: Instrument)
    requires LoadNameFromTable(Normalize(name), store, "instruments") == Ok(data)
    requires LoadSpec(name, store, number, words) == Ok(ins)
    ensures ins.ly.name == Normalize(name)
    ensures number.Some? ==> 1 <= number.value <= 89
    ensures forall k :: k in data && k in ValueSlots ==> Field(ins, k) == data[k]
    ensures "number" !in data ==> ins.ly.number == number
    ensures "number" !in data && "_numword" !in data && "_roman" !in data && number.Some? ==>
      ins.ly.numword == Normalize(words.cardinal(number.value)) && ins.ly.roman == RomanSpec(number.value)
  {
    var n := Normalize(name);
    var obj := Blank(n, number, words).value;
    assert LoadSpec(name, store, number, words) == Hydrated(obj, data);
    HydratedFields(obj, data);
    HydratedNames(obj, data);
    NormalizeIdempotent(name);
    assert data["name"] == VStr(n);
  }

  /** The name and number fields after the assignment: stored ones win. */
  lemma HydratedNames(ins: Instrument, data: Record)
    requires AllAssignable(data)
    ensures var r := Hydrated(ins, data).value;
      ("name" in data && data["name"].VStr? ==> r.ly.name == data["name"].s)
      && ("number" !in data ==> r.ly.number == ins.ly.number)
      && ("_numword" !in data ==> r.ly.numword == ins.ly.numword)
      && ("_roman" !in data ==> r.ly.roman == ins.ly.roman)
  {
  }

  /** The record `add_to_db` stores: every field but the number, its word
      and its numeral. */
  function ToRecord(ins: Instrument): (r: Record)
    ensures Named(r, ins.ly.name)
    ensures forall k :: k in ValueSlots ==> k in r && r[k] == Field(ins, k)
  {
    map["name" := VStr(ins.ly.name), "abbr" := ins.abbr, "clef" := ins.clef,
        "transposition" := ins.transposition, "keyboard" := ins.keyboard, "midi" := ins.midi,
        "family" := ins.family, "mutopianame" := ins.mutopianame]
  }

  /** The stored record holds every attribute except the number, its word
      and its numeral. */
  lemma ToRecordKeys(ins: Instrument)
    ensures ToRecord(ins).Keys == Slots - {"number", "_numword", "_roman"}
  {
  }

  /** `Instrument.add_to_db`: exactly one insert into `instruments`, with
      no duplicate check. */
  method AddToDb(ins: Instrument, db: Database)
    modifies db
    ensures db.tables == Appended(old(db.tables), "instruments", ToRecord(ins))
  {
    db.Insert("instruments", ToRecord(ins));
  }

  /** The number fields agree with the number: empty when there is none,
      the cardinal word and the numeral when there is one. */
  predicate WellNumbered(ins: Instrument, words: NumWords) {
    match ins.ly.number
    case None => ins.ly.numword == "" && ins.ly.roman == ""
    case Some(k) => 1 <= k <= 89 && ins.ly.numword == Normalize(words.cardinal(k)) && ins.ly.roman == RomanSpec(k)
  }

  /** Assigning the stored record of `ins` to an instrument with the same
      number fields gives `ins` back. */
  lemma RecordRestores(ins: Instrument, obj: Instrument)
    requires obj.ly.number == ins.ly.number && obj.ly.numword == ins.ly.numword && obj.ly.roman == ins.ly.roman
    ensures AllAssignable(ToRecord(ins))
    ensures Hydrated(obj, ToRecord(ins)) == Ok(ins)
  {
    ToRecordKeys(ins);
    assert Assigned(obj, ToRecord(ins), ToRecord(ins).Keys) == ins;
  }

  /** A well-numbered instrument with a normal name is what `Blank` builds
      for its own name and number, up to the stored attributes. */
  lemma BlankFits(ins: Instrument, words: NumWords) returns (obj: Instrument)
    requires IsNormal(ins.ly.name) && WellNumbered(ins, words)
    ensures Blank(ins.ly.name, ins.ly.number, words) == Ok(obj)
    ensures obj.ly == ins.ly
  {
    NormalFixed(ins.ly.name);
    obj := Blank(ins.ly.name, ins.ly.number, words).value;
  }

  /** A normalised, well-numbered instrument whose stored record is the
      one found under its name loads back as itself. */
  lemma LoadStored(ins: Instrument, store: Store, words: NumWords)
    requires IsNormal(ins.ly.name) && WellNumbered(ins, words)
    requires LoadNameFromTable(ins.ly.name, store, "instruments") == Ok(ToRecord(ins))
    ensures LoadSpec(ins.ly.name, store, ins.ly.number, words) == Ok(ins)
  {
    NormalFixed(ins.ly.name);
    var obj := BlankFits(ins, words);
    RecordRestores(ins, obj);
    assert LoadSpec(ins.ly.name, store, ins.ly.number, words) == Hydrated(obj, ToRecord(ins));
  }

  /** Saving an instrument under a new normalised name and loading it
      back, with its number, gives the same instrument. */
  lemma AddThenLoad(ins: Instrument, store: Store, words: NumWords)
    requires IsNormal(ins.ly.name) && WellNumbered(ins, words)
    requires forall rec :: rec in TableOf(store, "instruments") ==> !Named(rec, ins.ly.name)
    ensures LoadSpec(ins.ly.name, Appended(store, "instruments", ToRecord(ins)), ins.ly.number, words) == Ok(ins)
  {
    LoadAfterInsert(store, "instruments", ins.ly.name, ToRecord(ins));
    LoadStored(ins, Appended(store, "instruments", ToRecord(ins)), words);
  }

  // ---------------------------------------------------------------------
  // Instrument.load and the full dictionary form

  /** The argument of `Instrument.load`: an instrument or a dictionary. */
  datatype Input = FromObj(ins: Instrument) | FromDict(d: Record)

  /** The name popped from the dictionary, as the constructor takes it. */
  function NameArg(d: Record): Result<string> {
    if "name" !in d then Err(KeyErr("name"))
    else if !d["name"].VStr? then Err(AttributeErr("object has no attribute 'strip'"))
    else Ok(d["name"].s)
  }

  /** `Instrument.load`: an instrument is returned as is; a dictionary
      with a truthy `number` builds a numbered instrument, otherwise a
      plain one; the popped keys aside, every entry is assigned. */
  function Load(input: Input, words: NumWords): Result<Instrument> {
    match input
    case FromObj(ins) => Ok(ins)
    case FromDict(d) =>
      if "number" in d && Truthy(d["number"]) then LoadNumbered(d, words) else LoadPlain(d, words)
  }

  /** The dictionary branch of `Instrument.load` with a truthy number. */
  function LoadNumbered(d: Record, words: NumWords): Result<Instrument>
    requires "number" in d
  {
    var name :- NameArg(d);
    var number := d["number"];
    if !number.VInt? then Err(TypeErr("'num' must be an int"))
    else
      var newins :- NumberedName(name, number.i, Defaults, words);
      Hydrated(newins, d - {"name", "number"})
  }

  /** The dictionary branch of `Instrument.load` without one. */
  function LoadPlain(d: Record, words: NumWords): Result<Instrument> {
    var name :- NameArg(d);
    var newins :- NewInstrument(name, Defaults);
    Hydrated(newins, d - {"name"})
  }

  function NumberValue(n: Option<int>): Value {
    match n
    case None => VNone
    case Some(k) => VInt(k)
  }

  /** `attr.asdict(ins)`: every field, the private ones included. */
  function AsDict(ins: Instrument): Record {
    map["name" := VStr(ins.ly.name), "number" := NumberValue(ins.ly.number),
        "_numword" := VStr(ins.ly.numword), "_roman" := VStr(ins.ly.roman),
        "abbr" := ins.abbr, "clef" := ins.clef, "transposition" := ins.transposition,
        "keyboard" := ins.keyboard, "midi" := ins.midi, "family" := ins.family,
        "mutopianame" := ins.mutopianame]
  }

  /** The dictionary form holds every attribute. */
  lemma AsDictKeys(ins: Instrument)
    ensures AsDict(ins).Keys == Slots
  {
  }

  /** Assigning the dictionary form of `ins`, name and number popped, to
      an instrument with the same name and number gives `ins` back. */
  lemma DictRestoresNumbered(ins: Instrument, obj: Instrument)
    requires obj.ly.name == ins.ly.name && obj.ly.number == ins.ly.number
    ensures Hydrated(obj, AsDict(ins) - {"name", "number"}) == Ok(ins)
  {
    var rest := AsDict(ins) - {"name", "number"};
    assert AllAssignable(rest);
    assert Assigned(obj, rest, rest.Keys) == ins;
  }

  /** The same with only the name popped: every other field, the number
      included, comes from the dictionary. */
  lemma DictRestoresPlain(ins: Instrument, obj: Instrument)
    requires obj.ly.name == ins.ly.name
    requires ins.ly.number.None? || ins.ly.number == Some(0)
    ensures Hydrated(obj, AsDict(ins) - {"name"}) == Ok(ins)
  {
    var rest := AsDict(ins) - {"name"};
    assert AllAssignable(rest);
    assert Assigned(obj, rest, rest.Keys) == ins;
  }

  /** The name and number entries of the dictionary form. */
  lemma AsDictEntries(ins: Instrument)
    ensures NameArg(AsDict(ins)) == Ok(ins.ly.name)
    ensures "number" in AsDict(ins) && AsDict(ins)["number"] == NumberValue(ins.ly.number)
  {
  }

  /** Rebuilding a numbered instrument from its own normal name and number
      keeps both. */
  lemma RenumberKeeps(ins: Instrument, words: NumWords)
    requires IsNormal(ins.ly.name)
    requires ins.ly.number.Some? && 1 <= ins.ly.number.value <= 89
    ensures NumberedName(ins.ly.name, ins.ly.number.value, Defaults, words).Ok?
    ensures NumberedName(ins.ly.name, ins.ly.number.value, Defaults, words).value.ly.name == ins.ly.name
    ensures NumberedName(ins.ly.name, ins.ly.number.value, Defaults, words).value.ly.number == ins.ly.number
  {
    NormalFixed(ins.ly.name);
    DefaultsAccepted(ins.ly.name);
  }

  /** Rebuilding a plain instrument from its own normal name keeps it. */
  lemma RenameKeeps(ins: Instrument)
    requires IsNormal(ins.ly.name)
    ensures NewInstrument(ins.ly.name, Defaults).Ok?
    ensures NewInstrument(ins.ly.name, Defaults).value.ly.name == ins.ly.name
  {
    NormalFixed(ins.ly.name);
    DefaultsAccepted(ins.ly.name);
  }

  /** The numbered branch of `Instrument.load` on a dictionary whose name,
      number and remaining entries are known. */
  lemma LoadNumberedFrom(d: Record, name: string, k: int, ins: Instrument, words: NumWords)
    requires NameArg(d) == Ok(name)
    requires "number" in d && d["number"] == VInt(k) && k != 0
    requires NumberedName(name, k, Defaults, words).Ok?
    requires Hydrated(NumberedName(name, k, Defaults, words).value, d - {"name", "number"}) == Ok(ins)
    ensures Load(FromDict(d), words) == Ok(ins)
  {
    assert Load(FromDict(d), words) == LoadNumbered(d, words);
  }

  /** The numbered branch of the round trip. */
  lemma LoadAsDictNumbered(ins: Instrument, words: NumWords)
    requires IsNormal(ins.ly.name)
    requires ins.ly.number.Some? && 1 <= ins.ly.number.value <= 89
    ensures Load(FromDict(AsDict(ins)), words) == Ok(ins)
  {
    AsDictEntries(ins);
    RenumberKeeps(ins, words);
    DictRestoresNumbered(ins, NumberedName(ins.ly.name, ins.ly.number.value, Defaults, words).value);
    LoadNumberedFrom(AsDict(ins), ins.ly.name, ins.ly.number.value, ins, words);
  }

  /** The plain branch of the round trip: no number, or zero. */
  lemma LoadAsDictPlain(ins: Instrument, words: NumWords)
    requires IsNormal(ins.ly.name)
    requires ins.ly.number.None? || ins.ly.number == Some(0)
    ensures Load(FromDict(AsDict(ins)), words) == Ok(ins)
  {
    AsDictEntries(ins);
    RenameKeeps(ins);
    DictRestoresPlain(ins, NewInstrument(ins.ly.name, Defaults).value);
    assert !Truthy(AsDict(ins)["number"]);
    LoadPlainFrom(AsDict(ins), ins.ly.name, ins, words);
  }

  /** The plain branch of `Instrument.load` on a dictionary whose name and
      remaining entries are known. */
  lemma LoadPlainFrom(d: Record, name: string, ins: Instrument, words: NumWords)
    requires NameArg(d) == Ok(name)
    requires "number" in d && !Truthy(d["number"])
    requires NewInstrument(name, Defaults).Ok?
    requires Hydrated(NewInstrument(name, Defaults).value, d - {"name"}) == Ok(ins)
    ensures Load(FromDict(d), words) == Ok(ins)
  {
    assert Load(FromDict(d), words) == LoadPlain(d, words);
  }

  /** Loading the dictionary form of an instrument gives it back, for a
      normalised name and a number that is absent, zero or in 1..89. */
  lemma LoadAsDict(ins: Instrument, words: NumWords)
    requires IsNormal(ins.ly.name)
    requires ins.ly.number.Some? ==> ins.ly.number.value == 0 || 1 <= ins.ly.number.value <= 89
    ensures Load(FromDict(AsDict(ins)), words) == Ok(ins)
  {
    if ins.ly.number.Some? && ins.ly.number.value != 0 {
      LoadAsDictNumbered(ins, words);
    } else {
      LoadAsDictPlain(ins, words);
    }
  }
}
