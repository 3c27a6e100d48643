/** The legacy name engine (lyskel/lynames.py). Its `_normalize`,
    `_form_num`, `_roman_numeral`, `mov_file_name`, `part_file_name` and
    `dir_name` are the same code as in the later version and are the
    members of `LyNames`. What differs is here: the variable name always
    carries its backslash, the constructor checks no clef, the printed
    part name appends the numeral before cutting at " in ", the class has
    no slots, the record lookup is supplied by the caller, and a failed
    ensemble load ends in an `AttributeError`. */
module LegacyNames {
  import opened Outcomes
  import opened Text
  import opened Values
  import LyNames
  import LyInstruments
  import LyEnsembles

  type LyName = LyNames.LyName
  type Instrument = LyInstruments.Instrument
  type Options = LyInstruments.Options
  type NumWords = LyNames.NumWords

  // ---------------------------------------------------------------------
  // var_name

  /** `LyName.var_name(mov_num)`: the ordinal movement name behind a
      backslash. */
  function VarName(ly: LyName, movNum: Arg<int>, words: NumWords): Result<string> {
    var base :- LyNames.Movement(ly, movNum, LyNames.FOrd, words);
    Ok("\\" + base)
  }

  /** The legacy variable name is the later one with the backslash asked
      for: a backslash, the name (with `_` and the cardinal word when
      numbered), `_`, the ordinal word of the movement and `_mov`. */
  lemma VarNameSlashed(ly: LyName, movNum: Arg<int>, words: NumWords)
    ensures VarName(ly, movNum, words) == LyNames.VarName(ly, movNum, true, words)
    ensures movNum.Foreign? ==> VarName(ly, movNum, words) == Err(TypeErr("'mov_num' must be an integer"))
    ensures movNum.Expected? ==> (VarName(ly, movNum, words) ==
      Ok("\\" + ly.name + (if ly.number.Some? then "_" + ly.numword else "")
         + "_" + LyNames.Normalize(words.ordinal(movNum.value)) + "_mov"))
  {
    LyNames.VarNameShape(ly, movNum, true, words);
  }

  // ---------------------------------------------------------------------
  // The constructor and numbered_name

  /** `Instrument(name, ...)`: the name and the family are normalised
      and nothing is checked. The unset `_numword` and `_roman` are the
      empty strings of `LyName`. */
  function NewInstrument(name: string, opts: Options): (r: Instrument)
    ensures r.ly == LyNames.NewLyName(name) && r.clef == opts.clef && r.transposition == opts.transposition
    ensures r.family == LyInstruments.OptValue(LyNames.NormalizeName(opts.family)) && r.mutopianame == VNone
    ensures r.abbr == opts.abbr && r.keyboard == opts.keyboard && r.midi == opts.midi
  {
    LyInstruments.Instrument(LyNames.NewLyName(name), opts.abbr, opts.clef, opts.transposition, opts.keyboard,
                             opts.midi, LyInstruments.OptValue(LyNames.NormalizeName(opts.family)), VNone)
  }

  /** The legacy constructor builds what the later one builds whenever
      the later one takes the clef, and builds an instrument for the
      clefs the later one refuses as well. */
  lemma NoClefCheck(name: string, opts: Options)
    ensures LyInstruments.ClefOk(opts.clef) ==> LyInstruments.NewInstrument(name, opts) == Ok(NewInstrument(name, opts))
    ensures !LyInstruments.ClefOk(opts.clef) ==> LyInstruments.NewInstrument(name, opts).Err?
  {
  }

  /** `Instrument.numbered_name`: construct, then set the number, its
      normalised cardinal word and its roman numeral; a number outside
      1..89 fails at the numeral. */
  function NumberedName(name: string, number: int, opts: Options, words: NumWords): (r: Result<Instrument>)
    ensures r.Ok? <==> 1 <= number <= 89
    ensures r.Err? ==> r == Err(ValueErr("Only supports numbers between 1 and 89"))
    ensures r.Ok? ==> r.value.ly == LyNames.LyName(LyNames.Normalize(name), Some(number),
      LyNames.Normalize(words.cardinal(number)), LyNames.RomanSpec(number))
    ensures r.Ok? ==> r.value.(ly := LyNames.NewLyName(name)) == NewInstrument(name, opts)
  {
    var obj := NewInstrument(name, opts);
    var numword := LyNames.Normalize(words.cardinal(number));
    var roman :- LyNames.RomanOf(Expected(number));
    Ok(obj.(ly := obj.ly.(number := Some(number), numword := numword, roman := roman)))
  }

  /** With a clef the later version takes, both versions number alike. */
  lemma NumberedAgrees(name: string, number: int, opts: Options, words: NumWords)
    requires LyInstruments.ClefOk(opts.clef)
    ensures NumberedName(name, number, opts, words) == LyInstruments.NumberedName(name, number, opts, words)
  {
  }

  // ---------------------------------------------------------------------
  // part_name

  /** The numeral suffix: a space and the numeral when one is set. */
  function Suffix(ins: Instrument): string {
    if ins.ly.roman != "" then " " + ins.ly.roman else ""
  }

  /** `Instrument.part_name(key)`: the numeral is appended first (an
      unset numeral raises inside the `try` and adds nothing), then,
      without `key`, everything from " in " on is cut. */
  function PartName(ins: Instrument, key: bool, titlecase: string -> string): string {
    var name := titlecase(LyInstruments.Spaced(ins.ly.name)) + Suffix(ins);
    if !key && Contains(name, " in ") then LyInstruments.SubIn(name) else name
  }

  /** With `key`, the name and its numeral are printed whole, as in the
      later version. */
  lemma PartNameKeyed(ins: Instrument, titlecase: string -> string)
    ensures PartName(ins, true, titlecase) == titlecase(LyInstruments.Spaced(ins.ly.name)) + Suffix(ins)
    ensures PartName(ins, true, titlecase) == LyInstruments.PartName(ins, true, titlecase)
  {
  }

  /** A name with no numeral is printed as by the later version. */
  lemma PartNameUnnumbered(ins: Instrument, key: bool, titlecase: string -> string)
    requires ins.ly.roman == ""
    ensures PartName(ins, key, titlecase) == LyInstruments.PartName(ins, key, titlecase)
  {
    var t := titlecase(LyInstruments.Spaced(ins.ly.name));
    assert t + Suffix(ins) == t;
  }

  /** When name and numeral hold no " in ", both versions print them
      whole. */
  lemma PartNameNoIn(ins: Instrument, key: bool, titlecase: string -> string)
    requires !Contains(titlecase(LyInstruments.Spaced(ins.ly.name)) + Suffix(ins), " in ")
    ensures PartName(ins, key, titlecase) == titlecase(LyInstruments.Spaced(ins.ly.name)) + Suffix(ins)
    ensures PartName(ins, key, titlecase) == LyInstruments.PartName(ins, key, titlecase)
  {
    var t := titlecase(LyInstruments.Spaced(ins.ly.name));
    if Contains(t, " in ") {
      ContainsGrow(t, Suffix(ins), " in ");
    }
  }

  /** A numbered instrument whose printed name holds " in " loses its
      numeral without `key` ("Clarinet in Bb" numbered 2 prints as
      "Clarinet"), where the later version keeps it ("Clarinet II"). */
  lemma PartNameLosesNumeral(ins: Instrument, titlecase: string -> string, a: string, b: string)
    requires titlecase(LyInstruments.Spaced(ins.ly.name)) == a + " in " + b
    requires '\n' !in b && '\n' !in ins.ly.roman
    requires !Contains(a + " in", " in ")
    ensures PartName(ins, false, titlecase) == a
    ensures LyInstruments.PartName(ins, false, titlecase) == a + Suffix(ins)
  {
    var tail := b + Suffix(ins);
    assert '\n' !in tail;
    assert a + " in " + b + Suffix(ins) == a + " in " + tail;
    LyInstruments.FirstInAfter(a, tail);
    ContainsSelfConcat(a, " in ", tail);
    LyInstruments.SubInFirst(a, tail);
    LyInstruments.PartNameCut(ins, titlecase, a, b);
  }

  // ---------------------------------------------------------------------
  // load_from_db

  /** A stored document as the model holds it: the name fields are
      strings and the number an int or `None`. */
  predicate Fits(d: Record) {
    forall k :: k in d && k in LyInstruments.Slots ==> LyInstruments.Assignable(k, d[k])
  }

  type Document = d: Record | Fits(d) witness map[]

  /** `load_name_from_table(name, db, tablename)`, which the legacy
      store module does not define: supplied by the caller. */
  type Lookup = (string, string) -> Result<Document>

  /** The legacy `setattr` loop: every stored attribute is assigned; the
      class has no slots, so a key that is not an attribute lands beside
      the compared fields and does no harm. */
  function Hydrated(ins: Instrument, data: Document): Instrument {
    LyInstruments.Assigned(ins, data, data.Keys * LyInstruments.Slots)
  }

  /** Each attribute named in the document takes the stored value; the
      others keep theirs. */
  lemma HydratedFields(ins: Instrument, data: Document)
    ensures forall k :: k in data && k in LyInstruments.ValueSlots ==> LyInstruments.Field(Hydrated(ins, data), k) == data[k]
    ensures forall k :: k in LyInstruments.ValueSlots && k !in data ==>
      LyInstruments.Field(Hydrated(ins, data), k) == LyInstruments.Field(ins, k)
  {
  }

  /** Where the slotted later class takes every key, both assign alike;
      a key that is not an attribute fails there and not here. */
  lemma HydratedVersusSlots(ins: Instrument, data: Document)
    ensures LyInstruments.AllAssignable(data) ==> LyInstruments.Hydrated(ins, data) == Ok(Hydrated(ins, data))
    ensures !LyInstruments.AllAssignable(data) ==> LyInstruments.Hydrated(ins, data).Err?
  {
    if LyInstruments.AllAssignable(data) {
      assert data.Keys * LyInstruments.Slots == data.Keys;
    }
  }

  /** `for key, val in data.items(): setattr(new_obj, key, val)`. */
  method SetAttrs(ins: Instrument, data: Document) returns (r: Instrument)
    ensures r == Hydrated(ins, data)
  {
    var cur := ins;
    var keys := data.Keys;
    while keys != {}
      invariant keys <= data.Keys
      invariant cur == LyInstruments.Assigned(ins, data, (data.Keys - keys) * LyInstruments.Slots)
      decreases |keys|
    {
      var k :| k in keys;
      var done := (data.Keys - keys) * LyInstruments.Slots;
      if k in LyInstruments.Slots {
        LyInstruments.AssignStep(ins, data, done, k);
        cur := LyInstruments.SetAttr(cur, k, data[k]);
        assert (data.Keys - (keys - {k})) * LyInstruments.Slots == done + {k};
      } else {
        assert (data.Keys - (keys - {k})) * LyInstruments.Slots == done;
      }
      keys := keys - {k};
    }
    assert data.Keys - keys == data.Keys;
    return cur;
  }

  /** The instrument built before the stored fields are assigned. */
  function Blank(n: string, number: Option<int>, words: NumWords): Result<Instrument> {
    if number.Some? then NumberedName(n, number.value, LyInstruments.Defaults, words)
    else Ok(NewInstrument(n, LyInstruments.Defaults))
  }

  /** `Instrument.load_from_db(name, db, number)` as a value. */
  function LoadSpec(name: string, lookup: Lookup, number: Option<int>, words: NumWords): Result<Instrument> {
    var n := LyNames.Normalize(name);
    var data :- lookup(n, "instruments");
    var obj :- Blank(n, number, words);
    Ok(Hydrated(obj, data))
  }

  /** `Instrument.load_from_db`: normalise, look up, build, assign. */
  method LoadInstrument(name: string, lookup: Lookup, number: Option<int>, words: NumWords) returns (r: Result<Instrument>)
    ensures r == LoadSpec(name, lookup, number, words)
  {
    var n := LyNames.Normalize(name);
    match lookup(n, "instruments")
    case Err(e) =>
      return Err(e);
    case Ok(data) =>
      var obj := Blank(n, number, words);
      if obj.Err? {
        return Err(obj.error);
      }
      var ins := SetAttrs(obj.value, data);
      return Ok(ins);
  }

  /** The lookup's failure passes unchanged; after a found record the
      load fails only for a number outside 1..89. */
  lemma LoadOutcome(name: string, lookup: Lookup, number: Option<int>, words: NumWords)
    ensures var n := LyNames.Normalize(name);
      lookup(n, "instruments").Err? ==> LoadSpec(name, lookup, number, words) == Err(lookup(n, "instruments").error)
    ensures var n := LyNames.Normalize(name);
      lookup(n, "instruments").Ok? ==>
        (LoadSpec(name, lookup, number, words).Ok? <==> (number.Some? ==> 1 <= number.value <= 89))
  {
  }

  /** A loaded instrument holds every stored attribute, and the
      normalised name and the number asked for unless others are
      stored. */
  lemma LoadFields(name: string, lookup: Lookup, number: Option<int>, words: NumWords, data: Document)
    requires lookup(LyNames.Normalize(name), "instruments") == Ok(data)
    requires LoadSpec(name, lookup, number, words).Ok?
    ensures var ins := LoadSpec(name, lookup, number, words).value;
      (forall k :: k in data && k in LyInstruments.ValueSlots ==> LyInstruments.Field(ins, k) == data[k])
      && ("name" !in data ==> ins.ly.name == LyNames.Normalize(LyNames.Normalize(name)))
      && ("number" !in data ==> ins.ly.number == number)
  {
    var n := LyNames.Normalize(name);
    var obj := Blank(n, number, words).value;
    assert LoadSpec(name, lookup, number, words) == Ok(Hydrated(obj, data));
    assert obj.ly.name == LyNames.Normalize(n) && obj.ly.number == number;
    HydratedFields(obj, data);
  }

  // ---------------------------------------------------------------------
  // Ensemble

  /** The instrument `add_instrument` builds: loaded when a store is
      given, numbered when a number is given, plain otherwise; the plain
      branch does not pass the transposition on. */
  function NewMember(insName: string, lookup: Option<Lookup>, number: Option<int>, opts: Options, words: NumWords): Result<Instrument> {
    if lookup.Some? then LoadSpec(insName, lookup.value, number, words)
    else if number.Some? then NumberedName(insName, number.value, opts, words)
    else Ok(NewInstrument(insName, opts.(transposition := VNone)))
  }

  /** Without a store, the numbered branch keeps the transposition and
      the plain branch drops it; the plain branch never fails. */
  lemma ManualTransposition(insName: string, k: int, opts: Options, words: NumWords)
    ensures NewMember(insName, None, None, opts, words) == Ok(NewInstrument(insName, opts).(transposition := VNone))
    ensures NewMember(insName, None, Some(k), opts, words).Ok? <==> 1 <= k <= 89
    ensures NewMember(insName, None, Some(k), opts, words).Ok? ==>
      NewMember(insName, None, Some(k), opts, words).value.transposition == opts.transposition
  {
  }

  /** One stored member entry: `Instrument.load_from_db(name=insdata["name"],
      db=db, number=insdata["number"])`. */
  function MemberLoad(insdata: Value, lookup: Lookup, words: NumWords): Result<Instrument> {
    match insdata
    case VMap(m) =>
      if "name" !in m then Err(KeyErr("name"))
      else if "number" !in m then Err(KeyErr("number"))
      else if !m["name"].VStr? then Err(AttributeErr("object has no attribute 'strip'"))
      else
        var s := m["name"].s;
        (match LyEnsembles.StoredNumber(m["number"])
         case Some(number) => LoadSpec(s, lookup, number, words)
         case None =>
           var _ :- lookup(LyNames.Normalize(s), "instruments");
           Err(TypeErr("'num' must be an int")))
    case VStr(_) => Err(TypeErr("string indices must be integers"))
    case VList(_) => Err(TypeErr("list indices must be integers or slices, not str"))
    case _ => Err(TypeErr("object is not subscriptable"))
  }

  function Loader(lookup: Lookup, words: NumWords): Value -> Result<Instrument> {
    e => MemberLoad(e, lookup, words)
  }

  /** The body of the `try` in `Ensemble.load_from_db`: the stored list,
      then every member in turn. */
  function TryMembers(data: Document, lookup: Lookup, words: NumWords): Result<seq<Instrument>> {
    if "instruments" !in data then Err(KeyErr("instruments"))
    else
      var xs :- LyEnsembles.Entries(data["instruments"]);
      LoadAll(xs, Loader(lookup, words))
  }

  /** What any failure inside that `try` becomes: the `except` clause
      names a class the legacy exception module does not define, and
      evaluating it raises. */
  const UndefinedHandler: Error := AttributeErr("module 'lyskel.exceptions' has no attribute 'DataNotFoundError'")

  /** `Ensemble.load_from_db(name, db)` as a value. */
  function LoadEnsemble(name: string, lookup: Lookup, words: NumWords): Result<seq<Instrument>> {
    var n := LyNames.Normalize(name);
    var data :- lookup(n, "ensembles");
    match TryMembers(data, lookup, words)
    case Ok(ms) => Ok(ms)
    case Err(_) => Err(UndefinedHandler)
  }

  /** A load either holds one member per stored entry, each loaded from
      its own entry, in order; or fails with the ensemble lookup's error
      or with the `AttributeError`, never with a partial list. */
  lemma LoadEnsembleOutcome(name: string, lookup: Lookup, words: NumWords, data: Document, xs: seq<Value>)
    requires lookup(LyNames.Normalize(name), "ensembles") == Ok(data)
    requires "instruments" in data && LyEnsembles.Entries(data["instruments"]) == Ok(xs)
    ensures var r := LoadEnsemble(name, lookup, words);
      (r.Ok? ==> |r.value| == |xs| && forall i :: 0 <= i < |xs| ==> MemberLoad(xs[i], lookup, words) == Ok(r.value[i]))
      && (r.Err? ==> r.error == UndefinedHandler && (exists k :: 0 <= k < |xs| && MemberLoad(xs[k], lookup, words).Err?))
  {
    var load := Loader(lookup, words);
    if LoadAll(xs, load).Ok? {
      LoadAllOrder(xs, load);
    } else {
      LoadAllFails(xs, load);
    }
  }

  /** A member the store lacks makes the legacy load fail with the
      `AttributeError`, not with `MissingInstrumentError`. */
  lemma MissingMemberAsWritten(name: string, lookup: Lookup, words: NumWords, data: Document, xs: seq<Value>, k: nat)
    requires lookup(LyNames.Normalize(name), "ensembles") == Ok(data)
    requires "instruments" in data && data["instruments"] == VList(xs)
    requires k < |xs| && forall j :: 0 <= j < k ==> MemberLoad(xs[j], lookup, words).Ok?
    requires MemberLoad(xs[k], lookup, words).Err? && MemberLoad(xs[k], lookup, words).error.DataNotFound?
    ensures LoadEnsemble(name, lookup, words) == Err(UndefinedHandler)
    ensures !LoadEnsemble(name, lookup, words).error.MissingInstrument?
  {
    LoadAllUpTo(xs, Loader(lookup, words), k);
  }

  /** A group of instruments; `instruments` is `None` until a member is
      added. */
  class Ensemble {
    var name: string
    var instruments: Option<seq<Instrument>>

    /** `Ensemble(name, instruments)`: the name is normalised. */
    constructor (name: string, instruments: Option<seq<Instrument>>)
      ensures this.name == LyNames.Normalize(name) && this.instruments == instruments
    {
      this.name := LyNames.Normalize(name);
      this.instruments := instruments;
    }

    function Members(): seq<Instrument>
      reads this
    {
      LyEnsembles.MembersOf(instruments)
    }

    /** `add_instrument`: the list is created if missing (even when the
        new member then fails to build), and the new member goes at the
        end. */
    method AddInstrument(insName: string, lookup: Option<Lookup>, number: Option<int>, opts: Options, words: NumWords)
      returns (r: Result<()>)
      modifies this
      ensures name == old(name)
      ensures var m := NewMember(insName, lookup, number, opts, words);
        (r.Ok? <==> m.Ok?) && (m.Err? ==> r == Err(m.error))
        && instruments == Some(old(Members()) + if m.Ok? then [m.value] else [])
    {
      if instruments.None? {
        instruments := Some([]);
      }
      var m: Result<Instrument>;
      if lookup.Some? {
        m := LoadInstrument(insName, lookup.value, number, words);
      } else if number.Some? {
        m := NumberedName(insName, number.value, opts, words);
      } else {
        m := Ok(NewInstrument(insName, opts.(transposition := VNone)));
      }
      assert instruments.value == old(Members());
      if m.Err? {
        assert instruments.value + [] == instruments.value;
        return Err(m.error);
      }
      instruments := Some(instruments.value + [m.value]);
      return Ok(());
    }

    /** `Ensemble.load_from_db`: either a new ensemble holding every
        stored member, or the error; never a partial ensemble. */
    static method LoadFromDb(name: string, lookup: Lookup, words: NumWords) returns (r: Result<Ensemble>)
      ensures var spec := LoadEnsemble(name, lookup, words);
        (r.Ok? <==> spec.Ok?) && (r.Err? ==> r.error == spec.error)
      ensures r.Ok? ==> (fresh(r.value) && r.value.name == LyNames.Normalize(name)
        && r.value.instruments == Some(LoadEnsemble(name, lookup, words).value))
    {
      var n := LyNames.Normalize(name);
      match lookup(n, "ensembles")
      case Err(e) =>
        return Err(e);
      case Ok(data) =>
        LyNames.NormalizeIdempotent(name);
        var ens := new Ensemble(n, Some([]));
        var loaded := ens.LoadMembers(data, lookup, words);
        ghost var spec := TryMembers(data, lookup, words);
        if loaded.Err? {
          return Err(UndefinedHandler);
        }
        assert [] + spec.value == spec.value;
        return Ok(ens);
    }

    /** The `try` block of `load_from_db`: the stored list is read, then
        each entry is loaded and appended in turn; the first failure ends
        it. */
    method LoadMembers(data: Document, lookup: Lookup, words: NumWords) returns (r: Result<()>)
      modifies this
      ensures name == old(name)
      ensures var spec := TryMembers(data, lookup, words);
        (r.Ok? <==> spec.Ok?) && (r.Err? ==> r.error == spec.error)
        && (r.Ok? ==> instruments == Some(old(Members()) + spec.value))
    {
      if "instruments" !in data {
        return Err(KeyErr("instruments"));
      }
      var entries := LyEnsembles.Entries(data["instruments"]);
      if entries.Err? {
        return Err(entries.error);
      }
      var xs := entries.value;
      ghost var load := Loader(lookup, words);
      var acc := Members();
      var i := 0;
      assert xs[i..] == xs;
      while i < |xs|
        invariant 0 <= i <= |xs|
        invariant name == old(name)
        invariant LyEnsembles.Prepended(old(Members()), LoadAll(xs, load))
          == LyEnsembles.Prepended(acc, LoadAll(xs[i..], load))
      {
        var ins := MemberLoad(xs[i], lookup, words);
        LyEnsembles.LoadAllStep(xs, i, load);
        if ins.Err? {
          return Err(ins.error);
        }
        LyEnsembles.PrependedStep(acc, ins.value, LoadAll(xs[i + 1..], load));
        acc := acc + [ins.value];
        i := i + 1;
      }
      assert xs[i..] == [];
      assert acc + [] == acc;
      instruments := Some(acc);
      return Ok(());
    }
  }
}
