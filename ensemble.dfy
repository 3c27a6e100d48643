/** Ensembles (lilyskel/lynames.py, `Ensemble`): a normalised name and an
    ordered list of instruments, grown one member at a time, loaded from
    the record store as a whole, and saved together with the members the
    store does not yet know. */
module LyEnsembles {
  import opened Outcomes
  import opened Text
  import opened Values
  import opened RecordStore
  import opened LyNames
  import opened LyInstruments

  /** The member list, `None` read as empty. */
  function MembersOf(instruments: Option<seq<Instrument>>): seq<Instrument> {
    match instruments
    case None => []
    case Some(xs) => xs
  }

  /** The instrument `add_instrument` builds: loaded from the store when
      one is given, numbered when a number is given, plain otherwise. The
      plain branch does not pass the transposition on. */
  function NewMember(insName: string, store: Option<Store>, number: Option<int>, opts: Options, words: NumWords): Result<Instrument> {
    if store.Some? then LoadSpec(insName, store.value, number, words)
    else if number.Some? then NumberedName(insName, number.value, opts, words)
    else NewInstrument(insName, opts.(transposition := VNone))
  }

  /** Without a store or a number the transposition is dropped; the rest
      is the constructor's. */
  lemma ManualDropsTransposition(insName: string, opts: Options, words: NumWords)
    ensures NewMember(insName, None, None, opts, words).Ok? <==> ClefOk(opts.clef)
    ensures NewMember(insName, None, None, opts, words).Ok? ==>
      NewMember(insName, None, None, opts, words).value.transposition == VNone
      && NewMember(insName, None, None, opts, words).value == NewInstrument(insName, opts).value.(transposition := VNone)
  {
  }

  /** With a number and no store the transposition is kept. */
  lemma NumberedKeepsTransposition(insName: string, k: int, opts: Options, words: NumWords)
    ensures NewMember(insName, None, Some(k), opts, words).Ok? <==> ClefOk(opts.clef) && 1 <= k <= 89
    ensures NewMember(insName, None, Some(k), opts, words).Ok? ==>
      NewMember(insName, None, Some(k), opts, words).value.transposition == opts.transposition
  {
  }

  /** With a store, a name it does not hold is `DataNotFoundError`,
      whatever the other arguments. */
  lemma StoredMemberMissing(insName: string, store: Store, number: Option<int>, opts: Options, words: NumWords)
    requires forall rec :: rec in TableOf(store, "instruments") ==> !Named(rec, Normalize(insName))
    ensures NewMember(insName, Some(store), number, opts, words) == Err(NotInTable(Normalize(insName), "instruments"))
  {
    LoadMissing(insName, store, number, words);
  }

  // ---------------------------------------------------------------------
  // load_from_db, as values

  /** The number stored for a member: `None`, an int, or (`None` here)
      something `numbered_name` cannot take. */
  function StoredNumber(v: Value): Option<Option<int>> {
    match v
    case VNone => Some(None)
    case VInt(k) => Some(Some(k))
    case _ => None
  }

  /** `Instrument.load_from_db(name=insdata["name"], db=db,
      number=insdata["number"])` for one entry of the stored list. */
  function MemberLoad(insdata: Value, store: Store, words: NumWords): Result<Instrument> {
    match insdata
    case VMap(m) =>
      if "name" !in m then Err(KeyErr("name"))
      else if "number" !in m then Err(KeyErr("number"))
      else if !m["name"].VStr? then Err(AttributeErr("object has no attribute 'strip'"))
      else
        var s := m["name"].s;
        (match StoredNumber(m["number"])
         case Some(number) => LoadSpec(s, store, number, words)
         case None =>
           var _ :- LoadNameFromTable(Normalize(s), store, "instruments");
           Err(TypeErr("'num' must be an int")))
    case VStr(_) => Err(TypeErr("string indices must be integers"))
    case VList(_) => Err(TypeErr("list indices must be integers or slices, not str"))
    case _ => Err(TypeErr("object is not subscriptable"))
  }

  /** The entries `for insdata in data["instruments"]` visits. A string
      or a dictionary yields strings, on which the first subscript fails;
      a scalar is not iterable. */
  function Entries(v: Value): Result<seq<Value>> {
    match v
    case VList(xs) => Ok(xs)
    case VStr(s) => if s == [] then Ok([]) else Err(TypeErr("string indices must be integers"))
    case VMap(m) => if m == map[] then Ok([]) else Err(TypeErr("string indices must be integers"))
    case _ => Err(TypeErr("object is not iterable"))
  }

  /** `MemberLoad` on one store, as the function the loop applies. */
  function Loader(store: Store, words: NumWords): Value -> Result<Instrument> {
    e => MemberLoad(e, store, words)
  }

  /** `str(err)` of a `KeyError`, which is `repr` of its message: the
      message in double quotes. This is `repr` only for a message that
      holds a `'` and neither a `"` nor a backslash, as the lookup's
      "'<name>' is not in the '<table>' table." does when the name and
      table hold neither; `repr` of other messages (other quotes,
      escapes) is not modelled. */
  function Quoted(msg: string): string {
    "\"" + msg + "\""
  }

  function MissingMember(ensName: string, e: Error): Error {
    MissingInstrument("An instrument specified for " + ensName + " was not found in the "
      + "database. This is not allowed. Details follow: " + Quoted(e.msg))
  }

  /** The `except DataNotFoundError` clause: only a missing member is
      turned into `MissingInstrumentError`; other errors pass. */
  function Wrap(ensName: string, e: Error): (r: Error)
    ensures !r.DataNotFound?
    ensures !e.DataNotFound? ==> r == e
  {
    if e.DataNotFound? then MissingMember(ensName, e) else e
  }

  /** The entries of the ensemble record named `n`: the lookup fails
      with `DataNotFoundError`, a record without the list with
      `KeyError`, a list that cannot be walked with `TypeError`. */
  function EnsembleEntries(n: string, store: Store): (r: Result<seq<Value>>)
    ensures r.Err? && r.error.DataNotFound? ==> r.error == NotInTable(n, "ensembles")
    ensures r.Ok? <==> (LoadNameFromTable(n, store, "ensembles").Ok?
      && "instruments" in LoadNameFromTable(n, store, "ensembles").value
      && Entries(LoadNameFromTable(n, store, "ensembles").value["instruments"]).Ok?)
  {
    var data :- LoadNameFromTable(n, store, "ensembles");
    if "instruments" !in data then Err(KeyErr("instruments"))
    else Entries(data["instruments"])
  }

  /** `Ensemble.load_from_db(name, db)` as a value: the members of the
      ensemble named `normalize_name(name)`, or the error that stops it. */
  function LoadEnsemble(name: string, store: Store, words: NumWords): Result<seq<Instrument>> {
    var n := Normalize(name);
    var xs :- EnsembleEntries(n, store);
    match LoadAll(xs, Loader(store, words))
    case Ok(ms) => Ok(ms)
    case Err(e) => Err(Wrap(n, e))
  }

  /** A `DataNotFoundError` out of the load can only mean that the
      ensemble itself is missing: a missing member is reported as
      `MissingInstrumentError`. */
  lemma LoadEnsembleNotFound(name: string, store: Store, words: NumWords)
    ensures var r := LoadEnsemble(name, store, words);
      r.Err? && r.error.DataNotFound? ==> r.error == NotInTable(Normalize(name), "ensembles")
  {
  }

  /** A successful load holds one member per stored entry, each loaded
      from its own entry, in stored order. */
  lemma LoadEnsembleOrder(name: string, store: Store, words: NumWords, xs: seq<Value>)
    requires EnsembleEntries(Normalize(name), store) == Ok(xs)
    requires LoadEnsemble(name, store, words).Ok?
    ensures |LoadEnsemble(name, store, words).value| == |xs|
    ensures forall i :: 0 <= i < |xs| ==> MemberLoad(xs[i], store, words) == Ok(LoadEnsemble(name, store, words).value[i])
  {
    LoadAllOrder(xs, Loader(store, words));
  }

  /** A member the store lacks makes the whole load fail with
      `MissingInstrumentError` naming the ensemble. */
  lemma LoadEnsembleMissing(name: string, store: Store, words: NumWords, xs: seq<Value>, k: nat)
    requires EnsembleEntries(Normalize(name), store) == Ok(xs)
    requires k < |xs| && forall j :: 0 <= j < k ==> MemberLoad(xs[j], store, words).Ok?
    requires MemberLoad(xs[k], store, words).Err? && MemberLoad(xs[k], store, words).error.DataNotFound?
    ensures LoadEnsemble(name, store, words) == Err(MissingMember(Normalize(name), MemberLoad(xs[k], store, words).error))
  {
    LoadAllUpTo(xs, Loader(store, words), k);
  }

  // ---------------------------------------------------------------------
  // add_to_db, as values

  /** The `{name, number}` entry the ensemble record keeps per member. */
  function MemberRef(ins: Instrument): Value {
    VMap(map["name" := VStr(ins.ly.name), "number" := NumberValue(ins.ly.number)])
  }

  function Refs(ms: seq<Instrument>): seq<Value> {
    seq(|ms|, i requires 0 <= i < |ms| => MemberRef(ms[i]))
  }

  lemma RefsSnoc(ms: seq<Instrument>, i: nat)
    requires i < |ms|
    ensures Refs(ms[..i + 1]) == Refs(ms[..i]) + [MemberRef(ms[i])]
  {
    assert ms[..i + 1][i] == ms[i];
  }

  /** The ensemble record: its name and its members' entries in order. */
  function EnsembleRecord(ensName: string, ms: seq<Instrument>): Record {
    map["name" := VStr(ensName), "instruments" := VList(Refs(ms))]
  }

  /** The member loop of `add_to_db`: a member is inserted when no stored
      instrument name contains its name; the search fails on a stored
      name `in` cannot search. The store reached so far is kept on
      failure. */
  function SaveMembers(ms: seq<Instrument>, store: Store): (Store, Result<()>)
    decreases |ms|
  {
    if ms == [] then (store, Ok(()))
    else match Found(TableOf(store, "instruments"), Where("name", ms[0].ly.name))
      case Err(e) => (store, Err(e))
      case Ok(found) =>
        SaveMembers(ms[1..], if Names(found) == [] then Appended(store, "instruments", ToRecord(ms[0])) else store)
  }

  /** One turn of the member loop, from member `i` on. */
  lemma SaveMembersStep(ms: seq<Instrument>, i: nat, store: Store)
    requires i < |ms|
    ensures var found := Found(TableOf(store, "instruments"), Where("name", ms[i].ly.name));
      SaveMembers(ms[i..], store) ==
        if found.Err? then (store, Err(found.error))
        else SaveMembers(ms[i + 1..], if Names(found.value) == [] then Appended(store, "instruments", ToRecord(ms[i])) else store)
  {
    assert ms[i..][0] == ms[i] && ms[i..][1..] == ms[i + 1..];
  }

  /** `Ensemble.add_to_db` as written: the member loop, then one ensemble
      record. */
  function SaveEnsemble(ensName: string, ms: seq<Instrument>, store: Store): (Store, Result<()>) {
    var (s, res) := SaveMembers(ms, store);
    if res.Err? then (s, res) else (Appended(s, "ensembles", EnsembleRecord(ensName, ms)), Ok(()))
  }

  /** Loading the record's entries loads each member by its own name and
      number. */
  lemma MemberRefLoads(ins: Instrument, store: Store, words: NumWords)
    ensures MemberLoad(MemberRef(ins), store, words) == LoadSpec(ins.ly.name, store, ins.ly.number, words)
  {
    var m := map["name" := VStr(ins.ly.name), "number" := NumberValue(ins.ly.number)];
    assert StoredNumber(m["number"]) == Some(ins.ly.number);
  }

  /** The ensemble record names the ensemble and lists every member's
      name and number, in member order. */
  lemma EnsembleRecordLists(ensName: string, ms: seq<Instrument>)
    ensures Named(EnsembleRecord(ensName, ms), ensName)
    ensures Entries(EnsembleRecord(ensName, ms)["instruments"]) == Ok(Refs(ms))
    ensures |Refs(ms)| == |ms|
    ensures forall i :: 0 <= i < |ms| ==> Refs(ms)[i] == MemberRef(ms[i])
    ensures forall i :: 0 <= i < |ms| ==> Refs(ms)[i].m["name"] == VStr(ms[i].ly.name)
    ensures forall i :: 0 <= i < |ms| ==> Refs(ms)[i].m["number"] == NumberValue(ms[i].ly.number)
  {
  }

  /** On success the ensembles table gains exactly the ensemble record;
      a failure inserts no ensemble record. */
  lemma SaveEnsembleRecord(ensName: string, ms: seq<Instrument>, store: Store)
    ensures var (s, res) := SaveEnsemble(ensName, ms, store);
      res.Ok? ==> TableOf(s, "ensembles") == TableOf(store, "ensembles") + [EnsembleRecord(ensName, ms)]
    ensures var (s, res) := SaveEnsemble(ensName, ms, store);
      res.Err? ==> TableOf(s, "ensembles") == TableOf(store, "ensembles")
  {
    SaveMembersTables(ms, store);
  }

  /** The member loop only ever appends to the instruments table. */
  lemma {:induction false} SaveMembersTables(ms: seq<Instrument>, store: Store)
    ensures forall t :: t != "instruments" ==> TableOf(SaveMembers(ms, store).0, t) == TableOf(store, t)
    ensures TableOf(store, "instruments") <= TableOf(SaveMembers(ms, store).0, "instruments")
    decreases |ms|
  {
    if ms != [] {
      var f := Found(TableOf(store, "instruments"), Where("name", ms[0].ly.name));
      if f.Ok? {
        var s1 := if Names(f.value) == [] then Appended(store, "instruments", ToRecord(ms[0])) else store;
        SaveMembersTables(ms[1..], s1);
      }
    }
  }

  /** With every stored name a string, a member is inserted exactly when
      no stored name contains its name. */
  lemma SaveStep(ms: seq<Instrument>, store: Store)
    requires ms != []
    requires var t := TableOf(store, "instruments");
      forall k :: 0 <= k < |t| ==> "name" in t[k] && t[k]["name"].VStr?
    ensures var t := TableOf(store, "instruments");
      SaveMembers(ms, store) == SaveMembers(ms[1..],
        if exists rec: Record :: rec in t && Contains(rec["name"].s, ms[0].ly.name) then store
        else Appended(store, "instruments", ToRecord(ms[0])))
  {
    var t := TableOf(store, "instruments");
    var name := ms[0].ly.name;
    SelectSubstring(t, "name", name);
    var found := Select(t, "name", name).value;
    NamesMembers(found, VStr(name));
    if found != [] {
      assert found[0] in found;
      assert Names(found) != [];
    } else {
      assert Names(found) == [];
    }
  }

  // ---------------------------------------------------------------------
  // The substring check of add_to_db

  /** As written, a member whose name is only part of a stored name (a
      "horn" beside a stored "english_horn") is taken to be stored and is
      not inserted, while the ensemble record still lists it: the saved
      ensemble cannot be loaded back. */
  lemma SaveSkipsContained(ensName: string, ins: Instrument, store: Store, words: NumWords)
    requires IsNormal(ensName) && IsNormal(ins.ly.name)
    requires forall rec :: rec in TableOf(store, "ensembles") ==> !Named(rec, ensName)
    requires var t := TableOf(store, "instruments");
      forall k :: 0 <= k < |t| ==> "name" in t[k] && t[k]["name"].VStr?
    requires exists rec: Record :: rec in TableOf(store, "instruments") && Contains(rec["name"].s, ins.ly.name)
    requires forall rec :: rec in TableOf(store, "instruments") ==> !Named(rec, ins.ly.name)
    ensures SaveEnsemble(ensName, [ins], store).1 == Ok(())
    ensures LoadEnsemble(ensName, SaveEnsemble(ensName, [ins], store).0, words)
      == Err(MissingMember(ensName, NotInTable(ins.ly.name, "instruments")))
  {
    SkippedMemberStays(ins, store);
    var rec := EnsembleRecord(ensName, [ins]);
    var s := Appended(store, "ensembles", rec);
    assert SaveEnsemble(ensName, [ins], store) == (s, Ok(()));
    SkippedMemberMissing(ensName, ins, store, words);
  }

  /** The member loop on a member whose name a stored name contains
      inserts nothing. */
  lemma SkippedMemberStays(ins: Instrument, store: Store)
    requires var t := TableOf(store, "instruments");
      forall k :: 0 <= k < |t| ==> "name" in t[k] && t[k]["name"].VStr?
    requires exists rec: Record :: rec in TableOf(store, "instruments") && Contains(rec["name"].s, ins.ly.name)
    ensures SaveMembers([ins], store) == (store, Ok(()))
  {
    SaveStep([ins], store);
  }

  /** The ensemble record added over a store without the member: loading
      it fails on the member. */
  lemma SkippedMemberMissing(ensName: string, ins: Instrument, store: Store, words: NumWords)
    requires IsNormal(ensName) && IsNormal(ins.ly.name)
    requires forall rec :: rec in TableOf(store, "ensembles") ==> !Named(rec, ensName)
    requires forall rec :: rec in TableOf(store, "instruments") ==> !Named(rec, ins.ly.name)
    ensures LoadEnsemble(ensName, Appended(store, "ensembles", EnsembleRecord(ensName, [ins])), words)
      == Err(MissingMember(ensName, NotInTable(ins.ly.name, "instruments")))
  {
    var rec := EnsembleRecord(ensName, [ins]);
    var s := Appended(store, "ensembles", rec);
    EnsembleRecordLists(ensName, [ins]);
    LoadAfterInsert(store, "ensembles", ensName, rec);
    NormalFixed(ensName);
    assert EnsembleEntries(ensName, s) == Ok(Refs([ins]));
    MemberRefLoads(ins, s, words);
    NormalFixed(ins.ly.name);
    LoadMissing(ins.ly.name, s, ins.ly.number, words);
    LoadEnsembleMissing(ensName, s, words, Refs([ins]), 0);
  }

  /** The concrete case: saving an ensemble with a horn into a store that
      knows only the english horn. */
  lemma HornBesideEnglishHorn(ins: Instrument, words: NumWords)
    requires ins.ly.name == "horn"
    ensures var store := map["instruments" := [map["name" := VStr("english_horn")]]];
      LoadEnsemble("brass", SaveEnsemble("brass", [ins], store).0, words)
        == Err(MissingMember("brass", NotInTable("horn", "instruments")))
  {
    var eh: Record := map["name" := VStr("english_horn")];
    var store := map["instruments" := [eh]];
    HornInEnglishHorn();
    assert TableOf(store, "instruments") == [eh];
    assert eh in TableOf(store, "instruments");
    SaveSkipsContained("brass", ins, store, words);
  }

  lemma HornInEnglishHorn()
    ensures Contains("english_horn", "horn")
    ensures IsNormal("brass") && IsNormal("horn")
  {
    assert "english_horn"[8..12] == "horn";
    ContainsAt("english_horn", "horn", 8);
  }

  /** The member loop with the exact check `load_name_from_table` makes:
      a member is inserted exactly when no stored record has its name. */
  function SaveMembersExact(ms: seq<Instrument>, store: Store): Store
    decreases |ms|
  {
    if ms == [] then store
    else SaveMembersExact(ms[1..],
      if LoadNameFromTable(ms[0].ly.name, store, "instruments").Err?
      then Appended(store, "instruments", ToRecord(ms[0])) else store)
  }

  /** `add_to_db` with the exact check; it cannot fail. */
  function SaveEnsembleExact(ensName: string, ms: seq<Instrument>, store: Store): Store {
    Appended(SaveMembersExact(ms, store), "ensembles", EnsembleRecord(ensName, ms))
  }

  /** Every name of `all` the store holds is held as that member's own
      record. */
  predicate Agrees(all: seq<Instrument>, store: Store) {
    forall i :: 0 <= i < |all| && LoadNameFromTable(all[i].ly.name, store, "instruments").Ok? ==>
      LoadNameFromTable(all[i].ly.name, store, "instruments").value == ToRecord(all[i])
  }

  /** Members sharing a name share a record. */
  predicate Consistent(all: seq<Instrument>) {
    forall i, j :: 0 <= i < |all| && 0 <= j < |all| && all[i].ly.name == all[j].ly.name ==>
      ToRecord(all[i]) == ToRecord(all[j])
  }

  /** One step of the exact loop keeps the store agreeing, keeps every
      name it held and holds the member's name afterwards. */
  lemma SaveExactStep(all: seq<Instrument>, x: Instrument, store: Store)
    requires Agrees(all, store) && Consistent(all) && x in all
    ensures var s1 := if LoadNameFromTable(x.ly.name, store, "instruments").Err?
      then Appended(store, "instruments", ToRecord(x)) else store;
      Agrees(all, s1)
      && LoadNameFromTable(x.ly.name, s1, "instruments").Ok?
      && (forall i :: 0 <= i < |all| && LoadNameFromTable(all[i].ly.name, store, "instruments").Ok? ==>
            LoadNameFromTable(all[i].ly.name, s1, "instruments").Ok?)
      && (forall t :: t != "instruments" ==> TableOf(s1, t) == TableOf(store, t))
  {
    if LoadNameFromTable(x.ly.name, store, "instruments").Err? {
      var s1 := Appended(store, "instruments", ToRecord(x));
      LoadNameFirst(x.ly.name, store, "instruments");
      LoadAfterInsert(store, "instruments", x.ly.name, ToRecord(x));
      forall i | 0 <= i < |all|
        ensures LoadNameFromTable(all[i].ly.name, store, "instruments").Ok? ==>
          LoadNameFromTable(all[i].ly.name, s1, "instruments") == LoadNameFromTable(all[i].ly.name, store, "instruments")
        ensures LoadNameFromTable(all[i].ly.name, s1, "instruments").Ok? ==>
          LoadNameFromTable(all[i].ly.name, s1, "instruments").value == ToRecord(all[i])
      {
        var n := all[i].ly.name;
        if LoadNameFromTable(n, store, "instruments").Ok? {
          LoadKeepsFirst(store, "instruments", n, ToRecord(x));
        } else if n == x.ly.name {
          var j :| 0 <= j < |all| && all[j] == x;
        } else {
          LoadAppendOther(store, "instruments", n, ToRecord(x));
        }
      }
    }
  }

  /** The exact loop leaves the store agreeing with the members, holding
      every member's name, and the other tables as they were. */
  lemma {:induction false} SaveExactAgrees(all: seq<Instrument>, ms: seq<Instrument>, store: Store)
    requires Agrees(all, store) && Consistent(all)
    requires forall i :: 0 <= i < |ms| ==> ms[i] in all
    ensures Agrees(all, SaveMembersExact(ms, store))
    ensures forall i :: 0 <= i < |all| && LoadNameFromTable(all[i].ly.name, store, "instruments").Ok? ==>
      LoadNameFromTable(all[i].ly.name, SaveMembersExact(ms, store), "instruments").Ok?
    ensures forall i :: 0 <= i < |ms| ==> LoadNameFromTable(ms[i].ly.name, SaveMembersExact(ms, store), "instruments").Ok?
    ensures forall t :: t != "instruments" ==> TableOf(SaveMembersExact(ms, store), t) == TableOf(store, t)
    decreases |ms|
  {
    if ms != [] {
      var x := ms[0];
      var s1 := if LoadNameFromTable(x.ly.name, store, "instruments").Err?
        then Appended(store, "instruments", ToRecord(x)) else store;
      SaveExactStep(all, x, store);
      var rest := ms[1..];
      forall i | 0 <= i < |rest|
        ensures rest[i] in all
      {
        assert rest[i] == ms[i + 1];
      }
      SaveExactAgrees(all, rest, s1);
      var s := SaveMembersExact(rest, s1);
      assert SaveMembersExact(ms, store) == s;
      forall i | 0 <= i < |ms|
        ensures LoadNameFromTable(ms[i].ly.name, s, "instruments").Ok?
      {
        if i == 0 {
          var j :| 0 <= j < |all| && all[j] == x;
          assert LoadNameFromTable(all[j].ly.name, s1, "instruments").Ok?;
        } else {
          assert ms[i] == rest[i - 1];
        }
      }
    }
  }

  /** With the exact check, a saved ensemble loads back as the same
      members in the same order, provided its name is new, its members'
      names are normal, their numbers are set as `numbered_name` sets
      them, and the store holds no other record under a member's name. */
  lemma SaveExactThenLoad(ensName: string, ms: seq<Instrument>, store: Store, words: NumWords)
    requires IsNormal(ensName)
    requires forall rec :: rec in TableOf(store, "ensembles") ==> !Named(rec, ensName)
    requires forall i :: 0 <= i < |ms| ==> IsNormal(ms[i].ly.name) && WellNumbered(ms[i], words)
    requires Agrees(ms, store) && Consistent(ms)
    ensures LoadEnsemble(ensName, SaveEnsembleExact(ensName, ms, store), words) == Ok(ms)
  {
    var s := SaveMembersExact(ms, store);
    SaveExactAgrees(ms, ms, store);
    var rec := EnsembleRecord(ensName, ms);
    var s2 := Appended(s, "ensembles", rec);
    EnsembleRecordLists(ensName, ms);
    LoadAfterInsert(s, "ensembles", ensName, rec);
    NormalFixed(ensName);
    assert EnsembleEntries(ensName, s2) == Ok(Refs(ms));
    forall i | 0 <= i < |ms|
      ensures Loader(s2, words)(Refs(ms)[i]) == Ok(ms[i])
    {
      SavedMemberLoads(ms[i], s, rec, words);
    }
    LoadAllEach(Refs(ms), Loader(s2, words), ms);
  }

  /** A member stored as its own record loads back from its reference
      once the ensemble record is added. */
  lemma SavedMemberLoads(ins: Instrument, s: Store, rec: Record, words: NumWords)
    requires IsNormal(ins.ly.name) && WellNumbered(ins, words)
    requires LoadNameFromTable(ins.ly.name, s, "instruments") == Ok(ToRecord(ins))
    ensures Loader(Appended(s, "ensembles", rec), words)(MemberRef(ins)) == Ok(ins)
  {
    var s2 := Appended(s, "ensembles", rec);
    assert TableOf(s2, "instruments") == TableOf(s, "instruments");
    assert LoadNameFromTable(ins.ly.name, s2, "instruments") == Ok(ToRecord(ins));
    MemberRefLoads(ins, s2, words);
    LoadStored(ins, s2, words);
  }

  // ---------------------------------------------------------------------
  // The class

  /** A group of instruments. `instruments` is `None` until a member is
      added. */
  class Ensemble {
    var name: string
    var instruments: Option<seq<Instrument>>

    /** `Ensemble(name, instruments)`: the name is normalised. */
    constructor (name: string, instruments: Option<seq<Instrument>>)
      ensures this.name == Normalize(name) && this.instruments == instruments
    {
      this.name := Normalize(name);
      this.instruments := instruments;
    }

    function Members(): seq<Instrument>
      reads this
    {
      MembersOf(instruments)
    }

    /** `add_instrument`: the list is created if missing (even when the
        new member then fails to build), and the new member goes at the
        end. */
    method AddInstrument(insName: string, db: Option<Database>, number: Option<int>, opts: Options, words: NumWords)
      returns (r: Result<()>)
      modifies this
      ensures name == old(name)
      ensures var m := NewMember(insName, if db.Some? then Some(db.value.tables) else None, number, opts, words);
        (r.Ok? <==> m.Ok?) && (m.Err? ==> r == Err(m.error))
        && instruments == Some(old(Members()) + if m.Ok? then [m.value] else [])
    {
      if instruments.None? {
        instruments := Some([]);
      }
      var m: Result<Instrument>;
      if db.Some? {
        m := LyInstruments.LoadFromDb(insName, db.value, number, words);
      } else if number.Some? {
        m := NumberedName(insName, number.value, opts, words);
      } else {
        m := NewInstrument(insName, opts.(transposition := VNone));
      }
      assert instruments.value == old(Members());
      if m.Err? {
        assert instruments.value + [] == instruments.value;
        return Err(m.error);
      }
      instruments := Some(instruments.value + [m.value]);
      return Ok(());
    }

    /** `add_instrument_from_obj`: anything but an instrument is refused
        with `TypeError`, after the list is created. */
    method AddInstrumentFromObj(ins: Arg<Instrument>) returns (r: Result<()>)
      modifies this
      ensures name == old(name)
      ensures ins.Foreign? ==> (r == Err(TypeErr("'instrument' must be of type 'Instrument'"))
        && instruments == Some(old(Members())))
      ensures ins.Expected? ==> r == Ok(()) && instruments == Some(old(Members()) + [ins.value])
    {
      if instruments.None? {
        instruments := Some([]);
      }
      if ins.Foreign? {
        return Err(TypeErr("'instrument' must be of type 'Instrument'"));
      }
      instruments := Some(instruments.value + [ins.value]);
      return Ok(());
    }

    /** `Ensemble.load_from_db`: either a new ensemble holding every
        stored member, or the error; never a partial ensemble. */
    static method LoadFromDb(name: string, db: Database, words: NumWords) returns (r: Result<Ensemble>)
      ensures var spec := LoadEnsemble(name, db.tables, words);
        (r.Ok? <==> spec.Ok?) && (r.Err? ==> spec.Err? && r.error == spec.error)
      ensures r.Ok? ==> (fresh(r.value) && r.value.name == Normalize(name)
        && r.value.instruments == Some(LoadEnsemble(name, db.tables, words).value))
    {
      var n := Normalize(name);
      var entries := EnsembleEntries(n, db.tables);
      if entries.Err? {
        return Err(entries.error);
      }
      var xs := entries.value;
      NormalizeIdempotent(name);
      var ens := new Ensemble(n, Some([]));
      var loaded := ens.LoadMembers(xs, db, words);
      ghost var spec := LoadAll(xs, Loader(db.tables, words));
      if loaded.Err? {
        return Err(Wrap(n, loaded.error));
      }
      assert [] + spec.value == spec.value;
      return Ok(ens);
    }

    /** The loop of `load_from_db`: each entry is loaded and appended in
        turn; the first failure ends it. */
    method LoadMembers(xs: seq<Value>, db: Database, words: NumWords) returns (r: Result<()>)
      modifies this
      ensures name == old(name)
      ensures var spec := LoadAll(xs, Loader(db.tables, words));
        (r.Ok? <==> spec.Ok?) && (r.Err? ==> r.error == spec.error)
        && (r.Ok? ==> instruments == Some(old(Members()) + spec.value))
    {
      ghost var load := Loader(db.tables, words);
      var acc := Members();
      var i := 0;
      assert xs[i..] == xs;
      while i < |xs|
        invariant 0 <= i <= |xs|
        invariant name == old(name)
        invariant Prepended(old(Members()), LoadAll(xs, load)) == Prepended(acc, LoadAll(xs[i..], load))
      {
        var ins := LoadEntry(xs[i], db, words);
        LoadAllStep(xs, i, load);
        if ins.Err? {
          return Err(ins.error);
        }
        PrependedStep(acc, ins.value, LoadAll(xs[i + 1..], load));
        acc := acc + [ins.value];
        i := i + 1;
      }
      assert xs[i..] == [];
      assert acc + [] == acc;
      instruments := Some(acc);
      return Ok(());
    }

    /** `Ensemble.add_to_db`: each member no stored instrument name
        contains is inserted, then the ensemble record listing every
        member's name and number. The search reads the table as it grows.
        A failing search ends the method with the inserts made so far. */
    method AddToDb(db: Database) returns (r: Result<()>)
      modifies db
      ensures instruments.None? ==> r == Err(TypeErr("'NoneType' object is not iterable")) && db.tables == old(db.tables)
      ensures instruments.Some? ==> (db.tables, r) == SaveEnsemble(name, instruments.value, old(db.tables))
    {
      if instruments.None? {
        return Err(TypeErr("'NoneType' object is not iterable"));
      }
      var ms := instruments.value;
      var refs: seq<Value> := [];
      var i := 0;
      assert ms[i..] == ms;
      while i < |ms|
        invariant 0 <= i <= |ms|
        invariant SaveMembers(ms, old(db.tables)) == SaveMembers(ms[i..], db.tables)
        invariant refs == Refs(ms[..i])
      {
        SaveMembersStep(ms, i, db.tables);
        var saved := SaveMember(ms[i], db);
        if saved.Err? {
          return saved;
        }
        RefsSnoc(ms, i);
        refs := refs + [MemberRef(ms[i])];
        i := i + 1;
      }
      assert ms[..i] == ms;
      db.Insert("ensembles", map["name" := VStr(name), "instruments" := VList(refs)]);
      return Ok(());
    }
  }

  /** One turn of the member loop of `add_to_db`: the member is inserted
      when the search for its name finds nothing. */
  method SaveMember(ins: Instrument, db: Database) returns (r: Result<()>)
    modifies db
    ensures var found := Found(TableOf(old(db.tables), "instruments"), Where("name", ins.ly.name));
      (r.Err? <==> found.Err?) && (found.Err? ==> r.error == found.error && db.tables == old(db.tables))
      && (found.Ok? ==> db.tables == if Names(found.value) == [] then Appended(old(db.tables), "instruments", ToRecord(ins)) else old(db.tables))
  {
    var hits := ExploreTable(db.Table("instruments"), Where("name", ins.ly.name));
    if hits.Err? {
      return Err(hits.error);
    }
    if hits.value == [] {
      LyInstruments.AddToDb(ins, db);
    }
    return Ok(());
  }

  /** One turn of the loading loop: `Instrument.load_from_db` on the
      entry's name and number. */
  method LoadEntry(insdata: Value, db: Database, words: NumWords) returns (r: Result<Instrument>)
    ensures r == MemberLoad(insdata, db.tables, words)
  {
    if !insdata.VMap? {
      return match insdata
        case VStr(_) => Err(TypeErr("string indices must be integers"))
        case VList(_) => Err(TypeErr("list indices must be integers or slices, not str"))
        case _ => Err(TypeErr("object is not subscriptable"));
    }
    var m := insdata.m;
    if "name" !in m {
      return Err(KeyErr("name"));
    }
    if "number" !in m {
      return Err(KeyErr("number"));
    }
    if !m["name"].VStr? {
      return Err(AttributeErr("object has no attribute 'strip'"));
    }
    var number := StoredNumber(m["number"]);
    if number.Some? {
      r := LyInstruments.LoadFromDb(m["name"].s, db, number.value, words);
    } else {
      var data := LoadNameFromTable(Normalize(m["name"].s), db.tables, "instruments");
      if data.Err? {
        return Err(data.error);
      }
      return Err(TypeErr("'num' must be an int"));
    }
  }

  /** One turn of the loop: the entry at `i` is loaded, then the rest. */
  lemma LoadAllStep(xs: seq<Value>, i: nat, load: Value -> Result<Instrument>)
    requires i < |xs|
    ensures load(xs[i]).Err? ==> LoadAll(xs[i..], load) == Err(load(xs[i]).error)
    ensures load(xs[i]).Ok? ==> LoadAll(xs[i..], load) == Prepended([load(xs[i]).value], LoadAll(xs[i + 1..], load))
  {
    assert xs[i..][0] == xs[i];
    assert xs[i..][1..] == xs[i + 1..];
  }

  lemma PrependedStep(acc: seq<Instrument>, x: Instrument, r: Result<seq<Instrument>>)
    ensures Prepended(acc, Prepended([x], r)) == Prepended(acc + [x], r)
  {
    if r.Ok? {
      assert acc + ([x] + r.value) == acc + [x] + r.value;
    }
  }

  function Prepended(acc: seq<Instrument>, r: Result<seq<Instrument>>): Result<seq<Instrument>> {
    match r
    case Ok(ms) => Ok(acc + ms)
    case Err(e) => Err(e)
  }
}
