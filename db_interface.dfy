/** The record-store adapter (lilyskel/db_interface.py): a document store
    of named tables, each an ordered list of records. Reading a table the
    store does not hold yields an empty table; inserting appends. */
module RecordStore {
  import opened Outcomes
  import opened Text
  import opened Values

  type Table = seq<Record>
  type Store = map<string, Table>

  /** The table `name` as the store hands it out. */
  function TableOf(store: Store, name: string): Table {
    if name in store then store[name] else []
  }

  /** The store holding the reference data (instruments, ensembles, ...). */
  class Database {
    var tables: Store

    constructor (initial: Store)
      ensures tables == initial
    {
      tables := initial;
    }

    function Table(name: string): Table
      reads this
    {
      TableOf(tables, name)
    }

    /** `db.table(name).insert(rec)`: one record at the end of one table;
        every other table is untouched. */
    method Insert(name: string, rec: Record)
      modifies this
      ensures tables == old(tables)[name := TableOf(old(tables), name) + [rec]]
      ensures Table(name) == old(Table(name)) + [rec]
      ensures forall t :: t != name ==> Table(t) == old(Table(t))
    {
      tables := tables[name := TableOf(tables, name) + [rec]];
    }
  }

  /** `explore_db`: the names of the tables, leaving out the default one.
      An argument that is not a store is refused. Python's `list(set)`
      has no defined order, so the result is the set of names. */
  method ExploreDb(db: Arg<Database>) returns (r: Result<set<string>>)
    ensures db.Foreign? ==> r == Err(ValueErr("'db' must be a TinyDB instance."))
    ensures db.Expected? ==> r.Ok? && forall t :: t in r.value <==> t in db.value.tables && t != "_default"
  {
    if db.Foreign? {
      return Err(ValueErr("'db' must be a TinyDB instance."));
    }
    var tables := db.value.tables.Keys;
    if "_default" in tables {
      tables := tables - {"_default"};
    }
    return Ok(tables);
  }

  /** The `search` argument of `explore_table`: absent, a pair
      `(field, term)`, a tuple of another length (unpacking fails) or
      something that is not a tuple at all. */
  datatype Search = Unfiltered | Where(field: string, term: string) | OtherTuple(size: nat) | NotTuple

  /** `table.search(Query()[field].test(lambda val: term in val))`: the
      records whose `field` holds `term`, in table order. A record without
      the field does not match; a field value that `in` cannot search
      raises when its record is reached. */
  function Select(table: Table, field: string, term: string): Result<Table>
    decreases |table|
  {
    if table == [] then Ok([])
    else if field !in table[0] then Select(table[1..], field, term)
    else
      var hit :- StrIn(term, table[0][field]);
      var rest :- Select(table[1..], field, term);
      Ok(if hit then [table[0]] + rest else rest)
  }

  /** The records `explore_table` collects before extracting names. */
  function Found(table: Table, search: Search): Result<Table> {
    match search
    case Unfiltered => Ok(table)
    case Where(field, term) => Select(table, field, term)
    case OtherTuple(size) =>
      if size < 2 then Err(ValueErr("not enough values to unpack (expected 2, got " + NatToString(size) + ")"))
      else Err(ValueErr("too many values to unpack (expected 2)"))
    case NotTuple => Err(TypeErr("search must be a tuple (field, value)"))
  }

  /** The `name` value of every record that has one, in order. */
  function Names(items: Table): (r: seq<Value>)
    ensures |r| <= |items|
  {
    if items == [] then []
    else (if "name" in items[0] then [items[0]["name"]] else []) + Names(items[1..])
  }

  /** The name a record contributes to `Names`: its own, or none. */
  function NameOf(rec: Record): seq<Value> {
    if "name" in rec then [rec["name"]] else []
  }

  /** `Names` from position `i` on, one record at a time. */
  lemma NamesFrom(items: Table, i: nat)
    requires i < |items|
    ensures Names(items[i..]) == NameOf(items[i]) + Names(items[i + 1..])
  {
    assert items[i..][0] == items[i] && items[i..][1..] == items[i + 1..];
  }

  /** The loop invariant of `explore_table` after one more record. */
  lemma NamesCollected(acc: seq<Value>, items: Table, i: nat)
    requires i < |items|
    ensures acc + Names(items[i..]) == (acc + NameOf(items[i])) + Names(items[i + 1..])
  {
    NamesFrom(items, i);
    AppendAssoc(acc, NameOf(items[i]), Names(items[i + 1..]));
  }

  lemma AppendAssoc<T>(a: seq<T>, b: seq<T>, c: seq<T>)
    ensures a + (b + c) == (a + b) + c
  {
  }

  /** `explore_table`: the names of the records the search selects. */
  method ExploreTable(table: Table, search: Search) returns (r: Result<seq<Value>>)
    ensures r == match Found(table, search) case Ok(items) => Ok(Names(items)) case Err(e) => Err(e)
  {
    var found := Found(table, search);
    if found.Err? {
      return Err(found.error);
    }
    var items := found.value;
    var founditems: seq<Value> := [];
    var i := 0;
    assert items[i..] == items;
    while i < |items|
      invariant 0 <= i <= |items|
      invariant founditems + Names(items[i..]) == Names(items)
    {
      NamesCollected(founditems, items, i);
      if "name" in items[i] {
        founditems := founditems + [items[i]["name"]];
      }
      i := i + 1;
    }
    assert items[i..] == [];
    assert founditems == Names(items);
    return Ok(founditems);
  }

  /** A value is listed exactly when some record carries it as its name. */
  lemma {:induction false} NamesMembers(items: Table, v: Value)
    ensures v in Names(items) <==> exists k :: 0 <= k < |items| && "name" in items[k] && items[k]["name"] == v
  {
    if items != [] {
      NamesMembers(items[1..], v);
      if v in Names(items[1..]) {
        var k :| 0 <= k < |items[1..]| && "name" in items[1..][k] && items[1..][k]["name"] == v;
        assert items[k + 1] == items[1..][k];
      }
      forall k | 1 <= k < |items| && "name" in items[k] && items[k]["name"] == v
        ensures v in Names(items[1..])
      {
        assert items[1..][k - 1] == items[k];
      }
    }
  }

  /** When every record has a name, there is one name per record, in order. */
  lemma {:induction false} NamesAllNamed(items: Table)
    requires forall k :: 0 <= k < |items| ==> "name" in items[k]
    ensures |Names(items)| == |items|
    ensures forall k :: 0 <= k < |items| ==> Names(items)[k] == items[k]["name"]
  {
    if items != [] {
      NamesAllNamed(items[1..]);
    }
  }

  /** The substring search: it fails exactly when a record holds the field
      with a value `in` cannot search; otherwise it selects exactly the
      records whose field contains the term. */
  lemma {:induction false} SelectSpec(table: Table, field: string, term: string)
    ensures Select(table, field, term).Err? <==>
      exists k :: 0 <= k < |table| && field in table[k] && StrIn(term, table[k][field]).Err?
    ensures Select(table, field, term).Ok? ==>
      forall rec :: rec in Select(table, field, term).value <==>
        rec in table && field in rec && StrIn(term, rec[field]) == Ok(true)
  {
    if table != [] {
      SelectSpec(table[1..], field, term);
      assert forall k :: 1 <= k < |table| ==> table[k] == table[1..][k - 1];
      assert forall k :: 0 <= k < |table| - 1 ==> table[1..][k] == table[k + 1];
      assert forall rec :: rec in table <==> rec == table[0] || rec in table[1..];
    }
  }

  /** On a table whose `field` values are all strings, the search selects
      the records whose field contains the term as a substring; an empty
      term selects every record. */
  lemma SelectSubstring(table: Table, field: string, term: string)
    requires forall k :: 0 <= k < |table| ==> field in table[k] && table[k][field].VStr?
    ensures Select(table, field, term).Ok?
    ensures forall rec: Record :: rec in Select(table, field, term).value <==>
      rec in table && Contains(rec[field].s, term)
    ensures term == [] ==> forall rec: Record :: rec in table ==> rec in Select(table, field, term).value
  {
    SelectSpec(table, field, term);
    forall rec: Record | rec in table
      ensures field in rec && rec[field].VStr?
    {
      var k :| 0 <= k < |table| && table[k] == rec;
    }
    if term == [] {
      forall rec: Record | rec in table
        ensures Contains(rec[field].s, term)
      {
        ContainsEmpty(rec[field].s);
      }
    }
  }

  /** A record named exactly `name`. */
  predicate Named(rec: Record, name: string) {
    "name" in rec && rec["name"] == VStr(name)
  }

  /** The position of the first record named `name`. */
  function FirstNamed(table: Table, name: string): (r: Option<nat>)
    ensures r.Some? ==> r.value < |table| && Named(table[r.value], name)
    ensures r.Some? ==> forall k :: 0 <= k < r.value ==> !Named(table[k], name)
    ensures r.None? ==> forall k :: 0 <= k < |table| ==> !Named(table[k], name)
  {
    if table == [] then None
    else if Named(table[0], name) then Some(0)
    else match FirstNamed(table[1..], name)
      case None => None
      case Some(k) => Some(k + 1)
  }

  function NotInTable(name: string, tablename: string): Error {
    DataNotFound("'" + name + "' is not in the '" + tablename + "' table.")
  }

  /** `load_name_from_table`: the first record of the table whose name is
      exactly `name`, or `DataNotFoundError` naming both. */
  function LoadNameFromTable(name: string, store: Store, tablename: string): (r: Result<Record>)
    ensures r.Ok? ==> Named(r.value, name)
    ensures r.Err? ==> r.error == NotInTable(name, tablename)
  {
    var table := TableOf(store, tablename);
    match FirstNamed(table, name)
    case Some(k) => Ok(table[k])
    case None => Err(NotInTable(name, tablename))
  }

  /** The record found is the first one of the table with that name, and
      the lookup fails exactly when no record has it. */
  lemma LoadNameFirst(name: string, store: Store, tablename: string)
    ensures var table, r := TableOf(store, tablename), LoadNameFromTable(name, store, tablename);
      r.Ok? ==> exists k :: 0 <= k < |table| && table[k] == r.value && forall j :: 0 <= j < k ==> !Named(table[j], name)
    ensures LoadNameFromTable(name, store, tablename).Err? <==>
      forall rec :: rec in TableOf(store, tablename) ==> !Named(rec, name)
  {
    var table := TableOf(store, tablename);
    match FirstNamed(table, name)
    case Some(k) =>
      assert table[k] in table;
    case None =>
      assert forall rec :: rec in table ==> exists j :: 0 <= j < |table| && table[j] == rec;
  }

  /** A name `explore_table` lists (as a string) can be loaded, and a name
      that loads is listed. */
  lemma ListedIffLoadable(store: Store, tablename: string, name: string)
    ensures VStr(name) in Names(TableOf(store, tablename)) <==> LoadNameFromTable(name, store, tablename).Ok?
  {
    var table := TableOf(store, tablename);
    NamesMembers(table, VStr(name));
    if VStr(name) in Names(table) {
      var k :| 0 <= k < |table| && "name" in table[k] && table[k]["name"] == VStr(name);
      assert Named(table[k], name);
    }
  }

  /** The store after appending `rec` to one table. */
  function Appended(store: Store, tablename: string, rec: Record): (r: Store)
    ensures TableOf(r, tablename) == TableOf(store, tablename) + [rec]
    ensures forall t :: t != tablename ==> TableOf(r, t) == TableOf(store, t)
  {
    store[tablename := TableOf(store, tablename) + [rec]]
  }

  /** Appending a record after the first match does not move it; with no
      match before, an appended match is found at the end. */
  lemma {:induction false} FirstNamedAppend(table: Table, name: string, rec: Record)
    ensures FirstNamed(table, name).Some? ==> FirstNamed(table + [rec], name) == FirstNamed(table, name)
    ensures FirstNamed(table, name).None? && Named(rec, name) ==> FirstNamed(table + [rec], name) == Some(|table|)
    ensures FirstNamed(table, name).None? && !Named(rec, name) ==> FirstNamed(table + [rec], name).None?
  {
    if table != [] {
      assert (table + [rec])[1..] == table[1..] + [rec];
      FirstNamedAppend(table[1..], name, rec);
    } else {
      assert [] + [rec] == [rec];
    }
  }

  /** Inserting a record under a new name makes exactly that record the
      one `load_name_from_table` finds. */
  lemma LoadAfterInsert(store: Store, tablename: string, name: string, rec: Record)
    requires Named(rec, name)
    requires forall r :: r in TableOf(store, tablename) ==> !Named(r, name)
    ensures LoadNameFromTable(name, Appended(store, tablename, rec), tablename) == Ok(rec)
  {
    var t := TableOf(store, tablename);
    FirstNamedAppend(t, name, rec);
    assert forall j :: 0 <= j < |t| ==> t[j] in t;
    assert (t + [rec])[|t|] == rec;
  }

  /** Appending never changes what an existing name loads. */
  lemma LoadKeepsFirst(store: Store, tablename: string, name: string, rec: Record)
    requires LoadNameFromTable(name, store, tablename).Ok?
    ensures LoadNameFromTable(name, Appended(store, tablename, rec), tablename) == LoadNameFromTable(name, store, tablename)
  {
    var t := TableOf(store, tablename);
    FirstNamedAppend(t, name, rec);
    var k := FirstNamed(t, name).value;
    assert (t + [rec])[k] == t[k];
  }

  /** Appending a record under another name leaves a missing name
      missing. */
  lemma LoadAppendOther(store: Store, tablename: string, name: string, rec: Record)
    requires LoadNameFromTable(name, store, tablename).Err?
    requires !Named(rec, name)
    ensures LoadNameFromTable(name, Appended(store, tablename, rec), tablename).Err?
  {
    FirstNamedAppend(TableOf(store, tablename), name, rec);
  }
}
