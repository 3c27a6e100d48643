/** The legacy record-store adapter (lyskel/db_interface.py): listing the
    tables, and listing the names in a table, optionally only those equal
    to a given name. The store and its tables are those of `RecordStore`. */
module LegacyStore {
  import opened Outcomes
  import opened Text
  import opened Values
  import opened RecordStore
  import LyEnsembles

  /** `explore_db`: the table names without the default table. The
      legacy code does not check its argument. */
  method ExploreDb(db: Database) returns (r: set<string>)
    ensures forall t :: t in r <==> t in db.tables && t != "_default"
  {
    var tables := db.tables.Keys;
    if "_default" in tables {
      tables := tables - {"_default"};
    }
    return tables;
  }

  /** `table.search(Query().name == term)`: the records whose name equals
      the term, in table order; a record without a name never matches. */
  function NameEquals(table: Table, term: Value): (r: Table)
    ensures |r| <= |table|
  {
    if table == [] then []
    else (if "name" in table[0] && table[0]["name"] == term then [table[0]] else []) + NameEquals(table[1..], term)
  }

  /** The records `explore_table` walks: all of them when `name_search`
      is `None`, the exact matches otherwise. */
  function Items(table: Table, nameSearch: Value): (r: Table)
    ensures |r| <= |table|
  {
    if nameSearch == VNone then table else NameEquals(table, nameSearch)
  }

  /** `explore_table(table, name_search)`. */
  method ExploreTable(table: Table, nameSearch: Value) returns (r: seq<Value>)
    ensures r == Names(Items(table, nameSearch))
    ensures |r| <= |table|
  {
    var items := Items(table, nameSearch);
    var founditems: seq<Value> := [];
    var i := 0;
    assert items[i..] == items;
    while i < |items|
      invariant 0 <= i <= |items|
      invariant founditems + Names(items[i..]) == Names(items)
    {
      NamesCollected(founditems, items, i);
      if "name" in items[i] {
        founditems := founditems + [items[i]["name"]];
      }
      i := i + 1;
    }
    assert items[i..] == [];
    assert founditems + [] == founditems;
    return founditems;
  }

  /** Every record the exact search keeps is named `term`, and every
      record named `term` is kept, in order. */
  lemma {:induction false} NameEqualsSpec(table: Table, term: Value)
    ensures forall k :: 0 <= k < |NameEquals(table, term)| ==>
      "name" in NameEquals(table, term)[k] && NameEquals(table, term)[k]["name"] == term
    ensures forall rec :: rec in NameEquals(table, term) <==> rec in table && "name" in rec && rec["name"] == term
  {
    if table != [] {
      NameEqualsSpec(table[1..], term);
      assert forall rec :: rec in table <==> rec == table[0] || rec in table[1..];
    }
  }

  /** With a name to search for, the result is that name once per record
      carrying it: nothing that merely contains it is listed. */
  lemma ExactSearch(table: Table, term: Value)
    requires term != VNone
    ensures var r := Names(Items(table, term));
      |r| == |NameEquals(table, term)|
      && (forall i :: 0 <= i < |r| ==> r[i] == term)
      && (term in r <==> exists k :: 0 <= k < |table| && "name" in table[k] && table[k]["name"] == term)
  {
    var found := NameEquals(table, term);
    assert Items(table, term) == found;
    NameEqualsSpec(table, term);
    NamesAllNamed(found);
    ExactSearchFinds(table, term);
  }

  /** The term is listed exactly when some record carries it. */
  lemma ExactSearchFinds(table: Table, term: Value)
    requires term != VNone
    ensures term in Names(NameEquals(table, term)) <==>
      exists k :: 0 <= k < |table| && "name" in table[k] && table[k]["name"] == term
  {
    var found := NameEquals(table, term);
    NameEqualsSpec(table, term);
    NamesMembers(found, term);
    if exists k :: 0 <= k < |table| && "name" in table[k] && table[k]["name"] == term {
      var k :| 0 <= k < |table| && "name" in table[k] && table[k]["name"] == term;
      assert table[k] in found;
      var j :| 0 <= j < |found| && found[j] == table[k];
      assert "name" in found[j] && found[j]["name"] == term;
    }
    if term in Names(found) {
      var j :| 0 <= j < |found| && "name" in found[j] && found[j]["name"] == term;
      assert found[j] in found;
      var k :| 0 <= k < |table| && table[k] == found[j];
      assert "name" in table[k] && table[k]["name"] == term;
    }
  }

  /** Without a name to search for, every record's name is listed in
      table order; a record without a name is skipped. */
  lemma Unfiltered(table: Table, v: Value)
    ensures Names(Items(table, VNone)) == Names(table)
    ensures v in Names(Items(table, VNone)) <==>
      exists k :: 0 <= k < |table| && "name" in table[k] && table[k]["name"] == v
  {
    NamesMembers(table, v);
  }

  /** The exact match of the legacy code against the substring match of
      the later one: searching "horn" beside a stored "english_horn"
      finds nothing here and finds "english_horn" there. */
  lemma ExactVersusSubstring()
    ensures var table := [map["name" := VStr("english_horn")]];
      Names(Items(table, VStr("horn"))) == []
      && Found(table, Where("name", "horn")) == Ok(table)
      && Names(table) == [VStr("english_horn")]
  {
    var rec: Record := map["name" := VStr("english_horn")];
    var table := [rec];
    assert rec["name"] != VStr("horn");
    assert NameEquals(table, VStr("horn")) == [] + NameEquals(table[1..], VStr("horn"));
    LyEnsembles.HornInEnglishHorn();
    assert StrIn("horn", rec["name"]) == Ok(true);
    assert table[1..] == [];
    assert Select(table[1..], "name", "horn") == Ok([]);
    assert [rec] + [] == table;
    assert Select(table, "name", "horn") == Ok(table);
  }
}
