# Lilyskel name engine, record store and piece data, in Dafny

Lilyskel generates the skeleton of a LilyPond project: one file per
movement and instrument part, one directory per part and one LilyPond
variable per part and movement. This project models the part of it that
decides those names, and the small record store it loads instruments and
ensembles from:

- **Names** (`LyNames`, lilyskel/lynames.py): `normalize_name`, the
  non-standard roman numerals for 1..89 (`IL` for the forties),
  `_form_num`, and the `LyName` file, directory and variable names.
- **Instruments** (`LyInstruments`): construction with the clef check,
  `part_name`, `numbered_name`, `load_from_db`, `add_to_db` and `load`.
- **Ensembles** (`LyEnsembles`): ordered membership, the all-or-nothing
  load from the store, and the save that inserts missing members first.
- **Record store** (`RecordStore`, lilyskel/db_interface.py): a store is
  a map from table name to a sequence of records, and a record is a map
  from field name to a JSON-like `Value`. The model covers
  `explore_db`, the substring search of `explore_table`,
  `load_name_from_table`, and inserts that append to a table.
- **Piece data** (`Info`, lilyskel/info.py):
  - composer short names and Mutopia names, both cached;
  - licence codes;
  - movement keys;
  - the validators of a piece;
  - the `dump`/`load` round trips of composers, movements, headers and
    pieces.
- **The older Python copy** (`LegacyStore`, `LegacyNames`, `LegacyInfo`,
  under lyskel/). The model keeps the places where it behaves differently:
  - the exact-match `explore_table`;
  - the backslash that is always there;
  - the part name that appends the numeral before cutting at " in ";
  - no clef check;
  - the linear scan of the Mutopia composer list;
  - the exception names that do not exist.
- **The Ruby prototype**. Its string pipelines, with the typed-in line as
  a parameter, cover:
  - instrument names normalised to `name_<digit>`, with `variable` and
    `pretty` forms;
  - the class-wide instrument registries;
  - the movement tables;
  - the filename prefix from the opus or title, in both copies of the
    output classes;
  - the score, part and defs filenames;
  - `generate_filenames`.

Names and lookups are functions; what the source does by changing
objects is reflected by the model's classes:
- `Database`, `Ensemble`, `Composer`, `AllInstruments`, `Registry`;
- methods whose loops are proved against those functions.

The host libraries are parameters:
- `num2words` is the `NumWords` pair of functions;
- `titlecase` is a `string -> string` function;
- `process.extractOne` is `ExtractOne`;
- the Mutopia composer list is a sequence.

Exceptions are the `Error` variants of `Outcomes` inside a `Result`.

### Where the code and its description differ

The model follows the code in each case below.

- **`word` fallback.** `explore_table` collects only `name` fields; it
  never falls back to a `word` field.
- **Insertion is not uniqueness-checked.**
  - `Instrument.add_to_db` performs no duplicate check.
  - `Ensemble.add_to_db` skips a member only when its name is a
    *substring* of a stored name (see Findings).
- **Only element 0 is checked.** The `Piece` validators look at a list's
  first element only, so a mixed list passes. An empty movements or
  instruments list fails with `IndexError`, not with a validation error.
- **Undefined exception classes.**
  - The clef validator (lilyskel/lynames.py:203) names an exception class
    that lilyskel/exceptions.py does not define. The model calls this
    outcome `ClefRejected`.
  - The older copy raises `MutopiaError` and catches `DataNotFoundError`,
    and lyskel/exceptions.py defines neither. Each use becomes an
    `AttributeError`.
- **Legacy lookup.** The legacy `load_name_from_table` is imported by
  lyskel/lynames.py:9 but lyskel/db_interface.py does not define it. The
  legacy model takes the lookup as a parameter (`Lookup`).

## Model

| member | source | states |
|---|---|---|
| Values.PyIndex | lilyskel/info.py:298 | indexing a value succeeds exactly on a string or list with the index in range |
| Values.StrIn | lilyskel/db_interface.py:80 | `term in val` is the substring test on a string and fails, as a `TypeError`, exactly when the value is not a string, list or dict |
| Values.LoadAllOrder | lilyskel/lynames.py:409-413 | a member loop that succeeds produces one object per entry, the i-th loaded from the i-th entry |
| Values.LoadAllFails | lilyskel/lynames.py:409-413 | a member loop that fails stops with the error of the first entry that fails, every earlier entry having loaded |
| Values.LoadAllUpTo | lilyskel/lynames.py:409-413 | when entry k is the first to fail, the whole loop fails with its error |
| Values.LoadAllEach | lilyskel/lynames.py:409-413 | when every entry loads to the matching object, the loop returns exactly those objects |
| Text.StripLeft | lilyskel/lynames.py:18 | `strip` removes only whitespace on the left, and all of it |
| Text.StripRight | lilyskel/lynames.py:18 | `strip` removes only whitespace on the right, and all of it |
| Text.StripNoSpace | lilyskel/lynames.py:18 | a string without whitespace is not changed by `strip` |
| Text.Lower | lilyskel/lynames.py:19 | `lower` maps every character on its own and keeps the length |
| Text.Words | lilyskel/info.py:32 | `split()` yields non-empty words without whitespace |
| Text.WordsOfJoined | lilyskel/info.py:32 | splitting words joined by single spaces gives the words back |
| Text.IntToStringInjective | lilyskel/lynames.py:131 | `str` of distinct integers gives distinct strings |
| Text.IntToStringNoSpecial | lilyskel/lynames.py:131 | `str` of an integer holds no `_` and no whitespace |
| RecordStore.Database.Insert | lilyskel/lynames.py:296 | an insert appends the record at the end of the named table; every other table keeps its records |
| RecordStore.ExploreDb | lilyskel/db_interface.py:46-57 | a non-store argument fails with the `ValueError`; otherwise the result holds exactly the store's table names other than `_default` |
| RecordStore.Names | lilyskel/db_interface.py:83-87 | the collected names are never more than the records |
| RecordStore.ExploreTable | lilyskel/db_interface.py:60-88 | the loop returns the search's error, or the `name` values of the selected records in table order |
| RecordStore.NamesMembers | lilyskel/db_interface.py:83-87 | a value is listed iff some record holds it under `name`; records without `name` are skipped |
| RecordStore.NamesAllNamed | lilyskel/db_interface.py:83-87 | when every record is named, the result is their names, one per record and in order |
| RecordStore.SelectSpec | lilyskel/db_interface.py:69-82 | the search fails iff some record's field cannot take `in`; otherwise it selects exactly the records whose field contains the term |
| RecordStore.SelectSubstring | lilyskel/db_interface.py:75-80 | on string fields the selection is exactly the substring test; the empty term selects every record |
| RecordStore.FirstNamed | lilyskel/db_interface.py:103 | the position of the first record carrying the name, and none when no record carries it |
| RecordStore.LoadNameFromTable | lilyskel/db_interface.py:91-109 | a found record carries the name; otherwise the error is `DataNotFoundError` "'<name>' is not in the '<table>' table." |
| RecordStore.LoadNameFirst | lilyskel/db_interface.py:91-109 | the returned record is the first one carrying the name; the lookup fails iff no record carries it |
| RecordStore.ListedIffLoadable | lilyskel/db_interface.py:60-109 | a name is listed by the unfiltered `explore_table` iff `load_name_from_table` finds it |
| RecordStore.Appended | lilyskel/lynames.py:296 | the store after an insert: the table gains the record at its end and the other tables are unchanged |
| RecordStore.FirstNamedAppend | lilyskel/db_interface.py:103 | an insert keeps an existing first match; the new record becomes the first match only when there was none and it carries the name |
| RecordStore.LoadAfterInsert | lilyskel/db_interface.py:91-109 | after a record is inserted under a name no record had, looking the name up returns it |
| RecordStore.LoadKeepsFirst | lilyskel/db_interface.py:91-109 | an insert does not change a lookup that already succeeded |
| RecordStore.LoadAppendOther | lilyskel/db_interface.py:91-109 | a lookup that failed still fails after a record under another name is inserted |
| LyNames.Collapse | lilyskel/lynames.py:18 | replacing separator runs keeps the string empty iff it was, turns a leading run into `_` and keeps any other first character |
| LyNames.NormalizeName | lilyskel/lynames.py:14-19 | `None` stays `None` and a string becomes its normal form |
| LyNames.CollapseShape | lilyskel/lynames.py:18 | after the substitution there is no whitespace, no hyphen and no doubled `_` |
| LyNames.CollapseFixed | lilyskel/lynames.py:18 | a string with none of those is left as it is |
| LyNames.LowerKeepsShape | lilyskel/lynames.py:19 | lower-casing keeps that shape and leaves no capital letter |
| LyNames.LowerCharShape | lilyskel/lynames.py:19 | lower-casing one character leaves no capital and changes neither whitespace, `-` nor `_` |
| LyNames.NormalizeIdempotent | lilyskel/lynames.py:14-19 | a normalised name is normal, and normalising it again changes nothing |
| LyNames.NormalFixed | lilyskel/lynames.py:14-19 | a normal name is its own normal form |
| LyNames.RomanNumeral | lilyskel/lynames.py:36-75 | the loop gives `TypeError` for a non-int, `ValueError` outside 1..89, and otherwise `L` or `IL`, one `X` per ten while above ten, then the table entry |
| LyNames.TableIsStandard | lilyskel/lynames.py:46-57 | the table's entries 1..10 are the standard numerals |
| LyNames.TailIsStandard | lilyskel/lynames.py:68-73 | below 40 the loop and the table give the standard numeral |
| LyNames.RomanAgainstStandard | lilyskel/lynames.py:61-75 | 40..49 give `IL` followed by the standard numeral of n-40; every other number in 1..89 gets the standard numeral |
| LyNames.RomanExamples | lilyskel/lynames.py:36-75 | 40, 43, 20 and 89 give `IL`, `ILIII`, `XX` and `LXXXIX`; 0 and 90 give `ValueError`; a non-int gives `TypeError` |
| LyNames.FormNum | lilyskel/lynames.py:22-33 | `num` gives the digits, `word` and `ord` the normalised cardinal and ordinal, `roman` the numeral (failing outside 1..89), any other form the `ValueError` |
| LyNames.NewLyName | lilyskel/lynames.py:85-88 | a new name is normalised, has no number and empty word and numeral |
| LyNames.DirName | lilyskel/lynames.py:134-139 | the directory name is the name, followed by the number's digits when a number is set |
| LyNames.MovFileNameShape | lilyskel/lynames.py:98-122 | a non-int movement gives the `TypeError`; otherwise the result is the directory name, `_`, the movement's digits and `.ily` |
| LyNames.MovFileNameInjective | lilyskel/lynames.py:120-122 | different movements get different file names |
| LyNames.PartFileNameShape | lilyskel/lynames.py:124-132 | a truthy prefix gives `str(prefix)`, `_`, the directory name and `.ly`; a falsy one gives the directory name and `.ly` |
| LyNames.VarNameShape | lilyskel/lynames.py:98-146 | a non-int movement gives the `TypeError`; otherwise the optional backslash, the name, `_` and the cardinal word when numbered, `_`, the normalised ordinal and `_mov` |
| LyNames.MovFileNameExamples | lilyskel/lynames.py:120-122 | `global` movement 1 is `global_1.ily`; `test` number 2 movement 1 is `test2_1.ily` |
| LyNames.PartFileNameExamples | lilyskel/lynames.py:124-139 | prefix 123 on `global` gives `123_global.ly`; an empty prefix on `test` 2 gives `test2.ly`; its directory is `test2` |
| LyNames.LowerWordNormal | lilyskel/lynames.py:14-19 | a word of small letters is already normal |
| LyInstruments.NewInstrument | lilyskel/lynames.py:175-203 | construction fails iff the clef is not a known clef; otherwise name and family are normalised, the clef, `abbr`, `transposition`, `keyboard` and `midi` are stored as passed and there is no Mutopia name |
| LyInstruments.DefaultsAccepted | lilyskel/lynames.py:192-198 | the default `treble` clef is accepted |
| LyInstruments.UnknownClefRejected | lilyskel/lynames.py:200-203 | an unknown clef name, or a clef that is not a string, rejects construction |
| LyInstruments.SubInCuts | lilyskel/lynames.py:215 | cutting at " in " leaves a prefix of the text that holds no " in " |
| LyInstruments.SubInNoMatch | lilyskel/lynames.py:214-215 | text without " in " is not cut |
| LyInstruments.SubInFirst | lilyskel/lynames.py:215 | the cut is made at the first " in " |
| LyInstruments.PartNameShape | lilyskel/lynames.py:205-218 | with `key`, the title-cased name plus the numeral; without it, a prefix free of " in " plus the numeral; a name without " in " is kept whole |
| LyInstruments.PartNameOf | lilyskel/lynames.py:205-218 | the title-cased name is cut at " in " only without `key`, then " " and the numeral follow when one is set |
| LyInstruments.PartNameCut | lilyskel/lynames.py:205-218 | for "a in b" the part name is `a` plus the numeral without `key`, and the whole text plus the numeral with it |
| LyInstruments.PartNameOneWord | lilyskel/lynames.py:205-218 | a one-word name prints as its title-cased form plus the numeral |
| LyInstruments.NumberedName | lilyskel/lynames.py:220-254 | succeeds iff the clef is valid and the number is in 1..89; sets the number, the normalised cardinal word and the numeral, and everything else as the constructor does |
| LyInstruments.NumberedPartName | lilyskel/lynames.py:205-254 | a numbered instrument's part name ends with " " and its numeral |
| LyInstruments.Hydrated | lilyskel/lynames.py:274-275 | within the typed fields (see Left out), the `setattr` loop succeeds iff every key names a slot and each name field's value is a string and the number's an int or `None`; a key that is no slot gives `AttributeError` |
| LyInstruments.HydratedFields | lilyskel/lynames.py:274-275 | every stored slot takes the stored value and every other slot keeps its value |
| LyInstruments.HydratedNames | lilyskel/lynames.py:274-275 | a stored name wins; a number, word or numeral not stored keeps the value it had |
| LyInstruments.AssignStep | lilyskel/lynames.py:274-275 | one more `setattr` extends the assigned key set by that key |
| LyInstruments.SetAttrs | lilyskel/lynames.py:274-275 | the loop over the record gives exactly the hydrated instrument or its error, with the typing of `Hydrated` |
| LyInstruments.Blank | lilyskel/lynames.py:269-272 | the object before hydration: fails iff a number is given outside 1..89; name normalised; number, word and numeral set from the number |
| LyInstruments.LoadFromDb | lilyskel/lynames.py:256-276 | the method computes the load: normalise, look up, build, assign every stored field (typed fields only, see Left out) |
| LyInstruments.LoadMissing | lilyskel/lynames.py:267-268 | an absent record gives `DataNotFoundError` for the normalised name |
| LyInstruments.LoadBadNumber | lilyskel/lynames.py:268-270 | a found record with a number outside 1..89 gives the numeral's `ValueError` |
| LyInstruments.LoadFields | lilyskel/lynames.py:256-276 | a loaded instrument has the normalised name, a number in range, every stored slot value, and the given number, word and numeral unless the record stores them |
| LyInstruments.ToRecord | lilyskel/lynames.py:288-295 | the saved record carries the name and every slot value |
| LyInstruments.ToRecordKeys | lilyskel/lynames.py:288-295 | its keys are exactly the slots except `number`, `_numword` and `_roman` |
| LyInstruments.AddToDb | lilyskel/lynames.py:278-296 | one insert into `instruments` of that record, with no duplicate check |
| LyInstruments.RecordRestores | lilyskel/lynames.py:256-296 | assigning the saved record to an object numbered alike rebuilds the instrument |
| LyInstruments.BlankFits | lilyskel/lynames.py:269-272 | a normal, well-numbered instrument's blank has the same name fields |
| LyInstruments.LoadStored | lilyskel/lynames.py:256-296 | loading the saved record under the instrument's name and number gives the instrument back |
| LyInstruments.AddThenLoad | lilyskel/lynames.py:256-296 | `add_to_db` under a new name, then `load_from_db`, gives the same instrument |
| LyInstruments.AsDictKeys | lilyskel/info.py:394 | `attr.asdict` of an instrument has exactly the slots as keys |
| LyInstruments.AsDictEntries | lilyskel/info.py:394 | its `name` is the instrument's name and its `number` the number or `None` |
| LyInstruments.DictRestoresNumbered | lilyskel/lynames.py:318-319 | assigning the rest of the dictionary to the numbered object rebuilds the instrument |
| LyInstruments.DictRestoresPlain | lilyskel/lynames.py:318-319 | the same for an instrument without a truthy number |
| LyInstruments.RenumberKeeps | lilyskel/lynames.py:312-315 | rebuilding from a normal name and a number in range keeps both |
| LyInstruments.RenameKeeps | lilyskel/lynames.py:316-317 | rebuilding from a normal name keeps it |
| LyInstruments.LoadNumberedFrom | lilyskel/lynames.py:312-320 | a dictionary with a truthy integer number loads through `numbered_name` and the assignment loop |
| LyInstruments.LoadPlainFrom | lilyskel/lynames.py:316-320 | a dictionary with a falsy number loads through the constructor and the assignment loop |
| LyInstruments.LoadAsDictNumbered | lilyskel/lynames.py:307-320 | `Instrument.load(attr.asdict(ins))` gives `ins` for a number in 1..89 |
| LyInstruments.LoadAsDictPlain | lilyskel/lynames.py:307-320 | the same for no number or number 0 |
| LyInstruments.LoadAsDict | lilyskel/lynames.py:307-320 | `Instrument.load` inverts `attr.asdict` for every normal instrument whose number is absent, 0 or in 1..89 |
| LyEnsembles.ManualDropsTransposition | lilyskel/lynames.py:374-382 | without store and number the member is built iff the clef is valid, with no transposition whatever was passed |
| LyEnsembles.NumberedKeepsTransposition | lilyskel/lynames.py:363-373 | with a number the member is built iff clef and number are valid, with the transposition passed |
| LyEnsembles.StoredMemberMissing | lilyskel/lynames.py:361-362 | with a store lacking the instrument, `add_instrument` fails with `DataNotFoundError` |
| LyEnsembles.Wrap | lilyskel/lynames.py:414-420 | only a `DataNotFoundError` becomes `MissingInstrumentError`; other errors pass unchanged |
| LyEnsembles.EnsembleEntries | lilyskel/lynames.py:405-409 | the member entries are found iff the ensemble record exists and carries a list; a missing record gives its `DataNotFoundError` |
| LyEnsembles.LoadEnsembleNotFound | lilyskel/lynames.py:405-406 | a missing ensemble is reported with its normalised name |
| LyEnsembles.LoadEnsembleOrder | lilyskel/lynames.py:394-421 | a successful load holds one member per stored entry, each loaded from its entry, in stored order |
| LyEnsembles.LoadEnsembleMissing | lilyskel/lynames.py:408-420 | when entry k is the first member missing from the store, the whole load fails with `MissingInstrumentError` naming the ensemble and quoting the lookup's message |
| LyEnsembles.RefsSnoc | lilyskel/lynames.py:440-442 | the entry list grows by one `{name, number}` entry per member |
| LyEnsembles.MemberRefLoads | lilyskel/lynames.py:409-412 | a `{name, number}` entry loads as `load_from_db(name, number=number)` |
| LyEnsembles.EnsembleRecordLists | lilyskel/lynames.py:434-442 | the ensemble record carries the ensemble's name and lists one `{name, number}` entry per member, in member order |
| LyEnsembles.SaveMembersStep | lilyskel/lynames.py:436-439 | one member step: the search's error stops the save; otherwise the member is inserted iff the search lists no name |
| LyEnsembles.SaveEnsembleRecord | lilyskel/lynames.py:423-443 | a save that succeeds appends exactly one ensemble record; one that fails leaves the ensembles table as it was |
| LyEnsembles.SaveMembersTables | lilyskel/lynames.py:436-439 | the member loop changes only the instruments table, and only by appending |
| LyEnsembles.SaveStep | lilyskel/lynames.py:436-439 | a member is inserted iff no stored instrument name contains its name |
| LyEnsembles.SaveSkipsContained | lilyskel/lynames.py:436-443 | as written: a member whose name is only part of a stored name is not inserted, the save succeeds, and the saved ensemble then fails to load |
| LyEnsembles.SkippedMemberStays | lilyskel/lynames.py:438 | a member contained in a stored name leaves the store unchanged |
| LyEnsembles.SkippedMemberMissing | lilyskel/lynames.py:405-420 | an ensemble record that lists a member with no record of its own fails to load with `MissingInstrumentError` |
| LyEnsembles.HornBesideEnglishHorn | lilyskel/lynames.py:436-443 | saving ensemble `brass` with `horn` beside a stored `english_horn`, then loading it, fails for the missing `horn` |
| LyEnsembles.HornInEnglishHorn | lilyskel/lynames.py:438 | `horn` is a substring of `english_horn`, and both names are normal |
| LyEnsembles.SaveExactStep | lilyskel/lynames.py:436-439 | with an exact check, one member step keeps every stored member record right and makes the member findable |
| LyEnsembles.SaveExactAgrees | lilyskel/lynames.py:436-439 | with an exact check, the whole loop keeps that, and every member is then findable |
| LyEnsembles.SaveExactThenLoad | lilyskel/lynames.py:423-443 | with an exact check, a saved ensemble loads back as the same members in the same order |
| LyEnsembles.SavedMemberLoads | lilyskel/lynames.py:409-412 | a member whose record is stored still loads after the ensemble record is appended |
| LyEnsembles.Ensemble.constructor | lilyskel/lynames.py:323-328 | the name is normalised and the member list is as given |
| LyEnsembles.Ensemble.AddInstrument | lilyskel/lynames.py:337-383 | a `None` list becomes `[]`; the new member is appended at the end when it can be built, and its error is returned otherwise; earlier members are unchanged |
| LyEnsembles.Ensemble.AddInstrumentFromObj | lilyskel/lynames.py:385-392 | a non-instrument gives the `TypeError` (the list still becomes `[]`); an instrument is appended at the end |
| LyEnsembles.Ensemble.LoadFromDb | lilyskel/lynames.py:394-421 | a new ensemble holding exactly the loaded members, or the load's error with no ensemble |
| LyEnsembles.Ensemble.LoadMembers | lilyskel/lynames.py:408-413 | the loop appends the loaded members in order, or returns the first error |
| LyEnsembles.Ensemble.AddToDb | lilyskel/lynames.py:423-443 | a `None` member list gives `TypeError` with the store unchanged; otherwise the store and outcome of the members-then-record save |
| LyEnsembles.SaveMember | lilyskel/lynames.py:437-439 | one member: the search's error, or the member inserted iff the search found no name |
| LyEnsembles.LoadEntry | lilyskel/lynames.py:409-412 | one entry loaded as its name and number say; a non-dictionary entry gives Python's `TypeError`, a missing key its `KeyError` (a non-string name: see Left out) |
| Info.Initials | lilyskel/info.py:34-35 | two characters per word before the last |
| Info.InitialsLayout | lilyskel/info.py:34-35 | each of those words gives its first letter and `.` |
| Info.ShortNameLayout | lilyskel/info.py:31-40 | a one-word name is itself; otherwise the initials, a space and the last word |
| Info.ShortNameBeethoven | lilyskel/info.py:31-40 | the split words `["Ludwig", "van", "Beethoven"]` shorten to "L.v. Beethoven" |
| Info.ShortNameSingleWord | lilyskel/info.py:26-42 | a one-word name such as "Anonymous" is its own short name |
| Info.ShortNameEmpty | lilyskel/info.py:32-33 | a blank name fails at `pop` with `IndexError` |
| Info.ShortNameCached | lilyskel/info.py:29-30 | once stored, the short name is what every later call returns |
| Info.Composer.constructor | lilyskel/info.py:19-24 | the three attributes as given |
| Info.Composer.GetShortName | lilyskel/info.py:26-42 | a preset short name is returned; otherwise the computed one is returned and stored; a failure changes nothing |
| Info.MutopiaGuessHasSurname | lilyskel/info.py:55-65 | an accepted guess contains the surname; a best match without it gives `MutopiaError` |
| Info.MutopiaNameCached | lilyskel/info.py:53-54 | once stored, the Mutopia name is returned whatever is asked later |
| Info.Composer.GetMutopiaName | lilyskel/info.py:46-67 | a stored name is returned; no guess gives `AttributeError`; an accepted guess is returned and stored |
| Info.ComposerRoundTrip | lilyskel/info.py:115-124 | loading a composer's dump gives the same composer |
| Info.Composer.Load | lilyskel/info.py:115-121 | a new composer holding the loaded attributes, or the load's error |
| Info.LicenseCodes | lilyskel/info.py:212-219 | a list or dictionary code fails with the unhashable `TypeError`; any other code is looked up, a licence name is given exactly for `cc4`, `ccsa4` and `pd`, and each name comes from one code only |
| Info.ValidateKeyString | lilyskel/info.py:292-306 | a key is accepted iff the note starts with a..g, has `f` or `b` second if anything, and the mode is `major` or `minor`; an empty note fails with `IndexError` |
| Info.NewMovement | lilyskel/info.py:283-306 | a movement is built iff the key converts, the number is an int and the key is valid; otherwise the conversion's error, the `TypeError` for a non-int number, or the key's error, in that order; a built movement has the given number and empty tempo and time |
| Info.DefaultMovement | lilyskel/info.py:290 | movement 1 with the default key is C major |
| Info.MovementRoundTrip | lilyskel/info.py:308-316 | loading a movement's dump gives the same movement |
| Info.HeadersRoundTrip | lilyskel/info.py:177-202 | headers without Mutopia headers load back from their dump |
| Info.HeadersDumpFront | lilyskel/info.py:196-202 | the dump's title, composer, dedication, subtitles and Mutopia headers |
| Info.HeadersDumpRest | lilyskel/info.py:196-202 | the dump's poet, meter, arranger, tagline and copyright |
| Info.ValidateVersion | lilyskel/info.py:331-338 | a version is accepted iff it is a string starting with a digit |
| Info.ValidatorsFirstOnly | lilyskel/info.py:354-373 | lists agreeing on element 0 are judged alike; a list passes iff element 0 has the right class |
| Info.NewPiece | lilyskel/info.py:319-373 | a piece is built iff the version is valid and the instruments and movements are non-empty |
| Info.InstrumentDumps | lilyskel/info.py:394 | one `attr.asdict` per instrument, in order |
| Info.MovementDumps | lilyskel/info.py:397 | one movement dump per movement, in order |
| Info.InstrumentsRoundTrip | lilyskel/info.py:394-404 | the dumped instruments load back as the same instruments |
| Info.MovementsRoundTrip | lilyskel/info.py:397-411 | the dumped movements load back as the same movements |
| Info.PieceDumpEntries | lilyskel/info.py:389-398 | the piece dump's six entries |
| Info.PieceLoadEntries | lilyskel/info.py:400-414 | a dictionary whose parts load builds the piece of those parts |
| Info.PieceRoundTrip | lilyskel/info.py:389-414 | a piece without Mutopia headers loads back from its dump as the same piece, and its dump is stable |
| LegacyStore.ExploreDb | lyskel/db_interface.py:37-43 | exactly the table names other than `_default`, with no type check |
| LegacyStore.NameEquals | lyskel/db_interface.py:53 | the exact search keeps no more records than the table has |
| LegacyStore.Items | lyskel/db_interface.py:49-53 | all records when there is no search, else the exact matches |
| LegacyStore.ExploreTable | lyskel/db_interface.py:46-61 | the loop gives the names of the selected records, never more than the table has |
| LegacyStore.NameEqualsSpec | lyskel/db_interface.py:51-53 | the search selects exactly the records whose `name` equals the term |
| LegacyStore.ExactSearch | lyskel/db_interface.py:46-61 | with a search every listed name equals the term, and the term is listed iff some record has it as its name |
| LegacyStore.ExactSearchFinds | lyskel/db_interface.py:51-61 | the term is among the names found iff some record carries it |
| LegacyStore.Unfiltered | lyskel/db_interface.py:49-61 | without a search every record's name is listed, and only those |
| LegacyStore.ExactVersusSubstring | lyskel/db_interface.py:51-53 | `horn` finds nothing beside `english_horn` here, while the later substring search selects it |
| LegacyNames.VarNameSlashed | lyskel/lynames.py:129-131 | the variable name always starts with the backslash and is otherwise the later one |
| LegacyNames.NewInstrument | lyskel/lynames.py:134-157 | name and family normalised, `abbr`, `clef`, `transposition`, `keyboard` and `midi` stored as passed, no check; the unset numeral fields read as empty (see Left out) |
| LegacyNames.NoClefCheck | lyskel/lynames.py:150-157 | agrees with the later constructor where its clef check passes; builds what the later one refuses |
| LegacyNames.NumberedName | lyskel/lynames.py:177-197 | succeeds iff the number is in 1..89 and sets number, word and numeral |
| LegacyNames.NumberedAgrees | lyskel/lynames.py:177-197 | with a valid clef it is the later `numbered_name` |
| LegacyNames.PartNameKeyed | lyskel/lynames.py:159-175 | with `key`, the title-cased name and numeral, as in the later version |
| LegacyNames.PartNameUnnumbered | lyskel/lynames.py:166-175 | without a numeral it agrees with the later version |
| LegacyNames.PartNameNoIn | lyskel/lynames.py:166-175 | without " in " it agrees with the later version |
| LegacyNames.PartNameLosesNumeral | lyskel/lynames.py:166-175 | "a in b" prints as just `a` without `key`, losing the numeral the later version keeps |
| LegacyNames.HydratedFields | lyskel/lynames.py:218-219 | every stored slot value is taken and the other slots keep theirs |
| LegacyNames.HydratedVersusSlots | lyskel/lynames.py:218-219 | where the later slotted class accepts the record both agree; elsewhere only the later one fails |
| LegacyNames.SetAttrs | lyskel/lynames.py:218-219 | the loop gives exactly the hydrated instrument, for documents with typed name fields (see Left out) |
| LegacyNames.LoadInstrument | lyskel/lynames.py:199-220 | the method computes the load through the supplied lookup, whose documents have typed name fields (see Left out) |
| LegacyNames.LoadOutcome | lyskel/lynames.py:199-220 | the lookup's error is passed on; a found record loads iff a given number is in 1..89 |
| LegacyNames.LoadFields | lyskel/lynames.py:199-220 | the loaded instrument has every stored slot value, the normalised name unless stored and the given number unless stored |
| LegacyNames.ManualTransposition | lyskel/lynames.py:272-281 | the manual un-numbered member has no transposition; the numbered one keeps it and needs 1..89 |
| LegacyNames.LoadEnsembleOutcome | lyskel/lynames.py:283-309 | a load holds one member per entry in order, or fails with the `AttributeError` after some member failed; never a partial list |
| LegacyNames.MissingMemberAsWritten | lyskel/lynames.py:298-308 | as written: a missing member ends the load with the `AttributeError`, not `MissingInstrumentError` |
| LegacyNames.Ensemble.constructor | lyskel/lynames.py:251-255 | the name is normalised and the member list is as given |
| LegacyNames.Ensemble.AddInstrument | lyskel/lynames.py:257-281 | a `None` list becomes `[]`; the member is appended at the end, or the error returned |
| LegacyNames.Ensemble.LoadFromDb | lyskel/lynames.py:283-309 | a new ensemble holding exactly the loaded members, or the load's error |
| LegacyNames.Ensemble.LoadMembers | lyskel/lynames.py:298-303 | the loop appends the loaded members in order, or returns the error |
| LegacyInfo.FirstMatch | lyskel/info.py:58-61 | the first catalog entry holding both the surname and the initial, or none when no entry does |
| LegacyInfo.GuessIsFirstMatch | lyskel/info.py:46-63 | a guess succeeds iff some entry matches, returns the first match, and otherwise fails with the `AttributeError` |
| LegacyInfo.SingleWordMatchesSurname | lyskel/info.py:52-59 | a one-word name is matched on the surname alone |
| LegacyInfo.MutopiaNameCached | lyskel/info.py:44-45 | once stored, the name is returned whatever is asked later |
| LegacyInfo.GetMutopiaName | lyskel/info.py:37-65 | the scan returns and stores the first match, or errs with the store unchanged |
| LegacyInfo.ValidateAnyList | lyskel/info.py:153-162 | any non-empty list and any ensemble pass; an empty list fails at index 0 with `IndexError`; any other non-list, non-ensemble is the `TypeError`; it differs from the later check only on a list not starting with an instrument |
| LegacyInfo.ConvertEnsemble | lyskel/info.py:165-169 | an ensemble is replaced by its members; anything else is returned unchanged |
| LegacyInfo.ConvertEnsembleMembers | lyskel/info.py:165-169 | the members come out whole and in order, and converting twice is converting once |
| RubyText.JoinFields | classes/instrument_class.rb:34 | joining the pieces of a split with the separator gives the text back |
| RubyText.SplitLast | classes/instrument_class.rb:34 | splitting `a_t` with no `_` in `t` gives the pieces of `a` followed by `t` |
| RubyText.TailSubHit | classes/instrument_class.rb:19 | a trailing separator and class run is replaced by its table entry, or by "" when it has none |
| RubyText.TailSubMiss | classes/instrument_class.rb:19 | a last run that is not all in the class leaves the text unchanged |
| RubyText.EndSub | classes/all_instruments_class.rb:39 | an anchored ending is replaced when present and the text kept otherwise |
| RubyNames.TablesAt | classes/all_instruments_class.rb:24-47 | numeral k and word k both map to digit k |
| RubyNames.ReplaceNumberWords | classes/all_instruments_class.rb:37-49 | the nine replacements, in order |
| RubyNames.UnderscoredAll | classes/all_instruments_class.rb:20 | every entry gets `tr(' A-Z', '_a-z')` |
| RubyNames.RomanAll | classes/all_instruments_class.rb:23-35 | every entry gets the numeral replacement |
| RubyNames.WordsAll | classes/all_instruments_class.rb:37-49 | every entry gets the word replacement |
| RubyNames.NormalizedAll | classes/all_instruments_class.rb:59-64 | every entry gets the whole normalisation |
| RubyNames.StepsAll | classes/all_instruments_class.rb:59-64 | the three passes over the list are the normalisation of each entry |
| RubyNames.RomanToDigitsNumbered | classes/all_instruments_class.rb:24-34 | `_i`..`_ix` at the end becomes `_1`..`_9` |
| RubyNames.RomanToDigitsDeletes | classes/all_instruments_class.rb:24-34 | any other trailing `_` and run of i, v, x (such as `_x`) is deleted |
| RubyNames.RomanToDigitsKeeps | classes/all_instruments_class.rb:24-34 | a last piece that is not all i, v, x stays |
| RubyNames.WordsToDigitsNumbered | classes/all_instruments_class.rb:38-48 | `_one`..`_nine` at the end becomes `_1`..`_9` |
| RubyNames.WordsSkipDigit | classes/all_instruments_class.rb:38-48 | a name ending in a digit is left alone |
| RubyNames.UnderscoredSpaced | classes/all_instruments_class.rb:20 | a space before the last word becomes `_` and the word is lower-cased |
| RubyNames.NormalizedRoman | classes/all_instruments_class.rb:59-64 | "name numeral" with numeral k becomes `name_k` |
| RubyNames.NormalizedWord | classes/all_instruments_class.rb:59-64 | "name word" with word k becomes `name_k` |
| RubyNames.ViolinTwoNumeral | classes/all_instruments_class.rb:59-64 | "Violin II" becomes `violin_2` |
| RubyNames.ViolinTwoWord | classes/all_instruments_class.rb:59-64 | "violin two" becomes `violin_2` |
| RubyInstrument.DigitWordsAt | classes/instrument_class.rb:19-29 | digit k maps to the word k |
| RubyInstrument.DigitRomansAt | classes/instrument_class.rb:34-43 | digit k maps to numeral k |
| RubyInstrument.VariableNumbered | classes/instrument_class.rb:18-30 | a trailing `_1`..`_9` becomes `_one`..`_nine` |
| RubyInstrument.VariableDeletes | classes/instrument_class.rb:19-29 | a trailing `_` and digits not in the table is deleted |
| RubyInstrument.VariableTen | classes/instrument_class.rb:19-29 | `_10` at the end is deleted |
| RubyInstrument.VariableKeeps | classes/instrument_class.rb:19-29 | a last piece that is not all digits stays |
| RubyInstrument.VariablePlain | classes/instrument_class.rb:19-29 | a name without `_` stays |
| RubyInstrument.VariableRoundTrip | classes/instrument_class.rb:18-30 | the digit and word forms of 1..9 turn into each other |
| RubyInstrument.PrettyPieces | classes/instrument_class.rb:34 | the last `_` piece is capitalised and joined after a space |
| RubyInstrument.PrettyTail | classes/instrument_class.rb:33-44 | a trailing digit run is looked up after the capitalised pieces |
| RubyInstrument.PrettyNumbered | classes/instrument_class.rb:33-44 | a trailing `_1`..`_9` prints as " I".." IX" |
| RubyInstrument.PrettyDropsNumber | classes/instrument_class.rb:33-44 | a trailing number not in the table is dropped |
| RubyInstrument.PrettyPlain | classes/instrument_class.rb:33-44 | a one-piece name prints capitalised |
| RubyInstrument.PrettyFirst | classes/instrument_class.rb:33-44 | `a_1` prints as the pieces of `a` and " I" |
| RubyInstrument.ViolinOnePretty | classes/instrument_class.rb:33-44 | `violin_1` prints as "Violin I" |
| RubyInstrument.ViolinOneVariable | classes/instrument_class.rb:18-30 | `violin_1` has the variable `violin_one` |
| RubyInstrument.Registry.constructor | classes/instrument_class.rb:5 | the registry starts empty |
| RubyInstrument.Instrument.constructor | classes/instrument_class.rb:12-15 | `file` is the name and the object is appended to the registry |
| RubyAllInstruments.StrippedAll | classes/all_instruments_class.rb:16 | every entry is left-stripped |
| RubyAllInstruments.AllInstruments.constructor | classes/all_instruments_class.rb:9-10 | both lists start empty |
| RubyAllInstruments.AllInstruments.GetInstruments | classes/all_instruments_class.rb:12-17 | the entries are the line split on `,`, each left-stripped |
| RubyAllInstruments.AllInstruments.RemoveSpacesAndCaps | classes/all_instruments_class.rb:19-21 | every entry rewritten in place by `tr` |
| RubyAllInstruments.AllInstruments.NormalizeRomanNumerals | classes/all_instruments_class.rb:23-35 | every entry rewritten by the numeral replacement |
| RubyAllInstruments.AllInstruments.NormalizeNumberWords | classes/all_instruments_class.rb:37-49 | every entry rewritten by the word replacement |
| RubyAllInstruments.AllInstruments.CreateInstrumentObjects | classes/all_instruments_class.rb:51-56 | one new instrument per entry appended, in order, to `@@all` and to the class registry; earlier ones stay |
| RubyAllInstruments.AllInstruments.Initialize | classes/all_instruments_class.rb:59-65 | the entries end normalised and one instrument per entry is appended |
| RubyAllInstruments.StripPadding | classes/all_instruments_class.rb:16 | `lstrip` removes exactly the leading padding |
| RubyAllInstruments.TwoFields | classes/all_instruments_class.rb:16 | a line with one comma splits into its two sides |
| RubyAllInstruments.TwoEntries | classes/all_instruments_class.rb:16 | the padding after the comma is dropped |
| RubyAllInstruments.SameInstrument | classes/all_instruments_class.rb:59-65 | numeral k and word k give the same name |
| RubyAllInstruments.NamedEntries | classes/all_instruments_class.rb:16 | "name t, name u" gives the two entries |
| RubyAllInstruments.SameEntryLine | classes/all_instruments_class.rb:59-65 | "name II, name two" gives two equal entries `name_2` |
| RubyGetInstruments.VariableAll | get_instruments.rb:55-65 | every part gets its variable form |
| RubyGetInstruments.RenumberPart | get_instruments.rb:32-53 | the numeral then the word replacement on one part |
| RubyGetInstruments.RenumberParts | get_instruments.rb:31-54 | every part rewritten in place, in order |
| RubyGetInstruments.GetInstruments | get_instruments.rb:19-67 | the parts are the `", "` split normalised; the variables are their variable forms, same length and order |
| RubyGetInstruments.OneEntry | get_instruments.rb:22 | a line without ", " is one entry |
| RubyGetInstruments.NumberedEntry | get_instruments.rb:22-65 | "name t" with numeral or word k gives part `name_k` and variable `name_<word k>` |
| RubyGetInstruments.ViolinIi | get_instruments.rb:22-54 | "violin ii" gives `violin_2` |
| RubyGetInstruments.ViolinTwoVariable | get_instruments.rb:55-65 | `violin_2` has the variable `violin_two` |
| RubyMovements.At | classes/movements_class.rb:21 | Ruby indexing: defined iff -size <= i < size |
| RubyMovements.Movements.MovementNumber | classes/movements_class.rb:19-27 | above the count it aborts; 1..12 give the table entry; 0 and below count from the end; others give nil |
| RubyMovements.Movements.Comment | classes/movements_class.rb:29-35 | the same bound and abort over the heading table |
| RubyMovements.MovementMatchesComment | classes/movements_class.rb:7-35 | both abort together, are nil together, and otherwise read the same row |
| RubyMovements.FirstMovement | classes/movements_class.rb:7-21 | movement 1 is `first_mov` / "First Movement" |
| RubyMovements.TwelfthMovement | classes/movements_class.rb:7-21 | movement 12 is `twelfth_mov` / "Twelfth Movement" |
| RubyOutput.FilenamePrefix | classes/output_class.rb:22-28 | without opus and title it fails |
| RubyOutput.Output.Filename | classes/output_class.rb:31-33 | base placeholder; a score is exactly the prefix and `_score.ly`, a part exactly the prefix, `_`, its file and `.ly`; a missing prefix is the error |
| RubyOutput.TrRemovesSpace | classes/output_class.rb:25 | `tr(' ', '_')` leaves no space |
| RubyOutput.ReplaceDropsChar | classes/output_class.rb:26 | `gsub('.', '')` leaves no `.` |
| RubyOutput.OpusPrefixShape | classes/output_class.rb:25 | the opus prefix has no space and no small letter |
| RubyOutput.TitlePrefixShape | classes/output_class.rb:26 | the title prefix has no space, no `.` and no capital |
| RubyOutput.PrefixNoSpace | classes/output_class.rb:22-28 | the prefix never contains a space |
| RubyOutput.OpusWins | classes/output_class.rb:24 | with an opus the title is ignored |
| RubyOutput.SkipPadding | classes/output_class.rb:25 | `\s*` takes exactly the padding |
| RubyOutput.OpStripSpacing | classes/output_class.rb:25 | `Op.` and its padding become `O` |
| RubyOutput.OpusFifteen | classes/output_class.rb:25 | "Op. 15" and "Op.15" both give `O15` |
| RubyOutput.PartFileInjective | classes/part_class.rb:15-17 | part filenames differ iff the files do |
| RubyOutput.ScoreIsNotPart | classes/score_class.rb:8-11 | the score filename equals a part's iff the part is `score` |
| RubyOutput.OutputFilenamesDistinct | classes/part_class.rb:15-17 | parts are distinguished by file; score equals a part only for `score` |
| RubyOutputClasses.FilenamePrefix | methods/output_classes.rb:20-26 | without opus and title it fails |
| RubyOutputClasses.DropLeadingSpace | methods/output_classes.rb:133 | one leading space is removed |
| RubyOutputClasses.DropLeadingSpaces | methods/output_classes.rb:133 | on every entry |
| RubyOutputClasses.Output.Filename | methods/output_classes.rb:77-138 | `defs.ily` for Defs; score and part as in the earlier copy; a missing prefix is the error |
| RubyOutputClasses.NewDefs | methods/output_classes.rb:125-134 | a Defs keeps the headers and the includes read from its line |
| RubyOutputClasses.OpusPrefixShape | methods/output_classes.rb:23 | the opus prefix has no space and no small letter |
| RubyOutputClasses.PrefixNoSpace | methods/output_classes.rb:20-26 | the prefix never contains a space |
| RubyOutputClasses.TitleBranchesAgree | methods/output_classes.rb:22-24 | it equals the earlier copy without opus; with one the title is ignored |
| RubyOutputClasses.ReplaceOpusSpaced | methods/output_classes.rb:23 | "Op. 15" becomes "O15" |
| RubyOutputClasses.ReplaceOpusTight | methods/output_classes.rb:23 | "Op.15" stays |
| RubyOutputClasses.CopiesDifferOnTightOpus | methods/output_classes.rb:23 | "Op. 15" gives `O15` in both copies; "Op.15" gives `OP.15` here and `O15` in the earlier copy |
| RubyOutputClasses.FilenamesMatchEarlierCopy | methods/output_classes.rb:77-113 | without opus the score and part filenames and names equal the earlier copy's; the names are "Score" and the printed instrument name |
| RubyOutputClasses.DefsAlwaysNamed | methods/output_classes.rb:136-138 | a Defs is `defs.ily` even without a prefix, never the score's name |
| RubyOutputClasses.Spaced | methods/output_classes.rb:133 | each entry after a space |
| RubyOutputClasses.SplitOfJoin | methods/output_classes.rb:133 | splitting joined entries on `,` keeps a space before each later one |
| RubyOutputClasses.DropSpacesOfSpaced | methods/output_classes.rb:133 | removing one leading space restores them |
| RubyOutputClasses.IncludesRoundTrip | methods/output_classes.rb:133 | includes typed as "a, b, c" are read back as a, b, c |
| RubyFilenames.GenerateFilenames | generate_filenames.rb:8-36 | fails iff no prefix; otherwise 1 + count names: the score then each part, in input order |
| RubyFilenames.GeneratedNamesDistinct | generate_filenames.rb:8-36 | distinct files, none `score`, give distinct names |

## Left out

- I/O is left out: `gets`, `puts`, file creation and writing (`create`,
  the `write_*` methods, `done`), and the TinyDB file.
- The host libraries are parameters with no model of their own: the
  words of `num2words`, `titlecase`, `process.extractOne`, and the
  Mutopia catalogue download.
- A table that does not exist reads as empty. TinyDB instead creates it
  on first read.
- Headers with truthy Mutopia headers, `Headers.add_mutopia_headers`
  and `MutopiaHeaders` are left out because they need the network-backed
  Mutopia validators.
- `Headers.load` is modelled only for those headers.
- `Piece.validate_language` and `Piece.init_version` are left out: they
  read a LilyPond install file and run a subprocess.
- `Instrument.get_mutopia_name` is left out because it is a fuzzy match
  against a downloaded list.
- Python's `bool` counting as an `int` is not modelled: numbers are
  `Arg<int>`.
- `Composer.load_from_db` and `Composer.add_to_db` are left out because
  they are not part of the name engine.
- `Ensemble.pretty_name` and `__iter__` are left out.
- Case mapping is ASCII only. `str.lower`, `str.upper`, Ruby
  `capitalize`, `upcase` and `downcase` are not modelled for other
  letters.
- The Ruby `$` anchor is read as the end of the text. Its match before a
  final newline is not modelled. The typed-in line arrives already
  chomped.
- The Ruby `gsub(/^ /, '')` of methods/output_classes.rb:133 is read over
  single entries. An entry with embedded newlines is not modelled.
- Ruby `to_s` and `to_i` are not modelled. The movement count is a
  constructor parameter.
- The Ruby `Instrument` class in get_instruments.rb:8-16 is left out: it
  refers to an undefined name.
- methods/generate_filenames.rb is not part of this model: it writes
  files when it is loaded and uses undefined names.
- The earlier-copy `Ensemble.add_to_db` (lyskel/lynames.py:311) is left
  out, as are the legacy `Instrument.add_to_db` and `get_mutopia_name`.
- LegacyNames.LoadEnsemble: the legacy lookup is a parameter, because
  the function it imports does not exist, so its behaviour on a real
  store is not pinned down.
- Hydrated (LyInstruments.Hydrated): the name of an instrument is a string, its
  number an int or none, its word and numeral strings. Python's `setattr`
  on the slotted attrs class stores any value: the attrs converters and
  validators run only in `__init__`. A record with a non-string `name`,
  `_numword` or `_roman`, or a `number` that is neither an int nor
  `None`, gives `AttributeError` in the model and loads in Python; a
  stored `"number": ""` or `"_roman": null` is such a record.
- SetAttrs (LyInstruments.SetAttrs): the same typing as `Hydrated`.
- LoadFromDb (LyInstruments.LoadFromDb): a stored record with such values fails in the
  model and loads in Python, as for `Hydrated`.
- NameArg (LyInstruments.NameArg): `Instrument.load` with `"name": None` fails in
  the model; Python builds an instrument named `None`, since
  `normalize_name(None)` is `None`.
- MemberLoad (LyEnsembles.MemberLoad): an entry whose `name` is `None` gives
  `AttributeError` in the model; Python looks `None` up, fails with
  `DataNotFoundError`, and the load then ends in `MissingInstrumentError`.
- LoadEntry (LyEnsembles.LoadEntry): the same gap as `MemberLoad`, of which it is the method.
- Document (LegacyNames.Document): the legacy documents carry the same typing; the
  legacy `setattr` stores anything, so `SetAttrs` and `LoadInstrument`
  cover only records whose name fields are strings and whose number is
  an int or `None`.
- SetAttrs (LegacyNames.SetAttrs): covers only `Document` records, as above.
- LoadInstrument (LegacyNames.LoadInstrument): its lookup returns only `Document` records,
  as above.
- NewInstrument (LegacyNames.NewInstrument): the legacy class leaves `_numword` and `_roman`
  unset until numbered; the model reads an unset field as the empty
  string. So an unset numeral and a stored empty one coincide: for a
  stored `"_roman": ""` Python's part name ends in a space where the
  model adds nothing, and a stored number without `_numword` makes
  Python's variable name raise `AttributeError` where the model returns
  a name.
- LoadEach (Info.LoadEach): a non-empty dictionary given where a list of
  instruments or movements is expected fails in the model with
  `AttributeError` on `pop`. Python iterates its keys in insertion
  order and loads the first key; key order is not modelled, so a first
  key holding "number", which makes `Instrument.load` raise `TypeError`,
  is not distinguished.
- The `load` class methods (`Instrument.load`, `Movement.load`,
  `Piece.load`, `Headers.load`, `Composer.load`) pop entries from the
  caller's dictionary. The model takes the dictionary as a value, so
  that the caller's dictionary loses those entries is not captured.
- The `AttributeError` of a key that is no attribute carries no key
  name: which key fails first depends on dictionary order.
- RubyOutput.FilenamePrefix: states only the presence outcome; the
  prefix's form is stated by OpusPrefixShape, TitlePrefixShape and
  OpusFifteen, not by an exact formula.

## Findings

| source | as written | input that shows it | evidently intended | confidence | as-written member | corrected member |
|---|---|---|---|---|---|---|
| lilyskel/lynames.py:438 | a member is skipped when its name is a substring of any stored instrument name | ensemble `brass` with member `horn` saved into a store holding only `english_horn` | skip only a member whose exact name is stored, so the saved ensemble loads back | not executed | LyEnsembles.HornBesideEnglishHorn | LyEnsembles.SaveExactThenLoad |
| lyskel/lynames.py:304 | the `except` clause names `exceptions.DataNotFoundError`, which lyskel/exceptions.py does not define | an ensemble record whose member list names an instrument the store lacks | a missing member raises `MissingInstrumentError` naming the ensemble | not executed | LegacyNames.MissingMemberAsWritten | LyEnsembles.LoadEnsembleMissing |
