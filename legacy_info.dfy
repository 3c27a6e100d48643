/** The legacy piece data (lyskel/info.py): the composer's Mutopia name
    found by a scan of the catalog, and the instrument argument of a
    piece, checked and unwrapped. `Composer.get_short_name` is the same
    code as in the later version and is `Info.Composer.GetShortName`. */
module LegacyInfo {
  import opened Outcomes
  import opened Text
  import opened Values
  import opened Info
  import LyInstruments

  type Instrument = LyInstruments.Instrument

  // ---------------------------------------------------------------------
  // get_mutopia_name

  /** A catalog entry holding both the surname and the initial. */
  predicate Matches(comp: string, lname: string, fletter: string) {
    Contains(comp, lname) && Contains(comp, fletter)
  }

  /** The position of the first matching catalog entry. */
  function FirstMatch(composers: seq<string>, lname: string, fletter: string): (r: Option<nat>)
    ensures r.Some? ==> r.value < |composers| && Matches(composers[r.value], lname, fletter)
    ensures r.Some? ==> forall k :: 0 <= k < r.value ==> !Matches(composers[k], lname, fletter)
    ensures r.None? ==> forall k :: 0 <= k < |composers| ==> !Matches(composers[k], lname, fletter)
  {
    if composers == [] then None
    else if Matches(composers[0], lname, fletter) then Some(0)
    else match FirstMatch(composers[1..], lname, fletter)
      case None => None
      case Some(k) => Some(k + 1)
  }

  /** `namelist[0][0]` after the surname is popped: the first letter of
      the first given name, or the empty string (the `IndexError` is
      caught) for a one-word name. */
  function FirstLetter(parts: seq<string>): string
    requires forall i :: 0 <= i < |parts| ==> parts[i] != []
  {
    if |parts| > 1 then [parts[0][0]] else ""
  }

  /** What `raise exceptions.MutopiaError(...)` raises: the legacy
      exception module defines no such class. */
  const UndefinedMutopiaError: Error := AttributeErr("module 'lyskel.exceptions' has no attribute 'MutopiaError'")

  /** `get_mutopia_name(guess)` as a value, given Mutopia's composer
      list: a stored name wins; without one, guessing must be asked for;
      the guess is the first entry holding the surname and the initial. */
  function MutopiaName(c: ComposerInfo, guess: bool, composers: seq<string>): Result<Value> {
    if c.mutopianame != VNone then Ok(c.mutopianame)
    else if !guess then Err(AttributeErr("No mutopia name defined."))
    else
      var parts := Words(c.name);
      if parts == [] then Err(IndexErr("pop from empty list"))
      else match FirstMatch(composers, parts[|parts| - 1], FirstLetter(parts))
        case Some(k) => Ok(VStr(composers[k]))
        case None => Err(UndefinedMutopiaError)
  }

  /** A guess is the first catalog entry holding the surname and the
      first initial; when no entry holds both, the call fails, and with
      the `AttributeError` rather than `MutopiaError`. */
  lemma GuessIsFirstMatch(c: ComposerInfo, composers: seq<string>)
    requires c.mutopianame == VNone && Words(c.name) != []
    ensures var parts := Words(c.name);
      var lname, fletter := parts[|parts| - 1], FirstLetter(parts);
      var r := MutopiaName(c, true, composers);
      (r.Ok? <==> exists k :: 0 <= k < |composers| && Matches(composers[k], lname, fletter))
      && (r.Ok? ==> exists k :: (0 <= k < |composers| && r.value == VStr(composers[k])
            && Matches(composers[k], lname, fletter)
            && forall j :: 0 <= j < k ==> !Matches(composers[j], lname, fletter)))
      && (r.Err? ==> r.error == UndefinedMutopiaError && !r.error.MutopiaErr?)
  {
  }

  /** A one-word name (no initial) is matched on the surname alone. */
  lemma SingleWordMatchesSurname(c: ComposerInfo, composers: seq<string>, comp: string)
    requires c.mutopianame == VNone && Words(c.name) == [comp]
    ensures MutopiaName(c, true, composers).Ok? <==> exists k :: 0 <= k < |composers| && Contains(composers[k], comp)
  {
    forall k | 0 <= k < |composers|
      ensures Matches(composers[k], comp, "") <==> Contains(composers[k], comp)
    {
      ContainsEmpty(composers[k]);
    }
  }

  /** After a successful call has stored its answer, the answer comes
      back without guessing and whatever the catalog. */
  lemma MutopiaNameCached(c: ComposerInfo, guess: bool, composers: seq<string>, guess2: bool, composers2: seq<string>)
    requires MutopiaName(c, guess, composers).Ok?
    ensures var r := MutopiaName(c, guess, composers);
      r.value != VNone && MutopiaName(c.(mutopianame := r.value), guess2, composers2) == r
  {
  }

  /** `Composer.get_mutopia_name(guess)`: the catalog is scanned in order
      and the first match is stored and returned. */
  method GetMutopiaName(c: Composer, guess: bool, composers: seq<string>) returns (r: Result<Value>)
    modifies c
    ensures r == MutopiaName(old(c.Info()), guess, composers)
    ensures c.Info() == if r.Ok? then old(c.Info()).(mutopianame := r.value) else old(c.Info())
  {
    if c.mutopianame != VNone {
      return Ok(c.mutopianame);
    }
    if !guess {
      return Err(AttributeErr("No mutopia name defined."));
    }
    var namelist := Words(c.name);
    if namelist == [] {
      return Err(IndexErr("pop from empty list"));
    }
    var lname := namelist[|namelist| - 1];
    var fletter := FirstLetter(namelist);
    var i := 0;
    while i < |composers|
      invariant 0 <= i <= |composers|
      invariant forall k :: 0 <= k < i ==> !Matches(composers[k], lname, fletter)
    {
      if Contains(composers[i], lname) && Contains(composers[i], fletter) {
        assert FirstMatch(composers, lname, fletter) == Some(i);
        c.mutopianame := VStr(composers[i]);
        return Ok(VStr(composers[i]));
      }
      i := i + 1;
    }
    return Err(UndefinedMutopiaError);
  }

  // ---------------------------------------------------------------------
  // validate_instruments, convert_ensemble

  /** The `instruments` argument: a list (element by element an
      instrument or not), an `Ensemble` with its member list (`None`
      until a member is added), or any other object. */
  datatype InstrumentsArg = ByList(elems: seq<Arg<Instrument>>) | ByEnsemble(members: Option<seq<Instrument>>) | ByOther

  const InstrumentsError: Error := TypeErr("'instruments' must be a list of instruments or an Ensemble instance.")

  /** `validate_instruments`: a list is read at index 0 (an empty list
      fails there) but its element is not judged; an ensemble passes;
      anything else is a `TypeError`. */
  function ValidateInstruments(v: InstrumentsArg): Result<()> {
    match v
    case ByList(xs) => if xs == [] then Err(IndexErr("list index out of range")) else Ok(())
    case ByEnsemble(_) => Ok(())
    case ByOther => Err(InstrumentsError)
  }

  /** The same argument as the later validator sees it. */
  function Shape(v: InstrumentsArg): Shaped<Instrument> {
    match v
    case ByList(xs) => AList(xs)
    case ByEnsemble(_) => AnEnsemble
    case ByOther => Other
  }

  /** The legacy check takes any non-empty list and any ensemble; an
      empty list fails at index 0 with `IndexError`; it agrees with the later one except on a non-empty list that does not
      start with an instrument, which only the later one refuses. */
  lemma ValidateAnyList(v: InstrumentsArg)
    ensures ValidateInstruments(v).Ok? <==> (v.ByList? && v.elems != []) || v.ByEnsemble?
    ensures v.ByOther? ==> ValidateInstruments(v) == Err(InstrumentsError)
    ensures v.ByList? && v.elems == [] ==> ValidateInstruments(v) == Err(IndexErr("list index out of range"))
    ensures !(v.ByList? && v.elems != [] && v.elems[0].Foreign?) ==>
      (ValidateInstruments(v).Ok? <==> ValidateInstrumentList(Shape(v)).Ok?)
    ensures v.ByList? && v.elems != [] && v.elems[0].Foreign? ==>
      ValidateInstruments(v).Ok? && ValidateInstrumentList(Shape(v)).Err?
  {
  }

  /** `convert_ensemble`: an ensemble is replaced by its member list; any
      other argument is returned as it is. */
  function ConvertEnsemble(v: InstrumentsArg): (r: InstrumentsArg)
    ensures !r.ByEnsemble?
    ensures !v.ByEnsemble? ==> r == v
  {
    match v
    case ByEnsemble(Some(ms)) => ByList(Wrapped(ms))
    case ByEnsemble(None) => ByOther
    case _ => v
  }

  /** The members come out whole and in order, each an instrument;
      converting twice is converting once. */
  lemma ConvertEnsembleMembers(v: InstrumentsArg)
    ensures v.ByEnsemble? && v.members.Some? ==>
      var r := ConvertEnsemble(v);
      r.ByList? && |r.elems| == |v.members.value|
      && forall i :: 0 <= i < |r.elems| ==> r.elems[i] == Expected(v.members.value[i])
    ensures ConvertEnsemble(ConvertEnsemble(v)) == ConvertEnsemble(v)
  {
  }
}
