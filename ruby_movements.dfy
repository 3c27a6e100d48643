/** The Ruby prototype's movements (classes/movements_class.rb): a count
    fixed when the object is made, and two constant tables read by
    movement number — the variable stem and the printed heading. Only
    numbers above the count are refused; the rest index the tables the
    way Ruby arrays are indexed. */
module RubyMovements {
  import opened Outcomes

  /** `@@ordinal_movements`. */
  const Ordinals: seq<string> := ["first_mov", "second_mov", "third_mov", "fourth_mov",
    "fifth_mov", "sixth_mov", "seventh_mov", "eighth_mov",
    "ninth_mov", "tenth_mov", "eleventh_mov", "twelfth_mov"]

  /** `@@number_words`. */
  const Headings: seq<string> := ["First Movement", "Second Movement", "Third Movement", "Fourth Movement",
    "Fifth Movement", "Sixth Movement", "Seventh Movement", "Eighth Movement",
    "Ninth Movement", "Tenth Movement", "Eleventh Movement", "Twelfth Movement"]

  const OutOfRange: string := "Exception: Out of Range: Tried to generate move movements than are in the piece."

  /** Ruby's `array[i]`: a negative index counts from the end, and an
      index outside the array gives `nil`. */
  function At(table: seq<string>, i: int): (r: Option<string>)
    ensures r.Some? <==> -|table| <= i < |table|
  {
    if 0 <= i < |table| then Some(table[i])
    else if -|table| <= i < 0 then Some(table[|table| + i])
    else None
  }

  /** A `Movements` object; `count` is what `gets.chomp.to_i` read. */
  datatype Movements = Movements(count: int) {
    /** `movement_number(num)`: a number above the count aborts; a
        number 1..12 names that movement; 0 down to -11 count from the
        end of the table; anything further out is `nil`. */
    function MovementNumber(num: int): (r: Result<Option<string>>)
      ensures r.Err? <==> num > count
      ensures r.Err? ==> r.error == Abort(OutOfRange)
      ensures num <= count && 1 <= num <= 12 ==> r == Ok(Some(Ordinals[num - 1]))
      ensures num <= count && -11 <= num <= 0 ==> r == Ok(Some(Ordinals[num + 11]))
      ensures num <= count && (num > 12 || num < -11) ==> r == Ok(None)
    {
      if num <= count then Ok(At(Ordinals, num - 1)) else Err(Abort(OutOfRange))
    }

    /** `comment(num)`, with the same bound, the same abort and the same
        indexing. */
    function Comment(num: int): (r: Result<Option<string>>)
      ensures r.Err? <==> num > count
      ensures r.Err? ==> r.error == Abort(OutOfRange)
      ensures num <= count && 1 <= num <= 12 ==> r == Ok(Some(Headings[num - 1]))
      ensures num <= count && -11 <= num <= 0 ==> r == Ok(Some(Headings[num + 11]))
      ensures num <= count && (num > 12 || num < -11) ==> r == Ok(None)
    {
      if num <= count then Ok(At(Headings, num - 1)) else Err(Abort(OutOfRange))
    }
  }

  /** `movement_number` and `comment` agree: they refuse the same numbers,
      give `nil` for the same numbers, and otherwise read the same
      position of their tables. */
  lemma MovementMatchesComment(m: Movements, num: int)
    ensures m.MovementNumber(num).Err? <==> m.Comment(num).Err?
    ensures m.MovementNumber(num).Ok? ==>
      (m.MovementNumber(num).value.Some? <==> m.Comment(num).value.Some?)
    ensures m.MovementNumber(num).Ok? && m.MovementNumber(num).value.Some? ==>
      exists k :: 0 <= k < 12
        && m.MovementNumber(num).value.value == Ordinals[k]
        && m.Comment(num).value.value == Headings[k]
  {
    if num <= m.count && -12 <= num - 1 < 12 {
      var k := if num - 1 >= 0 then num - 1 else 12 + num - 1;
      assert m.MovementNumber(num).value.value == Ordinals[k];
    }
  }

  /** A piece of at least one movement: movement 1 is `first_mov`. */
  lemma FirstMovement(m: Movements)
    requires m.count >= 1
    ensures m.MovementNumber(1) == Ok(Some("first_mov"))
    ensures m.Comment(1) == Ok(Some("First Movement"))
  {
  }

  /** A piece of twelve movements: movement 12 is `twelfth_mov`. */
  lemma TwelfthMovement(m: Movements)
    requires m.count >= 12
    ensures m.MovementNumber(12) == Ok(Some("twelfth_mov"))
    ensures m.Comment(12) == Ok(Some("Twelfth Movement"))
  {
  }
}
