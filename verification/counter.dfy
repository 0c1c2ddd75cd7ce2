/** The character counter attached to a bounded text field. Each keystroke
    caps the field's text at `limit` characters and rewrites the counter
    element: its caption, and the `exceeded` / `text-muted` classes, of which
    exactly one is present afterwards. Both scripts carry a copy. */
module Counter {

  import opened Text
  import opened Listing

  /** The counter element: its `textContent` and whether it carries each class. */
  datatype CounterView = CounterView(text: string, exceeded: bool, muted: bool)

  /** A bounded input together with its counter. */
  datatype Field = Field(value: string, counter: CounterView)

  /** "<length> / <limit> characters". */
  function Caption(length: nat, limit: nat): string {
    Decimal(length) + " / " + Decimal(limit) + " characters"
  }

  /** The counter of an empty field: "0 / <limit> characters", muted. */
  function Unflagged(limit: nat): CounterView {
    CounterView(Caption(0, limit), false, true)
  }

  /** `updateCounter` of the board script: measure, cut to `limit` when longer, then reflect. */
  function UpdateCounter(value: string, limit: nat): (f: Field)
    ensures |f.value| == Min(|value|, limit)
    ensures f.value <= value
    ensures f.counter.text == Caption(|f.value|, limit)
    ensures f.counter.exceeded <==> |f.value| >= limit
    ensures f.counter.muted <==> !f.counter.exceeded
  {
    var length := |value|;
    var kept := if length > limit then value[..limit] else value;
    var shown := if length > limit then limit else length;
    if shown >= limit then
      Field(kept, CounterView(Caption(shown, limit), true, false))
    else
      Field(kept, CounterView(Caption(shown, limit), false, true))
  }

  /** `updateCounter` of the local-only script: cut first, then measure what is left. */
  function UpdateCounterCutFirst(value: string, limit: nat): (f: Field)
    ensures |f.value| == Min(|value|, limit)
    ensures f.value <= value
    ensures f.counter.exceeded <==> |f.value| >= limit
    ensures f.counter.muted <==> !f.counter.exceeded
  {
    var kept := if |value| > limit then value[..limit] else value;
    var length := |kept|;
    if length >= limit then
      Field(kept, CounterView(Caption(length, limit), true, false))
    else
      Field(kept, CounterView(Caption(length, limit), false, true))
  }

  /** The two copies leave the field and the counter in the same state. */
  lemma CounterCopiesAgree(value: string, limit: nat)
    ensures UpdateCounterCutFirst(value, limit) == UpdateCounter(value, limit)
  {
  }

  /** Running the update again on its own output changes nothing. */
  lemma UpdateCounterIdempotent(value: string, limit: nat)
    ensures UpdateCounter(UpdateCounter(value, limit).value, limit) == UpdateCounter(value, limit)
  {
  }

  /** A field at exactly `limit` characters is flagged and kept whole; below it, unflagged. */
  lemma FlaggedFromLimit(value: string, limit: nat)
    ensures |value| == limit ==> UpdateCounter(value, limit) == Field(value, CounterView(Caption(limit, limit), true, false))
    ensures |value| < limit ==> UpdateCounter(value, limit) == Field(value, CounterView(Caption(|value|, limit), false, true))
  {
  }

  /** Emptying a field with a positive limit shows "0 / limit characters", unflagged. */
  lemma ClearedField(limit: nat)
    requires limit > 0
    ensures UpdateCounter("", limit) == Field("", Unflagged(limit))
  {
  }

  lemma CaptionOfZero(limit: nat, numeral: string)
    requires Decimal(limit) == numeral
    ensures Caption(0, limit) == "0 / " + numeral + " characters"
  {
    assert Decimal(0) == "0" by {
      assert DigitChar(0) == '0';
    }
  }

  lemma Numeral32()
    ensures Decimal(32) == "32"
  {
    assert DigitChar(3) == '3' && DigitChar(2) == '2';
    assert Decimal(32) == Decimal(3) + [DigitChar(2)];
  }

  lemma Numeral300()
    ensures Decimal(300) == "300"
  {
    assert DigitChar(3) == '3' && DigitChar(0) == '0';
    assert Decimal(300) == Decimal(30) + [DigitChar(0)];
    assert Decimal(30) == Decimal(3) + [DigitChar(0)];
  }

  lemma Numeral500()
    ensures Decimal(500) == "500"
  {
    assert DigitChar(5) == '5' && DigitChar(0) == '0';
    assert Decimal(500) == Decimal(50) + [DigitChar(0)];
    assert Decimal(50) == Decimal(5) + [DigitChar(0)];
  }

  /** The captions of the emptied fields in both scripts. */
  lemma EmptyCaptions()
    ensures Caption(0, 32) == "0 / 32 characters"
    ensures Caption(0, 300) == "0 / 300 characters"
    ensures Caption(0, 500) == "0 / 500 characters"
  {
    Numeral32();
    CaptionOfZero(32, "32");
    Numeral300();
    CaptionOfZero(300, "300");
    Numeral500();
    CaptionOfZero(500, "500");
  }
}
