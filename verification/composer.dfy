/** The local-only variant (scripts/script.js): nothing is persisted. A
    submission is checked for length only, and an accepted one is prepended to
    the card list as a card with a like button; the form then resets. */
module Composer {

  import opened Text
  import opened Counter

  const RecipientLimit: nat := 32
  const MessageLimit: nat := 500
  const RecipientTooLong := "Recipient name must be 32 characters or less."
  const MessageTooLong := "Message must be 500 characters or less."

  /** The heart icon (filled or not) and the `react-count` text beside it. */
  datatype Heart = Heart(filled: bool, count: string)

  /** A card as prepended: recipient and message as typed, the day's date, a like button. */
  datatype PostedCard = PostedCard(recipient: string, message: string, date: string, heart: Heart)

  /** The inline alert box: its text and whether it carries `d-none`. */
  datatype Alert = Alert(text: string, hidden: bool)

  datatype Composer = Composer(recipient: Field, message: Field, alert: Alert, cards: seq<PostedCard>)

  datatype Verdict = Accept | Reject(reason: string)

  /** Every card starts with an empty heart and a count of "0". */
  const NewHeart := Heart(false, "0")

  /** Length checks, recipient first: there is no check for empty fields. */
  function Validate(recipient: string, message: string): (v: Verdict)
    ensures v == Accept <==> |recipient| <= RecipientLimit && |message| <= MessageLimit
    ensures |recipient| > RecipientLimit ==> v == Reject(RecipientTooLong)
    ensures |recipient| <= RecipientLimit && |message| > MessageLimit ==> v == Reject(MessageTooLong)
  {
    if |recipient| > RecipientLimit then Reject(RecipientTooLong)
    else if |message| > MessageLimit then Reject(MessageTooLong)
    else Accept
  }

  /** Both fields empty is a valid submission in this variant. */
  lemma EmptyFieldsAccepted()
    ensures Validate("", "") == Accept
  {
  }

  /** Text that went through the counters is already short enough, so it always passes. */
  lemma CountedInputAccepted(recipient: string, message: string)
    ensures Validate(UpdateCounterCutFirst(recipient, RecipientLimit).value,
                     UpdateCounterCutFirst(message, MessageLimit).value) == Accept
  {
  }

  /** An emptied field whose counter is then forced back to the muted style. */
  function Cleared(limit: nat): (f: Field)
    ensures f == Field("", Unflagged(limit))
  {
    var f := UpdateCounterCutFirst("", limit);
    f.(counter := f.counter.(exceeded := false, muted := true))
  }

  /** The submit handler: hide the alert, validate, and on success prepend the new card
      and reset both fields and counters; on failure show the reason and change nothing else. */
  function Submit(c: Composer, today: string): (r: Composer)
    ensures r.alert.hidden <==> Validate(c.recipient.value, c.message.value) == Accept
    ensures Validate(c.recipient.value, c.message.value).Reject? ==>
      && r.alert.text == Validate(c.recipient.value, c.message.value).reason
      && r.recipient == c.recipient && r.message == c.message && r.cards == c.cards
    ensures Validate(c.recipient.value, c.message.value) == Accept ==>
      && r.alert == c.alert.(hidden := true)
      && |r.cards| == |c.cards| + 1
      && r.cards[1..] == c.cards
      && r.cards[0] == PostedCard(c.recipient.value, c.message.value, today, NewHeart)
      && r.recipient.value == [] && r.message.value == []
      && r.recipient.counter == CounterView("0 / 32 characters", false, true)
      && r.message.counter == CounterView("0 / 500 characters", false, true)
  {
    var quiet := c.alert.(hidden := true);
    var verdict := Validate(c.recipient.value, c.message.value);
    if verdict.Reject? then
      c.(alert := Alert(verdict.reason, false))
    else
      var card := PostedCard(c.recipient.value, c.message.value, today, NewHeart);
      var recipient := Cleared(RecipientLimit);
      var message := Cleared(MessageLimit);
      EmptyCaptions();
      Composer(recipient, message, quiet, [card] + c.cards)
  }

  /** The like count as `parseInt` reads it back from the text. */
  function Likes(h: Heart): nat
    requires IsNumeral(h.count)
  {
    ParseDecimal(h.count)
  }

  /** A click on the heart: a filled heart empties and the count drops, never below zero;
      an empty heart fills and the count rises by one. */
  function Toggle(h: Heart): (r: Heart)
    requires IsNumeral(h.count)
    ensures IsNumeral(r.count)
    ensures r.filled == !h.filled
    ensures h.filled ==> Likes(r) == if Likes(h) > 0 then Likes(h) - 1 else 0
    ensures !h.filled ==> Likes(r) == Likes(h) + 1
  {
    var n := ParseDecimal(h.count);
    if h.filled then
      var m := if n - 1 > 0 then n - 1 else 0;
      ParseDecimalOfDecimal(m);
      Heart(false, Decimal(m))
    else
      ParseDecimalOfDecimal(n + 1);
      Heart(true, Decimal(n + 1))
  }

  /** The heart after `n` clicks. */
  function Clicks(h: Heart, n: nat): (r: Heart)
    requires IsNumeral(h.count)
    ensures IsNumeral(r.count)
  {
    if n == 0 then h else Toggle(Clicks(h, n - 1))
  }

  /** The states a fresh card's heart can reach: filled exactly when the count is one,
      the count zero or one, and the text the canonical numeral of the count. */
  predicate Consistent(h: Heart) {
    && IsNumeral(h.count)
    && (h.filled <==> Likes(h) == 1)
    && Likes(h) <= 1
    && h.count == Decimal(Likes(h))
  }

  lemma ToggleKeepsConsistent(h: Heart)
    requires Consistent(h)
    ensures Consistent(Toggle(h))
  {
    ParseDecimalOfDecimal(0);
    ParseDecimalOfDecimal(1);
  }

  /** However often a fresh card's heart is clicked, it stays consistent. */
  lemma {:induction false} LikesStayConsistent(n: nat)
    ensures Consistent(Clicks(NewHeart, n))
  {
    if n == 0 {
      ParseDecimalOfDecimal(0);
      assert Decimal(0) == "0";
    } else {
      LikesStayConsistent(n - 1);
      ToggleKeepsConsistent(Clicks(NewHeart, n - 1));
    }
  }

  /** Two clicks restore the liked state and count, except on a filled heart showing zero. */
  lemma ToggleTwice(h: Heart)
    requires IsNumeral(h.count)
    ensures Toggle(Toggle(h)).filled == h.filled
    ensures Likes(Toggle(Toggle(h))) == Likes(h) <==> !(h.filled && Likes(h) == 0)
  {
  }

  /** On a fresh card's heart two further clicks give back exactly the same state. */
  lemma TwoClicksRestore(n: nat)
    ensures Clicks(NewHeart, n + 2) == Clicks(NewHeart, n)
  {
    LikesStayConsistent(n);
    var h := Clicks(NewHeart, n);
    ParseDecimalOfDecimal(0);
    ParseDecimalOfDecimal(1);
    assert Clicks(NewHeart, n + 2) == Toggle(Toggle(h));
  }
}
