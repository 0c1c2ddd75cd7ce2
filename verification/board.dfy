/** The persisted board (public/script.js). The remote collection `messages` is
    a sequence of records. Each store call (`addDoc` or `getDocs`) either succeeds
    against it or fails as a whole; its outcome is a parameter of the operation
    that issues it. A page holds the records, the submission form, the main
    listing region and the "messages of the day" region, each region being the
    list of nodes it displays. */
module Board {

  import opened Optional
  import opened Text
  import opened Listing
  import opened Counter

  const MaxMessageLength: nat := 300
  const MaxRecipientLength: nat := 32
  /** How many of the day's messages the highlights region shows at most. */
  const DailyPicks: nat := 8

  const UnknownDate := "Unknown Date"
  /** What a template literal writes for a field the document lacks. */
  const Undefined := "undefined"
  const NoMessages := "No messages found."
  const NoMessagesToday := "No messages found for today."
  const LoadError := "Error loading messages."
  const SearchError := "Error filtering messages."
  const TodayError := "Error loading messages of the day."

  /** Seconds (or any unit) of a store timestamp; only their order matters here. */
  type Timestamp = int

  /** A document of the collection. Documents are schemaless, so any field may be missing
      from a document this script did not write. */
  datatype Record = Record(
    recipient: Option<string>,
    recipientLower: Option<string>,
    message: Option<string>,
    datePosted: Option<Timestamp>)

  /** `text-muted` or `text-danger` on a placeholder paragraph. */
  datatype Tone = Muted | Danger

  /** What a card shows: "To: recipient", the body, and the footer date. */
  datatype Card = Card(recipient: string, message: string, date: string)

  datatype Node = Notice(text: string, tone: Tone) | CardNode(card: Card)

  datatype Form = Form(recipient: Field, message: Field)

  datatype Page = Page(records: seq<Record>, form: Form, listing: seq<Node>, highlights: seq<Node>)

  datatype SubmitOutcome = EmptyField | Added | WriteFailed

  /** One colour channel of the card background, `Math.floor(u * 100 + 155)` for a draw `u`
      of `Math.random`. */
  function Channel(u: real): (c: int)
    requires 0.0 <= u < 1.0
    ensures 155 <= c <= 254
  {
    (u * 100.0 + 155.0).Floor
  }

  /** A text field as interpolated into the card: its value, or "undefined" when missing. */
  function Shown(field: Option<string>): string {
    match field
    case Some(v) => v
    case None => Undefined
  }

  /** The footer date: the formatted timestamp, or the fixed text when the document has none. */
  function DateLabel(posted: Option<Timestamp>, fmt: Timestamp -> string): string {
    match posted
    case Some(t) => fmt(t)
    case None => UnknownDate
  }

  /** `createMessageCard` without markup and colour. */
  function Render(r: Record, fmt: Timestamp -> string): Card {
    Card(Shown(r.recipient), Shown(r.message), DateLabel(r.datePosted, fmt))
  }

  /** One card per document, in snapshot order. */
  function Cards(docs: seq<Record>, fmt: Timestamp -> string): seq<Node> {
    seq(|docs|, i requires 0 <= i < |docs| => CardNode(Render(docs[i], fmt)))
  }

  /** A region after `displayMessages`: it is cleared, then either holds the placeholder
      (no snapshot, or an empty one) or the cards. Nothing of the old contents survives. */
  function Displayed(snapshot: Option<seq<Record>>, fmt: Timestamp -> string): seq<Node> {
    if snapshot.None? || snapshot.value == [] then [Notice(NoMessages, Muted)]
    else Cards(snapshot.value, fmt)
  }

  /** `displayMessages` as the source runs it: clear the container, then append card by card. */
  method DisplayMessages(snapshot: Option<seq<Record>>, fmt: Timestamp -> string) returns (region: seq<Node>)
    ensures snapshot.None? || snapshot.value == [] ==> region == [Notice(NoMessages, Muted)]
    ensures snapshot.Some? && snapshot.value != [] ==>
      && |region| == |snapshot.value|
      && forall i :: 0 <= i < |region| ==> region[i] == CardNode(Render(snapshot.value[i], fmt))
    ensures region == Displayed(snapshot, fmt)
  {
    region := [];
    if snapshot.None? || |snapshot.value| == 0 {
      region := region + [Notice(NoMessages, Muted)];
      return;
    }
    var docs := snapshot.value;
    var i := 0;
    while i < |docs|
      invariant 0 <= i <= |docs|
      invariant |region| == i
      invariant forall k :: 0 <= k < i ==> region[k] == CardNode(Render(docs[k], fmt))
    {
      region := region + [CardNode(Render(docs[i], fmt))];
      i := i + 1;
    }
  }

  /** Every card of a displayed listing comes from the document at the same position,
      with its recipient and message as stored ("undefined" when missing) and
      "Unknown Date" for a missing date. */
  lemma DisplayedCardsMatch(docs: seq<Record>, fmt: Timestamp -> string, i: nat)
    requires i < |docs|
    ensures |Displayed(Some(docs), fmt)| == |docs|
    ensures Displayed(Some(docs), fmt)[i].CardNode?
    ensures docs[i].recipient.Some? ==> Displayed(Some(docs), fmt)[i].card.recipient == docs[i].recipient.value
    ensures docs[i].recipient.None? ==> Displayed(Some(docs), fmt)[i].card.recipient == Undefined
    ensures docs[i].message.Some? ==> Displayed(Some(docs), fmt)[i].card.message == docs[i].message.value
    ensures docs[i].message.None? ==> Displayed(Some(docs), fmt)[i].card.message == Undefined
    ensures docs[i].datePosted.None? ==> Displayed(Some(docs), fmt)[i].card.date == UnknownDate
    ensures docs[i].datePosted.Some? ==> Displayed(Some(docs), fmt)[i].card.date == fmt(docs[i].datePosted.value)
  {
  }

  /** `toLocaleDateString` with a month-name format never writes the placeholder, so a
      card reads "Unknown Date" exactly when its document has no `datePosted`. */
  lemma UnknownDateIffUndated(docs: seq<Record>, fmt: Timestamp -> string, i: nat)
    requires forall t :: fmt(t) != UnknownDate
    requires i < |docs|
    ensures Displayed(Some(docs), fmt)[i].CardNode?
    ensures Displayed(Some(docs), fmt)[i].card.date == UnknownDate <==> docs[i].datePosted.None?
  {
    DisplayedCardsMatch(docs, fmt, i);
  }

  /** `loadMessages`: the full listing, or the error placeholder when the fetch fails. */
  function LoadMessages(records: seq<Record>, fetchOk: bool, fmt: Timestamp -> string): (region: seq<Node>)
    ensures !fetchOk ==> region == [Notice(LoadError, Danger)]
    ensures fetchOk && records == [] ==> region == [Notice(NoMessages, Muted)]
    ensures fetchOk && records != [] ==>
      |region| == |records| && forall n :: n in region ==> n.CardNode?
  {
    if fetchOk then Displayed(Some(records), fmt) else [Notice(LoadError, Danger)]
  }

  /** `resetForm`: both fields emptied and both counters back to zero, unflagged. */
  function ResetForm(): (f: Form)
    ensures f.recipient.value == [] && f.message.value == []
    ensures f.recipient.counter == CounterView("0 / 32 characters", false, true)
    ensures f.message.counter == CounterView("0 / 300 characters", false, true)
  {
    ClearedField(MaxRecipientLength);
    ClearedField(MaxMessageLength);
    Form(UpdateCounter("", MaxRecipientLength), UpdateCounter("", MaxMessageLength))
  }

  /** The document `addDoc` receives: the fields as typed (untrimmed), the lower-cased
      shadow of the recipient, and the timestamp taken at submission. */
  function Posted(f: Form, now: Timestamp): Record {
    Record(Some(f.recipient.value), Some(Lower(f.recipient.value)), Some(f.message.value), Some(now))
  }

  /** The submit handler: reject when either field trims to nothing, else write one
      document (`writeOk` is the outcome of `addDoc`), then reset the form and reload the
      full listing (`reloadOk` is the outcome of that separate fetch). */
  function Submit(p: Page, now: Timestamp, writeOk: bool, reloadOk: bool, fmt: Timestamp -> string): (r: (Page, SubmitOutcome))
    ensures r.1 == EmptyField <==> AllSpace(p.form.recipient.value) || AllSpace(p.form.message.value)
    ensures r.1 == WriteFailed <==> r.1 != EmptyField && !writeOk
    ensures r.1 != Added ==> r.0 == p
    ensures r.1 == Added ==>
      && |r.0.records| == |p.records| + 1
      && r.0.records[..|p.records|] == p.records
      && r.0.records[|p.records|].recipient == Some(p.form.recipient.value)
      && r.0.records[|p.records|].recipientLower == Some(Lower(p.form.recipient.value))
      && r.0.records[|p.records|].message == Some(p.form.message.value)
      && r.0.records[|p.records|].datePosted == Some(now)
      && r.0.form == ResetForm()
      && (reloadOk ==> r.0.listing == Displayed(Some(r.0.records), fmt))
      && (!reloadOk ==> r.0.listing == [Notice(LoadError, Danger)])
      && r.0.highlights == p.highlights
  {
    var recipient := Trim(p.form.recipient.value);
    var message := Trim(p.form.message.value);
    if recipient == [] || message == [] then
      (p, EmptyField)
    else if !writeOk then
      (p, WriteFailed)
    else
      var records := p.records + [Posted(p.form, now)];
      assert records[..|p.records|] == p.records;
      (Page(records, ResetForm(), LoadMessages(records, reloadOk, fmt), p.highlights), Added)
  }

  /** A document in a non-empty displayed listing has its card among the nodes. */
  lemma DisplayedShows(docs: seq<Record>, d: Record, fmt: Timestamp -> string)
    requires d in docs
    ensures CardNode(Render(d, fmt)) in Displayed(Some(docs), fmt)
  {
    var i :| 0 <= i < |docs| && docs[i] == d;
    assert Displayed(Some(docs), fmt)[i] == CardNode(Render(d, fmt));
  }

  /** After a successful submission and reload the listing has one more card than there were
      documents before, and among the cards is one showing exactly what was typed and the
      formatted submission time. */
  lemma SubmitShowsNewCard(p: Page, now: Timestamp, writeOk: bool, reloadOk: bool, fmt: Timestamp -> string)
    requires !AllSpace(p.form.recipient.value) && !AllSpace(p.form.message.value)
    requires writeOk && reloadOk
    ensures var listing := Submit(p, now, writeOk, reloadOk, fmt).0.listing;
      && |listing| == |p.records| + 1
      && CardNode(Card(p.form.recipient.value, p.form.message.value, fmt(now))) in listing
  {
    var records := Submit(p, now, writeOk, reloadOk, fmt).0.records;
    assert records == p.records + [Posted(p.form, now)];
    DisplayedShows(records, Posted(p.form, now), fmt);
  }

  /** The normalised search text: trimmed, then lower-cased. Empty exactly for blank input. */
  function SearchKey(query: string): (key: string)
    ensures key == [] <==> AllSpace(query)
    ensures Trimmed(key)
  {
    var t := Trim(query);
    LowerKeepsTrimmed(t);
    Lower(t)
  }

  /** The key of a query is the lower-cased text between its border white space, so the
      search ignores surrounding spaces and (ASCII) letter case. */
  lemma SearchKeyIgnoresBorderAndCase(before: string, name: string, after: string)
    requires AllSpace(before) && AllSpace(after) && Trimmed(name)
    ensures SearchKey(before + name + after) == Lower(name)
  {
    TrimAround(before, name, after);
  }

  /** The result of the equality query on `recipient_lower`. */
  function Addressed(records: seq<Record>, key: string): seq<Record> {
    Filter(records, (r: Record) => r.recipientLower == Some(key))
  }

  /** `searchMessages`: a blank query reloads the full listing; any other query lists the
      documents whose shadow field equals the key (`fetchOk` is the outcome of the fetch).
      Only the listing region changes. */
  function Search(p: Page, query: string, fetchOk: bool, fmt: Timestamp -> string): (r: Page)
    ensures r.records == p.records && r.form == p.form && r.highlights == p.highlights
    ensures AllSpace(query) ==> r.listing == LoadMessages(p.records, fetchOk, fmt)
    ensures !AllSpace(query) && !fetchOk ==> r.listing == [Notice(SearchError, Danger)]
    ensures !AllSpace(query) && fetchOk ==>
      r.listing == Displayed(Some(Addressed(p.records, SearchKey(query))), fmt)
  {
    var key := SearchKey(query);
    if key == [] then p.(listing := LoadMessages(p.records, fetchOk, fmt))
    else if !fetchOk then p.(listing := [Notice(SearchError, Danger)])
    else p.(listing := Displayed(Some(Addressed(p.records, key)), fmt))
  }

  /** A search key matches exactly the documents whose shadow field equals it, in store order. */
  lemma AddressedExactly(records: seq<Record>, more: seq<Record>, key: string, r: Record)
    ensures r in Addressed(records, key) <==> r in records && r.recipientLower == Some(key)
    ensures Addressed(records + more, key) == Addressed(records, key) + Addressed(more, key)
  {
    FilterAppend(records, more, (r: Record) => r.recipientLower == Some(key));
  }

  /** A recipient submitted with leading or trailing white space is never found by a
      non-blank search: the key has no border space, the stored shadow does. */
  lemma UntrimmedRecipientNeverMatched(recipient: string, query: string)
    requires !Trimmed(recipient)
    requires !AllSpace(query)
    ensures SearchKey(query) != Lower(recipient)
  {
    var key := SearchKey(query);
    LowerKeepsSpace(recipient[0]);
    LowerKeepsSpace(recipient[|recipient| - 1]);
  }

  /** Searching for the submitted name, with any white space around it and in any letter
      case, finds the document just written, and the search listing shows its card. */
  lemma SubmitThenSearchFinds(p: Page, now: Timestamp, writeOk: bool, reloadOk: bool, fmt: Timestamp -> string,
                              before: string, name: string, after: string)
    requires !AllSpace(p.form.recipient.value) && !AllSpace(p.form.message.value) && writeOk
    requires AllSpace(before) && AllSpace(after) && Trimmed(name) && name != []
    requires Lower(name) == Lower(p.form.recipient.value)
    ensures var q := Submit(p, now, writeOk, reloadOk, fmt).0;
      && Posted(p.form, now) in Addressed(q.records, SearchKey(before + name + after))
      && CardNode(Card(p.form.recipient.value, p.form.message.value, fmt(now)))
           in Search(q, before + name + after, true, fmt).listing
  {
    var q := Submit(p, now, writeOk, reloadOk, fmt).0;
    var query := before + name + after;
    SearchKeyIgnoresBorderAndCase(before, name, after);
    assert !AllSpace(query) by {
      assert query[|before|] == name[0];
    }
    var key := SearchKey(query);
    assert q.records == p.records + [Posted(p.form, now)];
    AddressedExactly(q.records, [], key, Posted(p.form, now));
    DisplayedShows(Addressed(q.records, key), Posted(p.form, now), fmt);
  }

  /** The "today" window is half-open: its start is in, the next day's start is out. */
  predicate PostedWithin(r: Record, start: Timestamp, end: Timestamp) {
    r.datePosted.Some? && start <= r.datePosted.value < end
  }

  /** The result of the range query on `datePosted`. */
  function DayListing(records: seq<Record>, start: Timestamp, end: Timestamp): seq<Record> {
    Filter(records, (r: Record) => PostedWithin(r, start, end))
  }

  /** Membership in the day listing, and both of its boundaries. */
  lemma DayListingWindow(records: seq<Record>, start: Timestamp, end: Timestamp, r: Record)
    requires r in records
    ensures r in DayListing(records, start, end) <==> r.datePosted.Some? && start <= r.datePosted.value < end
    ensures start < end && r.datePosted == Some(start) ==> r in DayListing(records, start, end)
    ensures r.datePosted == Some(end) ==> r !in DayListing(records, start, end)
    ensures r.datePosted.None? ==> r !in DayListing(records, start, end)
  {
  }

  /** The first `DailyPicks` of the shuffled day listing: as many as there are, up to eight,
      each taken from a distinct document of the day, and all of them when at most eight. */
  function PickOfTheDay(day: seq<Record>, shuffled: seq<Record>): (picks: seq<Record>)
    requires multiset(shuffled) == multiset(day)
    ensures |picks| == Min(DailyPicks, |day|)
    ensures multiset(picks) <= multiset(day)
    ensures |day| <= DailyPicks ==> multiset(picks) == multiset(day)
  {
    var k := Min(DailyPicks, |shuffled|);
    assert |shuffled| == |day| by {
      assert |multiset(shuffled)| == |multiset(day)|;
    }
    assert shuffled == shuffled[..k] + shuffled[k..];
    assert multiset(shuffled) == multiset(shuffled[..k]) + multiset(shuffled[k..]);
    shuffled[..k]
  }

  /** `loadMessagesOfTheDay`: query the window (`fetchOk` is the outcome of the fetch),
      shuffle (any order the comparator produces), keep eight, and render them into the
      highlights region. Only that region changes. */
  function LoadMessagesOfTheDay(p: Page, start: Timestamp, end: Timestamp, fetchOk: bool,
                                shuffled: seq<Record>, fmt: Timestamp -> string): (r: Page)
    requires fetchOk ==> multiset(shuffled) == multiset(DayListing(p.records, start, end))
    ensures r.records == p.records && r.form == p.form && r.listing == p.listing
    ensures !fetchOk ==> r.highlights == [Notice(TodayError, Danger)]
    ensures fetchOk && DayListing(p.records, start, end) == [] ==>
      r.highlights == [Notice(NoMessagesToday, Muted)]
    ensures fetchOk && DayListing(p.records, start, end) != [] ==>
      var day := DayListing(p.records, start, end);
      exists picks: seq<Record> ::
        && |picks| == Min(DailyPicks, |day|)
        && multiset(picks) <= multiset(day)
        && (|day| <= DailyPicks ==> multiset(picks) == multiset(day))
        && r.highlights == Cards(picks, fmt)
  {
    if !fetchOk then
      p.(highlights := [Notice(TodayError, Danger)])
    else
      var picks := PickOfTheDay(DayListing(p.records, start, end), shuffled);
      if picks == [] then p.(highlights := [Notice(NoMessagesToday, Muted)])
      else p.(highlights := Cards(picks, fmt))
  }
}
