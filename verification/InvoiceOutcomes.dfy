/** What every transaction on an invoice comes to, and what its sums mean. */
module InvoiceOutcomes {
  import opened Prelude
  import opened Decimals
  import opened Invoice

  // ---- Sums ----------------------------------------------------------------------------------------

  /** The amounts of one kind, added up. */
  function Booked(events: seq<PaymentEvent>, kind: Kind): nat
  {
    if events == [] then 0
    else if events[|events| - 1].kind == kind then Booked(events[..|events| - 1], kind) + events[|events| - 1].amount
    else Booked(events[..|events| - 1], kind)
  }

  lemma {:induction false} TotalIsBooked(events: seq<PaymentEvent>, kind: Kind)
    ensures TotalOf(events, kind) == Booked(events, kind)
  {
    if events != [] { TotalIsBooked(events[..|events| - 1], kind); }
  }

  lemma BookedMore(events: seq<PaymentEvent>, e: PaymentEvent, kind: Kind)
    ensures Booked(events + [e], kind) == Booked(events, kind) + (if e.kind == kind then e.amount else 0)
  {
    assert (events + [e])[..|events|] == events;
  }

  /** The credits applied, and what has been paid, not refunded, or written off. */
  function Covered(row: Row): int
  {
    row.creditsApplied + Booked(row.events, Payment) - Booked(row.events, Refund) + Booked(row.events, WriteOff)
  }

  lemma SumsAre(row: Row)
    ensures Settled(row, row.events) == Covered(row)
    ensures Paid(row.events) == Booked(row.events, Payment) - Booked(row.events, Refund)
  {
    TotalIsBooked(row.events, Payment);
    TotalIsBooked(row.events, Refund);
    TotalIsBooked(row.events, WriteOff);
  }

  /** In every run no more is refunded than was paid, and no more covered than is owed. */
  lemma CoveredInRange(events: seq<Event>, i: nat)
    requires i < |Run(events).invoices|
    ensures var row := Run(events).invoices[i];
      Booked(row.events, Refund) <= Booked(row.events, Payment) && 0 <= Covered(row) <= row.total
  {
    hide Run, Paid, Settled, Booked;
    InvoicesSound(events, i, i);
    SumsAre(Run(events).invoices[i]);
  }

  // ---- Payments, refunds and write-offs ---------------------------------------------------------------

  /** A whole positive amount of minor units that fits 64 bits, a currency, a usable key, and not from the future. */
  predicate WellFormed(q: Request, now: int)
  {
    && |q.amountMinor| > 0 && q.amountMinor[0] != '0'
    && (forall i :: 0 <= i < |q.amountMinor| ==> '0' <= q.amountMinor[i] <= '9')
    && Number(q.amountMinor) <= 9223372036854775807
    && |q.currency| == 3 && (forall i :: 0 <= i < 3 ==> 'A' <= q.currency[i] <= 'Z')
    && 1 <= |q.key| <= 200 && (q.reference.None? || |q.reference.value| <= 255)
    && q.occurredAt <= now + 300_000
  }

  /** The invoice is issued, in the currency of the request, and was so when the activity occurred. */
  predicate Open(row: Row, q: Request)
  {
    row.status == Issued && row.currency == q.currency && row.issuedAt.Some? && row.issuedAt.value <= q.occurredAt
  }

  /** A payment or write-off must be owed, and a refund must have been paid. */
  predicate Affordable(row: Row, kind: Kind, amount: nat)
  {
    if kind == Refund then amount <= Booked(row.events, Payment) - Booked(row.events, Refund)
    else amount <= row.total - Covered(row)
  }

  /**
   * A request is recorded exactly when it is well formed, the invoice is open to it, its key is new
   * and the amount is owed, or for a refund has been paid. Under a used key it is accepted without
   * effect if it is the same request, and in conflict otherwise.
   */
  lemma RecordOutcome(row: Row, q: Request, now: int)
    requires Sound(row)
    ensures var r := Record(row, q, now);
      if !WellFormed(q, now) then r == Err(PaymentInvalid)
      else if !Open(row, q) then r == Err(PaymentForbidden)
      else
        var e := PaymentEvent(q.kind, Number(q.amountMinor), q.currency, q.key, q.reference, q.occurredAt);
        if e in row.events then r == Ok(row)
        else if exists x :: x in row.events && x.key == q.key then r == Err(IdempotencyConflict)
        else if !Affordable(row, q.kind, e.amount) then r == Err(PaymentAmountInvalid)
        else r == Ok(row.(events := row.events + [e]))
  {
    hide TotalOf, Booked, Number;
    WellFormedIs(q, now);
    if RequestValid(q, now) && AcceptsActivity(row, q) {
      var e := EventOf(q);
      if i :| 0 <= i < |row.events| && row.events[i].key == q.key {
        RepeatedKeyAddsNothing(row, q, now, i);
        assert e in row.events ==> row.events[i] == e by { KeyOnce(row, e, i); }
        assert row.events[i] in row.events;
      } else {
        assert Find(row.events, q.key) == |row.events|;
        AmountFits(row, e);
      }
    }
  }

  lemma KeyOnce(row: Row, e: PaymentEvent, i: nat)
    requires Sound(row) && i < |row.events| && row.events[i].key == e.key
    ensures e in row.events ==> row.events[i] == e
  {
    hide Balanced;
  }

  lemma WellFormedIs(q: Request, now: int)
    ensures WellFormed(q, now) <==> RequestValid(q, now)
  {
    hide Number;
  }

  lemma AmountFits(row: Row, e: PaymentEvent)
    requires Sound(row)
    ensures Balanced(row, row.events + [e]) <==> Affordable(row, e.kind, e.amount)
  {
    hide Booked;
    SumsAre(row);
    var after := row.(events := row.events + [e]);
    SumsAre(after);
    BookedMore(row.events, e, Payment);
    BookedMore(row.events, e, Refund);
    BookedMore(row.events, e, WriteOff);
  }

  // ---- The life of an invoice -----------------------------------------------------------------------------

  function Listed(amounts: seq<nat>): nat
  {
    if amounts == [] then 0 else Listed(amounts[..|amounts| - 1]) + amounts[|amounts| - 1]
  }

  lemma {:induction false} SumIsListed(amounts: seq<nat>)
    ensures SumOf(amounts) == Listed(amounts)
  {
    if amounts != [] { SumIsListed(amounts[..|amounts| - 1]); }
  }

  /**
   * A draft owes the sum of its lines, and applies the credits of its settlements to the nearest
   * minor unit, halves rounded up; credits are for invoices in dollars and never exceed the total.
   */
  lemma DraftOutcome(b: Book, terms: DraftTerms, lines: seq<nat>, references: seq<Reference>)
    ensures var r := DraftInvoice(b, terms, lines, references);
      var total, credits := Listed(lines), Listed(seq(|references|, i requires 0 <= i < |references| => references[i].microcredits));
      var applied := (credits + 5_000_000) / 10_000_000;
      if credits > 0 && terms.currency != "USD" then r == Err(CreditCurrencyMismatch)
      else if total > 9223372036854775807 then r == Err(TotalInvalid)
      else if applied > total then r == Err(CreditExceedsTotal)
      else r == Ok(b.(invoices := b.invoices + [Row(
        Draft, terms.issuer, terms.organisation, terms.month, terms.currency, total, applied,
        set x | x in references :: x.settlement, None, None, None, None, [])]))
  {
    hide SumOf, Listed;
    SumIsListed(lines);
    SumIsListed(Microcredits(references));
  }

  /** The invoice is being or has been issued. */
  predicate Current(row: Row)
  {
    row.status == Issuing || row.status == Issued
  }

  /** Another current invoice is of the same organisation, month and currency, or collects one of its settlements. */
  predicate Blocked(b: Book, id: nat)
    requires id < |b.invoices|
  {
    exists j :: 0 <= j < |b.invoices| && j != id && Current(b.invoices[j])
      && var mine, other := b.invoices[id], b.invoices[j];
         ((mine.organisation == other.organisation && mine.month == other.month && mine.currency == other.currency)
          || exists x :: x in mine.settlements && x in other.settlements)
  }

  lemma BlockedIs(b: Book, id: nat)
    requires id < |b.invoices|
    ensures Blocked(b, id) <==> Collides(b, id)
  {
    forall j | 0 <= j < |b.invoices|
      ensures b.invoices[id].settlements * b.invoices[j].settlements != {}
        <==> exists x :: x in b.invoices[id].settlements && x in b.invoices[j].settlements
    {
      if x :| x in b.invoices[id].settlements && x in b.invoices[j].settlements {
        assert x in b.invoices[id].settlements * b.invoices[j].settlements;
      }
    }
  }

  /**
   * A draft is claimed exactly when its issuer is active, it is ready and no current invoice blocks
   * it; it then takes the number after the issuer's last one of the year. A claimed or issued
   * invoice stays as it is.
   */
  lemma ClaimOutcome(b: Book, id: nat, issuerActive: bool, ready: bool, year: nat)
    ensures var r := ClaimForIssue(b, id, issuerActive, ready, year);
      if id >= |b.invoices| then r == Err(InvoiceNotFound)
      else
        var row := b.invoices[id];
        var last := if (row.issuer, year) in b.sequences then b.sequences[(row.issuer, year)] else 0;
        if Current(row) then r == Ok(b)
        else if row.status == Void then r == Err(InvoiceVoid)
        else if !issuerActive then r == Err(IssuerInactive)
        else if !ready || Blocked(b, id) then r == Err(InvoiceNotReady)
        else r == Ok(b.(
          invoices := b.invoices[id := row.(status := Issuing, number := Some(InvoiceNumber(row.issuer, year, last + 1)))],
          sequences := b.sequences[(row.issuer, year) := last + 1]))
  {
    hide Blocked, Collides;
    if id < |b.invoices| { BlockedIs(b, id); }
  }

  /** A document is stored once, and an issue completed with it once; the same again is accepted. */
  lemma IssueOutcome(b: Book, id: nat, document: nat, now: int)
    ensures StoreDocument(b, id, document)
         == if id in b.documents && b.documents[id] != document then Err(DocumentImmutable)
            else Ok(b.(documents := b.documents[id := document]))
    ensures var r := CompleteIn(b, id, document, now);
      if id >= |b.invoices| then r == Err(InvoiceNotFound)
      else
        var row := b.invoices[id];
        if row.status == Issuing then
          r == Ok(b.(invoices := b.invoices[id := row.(status := Issued, issuedAt := Some(now), document := Some(document))]))
        else r == if row.status == Issued && row.document == Some(document) then Ok(b) else Err(IssueConflict)
  {
    if id in b.documents && b.documents[id] == document {
      assert b.documents[id := document] == b.documents;
    }
    if id < |b.invoices| {
      assert b.invoices[id := b.invoices[id]] == b.invoices;
    }
  }

  /** An issued invoice is voided for a usable reason while nothing has been settled or paid on it. */
  lemma VoidOutcome(b: Book, id: nat, reason: string)
    ensures var r := VoidIn(b, id, reason);
      if reason == "" || |reason| > 500 then r == Err(VoidReasonInvalid)
      else if id >= |b.invoices| then r == Err(InvoiceNotFound)
      else
        var row := b.invoices[id];
        if row.status == Void then r == Ok(b)
        else if row.status == Issued && row.settlements == {} && row.events == [] then
          r == Ok(b.(invoices := b.invoices[id := row.(status := Void, voidReason := Some(reason))]))
        else r == Err(VoidForbidden)
  {
    if id < |b.invoices| {
      assert b.invoices[id := b.invoices[id]] == b.invoices;
    }
  }

  /** Each event is its transaction; one that is refused changes nothing. */
  lemma EventsCommit(b: Book, e: Event)
    ensures var r := match e
        case Drafted(terms, lines, references) => DraftInvoice(b, terms, lines, references)
        case IssueClaimed(id, active, ready, year) => ClaimForIssue(b, id, active, ready, year)
        case DocumentStored(id, document) => StoreDocument(b, id, document)
        case IssueCompleted(id, document, now) =>
          if id in b.documents && b.documents[id] == document then CompleteIn(b, id, document, now) else Ok(b)
        case VoidRequested(id, reason) => VoidIn(b, id, reason)
        case ActivityRecorded(id, q, now) =>
          if !WellFormed(q, now) then Err(PaymentInvalid)
          else if id >= |b.invoices| then Err(InvoiceNotFound)
          else match Record(b.invoices[id], q, now)
               case Ok(row) => Ok(b.(invoices := b.invoices[id := row]))
               case Err(error) => Err(error);
      Step(b, e) == if r.Ok? then r.value else b
  {
    hide Totals, Record, Collides, RequestValid, WellFormed;
    if e.ActivityRecorded? { WellFormedIs(e.request, e.now); }
  }
}
