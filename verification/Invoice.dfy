/** Contract invoices: their totals, their life, and the payments recorded against them. */
module Invoice {
  import opened Prelude
  import opened Decimals
  import Money
  import MeteringRating

  const MAX_INT64: nat := 9223372036854775807
  const MICROCREDITS_PER_USD_MINOR: nat := 10_000_000

  // ---- Totals of a new invoice ------------------------------------------------------------------

  /** The fixed monthly amount of a service plus its rated usage, rounded once. */
  function LineAmount(monthlyMinor: nat, rated: string, currency: string): Result<int>
  {
    match Money.MinorToMajor(Digits(monthlyMinor), currency)
    case Err(e) => Err(e)
    case Ok(monthly) =>
      match Money.Add(monthly, rated)
      case Err(e) => Err(e)
      case Ok(total) =>
        match Money.MajorToMinorRounded(total, currency)
        case Err(e) => Err(e)
        case Ok(amount) => if 0 <= amount <= MAX_INT64 then Ok(amount) else Err(ServiceTotalInvalid)
  }

  /** Rounding once at the end neither gains nor loses against rounding the usage alone. */
  lemma LineIsMonthlyPlusUsage(monthlyMinor: nat, rated: string, currency: string)
    requires Money.IsCurrency(currency) && IsDecimal(rated) && Parsed(rated).coefficient >= 0
    ensures var usage := Money.RoundHalfAway(Parsed(rated), Money.MinorDigits(currency));
      LineAmount(monthlyMinor, rated, currency)
      == if monthlyMinor + usage <= MAX_INT64 then Ok(monthlyMinor + usage) else Err(ServiceTotalInvalid)
  {
    hide Money.RoundHalfAway, Print, Scaled, IsDecimal, Money.Add, Parsed, Money.Canonical;
    DigitsMinor(monthlyMinor);
    var digits := Money.MinorDigits(currency);
    var monthly := Print(Decimal(monthlyMinor, digits));
    Money.PrintCanonical(Decimal(monthlyMinor, digits));
    RoundTrip(Decimal(monthlyMinor, digits));
    Money.AddExact(monthly, rated);
    var total := Money.Add(monthly, rated).value;
    MeteringRating.CanonicalIsDecimal(total);
    Money.WholeUnitsPassRounding(monthlyMinor, Parsed(rated), Parsed(total), digits);
    RoundsUpFromZero(Parsed(rated), digits);
  }

  lemma RoundsUpFromZero(d: Decimal, digits: nat)
    requires d.coefficient >= 0
    ensures Money.RoundHalfAway(d, digits) >= 0
  {
    Money.RoundsToNearest(d, digits);
  }

  lemma DigitsMinor(n: nat)
    ensures Money.IsMinorAmount(Digits(n)) && Number(Digits(n)) == n
  {
    DigitsAreCanonical(n);
    if |Digits(n)| > 1 {
      FirstDigit(n);
    }
  }

  lemma FirstDigit(n: nat)
    ensures n < 10 ==> |Digits(n)| == 1
  {}

  function SumOf(amounts: seq<nat>): nat
  {
    if amounts == [] then 0 else SumOf(amounts[..|amounts| - 1]) + amounts[|amounts| - 1]
  }

  /** Credits in minor units, halves rounded up. */
  function CreditsMinor(microcredits: nat): nat
  {
    (microcredits + MICROCREDITS_PER_USD_MINOR / 2) / MICROCREDITS_PER_USD_MINOR
  }

  function Totals(lines: seq<nat>, credits: seq<nat>, currency: string): Result<(nat, nat)>
  {
    if SumOf(credits) > 0 && currency != "USD" then Err(CreditCurrencyMismatch)
    else if SumOf(lines) > MAX_INT64 then Err(TotalInvalid)
    else if CreditsMinor(SumOf(credits)) > SumOf(lines) then Err(CreditExceedsTotal)
    else Ok((SumOf(lines), CreditsMinor(SumOf(credits))))
  }

  method AddUp(amounts: seq<nat>) returns (total: nat)
    ensures total == SumOf(amounts)
  {
    total := 0;
    for i := 0 to |amounts|
      invariant total == SumOf(amounts[..i])
    {
      assert amounts[..i + 1][..i] == amounts[..i];
      total := total + amounts[i];
    }
    assert amounts[..|amounts|] == amounts;
  }

  method CalculateTotals(lines: seq<nat>, credits: seq<nat>, currency: string) returns (r: Result<(nat, nat)>)
    ensures r == Totals(lines, credits, currency)
  {
    var subtotal := AddUp(lines);
    var microcredits := AddUp(credits);
    if microcredits > 0 && currency != "USD" { return Err(CreditCurrencyMismatch); }
    var applied := CreditsMinor(microcredits);
    if subtotal > MAX_INT64 { return Err(TotalInvalid); }
    if applied > subtotal { return Err(CreditExceedsTotal); }
    r := Ok((subtotal, applied));
  }

  /** The credits shown on an invoice are within half a minor unit of the credits consumed. */
  lemma CreditsRounded(microcredits: nat)
    ensures var shown := CreditsMinor(microcredits) * MICROCREDITS_PER_USD_MINOR;
      2 * microcredits - MICROCREDITS_PER_USD_MINOR < 2 * shown <= 2 * microcredits + MICROCREDITS_PER_USD_MINOR
    ensures CreditsMinor(microcredits) == Money.HalfUp(microcredits, MICROCREDITS_PER_USD_MINOR)
  {}

  // ---- The invoice ----------------------------------------------------------------------------------

  datatype Status = Draft | Issuing | Issued | Void

  datatype Kind = Payment | Refund | WriteOff

  datatype PaymentEvent = PaymentEvent(
    kind: Kind, amount: nat, currency: string, key: string, reference: Option<string>, occurredAt: int)

  /** The place of an invoice in its issuer's numbering of a year. */
  datatype InvoiceNumber = InvoiceNumber(issuer: nat, year: nat, value: nat)

  /** The credit settlement of one account, as an invoice refers to it. */
  datatype Reference = Reference(settlement: nat, microcredits: nat)

  datatype Row = Row(
    status: Status,
    issuer: nat,
    organisation: nat,
    month: nat,
    currency: string,
    total: nat,
    creditsApplied: nat,
    settlements: set<nat>,
    number: Option<InvoiceNumber>,
    issuedAt: Option<int>,
    document: Option<nat>,
    voidReason: Option<string>,
    events: seq<PaymentEvent>)

  datatype Request = Request(
    kind: Kind, amountMinor: string, currency: string, key: string, reference: Option<string>, occurredAt: int)

  const CLOCK_TOLERANCE: nat := 5 * 60 * 1000
  const MAX_VOID_REASON: nat := 500

  predicate IsPositiveAmount(s: string)
  {
    s != "" && AllDigits(s) && s[0] != '0'
  }

  predicate RequestValid(q: Request, now: int)
  {
    && IsPositiveAmount(q.amountMinor) && Number(q.amountMinor) <= MAX_INT64
    && Money.IsCurrency(q.currency)
    && 0 < |q.key| <= 200 && (q.reference.Some? ==> |q.reference.value| <= 255)
    && q.occurredAt <= now + CLOCK_TOLERANCE
  }

  function EventOf(q: Request): PaymentEvent
    requires IsPositiveAmount(q.amountMinor)
  {
    PaymentEvent(q.kind, Number(q.amountMinor), q.currency, q.key, q.reference, q.occurredAt)
  }

  function Find(events: seq<PaymentEvent>, key: string): (i: nat)
    ensures i <= |events|
    ensures i < |events| ==> events[i].key == key
    ensures forall j :: 0 <= j < i ==> events[j].key != key
  {
    if events == [] || events[0].key == key then 0 else 1 + Find(events[1..], key)
  }

  /** The sum of the events of one kind. */
  function TotalOf(events: seq<PaymentEvent>, kind: Kind): nat
  {
    if events == [] then 0 else
    var last := events[|events| - 1];
    TotalOf(events[..|events| - 1], kind) + (if last.kind == kind then last.amount else 0)
  }

  function Paid(events: seq<PaymentEvent>): int
  {
    TotalOf(events, Payment) - TotalOf(events, Refund)
  }

  function Settled(row: Row, events: seq<PaymentEvent>): int
  {
    row.creditsApplied + Paid(events) + TotalOf(events, WriteOff)
  }

  predicate AcceptsActivity(row: Row, q: Request)
  {
    row.status.Issued? && row.currency == q.currency && row.issuedAt.Some? && q.occurredAt >= row.issuedAt.value
  }

  predicate Balanced(row: Row, events: seq<PaymentEvent>)
  {
    Paid(events) >= 0 && 0 <= Settled(row, events) <= row.total
  }

  /** Records a payment, a refund or a write-off. */
  function Record(row: Row, q: Request, now: int): Result<Row>
  {
    if !RequestValid(q, now) then Err(PaymentInvalid)
    else if !AcceptsActivity(row, q) then Err(PaymentForbidden)
    else
      var existing := Find(row.events, q.key);
      if existing < |row.events| then
        if row.events[existing] == EventOf(q) then Ok(row) else Err(IdempotencyConflict)
      else if !Balanced(row, row.events + [EventOf(q)]) then Err(PaymentAmountInvalid)
      else Ok(row.(events := row.events + [EventOf(q)]))
  }

  function VoidInvoice(row: Row, reason: string): Result<Row>
  {
    if row.status.Void? then Ok(row)
    else if !row.status.Issued? || row.settlements != {} || row.events != [] then Err(VoidForbidden)
    else Ok(row.(status := Void, voidReason := Some(reason)))
  }

  /** Issued with the document its caller has stored; completed again only with the same one. */
  function CompleteIssue(row: Row, document: nat, now: int): Result<Row>
  {
    if row.status.Issuing? then Ok(row.(status := Issued, issuedAt := Some(now), document := Some(document)))
    else if row.status.Issued? && row.document == Some(document) then Ok(row)
    else Err(IssueConflict)
  }

  // ---- The customer's view ----------------------------------------------------------------------------

  datatype PaymentStatus = Voided | PaidInFull | PartiallyPaid | Unpaid

  datatype Settlement = Settlement(
    payments: nat, refunds: nat, writeOffs: nat, paid: int, settled: int, outstanding: nat, status: PaymentStatus)

  datatype Limits = Limits(payment: Option<nat>, refund: Option<nat>, writeOff: Option<nat>)

  /** What a customer sees of the settlement, computed on its own from the events. */
  method InvoiceSettlement(row: Row) returns (s: Settlement)
    ensures s.payments == TotalOf(row.events, Payment) && s.refunds == TotalOf(row.events, Refund)
    ensures s.writeOffs == TotalOf(row.events, WriteOff)
    ensures s.paid == Paid(row.events) && s.settled == Settled(row, row.events)
    ensures s.paid == s.payments - s.refunds && s.settled == row.creditsApplied + s.payments - s.refunds + s.writeOffs
    ensures s.outstanding == if row.total > s.settled then row.total - s.settled else 0
    ensures s.status == if row.status.Void? then Voided
                        else if s.settled >= row.total then PaidInFull
                        else if s.settled > 0 then PartiallyPaid else Unpaid
  {
    var payments, refunds, writeOffs := 0, 0, 0;
    for i := 0 to |row.events|
      invariant payments == TotalOf(row.events[..i], Payment)
      invariant refunds == TotalOf(row.events[..i], Refund)
      invariant writeOffs == TotalOf(row.events[..i], WriteOff)
    {
      assert row.events[..i + 1][..i] == row.events[..i];
      if row.events[i].kind == Payment { payments := payments + row.events[i].amount; }
      if row.events[i].kind == Refund { refunds := refunds + row.events[i].amount; }
      if row.events[i].kind == WriteOff { writeOffs := writeOffs + row.events[i].amount; }
    }
    assert row.events[..|row.events|] == row.events;
    var paid := payments - refunds;
    var settled := row.creditsApplied + paid + writeOffs;
    var outstanding := if row.total > settled then row.total - settled else 0;
    var status := if row.status.Void? then Voided
                  else if outstanding == 0 then PaidInFull
                  else if settled > 0 then PartiallyPaid else Unpaid;
    s := Settlement(payments, refunds, writeOffs, paid, settled, outstanding, status);
  }

  /** The largest payment, refund and write-off the view offers. */
  function LimitsOf(row: Row): Limits
  {
    var allowed := row.status.Issued? && row.issuedAt.Some?;
    var paid, settled := Paid(row.events), Settled(row, row.events);
    var outstanding := if row.total > settled then row.total - settled else 0;
    Limits(
      if allowed && outstanding > 0 then Some(outstanding) else None,
      if allowed && paid > 0 then Some(paid) else None,
      if allowed && outstanding > 0 then Some(outstanding) else None)
  }

  function LimitFor(limits: Limits, kind: Kind): Option<nat>
  {
    match kind
    case Payment => limits.payment
    case Refund => limits.refund
    case WriteOff => limits.writeOff
  }

  method PaymentLimits(row: Row) returns (limits: Limits)
    ensures limits == LimitsOf(row)
  {
    var s := InvoiceSettlement(row);
    var allowed := row.status.Issued? && row.issuedAt.Some?;
    limits := Limits(
      if allowed && s.outstanding > 0 then Some(s.outstanding) else None,
      if allowed && s.paid > 0 then Some(s.paid) else None,
      if allowed && s.outstanding > 0 then Some(s.outstanding) else None);
  }

  // ---- What holds of every invoice ---------------------------------------------------------------------

  /** Payments exist only on issued invoices, never outweigh the total, and each key counts once. */
  ghost predicate Sound(row: Row)
  {
    && Balanced(row, row.events)
    && (!row.status.Issued? ==> row.events == [])
    && (row.status.Issued? ==> row.issuedAt.Some?)
    && (!row.status.Draft? ==> row.number.Some?)
    && (row.document.Some? <==> row.status.Issued? || row.status.Void?)
    && (row.voidReason.Some? <==> row.status.Void?)
    && (row.voidReason.Some? ==> 0 < |row.voidReason.value| <= MAX_VOID_REASON)
    && (forall i, j :: 0 <= i < j < |row.events| ==> row.events[i].key != row.events[j].key)
  }

  lemma TotalAppend(events: seq<PaymentEvent>, e: PaymentEvent, kind: Kind)
    ensures TotalOf(events + [e], kind) == TotalOf(events, kind) + (if e.kind == kind then e.amount else 0)
  {
    assert (events + [e])[..|events|] == events;
  }

  lemma BalanceAppend(row: Row, e: PaymentEvent)
    ensures Paid(row.events + [e])
         == Paid(row.events) + (if e.kind.Payment? then e.amount else if e.kind.Refund? then -(e.amount as int) else 0)
    ensures Settled(row, row.events + [e])
         == Settled(row, row.events) + (if e.kind.Refund? then -(e.amount as int) else e.amount)
  {
    TotalAppend(row.events, e, Payment);
    TotalAppend(row.events, e, Refund);
    TotalAppend(row.events, e, WriteOff);
  }

  /**
   * The two implementations agree: under a new key an otherwise valid request is accepted
   * exactly when it is within the limit the view shows for it.
   */
  lemma AcceptedWithinLimit(row: Row, q: Request, now: int)
    requires Sound(row) && RequestValid(q, now) && AcceptsActivity(row, q)
    requires Find(row.events, q.key) == |row.events|
    ensures var limit := LimitFor(LimitsOf(row), q.kind);
      Record(row, q, now).Ok? <==> limit.Some? && Number(q.amountMinor) <= limit.value
  {
    hide Paid, Settled;
    BalanceAppend(row, EventOf(q));
    PositiveNumber(q.amountMinor);
    SettledParts(row);
  }

  lemma SettledParts(row: Row)
    ensures Settled(row, row.events) >= Paid(row.events)
  {}

  lemma {:induction false} PositiveNumber(s: string)
    requires IsPositiveAmount(s)
    ensures Number(s) > 0
  {
    if |s| > 1 {
      PositiveNumber(s[..|s| - 1]);
    } else {
      assert s[..0] == "";
    }
  }

  /** A key that has been used adds nothing, whether it repeats its request or contradicts it. */
  lemma RepeatedKeyAddsNothing(row: Row, q: Request, now: int, i: nat)
    requires Sound(row) && i < |row.events| && row.events[i].key == q.key
    ensures Record(row, q, now)
         == if !RequestValid(q, now) then Err(PaymentInvalid)
            else if !AcceptsActivity(row, q) then Err(PaymentForbidden)
            else if row.events[i] == EventOf(q) then Ok(row)
            else Err(IdempotencyConflict)
  {
    FoundIs(row.events, q.key, i);
  }

  lemma RecordKeeps(row: Row, q: Request, now: int)
    requires Sound(row)
    ensures Record(row, q, now).Ok? ==> Sound(Record(row, q, now).value)
  {}

  lemma RecordTwice(row: Row, q: Request, now: int)
    requires Record(row, q, now).Ok?
    ensures Record(Record(row, q, now).value, q, now) == Ok(Record(row, q, now).value)
  {
    var after := Record(row, q, now).value;
    if after != row {
      assert after.events[|row.events|] == EventOf(q);
      assert Find(after.events, q.key) == |row.events|;
    }
  }

  // ---- The book of invoices ------------------------------------------------------------------------------

  /** The invoices, the issuers' numbering, and the stored documents by invoice, known by their digests. */
  datatype Book = Book(invoices: seq<Row>, sequences: map<(nat, nat), nat>, documents: map<nat, nat>)

  /** Who invoices whom for which month. */
  datatype DraftTerms = DraftTerms(issuer: nat, organisation: nat, month: nat, currency: string)

  datatype Event =
    | Drafted(terms: DraftTerms, lines: seq<nat>, references: seq<Reference>)
    | IssueClaimed(id: nat, issuerActive: bool, ready: bool, year: nat)
    | DocumentStored(id: nat, document: nat)
    | IssueCompleted(id: nat, document: nat, now: int)
    | VoidRequested(id: nat, reason: string)
    | ActivityRecorded(id: nat, request: Request, now: int)

  function NewRow(terms: DraftTerms, total: nat, applied: nat, settlements: set<nat>): Row
  {
    Row(Draft, terms.issuer, terms.organisation, terms.month, terms.currency, total, applied, settlements,
      None, None, None, None, [])
  }

  function Microcredits(references: seq<Reference>): seq<nat>
  {
    seq(|references|, i requires 0 <= i < |references| => references[i].microcredits)
  }

  function Settlements(references: seq<Reference>): set<nat>
  {
    set r | r in references :: r.settlement
  }

  function DraftInvoice(b: Book, terms: DraftTerms, lines: seq<nat>, references: seq<Reference>): Result<Book>
  {
    match Totals(lines, Microcredits(references), terms.currency)
    case Err(e) => Err(e)
    case Ok((total, applied)) =>
      Ok(b.(invoices := b.invoices + [NewRow(terms, total, applied, Settlements(references))]))
  }

  predicate Live(row: Row)
  {
    row.status.Issuing? || row.status.Issued?
  }

  /** Invoices of one organisation for one month in one currency, or invoices that collect the same credits. */
  predicate Overlaps(left: Row, right: Row)
  {
    || (left.organisation == right.organisation && left.month == right.month && left.currency == right.currency)
    || left.settlements * right.settlements != {}
  }

  /** Another invoice that is being or has been issued stands in the way. */
  predicate Collides(b: Book, id: nat)
    requires id < |b.invoices|
  {
    exists j :: 0 <= j < |b.invoices| && j != id && Live(b.invoices[j]) && Overlaps(b.invoices[id], b.invoices[j])
  }

  function LastValue(b: Book, issuer: nat, year: nat): nat
  {
    if (issuer, year) in b.sequences then b.sequences[(issuer, year)] else 0
  }

  /**
   * Takes the issuer's next number of the year, once; an interrupted issue keeps its number.
   * `ready` says whether contract, lines and credit evidence of the draft are as the database asks.
   */
  function ClaimForIssue(b: Book, id: nat, issuerActive: bool, ready: bool, year: nat): Result<Book>
  {
    if id >= |b.invoices| then Err(InvoiceNotFound) else
    var row := b.invoices[id];
    match row.status
    case Issued => Ok(b)
    case Void => Err(InvoiceVoid)
    case Issuing => Ok(b)
    case Draft =>
      if !issuerActive then Err(IssuerInactive)
      else if !ready || Collides(b, id) then Err(InvoiceNotReady)
      else
      var value := LastValue(b, row.issuer, year) + 1;
      Ok(b.(
        invoices := b.invoices[id := row.(status := Issuing, number := Some(InvoiceNumber(row.issuer, year, value)))],
        sequences := b.sequences[(row.issuer, year) := value]))
  }

  /** A document is stored once; storing it again is accepted if it is the same. */
  function StoreDocument(b: Book, id: nat, document: nat): Result<Book>
  {
    if id !in b.documents then Ok(b.(documents := b.documents[id := document]))
    else if b.documents[id] == document then Ok(b)
    else Err(DocumentImmutable)
  }

  /** The document of an invoice, as it is read back and checked against the digest in its row. */
  function ReadDocument(b: Book, id: nat): Result<nat>
  {
    if id >= |b.invoices| then Err(DocumentNotFound) else
    var row := b.invoices[id];
    if !(row.status.Issued? || row.status.Void?) || row.number.None? || row.document.None? then Err(DocumentNotFound)
    else if id !in b.documents || b.documents[id] != row.document.value then Err(DocumentBroken)
    else Ok(b.documents[id])
  }

  /** Replaces one invoice by the outcome of a transaction on it. */
  function Put(b: Book, id: nat, r: Row -> Result<Row>): Result<Book>
  {
    if id >= |b.invoices| then Err(InvoiceNotFound) else
    match r(b.invoices[id])
    case Err(e) => Err(e)
    case Ok(row) => Ok(b.(invoices := b.invoices[id := row]))
  }

  /** A malformed request is refused before the invoice is looked up. */
  function RecordIn(b: Book, id: nat, q: Request, now: int): Result<Book>
  {
    if !RequestValid(q, now) then Err(PaymentInvalid) else Put(b, id, row => Record(row, q, now))
  }

  /** The reason is checked before the invoice is looked up. */
  function VoidIn(b: Book, id: nat, reason: string): Result<Book>
  {
    if !(0 < |reason| <= MAX_VOID_REASON) then Err(VoidReasonInvalid) else Put(b, id, row => VoidInvoice(row, reason))
  }

  /** The transaction that completes an issue is reached only with a document that has been stored. */
  predicate Stored(b: Book, id: nat, document: nat)
  {
    id in b.documents && b.documents[id] == document
  }

  function CompleteIn(b: Book, id: nat, document: nat, now: int): Result<Book>
  {
    Put(b, id, row => CompleteIssue(row, document, now))
  }

  function Committed(b: Book, r: Result<Book>): Book
  {
    if r.Ok? then r.value else b
  }

  function Step(b: Book, e: Event): Book
  {
    match e
    case Drafted(terms, lines, references) => Committed(b, DraftInvoice(b, terms, lines, references))
    case IssueClaimed(id, active, ready, year) => Committed(b, ClaimForIssue(b, id, active, ready, year))
    case DocumentStored(id, document) => Committed(b, StoreDocument(b, id, document))
    case IssueCompleted(id, document, now) =>
      if Stored(b, id, document) then Committed(b, CompleteIn(b, id, document, now)) else b
    case VoidRequested(id, reason) => Committed(b, VoidIn(b, id, reason))
    case ActivityRecorded(id, q, now) => Committed(b, RecordIn(b, id, q, now))
  }

  function EmptyBook(): Book
  {
    Book([], map[], map[])
  }

  function Run(events: seq<Event>): Book
  {
    if events == [] then EmptyBook() else Step(Run(events[..|events| - 1]), events[|events| - 1])
  }

  /** No number is given twice, and none beyond what the sequence has reached. */
  ghost predicate NumbersUnique(b: Book)
  {
    && (forall i :: 0 <= i < |b.invoices| && b.invoices[i].number.Some? ==>
          var n := b.invoices[i].number.value;
          n.issuer == b.invoices[i].issuer && n.value <= LastValue(b, n.issuer, n.year))
    && forall i, j :: 0 <= i < j < |b.invoices| && b.invoices[i].number.Some? ==>
         b.invoices[i].number != b.invoices[j].number
  }

  /** No two live invoices are for the same month of an organisation or collect the same credits. */
  ghost predicate LivesApart(b: Book)
  {
    forall i, j :: 0 <= i < |b.invoices| && 0 <= j < |b.invoices| && i != j ==>
      !(Live(b.invoices[i]) && Live(b.invoices[j]) && Overlaps(b.invoices[i], b.invoices[j]))
  }

  /** What an invoice says of its document is what is stored. */
  ghost predicate DocumentsKept(b: Book)
  {
    forall i :: 0 <= i < |b.invoices| && b.invoices[i].document.Some? ==> Stored(b, i, b.invoices[i].document.value)
  }

  ghost predicate Inv(b: Book)
  {
    (forall i :: 0 <= i < |b.invoices| ==> Sound(b.invoices[i])) && NumbersUnique(b) && DocumentsKept(b)
    && LivesApart(b)
  }

  /** A new invoice starts sound: credits never exceed its total. */
  lemma DraftSound(terms: DraftTerms, lines: seq<nat>, references: seq<Reference>)
    requires Totals(lines, Microcredits(references), terms.currency).Ok?
    ensures var (total, applied) := Totals(lines, Microcredits(references), terms.currency).value;
      Sound(NewRow(terms, total, applied, Settlements(references)))
  {}

  /** An invoice moves on without changing its number, its issuer or what it has been found to owe. */
  ghost predicate Follows(before: Row, after: Row)
  {
    && Sound(after) && after.number == before.number && after.issuer == before.issuer
    && after.organisation == before.organisation && after.month == before.month && after.currency == before.currency
    && after.settlements == before.settlements && (Live(after) ==> Live(before))
  }

  lemma PutKeeps(b: Book, id: nat, r: Row -> Result<Row>)
    requires Inv(b)
    requires id < |b.invoices| && r(b.invoices[id]).Ok? ==>
      && Follows(b.invoices[id], r(b.invoices[id]).value)
      && var document := r(b.invoices[id]).value.document; document.Some? ==> Stored(b, id, document.value)
    ensures Inv(Committed(b, Put(b, id, r)))
  {
    hide Sound;
  }

  lemma ClaimKeeps(b: Book, id: nat, issuerActive: bool, ready: bool, year: nat)
    requires Inv(b)
    ensures Inv(Committed(b, ClaimForIssue(b, id, issuerActive, ready, year)))
  {
    if id < |b.invoices| && b.invoices[id].status.Draft? {
      ClaimSound(b.invoices[id], InvoiceNumber(b.invoices[id].issuer, year, LastValue(b, b.invoices[id].issuer, year) + 1));
      ClaimUnique(b, id, issuerActive, ready, year);
    }
  }

  lemma ClaimSound(row: Row, number: InvoiceNumber)
    requires Sound(row) && row.status.Draft?
    ensures Sound(row.(status := Issuing, number := Some(number)))
  {}

  lemma ClaimUnique(b: Book, id: nat, issuerActive: bool, ready: bool, year: nat)
    requires NumbersUnique(b) && id < |b.invoices| && b.invoices[id].status.Draft?
    ensures NumbersUnique(Committed(b, ClaimForIssue(b, id, issuerActive, ready, year)))
  {}

  lemma StepKeeps(b: Book, e: Event)
    requires Inv(b)
    ensures Inv(Step(b, e))
  {
    hide Sound, NumbersUnique, Totals, Record, RequestValid;
    match e
    case Drafted(terms, lines, references) => DraftKeeps(b, terms, lines, references);
    case IssueClaimed(id, active, ready, year) => ClaimKeeps(b, id, active, ready, year);
    case DocumentStored(id, document) => StoreKeeps(b, id, document);
    case IssueCompleted(id, document, now) =>
      if Stored(b, id, document) {
        if id < |b.invoices| { IssueFollows(b.invoices[id], document, now); }
        PutKeeps(b, id, row => CompleteIssue(row, document, now));
      }
    case VoidRequested(id, reason) =>
      if 0 < |reason| <= MAX_VOID_REASON {
        if id < |b.invoices| { VoidFollows(b.invoices[id], reason); }
        PutKeeps(b, id, row => VoidInvoice(row, reason));
      }
    case ActivityRecorded(id, q, now) =>
      if id < |b.invoices| { RecordFollows(b.invoices[id], q, now); }
      PutKeeps(b, id, row => Record(row, q, now));
  }

  lemma DraftKeeps(b: Book, terms: DraftTerms, lines: seq<nat>, references: seq<Reference>)
    requires Inv(b)
    ensures Inv(Committed(b, DraftInvoice(b, terms, lines, references)))
  {
    hide Sound, Totals, Microcredits, Settlements;
    if Totals(lines, Microcredits(references), terms.currency).Ok? {
      DraftSound(terms, lines, references);
    }
  }

  lemma StoreKeeps(b: Book, id: nat, document: nat)
    requires Inv(b)
    ensures Inv(Committed(b, StoreDocument(b, id, document)))
  {
    hide Sound;
  }

  lemma IssueFollows(row: Row, document: nat, now: int)
    requires Sound(row)
    ensures CompleteIssue(row, document, now).Ok? ==>
      Follows(row, CompleteIssue(row, document, now).value)
      && CompleteIssue(row, document, now).value.document == Some(document)
  {}

  lemma VoidFollows(row: Row, reason: string)
    requires Sound(row) && 0 < |reason| <= MAX_VOID_REASON
    ensures VoidInvoice(row, reason).Ok? ==>
      Follows(row, VoidInvoice(row, reason).value) && VoidInvoice(row, reason).value.document == row.document
  {}

  lemma RecordFollows(row: Row, q: Request, now: int)
    requires Sound(row)
    ensures Record(row, q, now).Ok? ==>
      Follows(row, Record(row, q, now).value) && Record(row, q, now).value.document == row.document
  {
    RecordKeeps(row, q, now);
  }

  lemma {:induction false} AlwaysInv(events: seq<Event>)
    ensures Inv(Run(events))
  {
    hide Step, Inv;
    if events == [] {
      EmptyInv();
    } else {
      AlwaysInv(events[..|events| - 1]);
      StepKeeps(Run(events[..|events| - 1]), events[|events| - 1]);
    }
  }

  lemma EmptyInv()
    ensures Inv(EmptyBook())
  {}

  /**
   * In every run: what has been paid is never negative, credits, payments and write-offs
   * together never exceed the total, a void invoice has no payments, and no two invoices
   * carry the same number.
   */
  lemma InvoicesSound(events: seq<Event>, i: nat, j: nat)
    requires i < |Run(events).invoices| && j < |Run(events).invoices|
    ensures var row := Run(events).invoices[i];
      && Paid(row.events) >= 0
      && 0 <= Settled(row, row.events) <= row.total
      && (row.status.Void? ==> row.events == [])
    ensures i != j && Run(events).invoices[i].number.Some? ==>
      Run(events).invoices[i].number != Run(events).invoices[j].number
  {
    hide Run, Paid, Settled;
    AlwaysInv(events);
  }

  /** In every run the document of an issued or void invoice can be read, and of no other. */
  lemma DocumentReadable(events: seq<Event>, id: nat)
    requires id < |Run(events).invoices|
    ensures var b := Run(events);
      var row := b.invoices[id];
      match ReadDocument(b, id)
      case Ok(document) => (row.status.Issued? || row.status.Void?) && row.document == Some(document)
      case Err(e) => e == DocumentNotFound && (row.status.Draft? || row.status.Issuing?)
  {
    hide Run;
    AlwaysInv(events);
    assert Sound(Run(events).invoices[id]);
  }

  /**
   * In every run whoever has stored a document completes the issue unless the invoice has become
   * void meanwhile or was never claimed: two issues of an invoice never contradict each other.
   */
  lemma CompletionAccepted(events: seq<Event>, id: nat, document: nat, now: int)
    requires id < |Run(events).invoices| && Stored(Run(events), id, document)
    ensures var row := Run(events).invoices[id];
      CompleteIn(Run(events), id, document, now).Ok? <==> row.status.Issuing? || row.status.Issued?
  {
    hide Run;
    AlwaysInv(events);
    assert Sound(Run(events).invoices[id]);
  }

  /** In every run live invoices are for different months, organisations or currencies and share no credits. */
  lemma LiveApart(events: seq<Event>, i: nat, j: nat)
    requires i < |Run(events).invoices| && j < |Run(events).invoices| && i != j
    requires Live(Run(events).invoices[i]) && Live(Run(events).invoices[j])
    ensures !Overlaps(Run(events).invoices[i], Run(events).invoices[j])
  {
    hide Run, Sound, NumbersUnique, DocumentsKept, Overlaps;
    AlwaysInv(events);
  }

  // ---- The payments of a run ------------------------------------------------------------------------------

  /** A live invoice that collects credits or has been paid on: it cannot become void. */
  predicate Bound(row: Row)
  {
    Live(row) && (row.settlements != {} || row.events != [])
  }

  /** What has been recorded stays, and an invoice with activity stays issued as it was. */
  ghost predicate Extends(before: Row, after: Row)
  {
    && before.events <= after.events && after.settlements == before.settlements
    && after.organisation == before.organisation && after.month == before.month && after.currency == before.currency
    && (Bound(before) ==> Live(after))
    && (before.events != [] ==> after.status.Issued? && after.issuedAt == before.issuedAt)
  }

  lemma StepExtends(b: Book, e: Event, id: nat)
    requires Inv(b) && id < |b.invoices|
    ensures id < |Step(b, e).invoices| && Extends(b.invoices[id], Step(b, e).invoices[id])
  {
    hide NumbersUnique, DocumentsKept, Balanced, Totals, RequestValid, AcceptsActivity, Find;
    assert Sound(b.invoices[id]);
  }

  lemma {:induction false} PaymentsStay(events: seq<Event>, more: seq<Event>, id: nat)
    requires id < |Run(events).invoices|
    ensures id < |Run(events + more).invoices|
    ensures Extends(Run(events).invoices[id], Run(events + more).invoices[id])
  {
    hide Step, Inv;
    if more == [] {
      assert events + more == events;
      ActiveIssued(events, id);
    } else {
      var init := more[..|more| - 1];
      PaymentsStay(events, init, id);
      assert (events + more)[..|events + more| - 1] == events + init;
      AlwaysInv(events + init);
      StepExtends(Run(events + init), more[|more| - 1], id);
    }
  }

  lemma ActiveIssued(events: seq<Event>, id: nat)
    requires id < |Run(events).invoices|
    ensures Run(events).invoices[id].events != [] ==> Run(events).invoices[id].status.Issued?
  {
    hide Run;
    AlwaysInv(events);
    assert Sound(Run(events).invoices[id]);
  }

  /**
   * A live invoice that collects credits or has been paid on closes its month for good: no other
   * invoice of the organisation for that month and currency, a revision or not, can be issued in
   * any continuation, nor any other invoice that collects the same credits.
   */
  lemma MonthClosed(events: seq<Event>, more: seq<Event>, i: nat, j: nat, issuerActive: bool, ready: bool, year: nat)
    requires i < |Run(events).invoices| && Bound(Run(events).invoices[i])
    requires j < |Run(events + more).invoices| && j != i && Run(events + more).invoices[j].status.Draft?
    requires Overlaps(Run(events + more).invoices[j], Run(events).invoices[i])
    ensures ClaimForIssue(Run(events + more), j, issuerActive, ready, year)
         == if issuerActive then Err(InvoiceNotReady) else Err(IssuerInactive)
  {
    hide Run;
    PaymentsStay(events, more, i);
    assert Live(Run(events + more).invoices[i]);
  }

  /** An invoice whose one line is paid for by credits, drafted again after it has been issued. */
  function Revised(): seq<Event>
  {
    var draft := Drafted(DraftTerms(0, 0, 0, "USD"), [1], [Reference(0, MICROCREDITS_PER_USD_MINOR)]);
    [draft] + [IssueClaimed(0, true, true, 2026)] + [DocumentStored(0, 7)] + [IssueCompleted(0, 7, 5)] + [draft]
  }

  function RevisedRow(status: Status, number: Option<InvoiceNumber>, issuedAt: Option<int>, document: Option<nat>): Row
  {
    Row(status, 0, 0, 0, "USD", 1, 1, {0}, number, issuedAt, document, None, [])
  }

  lemma DraftedTotals()
    ensures Totals([1], Microcredits([Reference(0, MICROCREDITS_PER_USD_MINOR)]), "USD") == Ok((1, 1))
    ensures Settlements([Reference(0, MICROCREDITS_PER_USD_MINOR)]) == {0}
  {
    assert Microcredits([Reference(0, MICROCREDITS_PER_USD_MINOR)]) == [MICROCREDITS_PER_USD_MINOR];
    SumOfOne(1);
    SumOfOne(MICROCREDITS_PER_USD_MINOR);
  }

  lemma SumOfOne(n: nat)
    ensures SumOf([n]) == n
  {
    assert [n][..0] == [];
  }

  lemma RevisedRun()
    ensures var number := Some(InvoiceNumber(0, 2026, 1));
      Run(Revised()) == Book([RevisedRow(Issued, number, Some(5), Some(7)), RevisedRow(Draft, None, None, None)],
        map[(0, 2026) := 1], map[0 := 7])
  {
    hide Run, Totals, Microcredits, Settlements;
    DraftedTotals();
    var draft := Drafted(DraftTerms(0, 0, 0, "USD"), [1], [Reference(0, MICROCREDITS_PER_USD_MINOR)]);
    NothingYet();
    RunAppend([], draft);
    assert [] + [draft] == [draft];
    RunAppend([draft], IssueClaimed(0, true, true, 2026));
    RunAppend([draft] + [IssueClaimed(0, true, true, 2026)], DocumentStored(0, 7));
    RunAppend([draft] + [IssueClaimed(0, true, true, 2026)] + [DocumentStored(0, 7)], IssueCompleted(0, 7, 5));
    RunAppend([draft] + [IssueClaimed(0, true, true, 2026)] + [DocumentStored(0, 7)] + [IssueCompleted(0, 7, 5)], draft);
  }

  lemma NothingYet()
    ensures Run([]) == EmptyBook()
  {}

  /** The issued invoice can neither be voided nor replaced by its revision, complete as the revision is. */
  lemma RevisionRefused(reason: string)
    requires 0 < |reason| <= MAX_VOID_REASON
    ensures var b := Run(Revised());
      && |b.invoices| == 2 && b.invoices[0].status.Issued? && b.invoices[1].status.Draft?
      && VoidIn(b, 0, reason) == Err(VoidForbidden)
      && ClaimForIssue(b, 1, true, true, 2026) == Err(InvoiceNotReady)
  {
    hide Run, Revised;
    RevisedRun();
    assert Live(Run(Revised()).invoices[0]);
  }

  /** An accepted request may be repeated ever after: it is accepted again and adds nothing. */
  lemma RepeatedEver(events: seq<Event>, id: nat, q: Request, now: int, more: seq<Event>, later: int)
    requires RecordIn(Run(events), id, q, now).Ok? && now <= later
    ensures var after := Run(events + [ActivityRecorded(id, q, now)] + more);
      RecordIn(after, id, q, later) == Ok(after)
  {
    hide Run, Inv, Sound, Balanced;
    var first := events + [ActivityRecorded(id, q, now)];
    RunAppend(events, ActivityRecorded(id, q, now));
    var row := Run(first).invoices[id];
    Recorded(Run(events).invoices[id], q, now);
    var i :| 0 <= i < |row.events| && row.events[i] == EventOf(q);
    PaymentsStay(first, more, id);
    AlwaysInv(first + more);
    var final := Run(first + more).invoices[id];
    InvSound(Run(first + more), id);
    RepeatedKeyAddsNothing(final, q, later, i);
    assert Run(first + more).invoices[id := final] == Run(first + more).invoices;
  }

  lemma RunAppend(events: seq<Event>, e: Event)
    ensures Run(events + [e]) == Step(Run(events), e)
  {
    assert (events + [e])[..|events|] == events;
  }

  lemma InvSound(b: Book, id: nat)
    requires Inv(b) && id < |b.invoices|
    ensures Sound(b.invoices[id])
  {}

  lemma Recorded(row: Row, q: Request, now: int)
    requires Record(row, q, now).Ok?
    ensures EventOf(q) in Record(row, q, now).value.events && AcceptsActivity(Record(row, q, now).value, q)
  {}

  // ---- The book as it is updated -------------------------------------------------------------------------

  class InvoiceBook {
    var invoices: seq<Row>
    var sequences: map<(nat, nat), nat>
    var documents: map<nat, nat>

    function View(): Book
      reads this
    {
      Book(invoices, sequences, documents)
    }

    ghost predicate Valid()
      reads this
    {
      Inv(View())
    }

    constructor ()
      ensures Valid() && View() == EmptyBook()
    {
      invoices, sequences, documents := [], map[], map[];
      new;
      EmptyInv();
    }

    method CreateDraft(terms: DraftTerms, lines: seq<nat>, references: seq<Reference>) returns (r: Result<nat>)
      requires Valid()
      modifies this
      ensures Valid() && View() == Committed(old(View()), DraftInvoice(old(View()), terms, lines, references))
      ensures match DraftInvoice(old(View()), terms, lines, references)
              case Ok(_) => r == Ok(|old(invoices)|) case Err(e) => r == Err(e)
    {
      hide Inv, Totals;
      StepKeeps(View(), Drafted(terms, lines, references));
      var totals :- CalculateTotals(lines, Microcredits(references), terms.currency);
      r := Ok(|invoices|);
      invoices := invoices + [NewRow(terms, totals.0, totals.1, Settlements(references))];
    }

    method Claim(id: nat, issuerActive: bool, ready: bool, year: nat) returns (r: Result<()>)
      requires Valid()
      modifies this
      ensures Valid() && View() == Committed(old(View()), ClaimForIssue(old(View()), id, issuerActive, ready, year))
      ensures match ClaimForIssue(old(View()), id, issuerActive, ready, year)
              case Ok(_) => r == Ok(()) case Err(e) => r == Err(e)
    {
      hide Inv;
      StepKeeps(View(), IssueClaimed(id, issuerActive, ready, year));
      if id >= |invoices| { return Err(InvoiceNotFound); }
      var row := invoices[id];
      if row.status.Issued? || row.status.Issuing? { return Ok(()); }
      if row.status.Void? { return Err(InvoiceVoid); }
      if !issuerActive { return Err(IssuerInactive); }
      if !ready || Collides(View(), id) { return Err(InvoiceNotReady); }
      var value := LastValue(View(), row.issuer, year) + 1;
      sequences := sequences[(row.issuer, year) := value];
      invoices := invoices[id := row.(status := Issuing, number := Some(InvoiceNumber(row.issuer, year, value)))];
      r := Ok(());
    }

    /** Sums of payments, refunds and write-offs, as the recording side computes them. */
    static method EventTotals(events: seq<PaymentEvent>) returns (payments: nat, refunds: nat, writeOffs: nat)
      ensures payments == TotalOf(events, Payment)
      ensures refunds == TotalOf(events, Refund)
      ensures writeOffs == TotalOf(events, WriteOff)
    {
      payments, refunds, writeOffs := 0, 0, 0;
      for i := 0 to |events|
        invariant payments == TotalOf(events[..i], Payment)
        invariant refunds == TotalOf(events[..i], Refund)
        invariant writeOffs == TotalOf(events[..i], WriteOff)
      {
        assert events[..i + 1][..i] == events[..i];
        match events[i].kind
        case Payment => payments := payments + events[i].amount;
        case Refund => refunds := refunds + events[i].amount;
        case WriteOff => writeOffs := writeOffs + events[i].amount;
      }
      assert events[..|events|] == events;
    }

    method RecordPayment(id: nat, q: Request, now: int) returns (r: Result<()>)
      requires Valid()
      modifies this
      ensures Valid() && View() == Committed(old(View()), RecordIn(old(View()), id, q, now))
      ensures match RecordIn(old(View()), id, q, now) case Ok(_) => r == Ok(()) case Err(e) => r == Err(e)
    {
      hide Inv, RequestValid, TotalOf;
      StepKeeps(View(), ActivityRecorded(id, q, now));
      if !RequestValid(q, now) { return Err(PaymentInvalid); }
      RequestAmount(q, now);
      if id >= |invoices| { return Err(InvoiceNotFound); }
      var row := invoices[id];
      if !AcceptsActivity(row, q) { return Err(PaymentForbidden); }
      var e := EventOf(q);
      var existing := 0;
      while existing < |row.events| && row.events[existing].key != q.key
        invariant existing <= |row.events| && forall j :: 0 <= j < existing ==> row.events[j].key != q.key
      {
        existing := existing + 1;
      }
      FoundIs(row.events, q.key, existing);
      if existing < |row.events| {
        assert invoices[id := row] == invoices;
        return if row.events[existing] == e then Ok(()) else Err(IdempotencyConflict);
      }
      var payments, refunds, writeOffs := EventTotals(row.events);
      match e.kind {
        case Payment => payments := payments + e.amount;
        case Refund => refunds := refunds + e.amount;
        case WriteOff => writeOffs := writeOffs + e.amount;
      }
      TotalAppend(row.events, e, Payment);
      TotalAppend(row.events, e, Refund);
      TotalAppend(row.events, e, WriteOff);
      var paid := payments - refunds;
      var settled := row.creditsApplied + paid + writeOffs;
      if paid < 0 || settled < 0 || settled > row.total { return Err(PaymentAmountInvalid); }
      invoices := invoices[id := row.(events := row.events + [e])];
      r := Ok(());
    }

    /** Puts the document where nothing has been put yet; what is there must be the same. */
    method Store(id: nat, document: nat) returns (r: Result<nat>)
      requires Valid()
      modifies this
      ensures Valid() && View() == Step(old(View()), DocumentStored(id, document))
      ensures match StoreDocument(old(View()), id, document) case Ok(_) => r == Ok(document) case Err(e) => r == Err(e)
      ensures r.Ok? ==> Stored(View(), id, document)
    {
      hide Inv;
      StepKeeps(View(), DocumentStored(id, document));
      if id !in documents {
        documents := documents[id := document];
      } else if documents[id] != document {
        return Err(DocumentImmutable);
      }
      r := Ok(document);
    }

    method CompleteOne(id: nat, document: nat, now: int) returns (r: Result<()>)
      requires Valid() && Stored(View(), id, document)
      modifies this
      ensures Valid() && View() == Step(old(View()), IssueCompleted(id, document, now))
      ensures match CompleteIn(old(View()), id, document, now) case Ok(_) => r == Ok(()) case Err(e) => r == Err(e)
    {
      hide Inv;
      StepKeeps(View(), IssueCompleted(id, document, now));
      if id >= |invoices| { return Err(InvoiceNotFound); }
      var row := invoices[id];
      if row.status.Issuing? {
        invoices := invoices[id := row.(status := Issued, issuedAt := Some(now), document := Some(document))];
      }
      row := invoices[id];
      if !row.status.Issued? || row.document != Some(document) { return Err(IssueConflict); }
      assert old(invoices[id]).status.Issued? ==> old(invoices)[id := row] == invoices;
      r := Ok(());
    }

    method Read(id: nat) returns (r: Result<nat>)
      requires Valid()
      ensures r == ReadDocument(View(), id) && r != Err(DocumentBroken)
    {
      if id >= |invoices| { return Err(DocumentNotFound); }
      var row := invoices[id];
      if (!row.status.Issued? && !row.status.Void?) || row.number.None? || row.document.None? {
        return Err(DocumentNotFound);
      }
      if id !in documents || documents[id] != row.document.value { return Err(DocumentBroken); }
      r := Ok(documents[id]);
    }

    method VoidOne(id: nat, reason: string) returns (r: Result<()>)
      requires Valid()
      modifies this
      ensures Valid() && View() == Step(old(View()), VoidRequested(id, reason))
      ensures match VoidIn(old(View()), id, reason) case Ok(_) => r == Ok(()) case Err(e) => r == Err(e)
    {
      hide Inv;
      StepKeeps(View(), VoidRequested(id, reason));
      if reason == "" || |reason| > MAX_VOID_REASON { return Err(VoidReasonInvalid); }
      if id >= |invoices| { return Err(InvoiceNotFound); }
      var row := invoices[id];
      if row.status.Void? {
        assert invoices[id := row] == invoices;
        return Ok(());
      }
      if !row.status.Issued? || row.settlements != {} || row.events != [] { return Err(VoidForbidden); }
      invoices := invoices[id := row.(status := Void, voidReason := Some(reason))];
      r := Ok(());
    }
  }

  lemma RequestAmount(q: Request, now: int)
    requires RequestValid(q, now)
    ensures IsPositiveAmount(q.amountMinor)
  {}

  lemma FoundIs(events: seq<PaymentEvent>, key: string, i: nat)
    requires i <= |events| && (forall j :: 0 <= j < i ==> events[j].key != key)
    requires i < |events| ==> events[i].key == key
    ensures Find(events, key) == i
  {}
}
