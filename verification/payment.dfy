/** One payment: its record in the `payments` collection, its settlement
    through a strategy, its refund, and its receipt. The object caches the
    last status it read; every operation re-reads the stored status first
    or last, as the Python code does. */
module Payments {
  import opened Common
  import opened PaymentStore
  import opened PaymentStrategy

  datatype Payment = Payment(paymentId: string, bookingId: string, amount: int, strategy: Credentials, status: Status)

  /** `_update_status_from_db`: the status of the first record carrying
      `pid`, or `pending` when there is none. */
  function StoredStatus(s: Store, pid: string): (st: Status)
    ensures FindPayment(s.payments, pid).None? ==> st == Pending
    ensures FindPayment(s.payments, pid).Some? ==> st == s.payments[FindPayment(s.payments, pid).value].status
    ensures st != Pending ==> exists j :: 0 <= j < |s.payments| && s.payments[j].paymentId == pid && s.payments[j].status == st
  {
    match FindPayment(s.payments, pid)
    case None => Pending
    case Some(i) => s.payments[i].status
  }

  /** `Payment.__init__`: inserts a `pending` record, then reads the status
      back. An earlier record with the same id shadows the new one. */
  function NewPayment(s: Store, pid: string, bid: string, amount: int, strategy: Credentials, up: bool): (r: (Payment, Store))
    ensures r.0.paymentId == pid && r.0.bookingId == bid && r.0.amount == amount && r.0.strategy == strategy
    ensures up ==> r.1.payments == s.payments + [PaymentRecord(pid, bid, amount, Pending)]
    ensures up ==> FindPayment(r.1.payments, pid).Some?
    ensures !up ==> r.1 == s
    ensures FindPayment(s.payments, pid).None? ==> r.0.status == Pending
    ensures r.0.status == StoredStatus(r.1, pid)
    ensures SameAccounts(s, r.1) && r.1.central == s.central
  {
    var (_, s1) := CreatePaymentRecord(s, pid, bid, amount, Pending, up);
    assert up ==> s1.payments[|s.payments|].paymentId == pid;
    assert up ==> forall j :: 0 <= j < |s.payments| ==> s1.payments[j] == s.payments[j];
    (Payment(pid, bid, amount, strategy, StoredStatus(s1, pid)), s1)
  }

  /** `Payment.process_payment`: runs the strategy, records `success` or
      `failed` accordingly and returns the strategy's result. There is no
      guard on the current status. */
  function Process(p: Payment, s: Store, centralUp: bool): (r: (bool, Payment, Store))
    ensures r.0 <==> ProcessPayment(s, p.strategy, p.amount, centralUp).0
    ensures FindPayment(s.payments, p.paymentId).Some? ==>
              StoredStatus(r.2, p.paymentId) == (if r.0 then Success else Failed)
    ensures FindPayment(s.payments, p.paymentId).None? ==> StoredStatus(r.2, p.paymentId) == Pending
    ensures r.1 == p.(status := StoredStatus(r.2, p.paymentId))
    ensures |r.2.payments| == |s.payments|
    ensures var paid := ProcessPayment(s, p.strategy, p.amount, centralUp);
      SameAccounts(r.2, paid.1) && r.2.central == paid.1.central
  {
    var paid := ProcessPayment(s, p.strategy, p.amount, centralUp);
    var t := RecordStatus(paid.1, p.paymentId, if paid.0 then Success else Failed);
    (paid.0, p.(status := StoredStatus(t, p.paymentId)), t)
  }

  /** A successful `process_payment` has debited the row keyed like the
      payer by the amount and credited central by the same amount. */
  lemma ProcessSettles(p: Payment, s: Store, centralUp: bool)
    ensures var r := Process(p, s, centralUp);
      r.0 ==> DebitedByKey(s, r.2, p.strategy, p.amount) && CentralBalance(r.2) == Some(CentralBalance(s).value + p.amount)
  {
    var paid := ProcessPayment(s, p.strategy, p.amount, centralUp);
    var st := if paid.0 then Success else Failed;
    SettlementSurvivesRecord(s, p.strategy, p.amount, centralUp, p.paymentId, st);
  }

  /** No rollback at the payment level: once funds are found sufficient the
      payer stays debited by the amount, and a failed central credit leaves
      central as it was while the record is stored as `failed`. */
  lemma ProcessNoRollback(p: Payment, s: Store, centralUp: bool)
    requires VerifyCredentials(s, p.strategy) && p.amount <= Payer(s, p.strategy).value.balance && p.amount != 0
    ensures var r := Process(p, s, centralUp);
      && DebitedByKey(s, r.2, p.strategy, p.amount)
      && (!r.0 ==> r.2.central == s.central)
      && (!r.0 && FindPayment(s.payments, p.paymentId).Some? ==> StoredStatus(r.2, p.paymentId) == Failed)
  {
    var paid := ProcessPayment(s, p.strategy, p.amount, centralUp);
    NoRollback(s, p.strategy, p.amount, centralUp);
    DebitedByKeyFrame(s, paid.1, Process(p, s, centralUp).2, p.strategy, p.amount);
  }

  /** Writing a payment record after a settled payment keeps the debit and
      the central credit. */
  lemma SettlementSurvivesRecord(s: Store, c: Credentials, amount: int, centralUp: bool, pid: string, st: Status)
    ensures var paid := ProcessPayment(s, c, amount, centralUp);
      var t := RecordStatus(paid.1, pid, st);
      paid.0 ==> DebitedByKey(s, t, c, amount) && CentralBalance(t) == Some(CentralBalance(s).value + amount)
  {
    var paid := ProcessPayment(s, c, amount, centralUp);
    PaymentSettles(s, c, amount, centralUp);
    if paid.0 {
      DebitedByKeyFrame(s, paid.1, RecordStatus(paid.1, pid, st), c, amount);
    }
  }

  /** The status write `update_one({"payment_id": pid}, {"$set": ...})` of
      a payment: the first record with that id now holds `st`, nothing else
      changes. */
  function RecordStatus(s: Store, pid: string, st: Status): (t: Store)
    ensures SameAccounts(s, t) && t.central == s.central && |t.payments| == |s.payments|
    ensures FindPayment(s.payments, pid).Some? ==> StoredStatus(t, pid) == st
    ensures FindPayment(s.payments, pid).None? ==> t == s && StoredStatus(t, pid) == Pending
    ensures FindPayment(s.payments, pid).Some? ==> var i := FindPayment(s.payments, pid).value;
      && t.payments[i] == s.payments[i].(status := st)
      && forall j :: 0 <= j < |s.payments| && j != i ==> t.payments[j] == s.payments[j]
  {
    UpdatePaymentStatusStored(s, pid, st, true);
    UpdatePaymentStatus(s, pid, st, true).1
  }

  /** `Payment.refund`: only a payment stored as `success` is refunded; the
      refund takes `amount` out of the central account and marks the record
      `refunded`. The original instrument is never credited back. */
  function Refund(p: Payment, s: Store, centralUp: bool): (r: (bool, Payment, Store))
    ensures StoredStatus(s, p.paymentId) != Success ==> !r.0 && r.2 == s
    ensures r.0 <==> StoredStatus(s, p.paymentId) == Success && centralUp && CentralBalance(s).Some? && p.amount != 0
    ensures !r.0 ==> r.2 == s && r.1 == p.(status := StoredStatus(s, p.paymentId))
    ensures r.0 ==> CentralBalance(r.2) == Some(CentralBalance(s).value - p.amount)
    ensures r.0 ==> StoredStatus(r.2, p.paymentId) == Refunded && r.1.status == Refunded
    ensures r.0 ==> var i := FindPayment(s.payments, p.paymentId).value;
      && |r.2.payments| == |s.payments|
      && r.2.payments[i] == s.payments[i].(status := Refunded)
      && forall j :: 0 <= j < |s.payments| && j != i ==> r.2.payments[j] == s.payments[j]
    ensures SameAccounts(s, r.2)
  {
    var st := StoredStatus(s, p.paymentId);
    if st != Success then (false, p.(status := st), s)
    else
      var debit := UpdateCentralAccountBalance(s, -p.amount, centralUp);
      if !debit.0 then (false, p.(status := st), s)
      else
        assert FindPayment(debit.1.payments, p.paymentId).Some?;
        var s2 := RecordStatus(debit.1, p.paymentId, Refunded);
        (true, p.(status := StoredStatus(s2, p.paymentId)), s2)
  }

  /** A refunded payment cannot be refunded again: the second call reports
      failure and changes nothing, so central is lowered only once. */
  lemma {:induction false} RefundAtMostOnce(p: Payment, s: Store, centralUp: bool, centralUp2: bool)
    requires Refund(p, s, centralUp).0
    ensures var (_, p1, s1) := Refund(p, s, centralUp);
      var (ok2, _, s2) := Refund(p1, s1, centralUp2);
      !ok2 && s2 == s1 && CentralBalance(s2) == Some(CentralBalance(s).value - p.amount)
  {
    var (_, p1, s1) := Refund(p, s, centralUp);
    assert p1.paymentId == p.paymentId;
    assert StoredStatus(s1, p1.paymentId) == Refunded;
  }

  /** Processing has no status guard: a refunded payment processed again is
      charged again and its record goes back to `success`. */
  lemma ReprocessAfterRefundCharges(p: Payment, s: Store, centralUp: bool)
    requires StoredStatus(s, p.paymentId) == Refunded
    requires ProcessPayment(s, p.strategy, p.amount, centralUp).0
    ensures var (ok, p1, s1) := Process(p, s, centralUp);
      && ok && StoredStatus(s1, p.paymentId) == Success && p1.status == Success
      && DebitedByKey(s, s1, p.strategy, p.amount)
  {
    assert FindPayment(s.payments, p.paymentId).Some?;
    ProcessSettles(p, s, centralUp);
  }

  // ---------------------------------------------------------------------
  // Receipt

  function FractionText(f: nat): (s: string)
    requires f < 100
    ensures 1 <= |s| <= 2 && AllDigits(s)
  {
    if f % 10 == 0 then [DigitChar(f / 10)] else [DigitChar(f / 10), DigitChar(f % 10)]
  }

  function Abs(n: int): nat { if n < 0 then -n else n }

  /** How Python prints the float `cents / 100`: the shortest decimal that
      reads back to it, so `250.0`, `2.5`, `0.01`, `-3.75`. */
  function AmountText(cents: int): (s: string)
  {
    (if cents < 0 then "-" else "") + UnsignedText(Abs(cents))
  }

  /** The printed magnitude: whole units, a point, one or two decimals. */
  function UnsignedText(a: nat): string
  {
    NatToString(a / 100) + "." + FractionText(a % 100)
  }

  function ParseUnsigned(s: string): Option<nat>
  {
    if |s| >= 3 && s[|s| - 2] == '.' && AllDigits(s[..|s| - 2]) && IsDigit(s[|s| - 1]) then
      Some(ParseNat(s[..|s| - 2]) * 100 + DigitValue(s[|s| - 1]) * 10)
    else if |s| >= 4 && s[|s| - 3] == '.' && AllDigits(s[..|s| - 3]) && IsDigit(s[|s| - 2]) && IsDigit(s[|s| - 1]) then
      Some(ParseNat(s[..|s| - 3]) * 100 + DigitValue(s[|s| - 2]) * 10 + DigitValue(s[|s| - 1]))
    else None
  }

  /** Reads an amount back from its printed form. */
  function ParseAmount(s: string): Option<int>
  {
    if |s| > 0 && s[0] == '-' then
      match ParseUnsigned(s[1..])
      case None => None
      case Some(n) => Some(-(n as int))
    else match ParseUnsigned(s)
      case None => None
      case Some(n) => Some(n)
  }

  lemma UnsignedRoundTrip(a: nat)
    ensures var body := UnsignedText(a);
      body[0] != '-' && ParseUnsigned(body) == Some(a)
  {
    var w := NatToString(a / 100);
    var f := FractionText(a % 100);
    var body := UnsignedText(a);
    assert body == w + "." + f;
    ParseNatToString(a / 100);
    if |f| == 1 {
      assert body[..|body| - 2] == w;
      assert body[|body| - 1] == f[0];
    } else {
      assert body[|body| - 2] == f[0];
      assert body[..|body| - 3] == w;
      assert body[|body| - 1] == f[1];
    }
  }

  /** A leading `-` negates an unsigned amount and nothing else does. */
  lemma ParseSigned(body: string, n: nat)
    requires |body| > 0 && body[0] != '-' && ParseUnsigned(body) == Some(n)
    ensures ParseAmount(body) == Some(n) && ParseAmount("-" + body) == Some(-(n as int))
  {
    assert ("-" + body)[1..] == body;
  }

  /** The printed amount determines the amount: parsing undoes printing. */
  lemma AmountTextRoundTrip(cents: int)
    ensures ParseAmount(AmountText(cents)) == Some(cents)
  {
    var a := Abs(cents);
    var body := UnsignedText(a);
    UnsignedRoundTrip(a);
    ParseSigned(body, a);
    assert AmountText(cents) == (if cents < 0 then "-" + body else body);
  }

  const ReceiptPrefix := "Receipt: Payment ID "
  const AmountLabel := ", Amount $"
  const StatusLabel := ", Status: "

  /** `generate_receipt`: re-reads the stored status, then renders id,
      amount and that status. */
  function GenerateReceipt(p: Payment, s: Store): (r: (string, Payment))
    ensures r.1 == p.(status := StoredStatus(s, p.paymentId))
    ensures r.0 == ReceiptPrefix + p.paymentId + AmountLabel + AmountText(p.amount) + StatusLabel + r.1.status.Name()
  {
    var st := StoredStatus(s, p.paymentId);
    (ReceiptPrefix + p.paymentId + AmountLabel + AmountText(p.amount) + StatusLabel + st.Name(), p.(status := st))
  }

  /** The receipt shows the stored status, not the cached one: two stores
      that disagree on the status yield different receipts. */
  lemma ReceiptReflectsStoredStatus(p: Payment, s: Store, t: Store)
    requires StoredStatus(s, p.paymentId) != StoredStatus(t, p.paymentId)
    ensures GenerateReceipt(p, s).0 != GenerateReceipt(p, t).0
  {
    var a := StoredStatus(s, p.paymentId).Name();
    var b := StoredStatus(t, p.paymentId).Name();
    assert a != b by {
      match StoredStatus(s, p.paymentId)
      case Pending => assert a[0] == 'p';
      case Success => assert a[0] == 's';
      case Failed => assert a[0] == 'f';
      case Refunded => assert a[0] == 'r';
    }
    var head := ReceiptPrefix + p.paymentId + AmountLabel + AmountText(p.amount) + StatusLabel;
    assert GenerateReceipt(p, s).0[|head|..] == a;
    assert GenerateReceipt(p, t).0[|head|..] == b;
  }
}
