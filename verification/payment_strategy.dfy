/** The three payment strategies (credit card, PayPal, bank transfer). They
    differ only in the ledger they use, the identity fields they match on and
    the single key field their debit filters on, so one definition over
    `Credentials` serves all three. A strategy holds identity, never a
    balance: every call re-reads the account row from the store. */
module PaymentStrategy {
  import opened Common
  import opened PaymentStore

  /** The row matching every identity field, as `_update_account_from_db`
      finds it. */
  function Payer(s: Store, c: Credentials): (r: Option<Account>)
    ensures r.Some? ==> r.value in s.Rows(LedgerOf(c)) && r.value.creds == c
    ensures r.None? ==> forall a :: a in s.Rows(LedgerOf(c)) ==> a.creds != c
  {
    var rows := s.Rows(LedgerOf(c));
    match CredsIndex(rows, c)
    case None => None
    case Some(i) => Some(rows[i])
  }

  /** `verify_credentials`: whether some row of the strategy's ledger matches
      every identity field. */
  function VerifyCredentials(s: Store, c: Credentials): (ok: bool)
    ensures ok <==> exists a :: a in s.Rows(LedgerOf(c)) && a.creds == c
  {
    Payer(s, c).Some?
  }

  /** `transfer_to_central`: credits the central account by `amount`. */
  function TransferToCentral(s: Store, amount: int, up: bool): (r: (bool, Store))
    ensures r.0 <==> up && CentralBalance(s).Some? && amount != 0
    ensures r.0 ==> CentralBalance(r.1) == Some(CentralBalance(s).value + amount)
    ensures !r.0 ==> r.1 == s
    ensures SameAccounts(s, r.1) && r.1.payments == s.payments
  {
    UpdateCentralAccountBalance(s, amount, up)
  }

  /** `t` is `s` with the first row keyed like `c` (NOT necessarily the row
      matching all of `c`'s fields) lowered by exactly `amount`, and every
      other account row unchanged. */
  ghost predicate DebitedByKey(s: Store, t: Store, c: Credentials, amount: int)
  {
    var l := LedgerOf(c);
    var rows := s.Rows(l);
    && KeyIndex(rows, KeyOf(c)).Some?
    && var i := KeyIndex(rows, KeyOf(c)).value;
    && |t.Rows(l)| == |rows|
    && t.Rows(l)[i] == Account(rows[i].creds, rows[i].balance - amount)
    && (forall j :: 0 <= j < |rows| && j != i ==> t.Rows(l)[j] == rows[j])
    && (forall m :: m != l ==> t.Rows(m) == s.Rows(m))
  }

  /** The debit step, `update_one({key: ...}, {"$inc": {"balance": -amount}})`
      on the strategy's ledger. */
  function Debit(s: Store, c: Credentials, amount: int): (r: (bool, Store))
    ensures r.0 <==> KeyIndex(s.Rows(LedgerOf(c)), KeyOf(c)).Some? && amount != 0
    ensures !r.0 ==> r.1 == s
    ensures r.0 ==> DebitedByKey(s, r.1, c, amount)
    ensures r.1.central == s.central && r.1.payments == s.payments
  {
    var l := LedgerOf(c);
    var (debited, rows') := IncByKey(s.Rows(l), KeyOf(c), -amount);
    if !debited then (false, s) else (true, s.WithRows(l, rows'))
  }

  /** `process_payment(amount)` of every strategy: verify, check funds against
      the verified row, debit by key, then credit central. Nothing is rolled
      back when the central credit fails after the debit. */
  function ProcessPayment(s: Store, c: Credentials, amount: int, centralUp: bool): (r: (bool, Store))
    ensures !VerifyCredentials(s, c) ==> r == (false, s)
    ensures VerifyCredentials(s, c) && Payer(s, c).value.balance < amount ==> r == (false, s)
    ensures amount == 0 ==> r == (false, s)
    ensures r.0 <==> && VerifyCredentials(s, c) && amount <= Payer(s, c).value.balance && amount != 0
                     && centralUp && CentralBalance(s).Some?
    ensures r.1.payments == s.payments
  {
    var l := LedgerOf(c);
    var rows := s.Rows(l);
    match CredsIndex(rows, c)
    case None => (false, s)
    case Some(i) =>
      assert Payer(s, c) == Some(rows[i]);
      if rows[i].balance < amount then (false, s)
      else
        assert KeyOf(rows[i].creds) == KeyOf(c);
        var (debited, t) := Debit(s, c, amount);
        if !debited then (false, s)
        else TransferToCentral(t, amount, centralUp)
  }

  /** Once funds are found sufficient, the payer is debited whether or not
      the central credit then succeeds; the result is exactly the credit's
      result, and on failure central is left as it was. */
  lemma NoRollback(s: Store, c: Credentials, amount: int, centralUp: bool)
    requires VerifyCredentials(s, c) && amount <= Payer(s, c).value.balance && amount != 0
    ensures var r := ProcessPayment(s, c, amount, centralUp);
      && DebitedByKey(s, r.1, c, amount)
      && (r.0 <==> centralUp && CentralBalance(s).Some?)
      && (!r.0 ==> r.1.central == s.central)
      && (r.0 ==> CentralBalance(r.1) == Some(CentralBalance(s).value + amount))
  {
    var d := Debit(s, c, amount);
    DebitThenCredit(s, c, amount, centralUp);
    DebitedByKeyFrame(s, d.1, ProcessPayment(s, c, amount, centralUp).1, c, amount);
  }

  /** With funds found sufficient, a payment is the debit followed by the
      central credit. */
  lemma DebitThenCredit(s: Store, c: Credentials, amount: int, centralUp: bool)
    requires VerifyCredentials(s, c) && amount <= Payer(s, c).value.balance && amount != 0
    ensures Debit(s, c, amount).0
    ensures ProcessPayment(s, c, amount, centralUp) == TransferToCentral(Debit(s, c, amount).1, amount, centralUp)
  {
    var rows := s.Rows(LedgerOf(c));
    var i := CredsIndex(rows, c).value;
    assert Payer(s, c) == Some(rows[i]);
    assert KeyOf(rows[i].creds) == KeyOf(c);
  }

  /** A successful payment has lowered the row keyed like the payer by
      exactly `amount` and raised central by exactly `amount`. */
  lemma PaymentSettles(s: Store, c: Credentials, amount: int, centralUp: bool)
    ensures var r := ProcessPayment(s, c, amount, centralUp);
      r.0 ==> DebitedByKey(s, r.1, c, amount) && CentralBalance(r.1) == Some(CentralBalance(s).value + amount)
  {
    if ProcessPayment(s, c, amount, centralUp).0 {
      NoRollback(s, c, amount, centralUp);
    }
  }

  /** Changing only the payment records keeps a debit a debit. */
  lemma DebitedByKeyFrame(s: Store, t: Store, t': Store, c: Credentials, amount: int)
    requires DebitedByKey(s, t, c, amount) && SameAccounts(t, t')
    ensures DebitedByKey(s, t', c, amount)
  {
    assert forall m :: t'.Rows(m) == t.Rows(m);
  }

  /** With unique keys the debit lands on the verified row itself. */
  lemma UniqueKeysDebitVerifiedRow(s: Store, c: Credentials, amount: int, centralUp: bool)
    requires UniqueKeys(s.Rows(LedgerOf(c)))
    requires ProcessPayment(s, c, amount, centralUp).0
    ensures var rows := s.Rows(LedgerOf(c));
      var i := CredsIndex(rows, c).value;
      ProcessPayment(s, c, amount, centralUp).1.Rows(LedgerOf(c))[i] == Account(c, rows[i].balance - amount)
  {
    UniqueKeysSameRow(s.Rows(LedgerOf(c)), c);
  }

  predicate NonNegative(rows: seq<Account>)
  {
    forall j :: 0 <= j < |rows| ==> rows[j].balance >= 0
  }

  /** With unique keys, no payment drives a non-negative ledger negative,
      whatever its outcome (a negative amount credits the payer). */
  lemma {:induction false} PaymentKeepsBalancesNonNegative(s: Store, c: Credentials, amount: int, centralUp: bool)
    requires UniqueKeys(s.Rows(LedgerOf(c))) && NonNegative(s.Rows(LedgerOf(c)))
    ensures NonNegative(ProcessPayment(s, c, amount, centralUp).1.Rows(LedgerOf(c)))
  {
    var r := ProcessPayment(s, c, amount, centralUp);
    var l := LedgerOf(c);
    var rows := s.Rows(l);
    if !r.0 && VerifyCredentials(s, c) && amount <= Payer(s, c).value.balance && amount != 0 {
      NoRollback(s, c, amount, centralUp);
    }
    if VerifyCredentials(s, c) && amount <= Payer(s, c).value.balance && amount != 0 {
      NoRollback(s, c, amount, centralUp);
      UniqueKeysSameRow(rows, c);
      var i := CredsIndex(rows, c).value;
      assert r.1.Rows(l)[i].balance == rows[i].balance - amount;
      assert Payer(s, c).value == rows[i];
    }
  }

  /** Two card rows sharing a card number: paying with the second row's full
      credentials passes the balance check on that row but debits the first
      one, which goes negative. */
  lemma SharedCardNumberOverdraws()
    ensures var poor := Account(Card("4111", "Ann", "01/30", "111"), 0);
      var rich := Account(Card("4111", "Bob", "02/31", "222"), 100000);
      var s := Store([CentralAccount("c", "CENBANK", "central@payment.com", 0)], [poor, rich], [], [], []);
      var r := ProcessPayment(s, rich.creds, 2500, true);
      && r.0
      && r.1.cards == [Account(poor.creds, -2500), rich]
      && CentralBalance(r.1) == Some(2500)
  {
    var poor := Account(Card("4111", "Ann", "01/30", "111"), 0);
    var rich := Account(Card("4111", "Bob", "02/31", "222"), 100000);
    var s := Store([CentralAccount("c", "CENBANK", "central@payment.com", 0)], [poor, rich], [], [], []);
    assert poor.creds != rich.creds;
    assert s.cards[1].creds == rich.creds;
    assert CredsIndex(s.cards, rich.creds) == Some(1);
    assert KeyIndex(s.cards, CardNumber("4111")) == Some(0);
  }
}
