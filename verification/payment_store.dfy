/** The payment database: the single central clearing account, the three
    instrument ledgers (cards, PayPal, bank) and the payment records, with
    the store operations the payment code relies on. Each collection is a
    sequence in natural order, because `find_one` and `update_one` act on the
    FIRST matching document. Money is in cents.

    Every operation takes `up`: whether the connection made for that call
    succeeds. When it does not, the operation reports failure and changes
    nothing, as the `try`/`except` blocks of the Python code do. */
module PaymentStore {
  import opened Common

  /** The identity fields of an instrument; each strategy looks up its
      account row by exact match on all of them. */
  datatype Credentials =
    | Card(cardNumber: string, name: string, expiry: string, cvv: string)
    | PayPal(email: string, password: string)
    | Bank(accountNumber: string, bankCode: string)

  /** The single field each strategy filters on when it debits. */
  datatype Key = CardNumber(number: string) | Email(email: string) | AccountNumber(number: string)

  function KeyOf(c: Credentials): Key
  {
    match c
    case Card(n, _, _, _) => CardNumber(n)
    case PayPal(e, _) => Email(e)
    case Bank(n, _) => AccountNumber(n)
  }

  datatype Account = Account(creds: Credentials, balance: int)

  datatype CentralAccount = CentralAccount(accountNumber: string, bankCode: string, email: string, balance: int)

  datatype Status = Pending | Success | Failed | Refunded
  {
    /** The string stored in the `status` field. */
    function Name(): string
    {
      match this
      case Pending => "pending"
      case Success => "success"
      case Failed => "failed"
      case Refunded => "refunded"
    }
  }

  /** A document of the `payments` collection (its timestamp is left out). */
  datatype PaymentRecord = PaymentRecord(paymentId: string, bookingId: string, amount: int, status: Status)

  /** Which instrument collection an account lives in. */
  datatype Ledger = Cards | PayPals | Banks

  function LedgerOf(c: Credentials): Ledger
  {
    match c
    case Card(_, _, _, _) => Cards
    case PayPal(_, _) => PayPals
    case Bank(_, _) => Banks
  }

  datatype Store = Store(
    central: seq<CentralAccount>,
    cards: seq<Account>,
    paypal: seq<Account>,
    bank: seq<Account>,
    payments: seq<PaymentRecord>)
  {
    function Rows(l: Ledger): seq<Account>
    {
      match l
      case Cards => cards
      case PayPals => paypal
      case Banks => bank
    }

    function WithRows(l: Ledger, rows: seq<Account>): (s: Store)
      ensures s.Rows(l) == rows
      ensures forall m :: m != l ==> s.Rows(m) == Rows(m)
      ensures s.central == central && s.payments == payments
    {
      match l
      case Cards => this.(cards := rows)
      case PayPals => this.(paypal := rows)
      case Banks => this.(bank := rows)
    }
  }

  /** The balance of the central account, when it exists. */
  function CentralBalance(s: Store): Option<int>
  {
    if |s.central| == 0 then None else Some(s.central[0].balance)
  }

  /** The three instrument ledgers are all equal between two stores. */
  predicate SameAccounts(s: Store, t: Store)
  {
    s.cards == t.cards && s.paypal == t.paypal && s.bank == t.bank
  }

  // ---------------------------------------------------------------------
  // Lookups

  /** Position of the first account row matching every credential field. */
  function CredsIndex(rows: seq<Account>, c: Credentials): (r: Option<nat>)
    ensures r.Some? ==> r.value < |rows| && rows[r.value].creds == c
    ensures r.Some? ==> forall j :: 0 <= j < r.value ==> rows[j].creds != c
    ensures r.None? <==> forall j :: 0 <= j < |rows| ==> rows[j].creds != c
  {
    FirstIndex(rows, (a: Account) => a.creds == c)
  }

  /** Position of the first account row whose key field equals `k`. */
  function KeyIndex(rows: seq<Account>, k: Key): (r: Option<nat>)
    ensures r.Some? ==> r.value < |rows| && KeyOf(rows[r.value].creds) == k
    ensures r.Some? ==> forall j :: 0 <= j < r.value ==> KeyOf(rows[j].creds) != k
    ensures r.None? <==> forall j :: 0 <= j < |rows| ==> KeyOf(rows[j].creds) != k
  {
    FirstIndex(rows, (a: Account) => KeyOf(a.creds) == k)
  }

  /** Whether the key field identifies rows uniquely within a ledger. */
  predicate UniqueKeys(rows: seq<Account>)
  {
    forall i, j :: 0 <= i < |rows| && 0 <= j < |rows| && KeyOf(rows[i].creds) == KeyOf(rows[j].creds) ==> i == j
  }

  /** Under unique keys, the row found by all credential fields is the row
      the debit's single-key filter reaches. */
  lemma UniqueKeysSameRow(rows: seq<Account>, c: Credentials)
    requires UniqueKeys(rows)
    requires CredsIndex(rows, c).Some?
    ensures KeyIndex(rows, KeyOf(c)) == CredsIndex(rows, c)
  {
    var i := CredsIndex(rows, c).value;
    assert KeyOf(rows[i].creds) == KeyOf(c);
    var k := KeyIndex(rows, KeyOf(c));
    assert k.Some?;
  }

  /** The first payment record carrying `pid`. */
  function FindPayment(payments: seq<PaymentRecord>, pid: string): (r: Option<nat>)
    ensures r.Some? ==> r.value < |payments| && payments[r.value].paymentId == pid
    ensures r.Some? ==> forall j :: 0 <= j < r.value ==> payments[j].paymentId != pid
    ensures r.None? <==> forall j :: 0 <= j < |payments| ==> payments[j].paymentId != pid
  {
    FirstIndex(payments, (p: PaymentRecord) => p.paymentId == pid)
  }

  // ---------------------------------------------------------------------
  // Updates

  /** `update_one({key: k}, {"$inc": {"balance": delta}})` on one ledger:
      changes the first row with that key; reports a modification only if
      a row matched and its balance actually changed. */
  function IncByKey(rows: seq<Account>, k: Key, delta: int): (r: (bool, seq<Account>))
    ensures r.0 <==> KeyIndex(rows, k).Some? && delta != 0
    ensures !r.0 ==> r.1 == rows
    ensures r.0 ==> var i := KeyIndex(rows, k).value;
      && |r.1| == |rows|
      && r.1[i] == Account(rows[i].creds, rows[i].balance + delta)
      && forall j :: 0 <= j < |rows| && j != i ==> r.1[j] == rows[j]
  {
    match KeyIndex(rows, k)
    case None => (false, rows)
    case Some(i) =>
      if delta == 0 then (false, rows)
      else (true, rows[i := rows[i].(balance := rows[i].balance + delta)])
  }

  /** `update_central_account_balance(amount)`: `$inc` on the first (only)
      central document; true only when a document was modified. */
  function UpdateCentralAccountBalance(s: Store, amount: int, up: bool): (r: (bool, Store))
    ensures r.0 <==> up && |s.central| > 0 && amount != 0
    ensures !r.0 ==> r.1 == s
    ensures r.0 ==> CentralBalance(r.1) == Some(s.central[0].balance + amount)
    ensures |r.1.central| == |s.central|
    ensures forall j :: 1 <= j < |s.central| ==> r.1.central[j] == s.central[j]
    ensures SameAccounts(s, r.1) && r.1.payments == s.payments
  {
    if !up || |s.central| == 0 || amount == 0 then (false, s)
    else
      var c := s.central[0];
      (true, s.(central := s.central[0 := c.(balance := c.balance + amount)]))
  }

  /** `get_central_account()`: the first central document, or none. */
  function GetCentralAccount(s: Store, up: bool): (r: Option<CentralAccount>)
    ensures r.Some? <==> up && |s.central| > 0
    ensures r.Some? ==> r.value in s.central && r.value.balance == CentralBalance(s).value
  {
    if !up || |s.central| == 0 then None else Some(s.central[0])
  }

  /** `create_payment_record`: inserts one record carrying exactly the given
      fields (there is no unique index on `payment_id`). */
  function CreatePaymentRecord(s: Store, pid: string, bid: string, amount: int, status: Status, up: bool): (r: (bool, Store))
    ensures r.0 <==> up
    ensures !r.0 ==> r.1 == s
    ensures r.0 ==> r.1.payments == s.payments + [PaymentRecord(pid, bid, amount, status)]
    ensures SameAccounts(s, r.1) && r.1.central == s.central
  {
    if !up then (false, s)
    else (true, s.(payments := s.payments + [PaymentRecord(pid, bid, amount, status)]))
  }

  /** `update_payment_status`: `$set` on the first record with `pid`; false
      when nothing matched or the status was already `status`. */
  function UpdatePaymentStatus(s: Store, pid: string, status: Status, up: bool): (r: (bool, Store))
    ensures r.0 <==> up && FindPayment(s.payments, pid).Some? && s.payments[FindPayment(s.payments, pid).value].status != status
    ensures !r.0 ==> r.1 == s
    ensures r.0 ==> var i := FindPayment(s.payments, pid).value;
      && |r.1.payments| == |s.payments|
      && r.1.payments[i] == s.payments[i].(status := status)
      && forall j :: 0 <= j < |s.payments| && j != i ==> r.1.payments[j] == s.payments[j]
    ensures SameAccounts(s, r.1) && r.1.central == s.central
  {
    if !up then (false, s)
    else match FindPayment(s.payments, pid)
      case None => (false, s)
      case Some(i) =>
        if s.payments[i].status == status then (false, s)
        else (true, s.(payments := s.payments[i := s.payments[i].(status := status)]))
  }

  /** A status update never changes which record `pid` finds, and that
      record, if any, then carries the new status, whether or not Mongo
      counted the write as a modification. */
  lemma UpdatePaymentStatusStored(s: Store, pid: string, status: Status, up: bool)
    ensures var t := UpdatePaymentStatus(s, pid, status, up).1;
      && FindPayment(t.payments, pid) == FindPayment(s.payments, pid)
      && (up && FindPayment(s.payments, pid).Some? ==> t.payments[FindPayment(t.payments, pid).value].status == status)
  {
    var t := UpdatePaymentStatus(s, pid, status, up).1;
    assert forall j :: 0 <= j < |t.payments| ==> t.payments[j].paymentId == s.payments[j].paymentId;
  }

  // ---------------------------------------------------------------------
  // Seeding

  const SeedCentral: seq<CentralAccount> :=
    [CentralAccount("1234567890", "CENBANK", "central@payment.com", 0)]

  const SeedCards: seq<Account> :=
    [ Account(Card("1234567890123456", "John Doe", "12/25", "123"), 100000),
      Account(Card("9876543210987654", "Jane Smith", "06/24", "456"), 200000) ]

  const SeedPayPal: seq<Account> :=
    [ Account(PayPal("user1@example.com", "password123"), 150000),
      Account(PayPal("user2@example.com", "password456"), 250000) ]

  const SeedBank: seq<Account> :=
    [ Account(Bank("111122223333", "BANK1"), 300000),
      Account(Bank("444455556666", "BANK2"), 400000) ]

  /** `initialize_dummy_accounts`: each collection is seeded only when it is
      empty; a collection that already holds documents is left as it is. */
  function InitializeDummyAccounts(s: Store, up: bool): (r: (bool, Store))
    ensures r.0 <==> up
    ensures !up ==> r.1 == s
    ensures up ==> r.1.central == (if |s.central| == 0 then SeedCentral else s.central)
    ensures up ==> r.1.cards == (if |s.cards| == 0 then SeedCards else s.cards)
    ensures up ==> r.1.paypal == (if |s.paypal| == 0 then SeedPayPal else s.paypal)
    ensures up ==> r.1.bank == (if |s.bank| == 0 then SeedBank else s.bank)
    ensures r.1.payments == s.payments
  {
    if !up then (false, s)
    else
      (true, Store(
        if |s.central| == 0 then SeedCentral else s.central,
        if |s.cards| == 0 then SeedCards else s.cards,
        if |s.paypal| == 0 then SeedPayPal else s.paypal,
        if |s.bank| == 0 then SeedBank else s.bank,
        s.payments))
  }

  function EmptyStore(): Store
  {
    Store([], [], [], [], [])
  }

  /** Seeding twice is the same as seeding once. */
  lemma SeedIdempotent(s: Store)
    ensures var once := InitializeDummyAccounts(s, true).1;
      InitializeDummyAccounts(once, true).1 == once
  {
  }

  /** Seeding an empty database yields the documented opening balances and
      keys that identify each seeded row uniquely. */
  lemma SeedBalances()
    ensures var s := InitializeDummyAccounts(EmptyStore(), true).1;
      && CentralBalance(s) == Some(0)
      && |s.cards| == 2 && s.cards[0].balance == 100000 && s.cards[1].balance == 200000
      && |s.paypal| == 2 && s.paypal[0].balance == 150000 && s.paypal[1].balance == 250000
      && |s.bank| == 2 && s.bank[0].balance == 300000 && s.bank[1].balance == 400000
      && UniqueKeys(s.cards) && UniqueKeys(s.paypal) && UniqueKeys(s.bank)
  {
  }
}
