/** The in-memory `BookingSystem` of the notification package: a list of
    bookings with sequential ids and a list of observers notified of every
    booking event. Observers are opaque ids; what `update` does with a
    message is recorded as a delivery log. Clock readings are parameters. */
module BookingSystem {
  import opened Common

  type Observer = nat

  datatype Booking = Booking(
    id: int,
    guest: Observer,
    host: Observer,
    propertyId: string,
    startDate: int,
    endDate: int,
    status: string,
    createdAt: int,
    paymentId: Option<string>,
    paidAt: Option<int>)

  datatype System = System(observers: seq<Observer>, bookings: seq<Booking>, log: seq<(Observer, string)>)

  /** What `_process_payment` reports. */
  datatype PaymentResult = PaymentResult(success: bool, paymentId: string, message: string)

  function Empty(): System
  {
    System([], [], [])
  }

  predicate NoDuplicates(xs: seq<Observer>)
  {
    forall i, j :: 0 <= i < j < |xs| ==> xs[i] != xs[j]
  }

  /** `attach`: appends the observer unless it is already attached. */
  function Attach(s: System, o: Observer): (t: System)
    ensures o in s.observers ==> t == s
    ensures o !in s.observers ==> t == s.(observers := s.observers + [o])
    ensures NoDuplicates(s.observers) ==> NoDuplicates(t.observers)
    ensures o in t.observers && forall x :: x in s.observers ==> x in t.observers
  {
    if o in s.observers then s else s.(observers := s.observers + [o])
  }

  /** Position of the first occurrence of `o`. */
  function IndexOf(xs: seq<Observer>, o: Observer): (i: nat)
    requires o in xs
    ensures i < |xs| && xs[i] == o
    ensures forall j :: 0 <= j < i ==> xs[j] != o
  {
    if xs[0] == o then 0 else 1 + IndexOf(xs[1..], o)
  }

  /** `list.remove`: drops the first occurrence. */
  function RemoveFirst(xs: seq<Observer>, o: Observer): (r: seq<Observer>)
    requires o in xs
    ensures |r| == |xs| - 1
    ensures forall k :: 0 <= k < |r| ==> r[k] == if k < IndexOf(xs, o) then xs[k] else xs[k + 1]
  {
    xs[..IndexOf(xs, o)] + xs[IndexOf(xs, o) + 1..]
  }

  /** `detach`: removes the observer, raising `ValueError` when it is not
      attached. */
  function Detach(s: System, o: Observer): (r: Outcome<System>)
    ensures o !in s.observers ==> r == Raised("ValueError")
    ensures o in s.observers ==> r.Returned? && r.value.bookings == s.bookings && r.value.log == s.log
                                 && |r.value.observers| == |s.observers| - 1
  {
    if o in s.observers then Returned(s.(observers := RemoveFirst(s.observers, o))) else Raised("ValueError")
  }

  /** Without duplicates, detaching removes exactly that observer and keeps
      all the others in their order, and no duplicates appear. */
  lemma DetachRemovesExactly(s: System, o: Observer)
    requires NoDuplicates(s.observers) && o in s.observers
    ensures var t := Detach(s, o).value;
      && o !in t.observers
      && (forall x :: x in t.observers <==> x in s.observers && x != o)
      && NoDuplicates(t.observers)
  {
    RemoveFirstMembers(s.observers, o);
    RemoveFirstNoDuplicates(s.observers, o);
  }

  lemma RemoveFirstMembers(xs: seq<Observer>, o: Observer)
    requires NoDuplicates(xs) && o in xs
    ensures forall x :: x in RemoveFirst(xs, o) <==> x in xs && x != o
  {
    var r := RemoveFirst(xs, o);
    var i := IndexOf(xs, o);
    forall x
      ensures x in r <==> x in xs && x != o
    {
      if x in xs && x != o {
        var k :| 0 <= k < |xs| && xs[k] == x;
        if k < i { assert r[k] == x; } else { assert r[k - 1] == x; }
      }
      if x in r {
        var k :| 0 <= k < |r| && r[k] == x;
        if k >= i { assert xs[k + 1] == x; }
      }
    }
  }

  lemma RemoveFirstNoDuplicates(xs: seq<Observer>, o: Observer)
    requires NoDuplicates(xs) && o in xs
    ensures NoDuplicates(RemoveFirst(xs, o))
  {
    var r := RemoveFirst(xs, o);
    var i := IndexOf(xs, o);
    forall a, b | 0 <= a < b < |r|
      ensures r[a] != r[b]
    {
      var a' := if a < i then a else a + 1;
      var b' := if b < i then b else b + 1;
      assert r[a] == xs[a'] && r[b] == xs[b'] && a' < b';
    }
  }

  /** One delivery of `msg` per observer, in attachment order. */
  function Deliveries(obs: seq<Observer>, msg: string): (r: seq<(Observer, string)>)
    ensures |r| == |obs|
    ensures forall i :: 0 <= i < |obs| ==> r[i] == (obs[i], msg)
  {
    seq(|obs|, i requires 0 <= i < |obs| => (obs[i], msg))
  }

  /** `notify`: every attached observer receives the message once, in
      order; nothing else changes. */
  function Notify(s: System, msg: string): (t: System)
    ensures t.observers == s.observers && t.bookings == s.bookings
    ensures t.log == s.log + Deliveries(s.observers, msg)
  {
    s.(log := s.log + Deliveries(s.observers, msg))
  }

  function CreatedMessage(id: int, propertyId: string): string
  {
    "Booking #" + IntToString(id) + " created for property " + propertyId + ". Status: Pending payment."
  }

  function PaidMessage(id: int): string
  {
    "Payment successful for Booking #" + IntToString(id) + ". Your booking is now confirmed."
  }

  function FailedMessage(id: int): string
  {
    "Payment failed for Booking #" + IntToString(id) + ". Please try another payment method."
  }

  /** Booking ids are 1, 2, 3, ... in list order. */
  predicate SequentialIds(s: System)
  {
    forall i :: 0 <= i < |s.bookings| ==> s.bookings[i].id == i + 1
  }

  /** `create_booking`: appends a `"pending"` booking whose id is one more
      than the number of bookings, attaches guest and host, and notifies
      every attached observer. */
  function CreateBooking(s: System, guest: Observer, host: Observer, propertyId: string,
                         startDate: int, endDate: int, now: int): (r: (int, System))
    ensures r.0 == |s.bookings| + 1
    ensures r.1.bookings == s.bookings + [Booking(r.0, guest, host, propertyId, startDate, endDate, "pending", now, None, None)]
    ensures guest in r.1.observers && host in r.1.observers
    ensures forall x :: x in r.1.observers <==> x in s.observers || x == guest || x == host
    ensures r.1.log == s.log + Deliveries(r.1.observers, CreatedMessage(r.0, propertyId))
    ensures NoDuplicates(s.observers) ==> NoDuplicates(r.1.observers)
    ensures SequentialIds(s) ==> SequentialIds(r.1)
  {
    var id := |s.bookings| + 1;
    var b := Booking(id, guest, host, propertyId, startDate, endDate, "pending", now, None, None);
    var t := Attach(Attach(s.(bookings := s.bookings + [b]), guest), host);
    (id, Notify(t, CreatedMessage(id, propertyId)))
  }

  /** `_process_payment`: always succeeds, with payment id `"pay_"` and the
      clock reading `stamp`. */
  function SimulatedPayment(amount: int, paymentMethod: string, stamp: string): (p: PaymentResult)
    ensures p.success && p.paymentId == "pay_" + stamp
  {
    PaymentResult(true, "pay_" + stamp, "Payment processed successfully")
  }

  /** The outcome branch of `process_payment` for the booking at position
      `i`: on success the booking is confirmed and records the payment id
      and time; on failure it is marked `"payment_failed"`. */
  function Settle(s: System, i: nat, result: PaymentResult, now: int): (r: (bool, System))
    requires i < |s.bookings|
    ensures r.0 == result.success
    ensures |r.1.bookings| == |s.bookings| && r.1.observers == s.observers
    ensures forall j :: 0 <= j < |s.bookings| && j != i ==> r.1.bookings[j] == s.bookings[j]
    ensures r.1.bookings[i].id == s.bookings[i].id
    ensures result.success ==> r.1.bookings[i] == s.bookings[i].(status := "confirmed", paymentId := Some(result.paymentId), paidAt := Some(now))
    ensures !result.success ==> r.1.bookings[i] == s.bookings[i].(status := "payment_failed")
    ensures r.1.log == s.log + Deliveries(s.observers, if result.success then PaidMessage(s.bookings[i].id) else FailedMessage(s.bookings[i].id))
  {
    var b := s.bookings[i];
    if result.success then
      var b' := b.(status := "confirmed", paymentId := Some(result.paymentId), paidAt := Some(now));
      (true, Notify(s.(bookings := s.bookings[i := b']), PaidMessage(b.id)))
    else
      (false, Notify(s.(bookings := s.bookings[i := b.(status := "payment_failed")]), FailedMessage(b.id)))
  }

  /** Position of the first booking with that id. */
  function FindBooking(bookings: seq<Booking>, id: int): (r: Option<nat>)
    ensures r.Some? ==> r.value < |bookings| && bookings[r.value].id == id
    ensures r.Some? ==> forall j :: 0 <= j < r.value ==> bookings[j].id != id
    ensures r.None? <==> forall j :: 0 <= j < |bookings| ==> bookings[j].id != id
  {
    FirstIndex(bookings, (b: Booking) => b.id == id)
  }

  /** `process_payment`: an unknown id raises `ValueError`; otherwise the
      simulated payment is settled. */
  function ProcessPayment(s: System, bookingId: int, paymentMethod: string, amount: int, stamp: string, now: int)
    : (r: Outcome<(bool, System)>)
    ensures FindBooking(s.bookings, bookingId).None? ==> r == Raised("ValueError")
    ensures FindBooking(s.bookings, bookingId).Some? ==>
              r == Returned(Settle(s, FindBooking(s.bookings, bookingId).value, SimulatedPayment(amount, paymentMethod, stamp), now))
    ensures FindBooking(s.bookings, bookingId).Some? ==> var i := FindBooking(s.bookings, bookingId).value;
      && r.Returned? && r.value.0
      && r.value.1.bookings[i].status == "confirmed"
      && r.value.1.bookings[i].paymentId == Some("pay_" + stamp) && r.value.1.bookings[i].paidAt == Some(now)
      && r.value.1.log == s.log + Deliveries(s.observers, PaidMessage(bookingId))
  {
    match FindBooking(s.bookings, bookingId)
    case None => Raised("ValueError")
    case Some(i) => Returned(Settle(s, i, SimulatedPayment(amount, paymentMethod, stamp), now))
  }

  /** With sequential ids, paying for booking `k` (1 <= k <= n) always
      succeeds: it confirms exactly booking `k`, records `"pay_" + stamp`,
      notifies every observer once, and keeps the ids sequential. Any other
      id raises. */
  lemma PaymentAlwaysConfirms(s: System, k: int, paymentMethod: string, amount: int, stamp: string, now: int)
    requires SequentialIds(s)
    ensures !(1 <= k <= |s.bookings|) ==> ProcessPayment(s, k, paymentMethod, amount, stamp, now) == Raised("ValueError")
    ensures 1 <= k <= |s.bookings| ==>
      var r := ProcessPayment(s, k, paymentMethod, amount, stamp, now);
      && r.Returned? && r.value.0
      && r.value.1.bookings[k - 1].status == "confirmed"
      && r.value.1.bookings[k - 1].paymentId == Some("pay_" + stamp)
      && r.value.1.log == s.log + Deliveries(s.observers, PaidMessage(k))
      && SequentialIds(r.value.1)
  {
    if 1 <= k <= |s.bookings| {
      assert s.bookings[k - 1].id == k;
      var i := FindBooking(s.bookings, k).value;
      assert i == k - 1;
    }
  }

  /** The calls a client can make on the system. */
  datatype Event =
    | Book(guest: Observer, host: Observer, propertyId: string, startDate: int, endDate: int, now: int)
    | Pay(bookingId: int, paymentMethod: string, amount: int, stamp: string, now: int)
    | Leave(observer: Observer)

  /** Applies one event; an event that raises leaves the system as it was. */
  function Step(s: System, e: Event): System
  {
    match e
    case Book(g, h, p, a, b, now) => CreateBooking(s, g, h, p, a, b, now).1
    case Pay(id, m, amt, st, now) =>
      (match ProcessPayment(s, id, m, amt, st, now)
       case Raised(_) => s
       case Returned(res) => res.1)
    case Leave(o) =>
      match Detach(s, o)
      case Raised(_) => s
      case Returned(t) => t
  }

  function Run(s: System, events: seq<Event>): System
    decreases |events|
  {
    if |events| == 0 then s else Run(Step(s, events[0]), events[1..])
  }

  lemma StepKeepsInvariants(s: System, e: Event)
    requires SequentialIds(s) && NoDuplicates(s.observers)
    ensures SequentialIds(Step(s, e)) && NoDuplicates(Step(s, e).observers)
  {
    match e
    case Book(_, _, _, _, _, _) =>
    case Pay(id, m, amt, st, now) =>
      PaymentAlwaysConfirms(s, id, m, amt, st, now);
    case Leave(o) =>
      if o in s.observers {
        DetachRemovesExactly(s, o);
      }
  }

  /** Any run of bookings, payments and detaches keeps the ids sequential
      and the observer list free of duplicates (so from the empty system). */
  lemma {:induction false} RunKeepsInvariants(s: System, events: seq<Event>)
    requires SequentialIds(s) && NoDuplicates(s.observers)
    ensures SequentialIds(Run(s, events)) && NoDuplicates(Run(s, events).observers)
    decreases |events|
  {
    if |events| > 0 {
      StepKeepsInvariants(s, events[0]);
      RunKeepsInvariants(Step(s, events[0]), events[1..]);
    }
  }
}
