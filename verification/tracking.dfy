/**
 * The waybill lifecycle: a booking creates a waybill with a seeded three-checkpoint timeline and
 * files the same booking details as a shipment under the same reference; tracking looks a
 * reference up exactly; simulating delivery is the one transition after creation.
 */
module Tracking {
  import opened Wrappers
  import opened Records

  datatype BookError = NotLoggedIn

  datatype DeliverError = WaybillNotFound | AlreadyDelivered

  /** The three synthetic checkpoints every new waybill starts with. */
  function SeededTimeline(now: Hour): seq<Event> {
    [ Event(BookingConfirmed, now),
      Event(InTransit, now + InTransitAfter),
      Event(Arriving, now + ArrivingAfter) ]
  }

  /** Number of "Delivered" events in a tracking history. */
  function CountDelivered(t: seq<Event>): nat {
    if |t| == 0 then 0
    else (if t[0].milestone == DeliveredEvent then 1 else 0) + CountDelivered(t[1..])
  }

  lemma {:induction false} CountDeliveredAppend(t: seq<Event>, e: Event)
    ensures CountDelivered(t + [e]) == CountDelivered(t) + (if e.milestone == DeliveredEvent then 1 else 0)
  {
    if |t| == 0 {
      assert t + [e] == [e];
    } else {
      assert (t + [e])[1..] == t[1..] + [e];
      CountDeliveredAppend(t[1..], e);
    }
  }

  lemma SeededTimelineUndelivered(now: Hour)
    ensures CountDelivered(SeededTimeline(now)) == 0
  {
    var t := SeededTimeline(now);
    assert CountDelivered(t[2..]) == 0 by { assert t[2..][1..] == []; }
    assert t[1..][1..] == t[2..];
    assert t[1..][0].milestone == InTransit;
  }

  /** A waybill's history starts with the seeded timeline of its booking hour, its ETA is fixed
    * from that hour, and it holds one "Delivered" event exactly when it is delivered. */
  predicate WellFormed(w: Waybill) {
    && |w.tracking| >= 3
    && w.tracking[..3] == SeededTimeline(w.details.bookedOn)
    && w.eta == w.details.bookedOn + EtaAfter
    && CountDelivered(w.tracking) == (if w.status == Delivered then 1 else 0)
  }

  /** The freight charge of the fixed route, in cents: quantity times 900 km times 0.11 per
    * ton-km, computed exactly. */
  function ChargeCents(qty: Tons): (c: int)
    ensures c as real == (qty as real) * 900.0 * 0.11 * 100.0
  {
    qty * DistanceKm * RateCentsPerTonKm
  }

  /** A new waybill for `details` under `ref`: booked, with the seeded timeline and an ETA that
    * comes after every checkpoint of it. */
  function GenerateWaybill(details: Shipment, ref: string, now: Hour): (w: Waybill)
    ensures w.ref == ref && w.details == details && w.status == Booked
    ensures |w.tracking| == 3 && CountDelivered(w.tracking) == 0
    ensures w.tracking[0] == Event(BookingConfirmed, now)
    ensures forall i :: 0 <= i < |w.tracking| ==> now <= w.tracking[i].time < w.eta
    ensures details.bookedOn == now ==> WellFormed(w)
  {
    SeededTimelineUndelivered(now);
    Waybill(ref, details, SeededTimeline(now), Booked, now + EtaAfter)
  }

  /** The booking details of a form submitted by `user` at hour `now`. */
  function BookingDetails(user: string, f: BookingForm, now: Hour): (d: Shipment)
    ensures d.status == Booked && d.bookedOn == now && d.user == user
    ensures d.qty == f.qty && d.goods == f.goods && d.origin == f.origin && d.destination == f.destination
    ensures d.dispatchDate == f.dispatchDate && d.option == f.option
    ensures d.chargeCents == ChargeCents(f.qty)
  {
    Shipment(user, f.goods, f.qty, f.origin, f.destination, f.dispatchDate, f.option,
             ChargeCents(f.qty), Booked, now)
  }

  /** Book and pay: the logged-in user's booking is filed under `ref` both as a waybill and as a
    * shipment holding the same details. A reference already in use is overwritten. */
  function Book(s: State, f: BookingForm, ref: string, now: Hour): (r: Result<State, BookError>)
    requires IsWaybillRef(ref)
    ensures r.Failure? <==> s.user.None?
    ensures r.Success? ==>
      var t := r.value;
      && ref in t.waybills && ref in t.shipments
      && t.waybills[ref].details == t.shipments[ref]
      && t.shipments[ref].user == s.user.value.username
      && t.shipments[ref] == BookingDetails(s.user.value.username, f, now)
      && t.waybills[ref].ref == ref
      && t.waybills[ref].status == Booked
      && t.waybills[ref].tracking == [ Event(BookingConfirmed, now),
                                       Event(InTransit, now + 4),
                                       Event(Arriving, now + 16) ]
      && t.waybills[ref].eta == now + 20
      && WellFormed(t.waybills[ref])
      && t.waybills.Keys == s.waybills.Keys + {ref}
      && t.shipments.Keys == s.shipments.Keys + {ref}
      && (forall k :: k in s.waybills && k != ref ==> t.waybills[k] == s.waybills[k])
      && (forall k :: k in s.shipments && k != ref ==> t.shipments[k] == s.shipments[k])
      && SameAccounts(s, t)
  {
    if s.user.None? then Failure(NotLoggedIn)
    else
      var d := BookingDetails(s.user.value.username, f, now);
      Success(s.(waybills := s.waybills[ref := GenerateWaybill(d, ref, now)],
                 shipments := s.shipments[ref := d]))
  }

  /** Tracking: exact lookup of a reference. */
  function Track(s: State, ref: string): (r: Option<Waybill>)
    ensures r.Some? <==> ref in s.waybills
    ensures r.Some? ==> r.value == s.waybills[ref]
  {
    if ref in s.waybills then Some(s.waybills[ref]) else None
  }

  /** Simulate delivery: a found, undelivered waybill becomes delivered and gains one "Delivered"
    * event at `now`. Only the waybill changes; the shipment record keeps its status. */
  function Deliver(s: State, ref: string, now: Hour): (r: Result<State, DeliverError>)
    ensures r == Failure(WaybillNotFound) <==> ref !in s.waybills
    ensures r == Failure(AlreadyDelivered) <==> ref in s.waybills && s.waybills[ref].status == Delivered
    ensures r.Success? ==> ref in s.waybills && r.value.waybills.Keys == s.waybills.Keys
    ensures r.Success? ==>
      var w, w' := s.waybills[ref], r.value.waybills[ref];
      && w'.status == Delivered
      && |w'.tracking| == |w.tracking| + 1
      && w'.tracking[..|w.tracking|] == w.tracking
      && w'.tracking[|w.tracking|] == Event(DeliveredEvent, now)
      && w'.ref == w.ref && w'.details == w.details && w'.eta == w.eta
      && (forall k :: k in s.waybills && k != ref ==> r.value.waybills[k] == s.waybills[k])
      && r.value.shipments == s.shipments
      && SameAccounts(s, r.value)
  {
    match Track(s, ref)
    case None => Failure(WaybillNotFound)
    case Some(w) =>
      if w.status == Delivered then Failure(AlreadyDelivered)
      else
        var w' := w.(status := Delivered, tracking := w.tracking + [Event(DeliveredEvent, now)]);
        Success(s.(waybills := s.waybills[ref := w']))
  }

  // ---------------------------------------------------------------------------
  // The freight invariant

  /** Waybills and shipments share their references; each waybill sits under its own reference,
    * embeds exactly the shipment filed beside it, and is well formed; no shipment record is ever
    * marked delivered. */
  predicate FreightInv(s: State) {
    && s.waybills.Keys == s.shipments.Keys
    && forall k :: k in s.waybills ==>
         && s.waybills[k].ref == k
         && s.waybills[k].details == s.shipments[k]
         && s.shipments[k].status == Booked
         && WellFormed(s.waybills[k])
  }

  lemma BookPreservesInv(s: State, f: BookingForm, ref: string, now: Hour)
    requires FreightInv(s) && IsWaybillRef(ref)
    requires Book(s, f, ref, now).Success?
    ensures FreightInv(Book(s, f, ref, now).value)
  {
  }

  lemma DeliverPreservesInv(s: State, ref: string, now: Hour)
    requires FreightInv(s)
    requires Deliver(s, ref, now).Success?
    ensures FreightInv(Deliver(s, ref, now).value)
  {
    var w := s.waybills[ref];
    var w' := Deliver(s, ref, now).value.waybills[ref];
    CountDeliveredAppend(w.tracking, Event(DeliveredEvent, now));
    assert w'.tracking[..3] == w.tracking[..3];
  }

  // ---------------------------------------------------------------------------
  // Lifecycle properties

  /** A booked reference is found by tracking, booked, with the details filed as its shipment. */
  lemma BookThenTrack(s: State, f: BookingForm, ref: string, now: Hour)
    requires IsWaybillRef(ref) && s.user.Some?
    ensures Book(s, f, ref, now).Success?
    ensures Track(Book(s, f, ref, now).value, ref).Some?
    ensures Track(Book(s, f, ref, now).value, ref).value.status == Booked
    ensures Track(Book(s, f, ref, now).value, ref).value.details == Book(s, f, ref, now).value.shipments[ref]
  {
  }

  /** Booking under a reference already in use replaces the earlier waybill and shipment by the
    * new booking's: the reference is not checked for a collision. */
  lemma BookOverwritesOnCollision(s: State, f: BookingForm, ref: string, now: Hour)
    requires IsWaybillRef(ref) && s.user.Some?
    requires ref in s.waybills
    ensures Book(s, f, ref, now).Success?
    ensures Book(s, f, ref, now).value.waybills[ref]
            == GenerateWaybill(BookingDetails(s.user.value.username, f, now), ref, now)
    ensures Book(s, f, ref, now).value.shipments[ref] == BookingDetails(s.user.value.username, f, now)
    ensures |Book(s, f, ref, now).value.waybills| == |s.waybills|
  {
    assert Book(s, f, ref, now).value.waybills.Keys == s.waybills.Keys;
  }

  /** With a fresh reference, booking adds exactly one waybill. */
  lemma BookFreshGrows(s: State, f: BookingForm, ref: string, now: Hour)
    requires IsWaybillRef(ref) && s.user.Some?
    requires ref !in s.waybills
    ensures Book(s, f, ref, now).Success?
    ensures |Book(s, f, ref, now).value.waybills| == |s.waybills| + 1
  {
    assert Book(s, f, ref, now).value.waybills.Keys == s.waybills.Keys + {ref};
  }

  /** Delivery is idempotent in effect: a second attempt is refused and the history holds exactly
    * one "Delivered" event. */
  lemma {:induction false} DeliverTwice(s: State, ref: string, now: Hour, later: Hour)
    requires FreightInv(s)
    requires ref in s.waybills && s.waybills[ref].status == Booked
    ensures Deliver(s, ref, now).Success?
    ensures Deliver(Deliver(s, ref, now).value, ref, later) == Failure(AlreadyDelivered)
    ensures CountDelivered(Deliver(s, ref, now).value.waybills[ref].tracking) == 1
  {
    DeliverPreservesInv(s, ref, now);
  }

  /** After delivery the waybill says delivered while the shipment filed under the same reference
    * still says booked. */
  lemma DeliveryLeavesShipmentBooked(s: State, ref: string, now: Hour)
    requires FreightInv(s)
    requires ref in s.waybills && s.waybills[ref].status == Booked
    ensures Deliver(s, ref, now).Success?
    ensures Deliver(s, ref, now).value.waybills[ref].status == Delivered
    ensures Deliver(s, ref, now).value.shipments[ref].status == Booked
  {
  }
}
