/**
 * Data model of the FreightForge portal: the account records, the booking details that become a
 * shipment, the waybills with their tracking history, and the in-memory state the page code keeps
 * in four module-level dictionaries plus three session keys.
 */
module Records {
  import opened Wrappers

  newtype byte = x: int | 0 <= x < 256

  /** An uploaded identity document; its content is never inspected. */
  type Bytes = seq<byte>

  /** Times are whole hours on one clock; a booking's timeline is offset from its booking hour. */
  type Hour = int

  /** The value the `approved` key must hold for an account to log in. */
  const Yes: string := "yes"

  /** An account record, keyed by `username` in the approved or the pending dictionary.
    * `approved` is optional: the seeded records carry "yes" or "no", a record registered
    * through the form carries no such key at all. */
  datatype Account = Account(
    username: string,
    businessName: string,
    contactPerson: string,
    email: string,
    mobile: string,
    panGst: string,
    approved: Option<string>,
    businessType: string,
    address: string,
    password: string,
    doc: Bytes)

  /** What the registration form submits. Text inputs are empty strings when left blank;
    * `doc` is None when no file was uploaded. */
  datatype RegistrationForm = RegistrationForm(
    businessName: string,
    contactPerson: string,
    email: string,
    mobile: string,
    panGst: string,
    businessType: string,
    address: string,
    username: string,
    password: string,
    doc: Option<Bytes>)

  datatype Goods = Wheat | Corn | Soybean

  /** The three train options offered for a grain booking. */
  datatype TrainOption = TrainA | TrainB | TrainC

  /** The quantity widget accepts 1 to 1000 metric tons. */
  type Tons = q: int | 1 <= q <= 1000 witness 1

  /** Status of a shipment or a waybill. */
  datatype Status = Booked | Delivered

  /** Label of one tracking event; `DeliveredEvent` is the "Delivered" checkpoint appended on delivery. */
  datatype Milestone = BookingConfirmed | InTransit | Arriving | DeliveredEvent

  datatype Event = Event(milestone: Milestone, time: Hour)

  /** What the booking form submits. */
  datatype BookingForm = BookingForm(
    goods: Goods,
    qty: Tons,
    origin: string,
    destination: string,
    dispatchDate: string,
    option: TrainOption)

  /** The booking details stored as a shipment and embedded in its waybill. */
  datatype Shipment = Shipment(
    user: string,
    goods: Goods,
    qty: Tons,
    origin: string,
    destination: string,
    dispatchDate: string,
    option: TrainOption,
    chargeCents: int,
    status: Status,
    bookedOn: Hour)

  datatype Waybill = Waybill(
    ref: string,
    details: Shipment,
    tracking: seq<Event>,
    status: Status,
    eta: Hour)

  /** The whole portal: the approved and pending account dictionaries, the shipment and waybill
    * dictionaries keyed by waybill reference, and the session's pending registration, issued OTP
    * and logged-in user. */
  datatype State = State(
    users: map<string, Account>,
    pending: map<string, Account>,
    shipments: map<string, Shipment>,
    waybills: map<string, Waybill>,
    pendingReg: Option<Account>,
    otp: Option<string>,
    user: Option<Account>)

  /** Hours from booking to the "In Transit" and "Arriving" checkpoints and to the ETA. */
  const InTransitAfter: int := 4
  const ArrivingAfter: int := 16
  const EtaAfter: int := 20

  /** The fixed route distance and rate; the rate of 0.11 per ton-km is held as 11 cents. */
  const DistanceKm: int := 900
  const RateCentsPerTonKm: int := 11

  /** Length of an OTP and of a waybill reference as the generators produce them. */
  const OtpLength: int := 6
  const RefLength: int := 10

  predicate IsDigit(c: char) {
    '0' <= c <= '9'
  }

  /** A code as the OTP generator draws it: six decimal digits. */
  predicate IsOtpCode(code: string) {
    |code| == OtpLength && forall i :: 0 <= i < |code| ==> IsDigit(code[i])
  }

  /** A reference as the waybill generator draws it: ten upper-case letters or digits. */
  predicate IsWaybillRef(ref: string) {
    |ref| == RefLength && forall i :: 0 <= i < |ref| ==> ('A' <= ref[i] <= 'Z' || IsDigit(ref[i]))
  }

  /** The account dictionaries and the session are the same in both states. */
  predicate SameAccounts(s: State, t: State) {
    && t.users == s.users
    && t.pending == s.pending
    && t.pendingReg == s.pendingReg
    && t.otp == s.otp
    && t.user == s.user
  }

  /** The shipment and waybill dictionaries are the same in both states. */
  predicate SameFreight(s: State, t: State) {
    t.shipments == s.shipments && t.waybills == s.waybills
  }
}
