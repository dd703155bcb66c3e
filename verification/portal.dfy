/**
 * The portal as one state machine: the seeded start state, the user actions the pages offer,
 * and the invariant that holds in every state reachable from the seed.
 */
module Portal {
  import opened Wrappers
  import opened Records
  import Registry
  import Tracking

  /** The bytes of an ASCII text, as a `b"..."` literal spells them. */
  function Ascii(text: string): (b: Bytes)
    ensures |b| == |text|
  {
    seq(|text|, i requires 0 <= i < |text| => (text[i] as int % 256) as byte)
  }

  /** The approved administrator account present from the start. */
  function AdminAccount(): Account {
    Account("admin", "FreightForge Administration", "System Administrator", "admin@freightforge.com",
            "555-ADMIN", "ADMIN123456", Some(Yes), "Administration", "FreightForge HQ", "admin",
            Ascii("admin_document"))
  }

  /** The two demo customers that start out pending, marked "no". */
  function Customer1(): Account {
    Account("Customer1", "Grain Traders Inc.", "John Smith", "john@graintraders.com", "555-1234",
            "GRAIN123456", Some("no"), "Agriculture", "123 Farm Road, Rural County", "Customer1",
            Ascii("customer1_document"))
  }

  function Customer2(): Account {
    Account("Customer2", "Logistics Masters Ltd.", "Sarah Johnson", "sarah@logisticsmasters.com",
            "555-5678", "LOGIS123456", Some("no"), "Logistics", "456 Transport Avenue, Shipping City",
            "Customer2", Ascii("customer2_document"))
  }

  /** The start state: the admin approved, two customers pending, no freight, an empty session. */
  function Seed(): (s: State)
    ensures s.users.Keys == {"admin"} && s.users["admin"].approved == Some(Yes)
    ensures s.pending.Keys == {"Customer1", "Customer2"}
    ensures forall u :: u in s.pending ==> s.pending[u].approved == Some("no")
    ensures s.shipments == map[] && s.waybills == map[]
    ensures s.user.None? && s.pendingReg.None? && s.otp.None?
    ensures Inv(s)
  {
    State(map["admin" := AdminAccount()],
          map["Customer1" := Customer1(), "Customer2" := Customer2()],
          map[], map[], None, None, None)
  }

  /** The registry and the freight invariants together. */
  predicate Inv(s: State) {
    Registry.RegistryInv(s) && Tracking.FreightInv(s)
  }

  /** One interaction with the pages. */
  datatype Action =
    | RequestOtp(form: RegistrationForm, code: string)
    | VerifyOtp(entered: string)
    | Login(username: string, password: string)
    | Approve(username: string)
    | Reject(username: string)
    | Book(booking: BookingForm, ref: string, now: Hour)
    | Deliver(ref: string, now: Hour)

  /** The issued OTP and the waybill reference are drawn by the generators, so they have the
    * generators' shape. */
  predicate ValidAction(a: Action) {
    match a
    case RequestOtp(_, code) => IsOtpCode(code)
    case Book(_, ref, _) => IsWaybillRef(ref)
    case _ => true
  }

  /** The state after an attempt: the new state on success, the old one when it was refused. */
  function Settle<E>(s: State, r: Result<State, E>): State
  {
    match r
    case Success(t) => t
    case Failure(_) => s
  }

  function Apply(s: State, a: Action): State
    requires ValidAction(a)
  {
    match a
    case RequestOtp(f, code) => Settle(s, Registry.RequestOtp(s, f, code))
    case VerifyOtp(entered) => Settle(s, Registry.VerifyOtp(s, entered))
    case Login(u, p) => Settle(s, Registry.Login(s, u, p))
    case Approve(u) => Settle(s, Registry.Approve(s, u))
    case Reject(u) => Settle(s, Registry.Reject(s, u))
    case Book(f, ref, now) => Settle(s, Tracking.Book(s, f, ref, now))
    case Deliver(ref, now) => Settle(s, Tracking.Deliver(s, ref, now))
  }

  /** The state after a sequence of interactions. */
  function Run(s: State, actions: seq<Action>): State
    requires forall i :: 0 <= i < |actions| ==> ValidAction(actions[i])
    decreases |actions|
  {
    if |actions| == 0 then s else Run(Apply(s, actions[0]), actions[1..])
  }

  /** A registry transition that keeps the registry invariant keeps the whole invariant, since it
    * leaves the freight dictionaries alone. */
  lemma AccountStepKeepsInv(s: State, t: State)
    requires Inv(s) && Registry.RegistryInv(t) && SameFreight(s, t)
    ensures Inv(t)
  {
  }

  /** A freight transition that keeps the freight invariant keeps the whole invariant, since it
    * leaves the accounts and the session alone. */
  lemma FreightStepKeepsInv(s: State, t: State)
    requires Inv(s) && Tracking.FreightInv(t) && SameAccounts(s, t)
    ensures Inv(t)
  {
  }

  /** Every action keeps the invariant, whether it succeeds or is refused. */
  lemma {:induction false} ApplyPreservesInv(s: State, a: Action)
    requires Inv(s) && ValidAction(a)
    ensures Inv(Apply(s, a))
  {
    match a
    case RequestOtp(f, code) =>
      var r := Registry.RequestOtp(s, f, code);
      if r.Success? {
        Registry.RequestOtpPreservesInv(s, f, code);
        AccountStepKeepsInv(s, r.value);
      }
    case VerifyOtp(entered) =>
      var r := Registry.VerifyOtp(s, entered);
      if r.Success? {
        Registry.VerifyOtpPreservesInv(s, entered);
        AccountStepKeepsInv(s, r.value);
      }
    case Login(u, p) =>
      var r := Registry.Login(s, u, p);
      if r.Success? {
        Registry.LoginPreservesInv(s, u, p);
        AccountStepKeepsInv(s, r.value);
      }
    case Approve(u) =>
      var r := Registry.Approve(s, u);
      if r.Success? {
        Registry.ApprovePreservesInv(s, u);
        AccountStepKeepsInv(s, r.value);
      }
    case Reject(u) =>
      var r := Registry.Reject(s, u);
      if r.Success? {
        Registry.RejectPreservesInv(s, u);
        AccountStepKeepsInv(s, r.value);
      }
    case Book(f, ref, now) =>
      var r := Tracking.Book(s, f, ref, now);
      if r.Success? {
        Tracking.BookPreservesInv(s, f, ref, now);
        FreightStepKeepsInv(s, r.value);
      }
    case Deliver(ref, now) =>
      var r := Tracking.Deliver(s, ref, now);
      if r.Success? {
        Tracking.DeliverPreservesInv(s, ref, now);
        FreightStepKeepsInv(s, r.value);
      }
  }

  lemma {:induction false} RunPreservesInv(s: State, actions: seq<Action>)
    requires Inv(s)
    requires forall i :: 0 <= i < |actions| ==> ValidAction(actions[i])
    ensures Inv(Run(s, actions))
    decreases |actions|
  {
    if |actions| > 0 {
      ApplyPreservesInv(s, actions[0]);
      RunPreservesInv(Apply(s, actions[0]), actions[1..]);
    }
  }

  /** In every state reachable from the seed, the account dictionaries are disjoint, every
    * approved record says "yes", and a pending username cannot log in. */
  lemma {:induction false} ReachableAccounts(actions: seq<Action>, uname: string, password: string)
    requires forall i :: 0 <= i < |actions| ==> ValidAction(actions[i])
    ensures Run(Seed(), actions).users.Keys !! Run(Seed(), actions).pending.Keys
    ensures forall u :: u in Run(Seed(), actions).users ==> Run(Seed(), actions).users[u].approved == Some(Yes)
    ensures uname in Run(Seed(), actions).pending ==>
              Registry.CheckUser(Run(Seed(), actions), uname, password).None?
  {
    RunPreservesInv(Seed(), actions);
  }

  /** In every state reachable from the seed, each waybill embeds the shipment filed beside it,
    * its history starts with the seeded timeline, and it holds one "Delivered" event exactly
    * when it is delivered. */
  lemma {:induction false} ReachableWaybills(actions: seq<Action>, ref: string)
    requires forall i :: 0 <= i < |actions| ==> ValidAction(actions[i])
    requires ref in Run(Seed(), actions).waybills
    ensures ref in Run(Seed(), actions).shipments
    ensures Run(Seed(), actions).waybills[ref].details == Run(Seed(), actions).shipments[ref]
    ensures Tracking.WellFormed(Run(Seed(), actions).waybills[ref])
    ensures Tracking.CountDelivered(Run(Seed(), actions).waybills[ref].tracking) <= 1
  {
    RunPreservesInv(Seed(), actions);
  }

  /** From the seed, logging in as admin with the seeded password opens the approvals. */
  lemma SeedAdminLogin()
    ensures Registry.Login(Seed(), "admin", "admin").Success?
    ensures Registry.IsAdmin(Registry.Login(Seed(), "admin", "admin").value)
  {
  }

  /** The seeded customers cannot log in until approved, even with their own passwords. */
  lemma SeedCustomersPending()
    ensures Registry.CheckUser(Seed(), "Customer1", "Customer1").None?
    ensures Registry.CheckUser(Seed(), "Customer2", "Customer2").None?
  {
  }
}
