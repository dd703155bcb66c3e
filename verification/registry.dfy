/**
 * The account registry: the login predicate, the admin check, the two-step registration
 * (form validation that stashes a pending registration and issues an OTP, then the OTP commit
 * that files it as pending), and the admin's approve and reject actions.
 */
module Registry {
  import opened Wrappers
  import opened Records

  datatype RegisterError = MissingFields | UsernameTaken

  datatype OtpError =
    | NoOtpIssued            // the verify button is only shown while an OTP is set
    | WrongOtp
    | NoPendingRegistration  // an OTP with no stashed registration: the lookup fails

  datatype AdminError =
    | NotAdmin
    | NotPending
    | ListingCrashed         // the approvals listing failed before the row's buttons were drawn

  datatype LoginError = InvalidCredentials

  /** The login predicate: the record stored under `username`, provided its password matches
    * exactly and it is marked approved. */
  function CheckUser(s: State, username: string, password: string): (r: Option<Account>)
    ensures r.Some? <==>
      && username in s.users
      && s.users[username].password == password
      && s.users[username].approved == Some(Yes)
    ensures r.Some? ==> r.value == s.users[username]
  {
    if username in s.users && s.users[username].password == password
       && s.users[username].approved == Some(Yes)
    then Some(s.users[username])
    else None
  }

  /** The session belongs to the account whose username is "admin". */
  predicate IsAdmin(s: State) {
    s.user.Some? && s.user.value.username == "admin"
  }

  /** Login stores the matched record as the session user; a failed attempt leaves the session
    * as it was (a previous login is not cleared). */
  function Login(s: State, username: string, password: string): (r: Result<State, LoginError>)
    ensures r.Success? <==> CheckUser(s, username, password).Some?
    ensures r.Success? ==>
      && r.value.user == Some(s.users[username])
      && r.value.users == s.users && r.value.pending == s.pending
      && r.value.pendingReg == s.pendingReg && r.value.otp == s.otp
      && SameFreight(s, r.value)
  {
    match CheckUser(s, username, password)
    case Some(u) => Success(s.(user := Some(u)))
    case None => Failure(InvalidCredentials)
  }

  /** Every field the form requires is filled in and a document was uploaded. Business type and
    * address are not among them. */
  predicate Complete(f: RegistrationForm) {
    && f.businessName != ""
    && f.contactPerson != ""
    && f.email != ""
    && f.mobile != ""
    && f.panGst != ""
    && f.username != ""
    && f.password != ""
    && f.doc.Some?
  }

  /** The username is a key of the approved or of the pending dictionary. */
  predicate Taken(s: State, username: string) {
    username in s.users || username in s.pending
  }

  /** The record a complete form is stashed as; it carries no `approved` value. */
  function PendingRecord(f: RegistrationForm): (a: Account)
    requires f.doc.Some?
    ensures a.approved.None?
    ensures a.username == f.username && a.password == f.password && a.doc == f.doc.value
    ensures a.businessName == f.businessName && a.contactPerson == f.contactPerson
    ensures a.email == f.email && a.mobile == f.mobile && a.panGst == f.panGst
    ensures a.businessType == f.businessType && a.address == f.address
  {
    Account(f.username, f.businessName, f.contactPerson, f.email, f.mobile, f.panGst,
            None, f.businessType, f.address, f.password, f.doc.value)
  }

  /** Registration, first step: validate the form, issue `code` as the OTP and stash the record
    * as the session's pending registration (replacing any earlier one). The dictionaries are
    * not touched. */
  function RequestOtp(s: State, f: RegistrationForm, code: string): (r: Result<State, RegisterError>)
    requires IsOtpCode(code)
    ensures r == Failure(MissingFields) <==> !Complete(f)
    ensures r == Failure(UsernameTaken) <==> Complete(f) && Taken(s, f.username)
    ensures r.Success? <==> Complete(f) && !Taken(s, f.username)
    ensures r.Success? ==>
      && r.value.pendingReg == Some(PendingRecord(f))
      && r.value.pendingReg.value.username == f.username
      && r.value.pendingReg.value.approved.None?
      && r.value.otp == Some(code)
      && r.value.users == s.users && r.value.pending == s.pending && r.value.user == s.user
      && SameFreight(s, r.value)
  {
    if !Complete(f) then Failure(MissingFields)
    else if Taken(s, f.username) then Failure(UsernameTaken)
    else Success(s.(pendingReg := Some(PendingRecord(f)), otp := Some(code)))
  }

  /** Registration, second step: when `entered` equals the issued OTP, file the stashed record in
    * the pending dictionary under its username and clear both session keys. The username is not
    * checked again here. */
  function VerifyOtp(s: State, entered: string): (r: Result<State, OtpError>)
    ensures r == Failure(NoOtpIssued) <==> s.otp.None? || s.otp.value == ""
    ensures r == Failure(WrongOtp) <==> s.otp.Some? && s.otp.value != "" && entered != s.otp.value
    ensures r.Success? <==> s.otp == Some(entered) && entered != "" && s.pendingReg.Some?
    ensures r.Success? ==>
      var reg := s.pendingReg.value;
      && r.value.pending.Keys == s.pending.Keys + {reg.username}
      && r.value.pending[reg.username] == reg
      && (forall u :: u in s.pending && u != reg.username ==> r.value.pending[u] == s.pending[u])
      && r.value.users == s.users
      && r.value.pendingReg.None? && r.value.otp.None?
      && r.value.user == s.user
      && SameFreight(s, r.value)
  {
    if s.otp.None? || s.otp.value == "" then Failure(NoOtpIssued)
    else if entered != s.otp.value then Failure(WrongOtp)
    else if s.pendingReg.None? then Failure(NoPendingRegistration)
    else
      var reg := s.pendingReg.value;
      Success(s.(pending := s.pending[reg.username := reg], pendingReg := None, otp := None))
  }

  /** The admin approves `uname`: the pending record, marked approved, moves to the approved
    * dictionary. */
  function Approve(s: State, uname: string): (r: Result<State, AdminError>)
    ensures r == Failure(NotAdmin) <==> !IsAdmin(s)
    ensures r == Failure(NotPending) <==> IsAdmin(s) && uname !in s.pending
    ensures r.Success? <==> IsAdmin(s) && uname in s.pending
    ensures r.Success? ==>
      && r.value.users.Keys == s.users.Keys + {uname}
      && r.value.users[uname] == s.pending[uname].(approved := Some(Yes))
      && (forall u :: u in s.users && u != uname ==> r.value.users[u] == s.users[u])
      && r.value.pending.Keys == s.pending.Keys - {uname}
      && (forall u :: u in r.value.pending ==> r.value.pending[u] == s.pending[u])
      && r.value.pendingReg == s.pendingReg && r.value.otp == s.otp && r.value.user == s.user
      && SameFreight(s, r.value)
  {
    if !IsAdmin(s) then Failure(NotAdmin)
    else if uname !in s.pending then Failure(NotPending)
    else
      var reg := s.pending[uname].(approved := Some(Yes));
      Success(s.(users := s.users[uname := reg], pending := s.pending - {uname}))
  }

  /** The admin rejects `uname`: its pending record is deleted and nothing else changes. */
  function Reject(s: State, uname: string): (r: Result<State, AdminError>)
    ensures r == Failure(NotAdmin) <==> !IsAdmin(s)
    ensures r == Failure(NotPending) <==> IsAdmin(s) && uname !in s.pending
    ensures r.Success? <==> IsAdmin(s) && uname in s.pending
    ensures r.Success? ==>
      && r.value.pending.Keys == s.pending.Keys - {uname}
      && (forall u :: u in r.value.pending ==> r.value.pending[u] == s.pending[u])
      && r.value.users == s.users
      && r.value.pendingReg == s.pendingReg && r.value.otp == s.otp && r.value.user == s.user
      && SameFreight(s, r.value)
  {
    if !IsAdmin(s) then Failure(NotAdmin)
    else if uname !in s.pending then Failure(NotPending)
    else Success(s.(pending := s.pending - {uname}))
  }

  /** Approve as the approvals page is written: the listing prints each pending record's
    * `approved` value by direct lookup before drawing that record's buttons, so a record without
    * the key stops the page before its approve button exists. */
  function ApproveAsWritten(s: State, uname: string): (r: Result<State, AdminError>)
    ensures IsAdmin(s) && uname in s.pending && s.pending[uname].approved.None? ==>
      r == Failure(ListingCrashed)
    ensures r.Success? ==> r == Approve(s, uname)
    ensures r != Approve(s, uname) <==> IsAdmin(s) && uname in s.pending && s.pending[uname].approved.None?
  {
    if IsAdmin(s) && uname in s.pending && s.pending[uname].approved.None?
    then Failure(ListingCrashed)
    else Approve(s, uname)
  }

  /** Reject as the approvals page is written: the same listing row precedes the reject button. */
  function RejectAsWritten(s: State, uname: string): (r: Result<State, AdminError>)
    ensures IsAdmin(s) && uname in s.pending && s.pending[uname].approved.None? ==>
      r == Failure(ListingCrashed)
    ensures r.Success? ==> r == Reject(s, uname)
    ensures r != Reject(s, uname) <==> IsAdmin(s) && uname in s.pending && s.pending[uname].approved.None?
  {
    if IsAdmin(s) && uname in s.pending && s.pending[uname].approved.None?
    then Failure(ListingCrashed)
    else Reject(s, uname)
  }

  // ---------------------------------------------------------------------------
  // The registry invariant

  /** The approved and pending dictionaries are disjoint, each record sits under its own username,
    * every approved record says "yes", a stashed registration is still unclaimed and travels with
    * its OTP, and a logged-in user is the current approved record under its name. */
  predicate RegistryInv(s: State) {
    && s.users.Keys !! s.pending.Keys
    && (forall u :: u in s.users ==> s.users[u].username == u && s.users[u].approved == Some(Yes))
    && (forall u :: u in s.pending ==> s.pending[u].username == u)
    && (s.pendingReg.Some? <==> s.otp.Some?)
    && (s.otp.Some? ==> IsOtpCode(s.otp.value))
    && (s.pendingReg.Some? ==> !Taken(s, s.pendingReg.value.username))
    && (s.user.Some? ==> s.user.value.username in s.users && s.users[s.user.value.username] == s.user.value)
  }

  lemma LoginPreservesInv(s: State, username: string, password: string)
    requires RegistryInv(s)
    requires Login(s, username, password).Success?
    ensures RegistryInv(Login(s, username, password).value)
  {
  }

  lemma RequestOtpPreservesInv(s: State, f: RegistrationForm, code: string)
    requires RegistryInv(s) && IsOtpCode(code)
    requires RequestOtp(s, f, code).Success?
    ensures RegistryInv(RequestOtp(s, f, code).value)
  {
  }

  lemma VerifyOtpPreservesInv(s: State, entered: string)
    requires RegistryInv(s)
    requires VerifyOtp(s, entered).Success?
    ensures RegistryInv(VerifyOtp(s, entered).value)
  {
  }

  lemma ApprovePreservesInv(s: State, uname: string)
    requires RegistryInv(s)
    requires Approve(s, uname).Success?
    ensures RegistryInv(Approve(s, uname).value)
  {
  }

  lemma RejectPreservesInv(s: State, uname: string)
    requires RegistryInv(s)
    requires Reject(s, uname).Success?
    ensures RegistryInv(Reject(s, uname).value)
  {
  }

  // ---------------------------------------------------------------------------
  // Who can log in

  /** A pending username cannot log in, whatever password is tried. */
  lemma PendingCannotLogin(s: State, uname: string, password: string)
    requires RegistryInv(s)
    requires uname in s.pending
    ensures CheckUser(s, uname, password).None?
  {
  }

  /** Once approved, a pending user logs in with the password it registered. */
  lemma ApproveThenLogin(s: State, uname: string)
    requires RegistryInv(s)
    requires IsAdmin(s) && uname in s.pending
    ensures Approve(s, uname).Success?
    ensures CheckUser(Approve(s, uname).value, uname, s.pending[uname].password)
            == Some(s.pending[uname].(approved := Some(Yes)))
  {
  }

  /** Once rejected, a pending username can never log in. */
  lemma RejectThenNoLogin(s: State, uname: string, password: string)
    requires RegistryInv(s)
    requires IsAdmin(s) && uname in s.pending
    ensures Reject(s, uname).Success?
    ensures CheckUser(Reject(s, uname).value, uname, password).None?
  {
  }

  /** An admin session is the approved "admin" record itself. */
  lemma AdminSessionIsAdminRecord(s: State)
    requires RegistryInv(s)
    requires IsAdmin(s)
    ensures "admin" in s.users && s.user == Some(s.users["admin"])
  {
  }

  // ---------------------------------------------------------------------------
  // Registration sequences

  /** Once a username has been registered and confirmed, registering it again is refused,
    * whatever the rest of the form says. */
  lemma RegisterTwiceIsTaken(s: State, f: RegistrationForm, code: string, g: RegistrationForm, code2: string)
    requires IsOtpCode(code) && IsOtpCode(code2)
    requires RequestOtp(s, f, code).Success?
    requires Complete(g) && g.username == f.username
    ensures VerifyOtp(RequestOtp(s, f, code).value, code).Success?
    ensures RequestOtp(VerifyOtp(RequestOtp(s, f, code).value, code).value, g, code2) == Failure(UsernameTaken)
  {
  }

  /** Validation alone files nothing: validating the same username a second time before the OTP
    * is confirmed succeeds again and replaces the stashed registration. */
  lemma RequestOtpTwiceReplaces(s: State, f: RegistrationForm, code: string, g: RegistrationForm, code2: string)
    requires IsOtpCode(code) && IsOtpCode(code2)
    requires RequestOtp(s, f, code).Success?
    requires Complete(g) && g.username == f.username
    ensures RequestOtp(RequestOtp(s, f, code).value, g, code2).Success?
    ensures RequestOtp(RequestOtp(s, f, code).value, g, code2).value.pendingReg == Some(PendingRecord(g))
  {
  }

  /** A wrong code files nothing: the state stays as it was, stashed registration included. */
  lemma WrongOtpKeepsRegistration(s: State, f: RegistrationForm, code: string, entered: string)
    requires IsOtpCode(code)
    requires RequestOtp(s, f, code).Success?
    requires entered != code
    ensures VerifyOtp(RequestOtp(s, f, code).value, entered) == Failure(WrongOtp)
  {
  }

  /** As written, a user who registered through the form can never be approved or rejected: the
    * record has no `approved` value, so the listing row for it fails before its buttons. */
  lemma RegisteredUserApprovalCrashesAsWritten(s: State, f: RegistrationForm, code: string)
    requires IsOtpCode(code)
    requires RequestOtp(s, f, code).Success?
    requires IsAdmin(s)
    ensures VerifyOtp(RequestOtp(s, f, code).value, code).Success?
    ensures ApproveAsWritten(VerifyOtp(RequestOtp(s, f, code).value, code).value, f.username)
            == Failure(ListingCrashed)
    ensures RejectAsWritten(VerifyOtp(RequestOtp(s, f, code).value, code).value, f.username)
            == Failure(ListingCrashed)
  {
  }

  /** With the listing tolerating the missing value, the same user is approved and can log in
    * with the password it chose. */
  lemma RegisteredUserCanBeApproved(s: State, f: RegistrationForm, code: string)
    requires RegistryInv(s) && IsOtpCode(code)
    requires RequestOtp(s, f, code).Success?
    requires IsAdmin(s)
    ensures VerifyOtp(RequestOtp(s, f, code).value, code).Success?
    ensures Approve(VerifyOtp(RequestOtp(s, f, code).value, code).value, f.username).Success?
    ensures CheckUser(Approve(VerifyOtp(RequestOtp(s, f, code).value, code).value, f.username).value,
                      f.username, f.password).Some?
  {
    var s1 := RequestOtp(s, f, code).value;
    RequestOtpPreservesInv(s, f, code);
    var s2 := VerifyOtp(s1, code).value;
    VerifyOtpPreservesInv(s1, code);
    ApproveThenLogin(s2, f.username);
  }
}
