/**
 * `AuthService`: registration of emitters, login of emitters and
 * administrators, and the user lookup behind token validation. Password
 * hashing, hash comparison and token signing are opaque functions.
 */
module AuthService {
  import opened Wrappers
  import opened Entities
  import opened Store
  import opened Validation
  import opened RegisterEmitterDto
  import opened LoginEmitterDto
  import opened LoginAdminDto
  import EmittersService
  import AdminService
  import FinancialDataService

  /** The claims a token carries. */
  datatype Payload = Payload(sub: Id, role: string, email: Option<string>, username: Option<string>, name: Option<string>)

  /** bcrypt's hash and compare, and JWT signing; none of them is looked into. */
  datatype Crypto = Crypto(hash: string -> string, compare: (string, string) -> bool, sign: Payload -> string)

  /** An emitter as it leaves the service: every column but the password hash. */
  datatype EmitterData = EmitterData(
    emitentId: Id,
    name: string,
    email: string,
    inn: Option<string>,
    ogrnOgrnip: Option<string>,
    legalAddress: Option<string>,
    actualAddress: Option<string>,
    phone: Option<string>,
    website: Option<string>,
    description: Option<string>,
    logoUrl: Option<string>,
    status: EmitterStatus,
    rejectionReason: Option<string>,
    createdAt: int)

  /** An administrator as it leaves the service: every column but the password hash. */
  datatype AdminData = AdminData(adminId: Id, username: string, email: Option<string>, role: string, createdAt: int)

  datatype EmitterAuth = EmitterAuth(accessToken: string, emitter: EmitterData)
  datatype AdminAuth = AdminAuth(accessToken: string, admin: AdminData)

  // ---------------------------------------------------------------- sanitising

  /** `sanitizeEmitterData`: the emitter without its password. */
  function SanitizeEmitter(e: Emitter): EmitterData
  {
    EmitterData(e.emitentId, e.name, e.email, e.inn, e.ogrnOgrnip, e.legalAddress, e.actualAddress,
      e.phone, e.website, e.description, e.logoUrl, e.status, e.rejectionReason, e.createdAt)
  }

  /** `sanitizeAdminData`: the administrator without its password. */
  function SanitizeAdmin(a: Admin): AdminData
  {
    AdminData(a.adminId, a.username, a.email, a.role, a.createdAt)
  }

  /** Sanitising drops the password and nothing else: two rows look alike exactly when they differ at most in it. */
  lemma SanitizeDropsOnlyPassword(e1: Emitter, e2: Emitter, a1: Admin, a2: Admin)
    ensures SanitizeEmitter(e1) == SanitizeEmitter(e2) <==> e1.(password := e2.password) == e2
    ensures SanitizeAdmin(a1) == SanitizeAdmin(a2) <==> a1.(password := a2.password) == a2
  {
    if SanitizeEmitter(e1) == SanitizeEmitter(e2) {
      assert e1.(password := e2.password) == e2;
    }
    if SanitizeAdmin(a1) == SanitizeAdmin(a2) {
      assert a1.(password := a2.password) == a2;
    }
  }

  // ---------------------------------------------------------------- tokens

  function EmitterPayload(e: Emitter): Payload
  {
    Payload(e.emitentId, "emitter", Some(e.email), None, Some(e.name))
  }

  /** An administrator's token carries the role stored on its row. */
  function AdminPayload(a: Admin): Payload
  {
    Payload(a.adminId, a.role, a.email, Some(a.username), None)
  }

  // ---------------------------------------------------------------- registration

  /** JavaScript truthiness of an optional string: present and not empty. */
  predicate Given(s: Option<string>)
  {
    s.Some? && s.value != ""
  }

  /**
   * The uniqueness checks of `register`, in their order: email, then name,
   * then the INN and the OGRN, each only when one is given. The first taken
   * value decides the conflict.
   */
  function RegistrationConflict(rows: seq<Emitter>, d: RegisterEmitter): (r: Option<Reason>)
    ensures r == Some(EmailTaken) <==> exists j :: 0 <= j < |rows| && rows[j].email == d.email
    ensures r == Some(NameTaken) <==>
      && (forall j :: 0 <= j < |rows| ==> rows[j].email != d.email)
      && (exists j :: 0 <= j < |rows| && rows[j].name == d.name)
    ensures r == Some(InnTaken) <==>
      && (forall j :: 0 <= j < |rows| ==> rows[j].email != d.email && rows[j].name != d.name)
      && Given(d.inn) && (exists j :: 0 <= j < |rows| && rows[j].inn == d.inn)
    ensures r == Some(OgrnTaken) <==>
      && (forall j :: 0 <= j < |rows| ==> rows[j].email != d.email && rows[j].name != d.name)
      && (!Given(d.inn) || forall j :: 0 <= j < |rows| ==> rows[j].inn != d.inn)
      && Given(d.ogrnOgrnip) && (exists j :: 0 <= j < |rows| && rows[j].ogrnOgrnip == d.ogrnOgrnip)
    ensures r.None? <==> forall j :: 0 <= j < |rows| ==>
      && rows[j].email != d.email && rows[j].name != d.name
      && (!Given(d.inn) || rows[j].inn != d.inn)
      && (!Given(d.ogrnOgrnip) || rows[j].ogrnOgrnip != d.ogrnOgrnip)
  {
    if EmittersService.FindByEmail(rows, d.email).Some? then Some(EmailTaken)
    else if EmittersService.FindByName(rows, d.name).Some? then Some(NameTaken)
    else if Given(d.inn) && EmittersService.FindByInn(rows, d.inn.value).Some? then Some(InnTaken)
    else if Given(d.ogrnOgrnip) && EmittersService.FindByOgrn(rows, d.ogrnOgrnip.value).Some? then Some(OgrnTaken)
    else None
  }

  /** The row `register` asks to create: status pending, no rejection reason, the password hashed. */
  function NewEmitter(d: RegisterEmitter, crypto: Crypto, now: int): (e: Emitter)
    ensures e.password == crypto.hash(d.password) && e.status == Pending && e.rejectionReason.None?
  {
    Emitter(0, d.name, d.email, crypto.hash(d.password), d.inn, d.ogrnOgrnip, d.legalAddress, d.actualAddress,
      d.phone, d.website, d.description, d.logoUrl, Pending, None, now)
  }

  /** A validated registration never gives an empty INN or OGRN, the one case the checks skip. */
  predicate NoEmptyKeys(d: RegisterEmitter)
  {
    && (d.inn.None? || d.inn.value != "")
    && (d.ogrnOgrnip.None? || d.ogrnOgrnip.value != "")
  }

  lemma ValidHasNoEmptyKeys(d: RegisterEmitter, fmt: FormatChecks)
    requires RegisterEmitterDto.Valid(d, fmt)
    ensures NoEmptyKeys(d)
  {
    if d.inn.Some? { InnPatternMeans(d.inn.value); }
    if d.ogrnOgrnip.Some? { OgrnPatternMeans(d.ogrnOgrnip.value); }
  }

  /**
   * Passing the checks is enough for the insert: a registration with no
   * conflict and no empty key collides with no stored unique column.
   */
  lemma ChecksGuardTheInsert(rows: seq<Emitter>, d: RegisterEmitter, crypto: Crypto, now: int)
    requires RegistrationConflict(rows, d).None? && NoEmptyKeys(d)
    ensures FitsAt(rows, |rows|, NewEmitter(d, crypto, now).(emitentId := |rows|))
  {
  }

  /**
   * `register`: a conflict refuses the registration and creates nothing;
   * otherwise the emitter is created with the hash of its password, and the
   * answer holds a token for the new key with role "emitter" and the emitter
   * without its password. A failure while creating is reported as an
   * internal error; so is a value wider than its column, which validation
   * does not rule out for the phone, website and logo URL. On linked tables
   * a conflict-free validated registration whose values fit always succeeds.
   */
  method Register(emitters: EmitterTable, financial: FinancialDataTable, analitics: AnaliticsTable,
                  d: RegisterEmitter, crypto: Crypto, now: int) returns (r: Result<EmitterAuth, Error>)
    requires emitters.Valid() && financial.Valid() && analitics.Valid()
    modifies emitters, financial, analitics
    ensures emitters.Valid() && financial.Valid() && analitics.Valid()
    ensures RegistrationConflict(old(emitters.rows), d).Some? ==>
      && r == Failure(Conflict(RegistrationConflict(old(emitters.rows), d).value))
      && emitters.rows == old(emitters.rows)
      && financial.rows == old(financial.rows)
      && analitics.rows == old(analitics.rows)
    ensures RegistrationConflict(old(emitters.rows), d).None? && r.Failure? ==>
      r.error == InternalServerError(RegistrationFailed)
    ensures RegistrationConflict(old(emitters.rows), d).None? && !WithinWidths(NewEmitter(d, crypto, now)) ==>
      && r == Failure(InternalServerError(RegistrationFailed))
      && emitters.rows == old(emitters.rows)
      && financial.rows == old(financial.rows)
      && analitics.rows == old(analitics.rows)
    ensures r.Success? ==> var id := |old(emitters.rows)|;
      && emitters.rows == old(emitters.rows) + [NewEmitter(d, crypto, now).(emitentId := id)]
      && financial.rows == old(financial.rows)[id := FinancialDataService.InitialFinancialData(id)]
      && analitics.rows == old(analitics.rows)[id := Analitics(id, 0, 0)]
      && emitters.rows[id].password == crypto.hash(d.password)
      && r.value.accessToken == crypto.sign(Payload(id, "emitter", Some(d.email), None, Some(d.name)))
      && r.value.emitter == SanitizeEmitter(emitters.rows[id])
    ensures && EmittersService.Linked(old(emitters.rows), old(financial.rows), old(analitics.rows))
            && RegistrationConflict(old(emitters.rows), d).None? && NoEmptyKeys(d)
            && WithinWidths(NewEmitter(d, crypto, now))
            ==> r.Success? && EmittersService.Linked(emitters.rows, financial.rows, analitics.rows)
  {
    var conflict := RegistrationConflict(emitters.rows, d);
    if conflict.Some? {
      return Failure(Conflict(conflict.value));
    }
    if NoEmptyKeys(d) {
      ChecksGuardTheInsert(emitters.rows, d, crypto, now);
    }
    var created := EmittersService.Create(emitters, financial, analitics, NewEmitter(d, crypto, now));
    if created.Failure? {
      return Failure(InternalServerError(RegistrationFailed));
    }
    var e := created.value;
    r := Success(EmitterAuth(crypto.sign(EmitterPayload(e)), SanitizeEmitter(e)));
  }

  // ---------------------------------------------------------------- login

  /**
   * `login`: an unknown email and a wrong password fail alike; otherwise the
   * answer is a token for the stored emitter and the emitter without its
   * password.
   */
  function Login(rows: seq<Emitter>, d: LoginEmitter, crypto: Crypto): (r: Result<EmitterAuth, Error>)
    ensures r.Failure? ==> r.error == Unauthorized(BadEmailOrPassword)
    ensures (forall j :: 0 <= j < |rows| ==> rows[j].email != d.email) ==> r.Failure?
    ensures r.Success? ==> exists j ::
      && 0 <= j < |rows|
      && rows[j].email == d.email
      && crypto.compare(d.password, rows[j].password)
      && r.value == EmitterAuth(crypto.sign(EmitterPayload(rows[j])), SanitizeEmitter(rows[j]))
  {
    match EmittersService.FindByEmail(rows, d.email)
    case None => Failure(Unauthorized(BadEmailOrPassword))
    case Some(e) =>
      if !crypto.compare(d.password, e.password) then Failure(Unauthorized(BadEmailOrPassword))
      else Success(EmitterAuth(crypto.sign(EmitterPayload(e)), SanitizeEmitter(e)))
  }

  /** While emails are unique, the password is checked against the one account with that email. */
  lemma LoginChecksTheOwner(rows: seq<Emitter>, k: nat, password: string, crypto: Crypto)
    requires UniqueColumns(rows) && k < |rows|
    ensures Login(rows, LoginEmitter(rows[k].email, password), crypto).Success? <==> crypto.compare(password, rows[k].password)
  {
    EmittersService.LookupsFindTheOwner(rows, k);
  }

  /** The administrator `loginAdmin` checks the password against: by username when one is given, else by email. */
  function AdminCandidate(rows: seq<Admin>, d: LoginAdmin): (r: Option<Admin>)
    requires Given(d.username) || Given(d.email)
    ensures Given(d.username) ==> r == AdminService.FindByUsername(rows, d.username.value)
    ensures !Given(d.username) ==> r == AdminService.FindByEmail(rows, d.email.value)
  {
    if Given(d.username) then AdminService.FindByUsername(rows, d.username.value)
    else AdminService.FindByEmail(rows, d.email.value)
  }

  /**
   * `loginAdmin`: with neither a username nor an email it is a bad request,
   * before any lookup; an unknown account and a wrong password fail alike;
   * otherwise the answer is a token for the stored administrator, carrying
   * its role, and the administrator without its password.
   */
  function LoginAdmin(rows: seq<Admin>, d: LoginAdmin, crypto: Crypto): (r: Result<AdminAuth, Error>)
    ensures r == Failure(BadRequest(CredentialsMissing)) <==> !Given(d.username) && !Given(d.email)
    ensures r.Failure? && (Given(d.username) || Given(d.email)) ==> r.error == Unauthorized(BadUsernameOrPassword)
    ensures Given(d.username) || Given(d.email) ==>
      (r.Success? <==> AdminCandidate(rows, d).Some? && crypto.compare(d.password, AdminCandidate(rows, d).value.password))
    ensures r.Success? ==> exists j ::
      && 0 <= j < |rows|
      && crypto.compare(d.password, rows[j].password)
      && r.value == AdminAuth(crypto.sign(AdminPayload(rows[j])), SanitizeAdmin(rows[j]))
      && (if Given(d.username) then rows[j].username == d.username.value else rows[j].email == d.email)
  {
    if !Given(d.username) && !Given(d.email) then Failure(BadRequest(CredentialsMissing))
    else
      match AdminCandidate(rows, d)
      case None => Failure(Unauthorized(BadUsernameOrPassword))
      case Some(a) =>
        if !crypto.compare(d.password, a.password) then Failure(Unauthorized(BadUsernameOrPassword))
        else Success(AdminAuth(crypto.sign(AdminPayload(a)), SanitizeAdmin(a)))
  }

  /**
   * While usernames and emails are unique, the password is checked against
   * the one administrator the identifier names: by username, or by email
   * when no username is given.
   */
  lemma LoginAdminChecksTheOwner(rows: seq<Admin>, k: nat, password: string, crypto: Crypto)
    requires AdminUsernamesUnique(rows) && AdminEmailsUnique(rows) && k < |rows|
    ensures Given(Some(rows[k].username)) ==>
      (LoginAdmin(rows, LoginAdminDto.LoginAdmin(Some(rows[k].username), None, password), crypto).Success? <==>
       crypto.compare(password, rows[k].password))
    ensures Given(rows[k].email) ==>
      (LoginAdmin(rows, LoginAdminDto.LoginAdmin(None, rows[k].email, password), crypto).Success? <==>
       crypto.compare(password, rows[k].password))
  {
    AdminService.LookupsFindTheOwner(rows, k);
  }

  /** A given username takes precedence: whatever email comes with it is ignored. */
  lemma UsernameTakesPrecedence(rows: seq<Admin>, d: LoginAdmin, email: Option<string>, crypto: Crypto)
    requires Given(d.username)
    ensures LoginAdmin(rows, d.(email := email), crypto) == LoginAdmin(rows, d, crypto)
  {
  }

  // ---------------------------------------------------------------- token subjects

  datatype User = EmitterUser(emitter: Emitter) | AdminUser(admin: Admin)

  /** `validateUserById`: the emitter store for role "emitter", the admin store for "admin", nothing otherwise. */
  function ValidateUserById(emitters: seq<Emitter>, admins: seq<Admin>, id: Id, role: string): (r: Option<User>)
    ensures role != "emitter" && role != "admin" ==> r.None?
    ensures r.Some? && role == "emitter" ==> r.value.EmitterUser? && r.value.emitter.emitentId == id && r.value.emitter in emitters
    ensures r.Some? && role == "admin" ==> r.value.AdminUser? && r.value.admin.adminId == id && r.value.admin in admins
    ensures role == "emitter" && EmittersKeyed(emitters) ==>
      (r.Some? <==> id < |emitters|) && (r.Some? ==> r.value == EmitterUser(emitters[id]))
    ensures role == "admin" && AdminsKeyed(admins) ==>
      (r.Some? <==> id < |admins|) && (r.Some? ==> r.value == AdminUser(admins[id]))
  {
    if role == "emitter" then
      match EmittersService.FindById(emitters, id)
      case None => None
      case Some(e) => Some(EmitterUser(e))
    else if role == "admin" then
      match AdminService.FindById(admins, id)
      case None => None
      case Some(a) => Some(AdminUser(a))
    else None
  }
}
