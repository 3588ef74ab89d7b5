/** The authentication router: registration with its schema bounds and role
    checks, login by email, and resolving the current user from a token.
    Token signing and verification, and password hashing, happen outside this
    model: a token is the claim it carries, a hash arrives as a parameter. */
module Auth {
  import opened Wrappers
  import opened Users

  /** `UserRegister`; `role` is any string of at most 20 characters. */
  datatype UserRegister = UserRegister(
    nom: string, prenom: string, email: string, telephone: string, adresse: string,
    dateNaissance: int, role: string, licenseDate: Option<int>,
    numeroPermis: Option<string>, numeroLivret: Option<string>, password: string)

  const NomMax: nat := 100
  const PrenomMax: nat := 100
  const TelephoneMax: nat := 15
  const AdresseMax: nat := 255
  const RoleMax: nat := 20
  const NumeroMax: nat := 20

  predicate TooLong(o: Option<string>, max: nat) {
    o.Some? && |o.value| > max
  }

  /** The request fields that carry a `max_length` bound. */
  const BoundedFields: set<string> :=
    {"nom", "prenom", "telephone", "adresse", "role", "numero_permis", "numero_livret"}

  predicate BreaksBound(req: UserRegister, field: string) {
    if field == "nom" then |req.nom| > NomMax
    else if field == "prenom" then |req.prenom| > PrenomMax
    else if field == "telephone" then |req.telephone| > TelephoneMax
    else if field == "adresse" then |req.adresse| > AdresseMax
    else if field == "role" then |req.role| > RoleMax
    else if field == "numero_permis" then TooLong(req.numeroPermis, NumeroMax)
    else if field == "numero_livret" then TooLong(req.numeroLivret, NumeroMax)
    else false
  }

  /** The fields of a register request that break a `max_length` bound; the
      request is refused with 422 naming them whenever there is one. */
  function LengthErrors(req: UserRegister): (r: set<string>)
    ensures "nom" in r <==> |req.nom| > NomMax
    ensures "prenom" in r <==> |req.prenom| > PrenomMax
    ensures "telephone" in r <==> |req.telephone| > TelephoneMax
    ensures "adresse" in r <==> |req.adresse| > AdresseMax
    ensures "role" in r <==> |req.role| > RoleMax
    ensures "numero_permis" in r <==> TooLong(req.numeroPermis, NumeroMax)
    ensures "numero_livret" in r <==> TooLong(req.numeroLivret, NumeroMax)
    ensures r <= BoundedFields
  {
    set f | f in BoundedFields && BreaksBound(req, f)
  }

  /** A signed access token, reduced to its subject claim. */
  datatype Token = Token(sub: string)

  datatype TokenResponse = TokenResponse(accessToken: Token, tokenType: string)

  const DefaultTokenType: string := "bearer"

  /** The answer of `/auth/me`. */
  datatype Me = Me(id: int, nom: string, prenom: string, email: string)

  const EmailRegistered: Failure := Http(400, "Email already registered")
  const MissingLicenseDate: Failure := Http(400, "Un accompagnateur doit avoir une date d'obtention de permis.")
  const InvalidCredentials: Failure := Http(401, "Invalid credentials")
  const InvalidToken: Failure := Http(401, "Invalid token")
  const UserNotFoundByToken: Failure := Http(404, "User not found")

  /** What a role needs before `register` goes on: a booklet number for an
      apprenti, a licence number and a licence date for an accompagnateur. No
      other role is refused here. */
  predicate RoleFieldsPresent(req: UserRegister) {
    && (req.role == "apprenti" ==> Filled(req.numeroLivret))
    && (req.role == "accompagnateur" ==> Filled(req.numeroPermis) && req.licenseDate.Some?)
  }

  /** The refusals of `register` before anything is written, in order: the
      schema bounds, a taken email, then the role-dependent fields (for an
      accompagnateur the licence number is asked for before the date). */
  function RegisterRefusal(rows: map<int, User>, req: UserRegister): (r: Option<Failure>)
    ensures LengthErrors(req) != {} ==> r == Some(Unprocessable(LengthErrors(req)))
    ensures LengthErrors(req) == {} && EmailTaken(rows, req.email) ==> r == Some(EmailRegistered)
    ensures LengthErrors(req) == {} && !EmailTaken(rows, req.email) ==>
              && (req.role == "apprenti" && !Filled(req.numeroLivret) ==> r == Some(MissingLivret))
              && (req.role == "accompagnateur" && !Filled(req.numeroPermis) ==> r == Some(MissingPermis))
              && (req.role == "accompagnateur" && Filled(req.numeroPermis) && req.licenseDate.None? ==>
                    r == Some(MissingLicenseDate))
    ensures r.None? <==> LengthErrors(req) == {} && !EmailTaken(rows, req.email) && RoleFieldsPresent(req)
  {
    if LengthErrors(req) != {} then Some(Unprocessable(LengthErrors(req)))
    else if EmailTaken(rows, req.email) then Some(EmailRegistered)
    else if req.role == "apprenti" && !Filled(req.numeroLivret) then Some(MissingLivret)
    else if req.role == "accompagnateur" && !Filled(req.numeroPermis) then Some(MissingPermis)
    else if req.role == "accompagnateur" && req.licenseDate.None? then Some(MissingLicenseDate)
    else None
  }

  /** The register request read as the create request it carries the same
      fields as: `register` builds its row exactly as `create_user` does. */
  function AsUserCreate(req: UserRegister): UserCreate {
    UserCreate(req.nom, req.prenom, req.email, req.password, req.telephone, req.adresse,
               req.dateNaissance, req.role, req.licenseDate, req.numeroPermis, req.numeroLivret)
  }

  /** The row `register` builds: numbers filtered by role, the hash stored as
      the password. */
  function RegisteredUser(req: UserRegister, hashed: string): PendingUser {
    NewUser(AsUserCreate(req), hashed)
  }

  /** Once `register`'s guards pass, the database refuses the row only for a
      role other than the two (`register` never checks the role itself): the
      combined check is then the one that fails, and the email is free. */
  lemma RegisterCommitFailsOnlyOnRole(rows: map<int, User>, req: UserRegister, hashed: string)
    requires RegisterRefusal(rows, req).None?
    ensures req.role !in RoleCheck ==> Commit(rows, RegisteredUser(req, hashed)) == Err(CheckViolation("users_check_combined"))
    ensures req.role in RoleCheck ==> Commit(rows, RegisteredUser(req, hashed)).Ok?
  {
  }

  /** `register`: refused as `RegisterRefusal` says with the table unchanged,
      or by the database for an unknown role, which adds no row but uses up
      the id the insert drew; otherwise the user is inserted
      and a bearer token for the new email is returned. Emails stay unique. */
  method Register(users: UserTable, req: UserRegister, hashed: string) returns (r: Result<TokenResponse>)
    requires users.Valid()
    modifies users
    ensures users.Valid()
    ensures EmailsUnique(users.rows)
    ensures RegisterRefusal(old(users.rows), req).Some? ==>
              && r == Err(RegisterRefusal(old(users.rows), req).value)
              && users.rows == old(users.rows) && users.nextId == old(users.nextId)
    ensures RegisterRefusal(old(users.rows), req).None? && req.role !in RoleCheck ==>
              && r == Err(CheckViolation("users_check_combined"))
              && users.rows == old(users.rows) && users.nextId == old(users.nextId) + 1
    ensures RegisterRefusal(old(users.rows), req).None? && req.role in RoleCheck ==>
              && r == Ok(TokenResponse(Token(req.email), DefaultTokenType))
              && old(users.nextId) !in old(users.rows)
              && users.rows.Keys == old(users.rows).Keys + {old(users.nextId)}
              && (forall id :: id in old(users.rows) ==> users.rows[id] == old(users.rows)[id])
              && Loaded(users.rows[old(users.nextId)]) == RegisteredUser(req, hashed)
              && users.nextId == old(users.nextId) + 1
  {
    var refusal := RegisterRefusal(users.rows, req);
    if refusal.Some? {
      return Err(refusal.value);
    }
    RegisterCommitFailsOnlyOnRole(users.rows, req, hashed);
    var inserted := users.Insert(RegisteredUser(req, hashed));
    if inserted.Err? {
      return Err(inserted.failure);
    }
    r := Ok(TokenResponse(Token(inserted.value.user.email), DefaultTokenType));
  }

  /** `login`: a token for the given email when some user has it, 401 otherwise.
      The password is not compared with anything stored. */
  function Login(rows: map<int, User>, username: string, password: string): (r: Result<TokenResponse>)
    ensures r.Err? <==> !EmailTaken(rows, username)
    ensures r.Err? ==> r.failure == InvalidCredentials
    ensures r.Ok? ==> r.value.tokenType == DefaultTokenType
    ensures r.Ok? ==> r.value.accessToken == Token(username)
    ensures r.Ok? ==> exists id :: id in rows && rows[id].email == r.value.accessToken.sub
  {
    if EmailTaken(rows, username) then Ok(TokenResponse(Token(username), DefaultTokenType))
    else Err(InvalidCredentials)
  }

  /** `get_current_user`: 401 without a verified token, 404 when no user has its
      subject as email, otherwise that user (unique, because emails are). */
  function CurrentUser(payload: Option<Token>, rows: map<int, User>): (r: Result<Me>)
    requires EmailsUnique(rows)
    ensures payload.None? ==> r == Err(InvalidToken)
    ensures payload.Some? && !EmailTaken(rows, payload.value.sub) ==> r == Err(UserNotFoundByToken)
    ensures r.Ok? ==> && payload.Some? && r.value.id in rows
                      && rows[r.value.id].email == payload.value.sub == r.value.email
                      && rows[r.value.id].nom == r.value.nom
                      && rows[r.value.id].prenom == r.value.prenom
    ensures payload.Some? && EmailTaken(rows, payload.value.sub) ==> r.Ok?
  {
    if payload.None? then Err(InvalidToken)
    else if !EmailTaken(rows, payload.value.sub) then Err(UserNotFoundByToken)
    else
      var id :| id in rows && rows[id].email == payload.value.sub;
      var u := rows[id];
      Ok(Me(id, u.nom, u.prenom, u.email))
  }

  /** The token `register` hands out logs in and names the new user: after a
      user is added under a fresh id to a table with unique emails, logging in
      with that email and resolving its token both find that user. */
  lemma RegisteredUserAuthenticates(rows: map<int, User>, id: int, u: User, password: string)
    requires EmailsUnique(rows) && id !in rows && !EmailTaken(rows, u.email)
    ensures EmailsUnique(rows[id := u])
    ensures Login(rows[id := u], u.email, password) == Ok(TokenResponse(Token(u.email), DefaultTokenType))
    ensures CurrentUser(Some(Token(u.email)), rows[id := u]) == Ok(Me(id, u.nom, u.prenom, u.email))
  {
    var rows' := rows[id := u];
    assert rows'[id].email == u.email;
    forall i, j | i in rows' && j in rows' && i != j ensures rows'[i].email != rows'[j].email {
      if i == id {
        assert rows[j].email != u.email;
      } else if j == id {
        assert rows[i].email != u.email;
      }
    }
    var me := CurrentUser(Some(Token(u.email)), rows');
    assert me.value.id == id;
  }
}
