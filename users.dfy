/** The user table: its columns, the unique email, the `users_role_check` and
    `users_check_combined` constraints, and the routes of the users router
    (create with role validation, read, list, update, delete). */
module Users {
  import opened Wrappers
  import opened Rows

  // ---------------------------------------------------------------------------
  // Columns and constraints

  datatype Role = Apprenti | Accompagnateur

  /** The values `users_role_check` admits. */
  const RoleCheck: set<string> := {"apprenti", "accompagnateur"}

  function RoleText(r: Role): (s: string)
    ensures s in RoleCheck
  {
    match r
    case Apprenti => "apprenti"
    case Accompagnateur => "accompagnateur"
  }

  function ParseRole(s: string): (r: Option<Role>)
    ensures r.Some? <==> s in RoleCheck
    ensures r.Some? ==> RoleText(r.value) == s
    ensures forall role :: RoleText(role) == s ==> r == Some(role)
  {
    if s == "apprenti" then Some(Apprenti)
    else if s == "accompagnateur" then Some(Accompagnateur)
    else None
  }

  /** A user row. `R` is the type of the `role` column: a string on the ORM
      object before commit (`PendingUser`), a `Role` once the database has
      admitted it (`User`). The required columns are plain values; the three
      nullable ones are options. Dates are day numbers; `password` holds whatever
      the route stores there (a hash computed outside this model). */
  datatype UserOf<R> = UserRow(
    nom: string,
    prenom: string,
    email: string,
    password: string,
    telephone: string,
    adresse: string,
    dateNaissance: int,
    role: R,
    licenseDate: Option<int>,
    numeroPermis: Option<string>,
    numeroLivret: Option<string>)

  type User = UserOf<Role>
  type PendingUser = UserOf<string>

  /** The same row with another `role` value: every other column is kept. */
  function WithRole<R, S>(u: UserOf<R>, role: S): (r: UserOf<S>)
    ensures r.role == role
    ensures && r.nom == u.nom && r.prenom == u.prenom && r.email == u.email
            && r.password == u.password && r.telephone == u.telephone && r.adresse == u.adresse
            && r.dateNaissance == u.dateNaissance && r.licenseDate == u.licenseDate
            && r.numeroPermis == u.numeroPermis && r.numeroLivret == u.numeroLivret
  {
    UserRow(u.nom, u.prenom, u.email, u.password, u.telephone, u.adresse, u.dateNaissance,
            role, u.licenseDate, u.numeroPermis, u.numeroLivret)
  }

  /** Putting the old role back gives the row back. */
  lemma WithRoleRoundTrip<R, S>(u: UserOf<R>, role: S)
    ensures WithRole(WithRole(u, role), u.role) == u
  {
  }

  /** A stored user as the ORM object it is loaded into. */
  function Loaded(u: User): PendingUser {
    WithRole(u, RoleText(u.role))
  }

  /** `users_check_combined` on a stored row: an accompagnateur has a licence
      number and no booklet number, an apprenti the reverse. */
  predicate CombinedCheck(u: User) {
    || (u.role == Accompagnateur && u.numeroPermis.Some? && u.numeroLivret.None?)
    || (u.role == Apprenti && u.numeroLivret.Some? && u.numeroPermis.None?)
  }

  /** `users_check_combined` as the database evaluates it on the role text. */
  predicate CombinedCheckText(p: PendingUser) {
    || (p.role == "accompagnateur" && p.numeroPermis.Some? && p.numeroLivret.None?)
    || (p.role == "apprenti" && p.numeroLivret.Some? && p.numeroPermis.None?)
  }

  /** The combined check admits only the two roles, so `users_role_check`
      never refuses a row the combined check lets through; on an admitted role
      the two readings of the combined check agree. */
  lemma CombinedCheckImpliesRoleCheck(p: PendingUser)
    ensures CombinedCheckText(p) ==> p.role in RoleCheck
    ensures p.role in RoleCheck ==> (CombinedCheckText(p) <==> CombinedCheck(WithRole(p, ParseRole(p.role).value)))
  {
  }

  predicate EmailsUnique(rows: map<int, User>) {
    forall i, j :: i in rows && j in rows && i != j ==> rows[i].email != rows[j].email
  }

  predicate EmailTaken(rows: map<int, User>, email: string) {
    exists k :: k in rows && rows[k].email == email
  }

  /** Committing a pending row next to the rows `others`. PostgreSQL evaluates
      check constraints in the alphabetical order of their names, so
      `users_check_combined` comes before `users_role_check` (which then always
      holds), and the unique index on `email` comes last. */
  function Commit(others: map<int, User>, p: PendingUser): (r: Result<User>)
    ensures !CombinedCheckText(p) ==> r == Err(CheckViolation("users_check_combined"))
    ensures CombinedCheckText(p) && EmailTaken(others, p.email) ==> r == Err(UniqueViolation("email"))
    ensures r.Ok? <==> CombinedCheckText(p) && !EmailTaken(others, p.email)
    ensures r.Ok? ==> Loaded(r.value) == p && CombinedCheck(r.value)
    ensures r.Ok? ==> forall k :: k in others ==> others[k].email != r.value.email
  {
    if !CombinedCheckText(p) then Err(CheckViolation("users_check_combined"))
    else if EmailTaken(others, p.email) then Err(UniqueViolation("email"))
    else Ok(WithRole(p, if p.role == "apprenti" then Apprenti else Accompagnateur))
  }

  /** The rows the database admits: unique emails, and every row satisfies the
      check constraints. */
  ghost predicate TableChecks(rows: map<int, User>) {
    EmailsUnique(rows) && forall id :: id in rows ==> CombinedCheck(rows[id])
  }

  /** Committing a row in place of `id` keeps the table's constraints. */
  lemma CommitKeepsChecks(rows: map<int, User>, id: int, p: PendingUser)
    requires TableChecks(rows)
    requires Commit(rows - {id}, p).Ok?
    ensures TableChecks(rows[id := Commit(rows - {id}, p).value])
  {
    var u := Commit(rows - {id}, p).value;
    var rows' := rows[id := u];
    forall i, j | i in rows' && j in rows' && i != j ensures rows'[i].email != rows'[j].email {
      if i == id {
        assert j in rows - {id};
      } else if j == id {
        assert i in rows - {id};
      }
    }
  }

  /** Python truthiness of an optional string: present and not empty. */
  predicate Filled(o: Option<string>) {
    o.Some? && o.value != ""
  }

  // ---------------------------------------------------------------------------
  // Create

  /** `UserCreate`; `role` is any string until validated. */
  datatype UserCreate = UserCreate(
    nom: string, prenom: string, email: string, password: string, telephone: string,
    adresse: string, dateNaissance: int, role: string, licenseDate: Option<int>,
    numeroPermis: Option<string>, numeroLivret: Option<string>)

  const BadRole: Failure := Http(400, "Le rôle doit être 'apprenti' ou 'accompagnateur'.")
  const MissingPermis: Failure := Http(400, "Un accompagnateur doit avoir un numéro de permis.")
  const MissingLivret: Failure := Http(400, "Un apprenti doit avoir un numéro de livret.")
  const UserNotFound: Failure := Http(404, "Utilisateur non trouvé")
  const Forbidden: Failure := Http(403, "Accès interdit")
  /** What the client receives when a route's return value does not fit its
      declared `response_model`: the framework refuses to serialise it. */
  const UnservableResponse: Failure := Http(500, "Internal Server Error")

  /** The three guards of `create_user`, in order. */
  function CreateRefusal(req: UserCreate): (r: Option<Failure>)
    ensures req.role !in RoleCheck ==> r == Some(BadRole)
    ensures req.role == "accompagnateur" && !Filled(req.numeroPermis) ==> r == Some(MissingPermis)
    ensures req.role == "apprenti" && !Filled(req.numeroLivret) ==> r == Some(MissingLivret)
    ensures r.None? <==> || (req.role == "accompagnateur" && Filled(req.numeroPermis))
                         || (req.role == "apprenti" && Filled(req.numeroLivret))
  {
    if req.role !in RoleCheck then Some(BadRole)
    else if req.role == "accompagnateur" && !Filled(req.numeroPermis) then Some(MissingPermis)
    else if req.role == "apprenti" && !Filled(req.numeroLivret) then Some(MissingLivret)
    else None
  }

  /** Keep the licence number only for an accompagnateur and the booklet number
      only for an apprenti. */
  function NumbersForRole(role: string, permis: Option<string>, livret: Option<string>)
    : (r: (Option<string>, Option<string>))
    ensures r.0 == (if role == "accompagnateur" then permis else None)
    ensures r.1 == (if role == "apprenti" then livret else None)
  {
    (if role == "accompagnateur" then permis else None, if role == "apprenti" then livret else None)
  }

  /** The row `create_user` builds, with the hash of the password. */
  function NewUser(req: UserCreate, hashed: string): (r: PendingUser)
    ensures && r.nom == req.nom && r.prenom == req.prenom && r.email == req.email
            && r.telephone == req.telephone && r.adresse == req.adresse
            && r.dateNaissance == req.dateNaissance && r.role == req.role
            && r.licenseDate == req.licenseDate
    ensures r.password == hashed
    ensures r.numeroPermis == (if req.role == "accompagnateur" then req.numeroPermis else None)
    ensures r.numeroLivret == (if req.role == "apprenti" then req.numeroLivret else None)
  {
    var (permis, livret) := NumbersForRole(req.role, req.numeroPermis, req.numeroLivret);
    UserRow(req.nom, req.prenom, req.email, hashed, req.telephone, req.adresse, req.dateNaissance,
            req.role, req.licenseDate, permis, livret)
  }

  /** A user built after `create_user`'s guards satisfies both check constraints:
      the only way its commit can still fail is a duplicate email. */
  lemma ValidatedUserSatisfiesChecks(others: map<int, User>, req: UserCreate, hashed: string)
    requires CreateRefusal(req).None?
    ensures var p := NewUser(req, hashed);
            && p.role in RoleCheck
            && CombinedCheckText(p)
            && CombinedCheck(WithRole(p, ParseRole(p.role).value))
            && (Commit(others, p).Ok? <==> !EmailTaken(others, req.email))
  {
  }

  // ---------------------------------------------------------------------------
  // Update

  /** `UserUpdate`: every field optional; `None` is the value `None`. */
  datatype UserUpdate = UserUpdate(
    nom: Option<string>, prenom: Option<string>, email: Option<string>,
    telephone: Option<string>, adresse: Option<string>, dateNaissance: Option<int>,
    role: Option<string>, licenseDate: Option<int>, numeroPermis: Option<string>,
    numeroLivret: Option<string>, password: Option<string>)

  /** One item of `user.model_dump().items()`: a field and its possibly-None value. */
  datatype UserItem =
    | NomItem(nom: Option<string>)
    | PrenomItem(prenom: Option<string>)
    | EmailItem(email: Option<string>)
    | TelephoneItem(telephone: Option<string>)
    | AdresseItem(adresse: Option<string>)
    | DateNaissanceItem(dateNaissance: Option<int>)
    | RoleItem(role: Option<string>)
    | LicenseDateItem(licenseDate: Option<int>)
    | NumeroPermisItem(numeroPermis: Option<string>)
    | NumeroLivretItem(numeroLivret: Option<string>)
    | PasswordItem(password: Option<string>)

  /** `if value is not None: setattr(existing_user, key, value)`. */
  function AssignUser(u: PendingUser, item: UserItem): PendingUser {
    match item
    case NomItem(v) => u.(nom := v.GetOr(u.nom))
    case PrenomItem(v) => u.(prenom := v.GetOr(u.prenom))
    case EmailItem(v) => u.(email := v.GetOr(u.email))
    case TelephoneItem(v) => u.(telephone := v.GetOr(u.telephone))
    case AdresseItem(v) => u.(adresse := v.GetOr(u.adresse))
    case DateNaissanceItem(v) => u.(dateNaissance := v.GetOr(u.dateNaissance))
    case RoleItem(v) => u.(role := v.GetOr(u.role))
    case LicenseDateItem(v) => if v.Some? then u.(licenseDate := v) else u
    case NumeroPermisItem(v) => if v.Some? then u.(numeroPermis := v) else u
    case NumeroLivretItem(v) => if v.Some? then u.(numeroLivret := v) else u
    case PasswordItem(v) => u.(password := v.GetOr(u.password))
  }

  /** `user.model_dump().items()`: every field, in declaration order. */
  function Dump(upd: UserUpdate): seq<UserItem> {
    [NomItem(upd.nom), PrenomItem(upd.prenom), EmailItem(upd.email), TelephoneItem(upd.telephone),
     AdresseItem(upd.adresse), DateNaissanceItem(upd.dateNaissance), RoleItem(upd.role),
     LicenseDateItem(upd.licenseDate), NumeroPermisItem(upd.numeroPermis),
     NumeroLivretItem(upd.numeroLivret), PasswordItem(upd.password)]
  }

  function OrKeep<T>(v: Option<T>, prev: Option<T>): Option<T> {
    if v.Some? then v else prev
  }

  /** The intended effect: each field given a value other than None is
      overwritten, every other field is kept (a nullable column cannot be
      cleared this way). */
  function Overwrite(u: PendingUser, upd: UserUpdate): PendingUser {
    UserRow(upd.nom.GetOr(u.nom), upd.prenom.GetOr(u.prenom), upd.email.GetOr(u.email),
            upd.password.GetOr(u.password), upd.telephone.GetOr(u.telephone),
            upd.adresse.GetOr(u.adresse), upd.dateNaissance.GetOr(u.dateNaissance),
            upd.role.GetOr(u.role), OrKeep(upd.licenseDate, u.licenseDate),
            OrKeep(upd.numeroPermis, u.numeroPermis), OrKeep(upd.numeroLivret, u.numeroLivret))
  }

  /** The update restricted to its first `n` dumped fields. */
  function Prefix(upd: UserUpdate, n: int): UserUpdate {
    UserUpdate(
      if n > 0 then upd.nom else None, if n > 1 then upd.prenom else None,
      if n > 2 then upd.email else None, if n > 3 then upd.telephone else None,
      if n > 4 then upd.adresse else None, if n > 5 then upd.dateNaissance else None,
      if n > 6 then upd.role else None, if n > 7 then upd.licenseDate else None,
      if n > 8 then upd.numeroPermis else None, if n > 9 then upd.numeroLivret else None,
      if n > 10 then upd.password else None)
  }

  /** The loop over all dumped fields performs `Overwrite`. */
  lemma {:induction false} DumpOverwrite(u: PendingUser, upd: UserUpdate)
    ensures Fold(u, Dump(upd), AssignUser) == Overwrite(u, upd)
  {
    var items := Dump(upd);
    var cur := u;
    for i := 0 to |items|
      invariant Fold(u, items, AssignUser) == Fold(cur, items[i..], AssignUser)
      invariant i <= 11
      invariant cur == Overwrite(u, Prefix(upd, i))
    {
      assert items[i..][0] == items[i] && items[i..][1..] == items[i + 1..];
      cur := AssignUser(cur, items[i]);
    }
    assert items[|items|..] == [];
  }

  /** The `setattr` loop of `update_user` over `user.model_dump().items()`. */
  method ApplyUpdate(u: PendingUser, upd: UserUpdate) returns (p: PendingUser)
    ensures p == Overwrite(u, upd)
  {
    p := SetEach(u, Dump(upd), AssignUser);
    DumpOverwrite(u, upd);
  }

  /** Every field given a value takes it; every field given None is kept. */
  lemma OverwriteFields(u: PendingUser, upd: UserUpdate)
    ensures Overwrite(u, upd).nom == (if upd.nom.Some? then upd.nom.value else u.nom)
    ensures Overwrite(u, upd).prenom == (if upd.prenom.Some? then upd.prenom.value else u.prenom)
    ensures Overwrite(u, upd).email == (if upd.email.Some? then upd.email.value else u.email)
    ensures Overwrite(u, upd).telephone == (if upd.telephone.Some? then upd.telephone.value else u.telephone)
    ensures Overwrite(u, upd).adresse == (if upd.adresse.Some? then upd.adresse.value else u.adresse)
    ensures Overwrite(u, upd).dateNaissance
            == (if upd.dateNaissance.Some? then upd.dateNaissance.value else u.dateNaissance)
    ensures Overwrite(u, upd).role == (if upd.role.Some? then upd.role.value else u.role)
    ensures Overwrite(u, upd).licenseDate == (if upd.licenseDate.Some? then upd.licenseDate else u.licenseDate)
    ensures Overwrite(u, upd).numeroPermis
            == (if upd.numeroPermis.Some? then upd.numeroPermis else u.numeroPermis)
    ensures Overwrite(u, upd).numeroLivret
            == (if upd.numeroLivret.Some? then upd.numeroLivret else u.numeroLivret)
    ensures Overwrite(u, upd).password == (if upd.password.Some? then upd.password.value else u.password)
  {
  }

  /** An update of only Nones changes nothing; applying an update twice is
      applying it once. */
  lemma OverwriteProperties(u: PendingUser, upd: UserUpdate)
    ensures Overwrite(u, UserUpdate(None, None, None, None, None, None, None, None, None, None, None)) == u
    ensures Overwrite(Overwrite(u, upd), upd) == Overwrite(u, upd)
  {
  }

  // ---------------------------------------------------------------------------
  // Routes

  datatype UserRecord = UserRecord(id: int, user: User)

  class UserTable {
    var rows: map<int, User>
    var nextId: int

    /** Ids come from an autoincrement counter, and the table satisfies its
        unique and check constraints. */
    ghost predicate Valid()
      reads this
    {
      && 1 <= nextId
      && (forall id :: id in rows ==> 1 <= id < nextId)
      && TableChecks(rows)
    }

    constructor ()
      ensures Valid() && rows == map[] && nextId == 1
    {
      rows := map[];
      nextId := 1;
    }

    /** Commit `p` as a new row under the next id. When the database refuses it
        no row is added, but the id the sequence handed out is used up. Shared
        by `create_user` and `register`. */
    method Insert(p: PendingUser) returns (r: Result<UserRecord>)
      requires Valid()
      modifies this
      ensures Valid()
      ensures Commit(old(rows), p).Err? ==>
                r == Err(Commit(old(rows), p).failure) && rows == old(rows) && nextId == old(nextId) + 1
      ensures Commit(old(rows), p).Ok? ==>
                var u := Commit(old(rows), p).value;
                && old(nextId) !in old(rows)
                && r == Ok(UserRecord(old(nextId), u))
                && rows == old(rows)[old(nextId) := u]
                && nextId == old(nextId) + 1
    {
      var id := nextId;
      nextId := nextId + 1;
      var committed := Commit(rows, p);
      if committed.Err? {
        return Err(committed.failure);
      }
      assert rows - {id} == rows;
      CommitKeepsChecks(rows, id, p);
      rows := rows[id := committed.value];
      r := Ok(UserRecord(id, committed.value));
    }

    /** `create_user`: the three guards (400 each, nothing sent to the database),
        then the row with the numbers filtered by role; a duplicate email is
        refused by the database after the insert has used up an id. */
    method CreateUser(req: UserCreate, hashed: string) returns (r: Result<UserRecord>)
      requires Valid()
      modifies this
      ensures Valid()
      ensures CreateRefusal(req).Some? ==>
                r == Err(CreateRefusal(req).value) && rows == old(rows) && nextId == old(nextId)
      ensures CreateRefusal(req).None? && EmailTaken(old(rows), req.email) ==>
                r == Err(UniqueViolation("email")) && rows == old(rows) && nextId == old(nextId) + 1
      ensures CreateRefusal(req).None? && !EmailTaken(old(rows), req.email) ==>
                && r.Ok? && r.value.id == old(nextId) && Loaded(r.value.user) == NewUser(req, hashed)
                && rows == old(rows)[old(nextId) := r.value.user] && nextId == old(nextId) + 1
    {
      var refusal := CreateRefusal(req);
      if refusal.Some? {
        return Err(refusal.value);
      }
      ValidatedUserSatisfiesChecks(rows, req, hashed);
      r := Insert(NewUser(req, hashed));
    }

    /** `get_user`. */
    function GetUser(id: int): (r: Result<UserRecord>)
      reads this
      ensures id !in rows <==> r == Err(UserNotFound)
      ensures id in rows ==> r == Ok(UserRecord(id, rows[id]))
    {
      if id in rows then Ok(UserRecord(id, rows[id])) else Err(UserNotFound)
    }

    /** `get_all_users`: every user of the table, and nothing else. */
    function GetAllUsers(): (r: set<UserRecord>)
      reads this
      ensures forall rec :: rec in r <==> rec.id in rows && rows[rec.id] == rec.user
    {
      set id | id in rows :: UserRecord(id, rows[id])
    }

    /** `update_user`: 404, then 403 unless the caller is that user; then every
        field given a value is set and the row is committed, so the database's
        constraints still decide (a refused commit changes nothing). */
    method UpdateUser(callerId: int, id: int, upd: UserUpdate) returns (r: Result<UserRecord>)
      requires Valid()
      modifies this
      ensures Valid() && nextId == old(nextId)
      ensures id !in old(rows) ==> r == Err(UserNotFound) && rows == old(rows)
      ensures id in old(rows) && callerId != id ==> r == Err(Forbidden) && rows == old(rows)
      ensures id in old(rows) && callerId == id ==>
                var committed := Commit(old(rows) - {id}, Overwrite(Loaded(old(rows)[id]), upd));
                && (committed.Err? ==> r == Err(committed.failure) && rows == old(rows))
                && (committed.Ok? ==> r == Ok(UserRecord(id, committed.value))
                                      && rows == old(rows)[id := committed.value])
    {
      if id !in rows {
        return Err(UserNotFound);
      }
      if callerId != id {
        return Err(Forbidden);
      }
      var p := ApplyUpdate(Loaded(rows[id]), upd);
      var committed := Commit(rows - {id}, p);
      if committed.Err? {
        return Err(committed.failure);
      }
      CommitKeepsChecks(rows, id, p);
      rows := rows[id := committed.value];
      r := Ok(UserRecord(id, committed.value));
    }

    /** `delete_user`: 404, then 403 unless the caller is that user; otherwise
        exactly that row goes and the deletion is committed. The route then
        returns a message where its `response_model` asks for a `UserResponse`,
        so the answer is a 500 although the row is gone. */
    method DeleteUser(callerId: int, id: int) returns (r: Result<UserRecord>)
      requires Valid()
      modifies this
      ensures Valid() && nextId == old(nextId)
      ensures id !in old(rows) ==> r == Err(UserNotFound) && rows == old(rows)
      ensures id in old(rows) && callerId != id ==> r == Err(Forbidden) && rows == old(rows)
      ensures id in old(rows) && callerId == id ==> r == Err(UnservableResponse) && rows == old(rows) - {id}
    {
      if id !in rows {
        return Err(UserNotFound);
      }
      if callerId != id {
        return Err(Forbidden);
      }
      rows := rows - {id};
      r := Err(UnservableResponse);
    }
  }
}
