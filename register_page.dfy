/** The registration form of the front end: its state, the two change
    handlers that replace it, and the cleaned payload sent to `/auth/register`.
    JavaScript `null` is `None`; every input value is a string. */
module RegisterPage {
  import opened Wrappers
  import opened Text

  /** The form state. `licenseDate` and `numeroLivret` start as `null`; every
      other field is a string. */
  datatype FormData = FormData(
    nom: string,
    prenom: string,
    email: string,
    telephone: string,
    adresse: string,
    dateNaissance: string,
    role: string,
    licenseDate: Option<string>,
    numeroPermis: string,
    numeroLivret: Option<string>,
    password: string)

  const InitialForm: FormData := FormData("", "", "", "", "", "", "", None, "", None, "")

  /** The inputs wired to `handleChange`, by their `name` attribute. The role
      has buttons of its own. */
  datatype InputName =
    | NomInput | PrenomInput | EmailInput | PasswordInput | DateNaissanceInput | TelephoneInput
    | AdresseInput | LicenseDateInput | NumeroPermisInput | NumeroLivretInput

  /** The value a field holds, as JavaScript sees it. */
  function FieldValue(d: FormData, n: InputName): Option<string> {
    match n
    case NomInput => Some(d.nom)
    case PrenomInput => Some(d.prenom)
    case EmailInput => Some(d.email)
    case PasswordInput => Some(d.password)
    case DateNaissanceInput => Some(d.dateNaissance)
    case TelephoneInput => Some(d.telephone)
    case AdresseInput => Some(d.adresse)
    case LicenseDateInput => d.licenseDate
    case NumeroPermisInput => Some(d.numeroPermis)
    case NumeroLivretInput => d.numeroLivret
  }

  /** `{ ...formData, [e.target.name]: e.target.value }`: the named field takes
      the typed value and nothing else changes, the role included. */
  function WithInput(d: FormData, n: InputName, value: string): (r: FormData)
    ensures FieldValue(r, n) == Some(value)
    ensures forall other :: other != n ==> FieldValue(r, other) == FieldValue(d, other)
    ensures r.role == d.role
  {
    match n
    case NomInput => d.(nom := value)
    case PrenomInput => d.(prenom := value)
    case EmailInput => d.(email := value)
    case PasswordInput => d.(password := value)
    case DateNaissanceInput => d.(dateNaissance := value)
    case TelephoneInput => d.(telephone := value)
    case AdresseInput => d.(adresse := value)
    case LicenseDateInput => d.(licenseDate := Some(value))
    case NumeroPermisInput => d.(numeroPermis := value)
    case NumeroLivretInput => d.(numeroLivret := Some(value))
  }

  /** `handleRoleChange`: the new role; the licence date and number survive only
      for an accompagnateur (otherwise `null` and `""`), the booklet number only
      for an apprenti (otherwise `null`); the other fields are kept. */
  function WithRole(d: FormData, role: string): (r: FormData)
    ensures r.role == role
    ensures role == "accompagnateur" ==>
              r.licenseDate == d.licenseDate && r.numeroPermis == d.numeroPermis && r.numeroLivret.None?
    ensures role == "apprenti" ==>
              r.licenseDate.None? && r.numeroPermis == "" && r.numeroLivret == d.numeroLivret
    ensures role != "accompagnateur" && role != "apprenti" ==>
              r.licenseDate.None? && r.numeroPermis == "" && r.numeroLivret.None?
    ensures && r.nom == d.nom && r.prenom == d.prenom && r.email == d.email
            && r.telephone == d.telephone && r.adresse == d.adresse
            && r.dateNaissance == d.dateNaissance && r.password == d.password
  {
    d.(role := role,
       licenseDate := if role == "accompagnateur" then d.licenseDate else None,
       numeroPermis := if role == "accompagnateur" then d.numeroPermis else "",
       numeroLivret := if role == "apprenti" then d.numeroLivret else None)
  }

  /** The body of the register request. */
  datatype RegisterPayload = RegisterPayload(
    nom: string,
    prenom: Option<string>,
    email: string,
    telephone: Option<string>,
    adresse: string,
    dateNaissance: Option<string>,
    role: string,
    licenseDate: Option<string>,
    numeroPermis: Option<string>,
    numeroLivret: Option<string>,
    password: Option<string>)

  /** JavaScript's `s || null` for a string. */
  function OrNull(s: string): (r: Option<string>)
    ensures r.None? <==> s == ""
    ensures r.Some? ==> r.value == s
  {
    if s == "" then None else Some(s)
  }

  /** JavaScript's `o || null` for a string or `null`. */
  function OptionOrNull(o: Option<string>): (r: Option<string>)
    ensures r.None? <==> o.None? || o.value == ""
    ensures r.Some? ==> r == o
  {
    if o.Some? then OrNull(o.value) else None
  }

  /** An optional field of the payload is never an empty string. */
  predicate NotEmpty(o: Option<string>) {
    o.None? || o.value != ""
  }

  /** `cleanedFormData`, trimming with JavaScript's notion of whitespace: nom,
      email and adresse are trimmed; prenom, telephone and password are trimmed and then `null` when nothing is left; the two
      dates and the two numbers are `null` when empty; the role is passed on. */
  function CleanFormData(d: FormData): (r: RegisterPayload)
    ensures r.role == d.role
    ensures NoSurroundingSpace(r.nom, JavaScript) && (exists i :: MiddleAt(d.nom, r.nom, i, JavaScript))
    ensures NoSurroundingSpace(r.email, JavaScript) && (exists i :: MiddleAt(d.email, r.email, i, JavaScript))
    ensures NoSurroundingSpace(r.adresse, JavaScript) && (exists i :: MiddleAt(d.adresse, r.adresse, i, JavaScript))
    ensures r.prenom.None? <==> Strip(d.prenom, JavaScript) == ""
    ensures r.prenom.Some? ==>
              NoSurroundingSpace(r.prenom.value, JavaScript) && (exists i :: MiddleAt(d.prenom, r.prenom.value, i, JavaScript))
    ensures r.telephone.None? <==> Strip(d.telephone, JavaScript) == ""
    ensures r.telephone.Some? ==>
              NoSurroundingSpace(r.telephone.value, JavaScript) && (exists i :: MiddleAt(d.telephone, r.telephone.value, i, JavaScript))
    ensures r.password.None? <==> Strip(d.password, JavaScript) == ""
    ensures r.password.Some? ==>
              NoSurroundingSpace(r.password.value, JavaScript) && (exists i :: MiddleAt(d.password, r.password.value, i, JavaScript))
    ensures r.dateNaissance.None? <==> d.dateNaissance == ""
    ensures r.dateNaissance.Some? ==> r.dateNaissance.value == d.dateNaissance
    ensures r.numeroPermis.None? <==> d.numeroPermis == ""
    ensures r.numeroPermis.Some? ==> r.numeroPermis.value == d.numeroPermis
    ensures r.licenseDate.None? <==> d.licenseDate.None? || d.licenseDate.value == ""
    ensures r.licenseDate.Some? ==> r.licenseDate == d.licenseDate
    ensures r.numeroLivret.None? <==> d.numeroLivret.None? || d.numeroLivret.value == ""
    ensures r.numeroLivret.Some? ==> r.numeroLivret == d.numeroLivret
    ensures && NotEmpty(r.prenom) && NotEmpty(r.telephone) && NotEmpty(r.password)
            && NotEmpty(r.dateNaissance) && NotEmpty(r.licenseDate)
            && NotEmpty(r.numeroPermis) && NotEmpty(r.numeroLivret)
  {
    RegisterPayload(
      Strip(d.nom, JavaScript),
      OrNull(Strip(d.prenom, JavaScript)),
      Strip(d.email, JavaScript),
      OrNull(Strip(d.telephone, JavaScript)),
      Strip(d.adresse, JavaScript),
      OrNull(d.dateNaissance),
      d.role,
      OptionOrNull(d.licenseDate),
      OrNull(d.numeroPermis),
      OptionOrNull(d.numeroLivret),
      OrNull(Strip(d.password, JavaScript)))
  }

  /** Cleaning a payload's text again changes nothing: the trimmed fields are
      their own trim. */
  lemma CleanedTextIsStable(d: FormData)
    ensures var r := CleanFormData(d);
            && Strip(r.nom, JavaScript) == r.nom && Strip(r.email, JavaScript) == r.email
            && Strip(r.adresse, JavaScript) == r.adresse
            && (r.prenom.Some? ==> Strip(r.prenom.value, JavaScript) == r.prenom.value)
  {
    StripIdempotent(d.nom, JavaScript);
    StripIdempotent(d.email, JavaScript);
    StripIdempotent(d.adresse, JavaScript);
    StripIdempotent(d.prenom, JavaScript);
  }

  /** After the last role switch, the payload carries only the numbers that
      role keeps: an apprenti sends no licence number or date, an accompagnateur
      no booklet number, whatever was typed before the switch. Typing into any
      other input afterwards keeps it so. */
  lemma RoleSwitchDropsOtherNumbers(d: FormData, role: string, n: InputName, value: string)
    requires n != LicenseDateInput && n != NumeroPermisInput && n != NumeroLivretInput
    ensures var r := CleanFormData(WithInput(WithRole(d, role), n, value));
            && r.role == role
            && (role != "accompagnateur" ==> r.licenseDate.None? && r.numeroPermis.None?)
            && (role != "apprenti" ==> r.numeroLivret.None?)
  {
    var e := WithRole(d, role);
    var f := WithInput(e, n, value);
    assert FieldValue(f, LicenseDateInput) == FieldValue(e, LicenseDateInput);
    assert FieldValue(f, NumeroPermisInput) == FieldValue(e, NumeroPermisInput);
    assert FieldValue(f, NumeroLivretInput) == FieldValue(e, NumeroLivretInput);
  }

  /** The form component's state. */
  class RegisterForm {
    var formData: FormData

    constructor ()
      ensures formData == InitialForm
    {
      formData := InitialForm;
    }

    /** `handleChange`. */
    method HandleChange(n: InputName, value: string)
      modifies this
      ensures formData == WithInput(old(formData), n, value)
    {
      formData := WithInput(formData, n, value);
    }

    /** `handleRoleChange`. */
    method HandleRoleChange(role: string)
      modifies this
      ensures formData == WithRole(old(formData), role)
    {
      formData := WithRole(formData, role);
    }
  }
}
