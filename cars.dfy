/** The car table: its columns and defaults, the `cars_type_check` constraint and
    the unique plate, and the create, read, list, update and delete routes. */
module Cars {
  import opened Wrappers
  import opened Rows

  // ---------------------------------------------------------------------------
  // Columns and constraints

  datatype CarType = DoubleCommande | Classique

  /** The values `cars_type_check` admits. */
  const CarTypeCheck: set<string> := {"double commande", "classique"}

  function CarTypeText(t: CarType): (s: string)
    ensures s in CarTypeCheck
  {
    match t
    case DoubleCommande => "double commande"
    case Classique => "classique"
  }

  /** The check constraint read as a parser: a type text is admitted exactly when
      it is the text of a car type, and then it names that type. */
  function ParseCarType(s: string): (r: Option<CarType>)
    ensures r.Some? <==> s in CarTypeCheck
    ensures r.Some? ==> CarTypeText(r.value) == s
    ensures forall t :: CarTypeText(t) == s ==> r == Some(t)
  {
    if s == "double commande" then Some(DoubleCommande)
    else if s == "classique" then Some(Classique)
    else None
  }

  /** A car row. `T` is the type of the `type` column: a string on the ORM object
      before commit (`PendingCar`), a `CarType` once the database has admitted it
      (`Car`). Dates are day numbers and the price is in cents. */
  datatype CarOf<T> = CarRow(
    nom: string,
    modele: string,
    anneeFab: int,
    carType: T,
    plaque: string,
    controleTechnique: int,
    prixParHeure: int,
    disponible: bool,
    imageUrl: Option<string>,
    createdAt: int,
    updatedAt: int)

  type Car = CarOf<CarType>
  type PendingCar = CarOf<string>

  /** `prix_par_heure` defaults to 20.00, `disponible` to true. */
  const DefaultPrixParHeure: int := 2000
  const DefaultDisponible: bool := true

  /** The same row with another `type` value: every other column is kept. */
  function WithType<T, U>(c: CarOf<T>, t: U): (r: CarOf<U>)
    ensures r.carType == t
    ensures && r.nom == c.nom && r.modele == c.modele && r.anneeFab == c.anneeFab
            && r.plaque == c.plaque && r.controleTechnique == c.controleTechnique
            && r.prixParHeure == c.prixParHeure && r.disponible == c.disponible
            && r.imageUrl == c.imageUrl && r.createdAt == c.createdAt && r.updatedAt == c.updatedAt
  {
    CarRow(c.nom, c.modele, c.anneeFab, t, c.plaque, c.controleTechnique,
           c.prixParHeure, c.disponible, c.imageUrl, c.createdAt, c.updatedAt)
  }

  /** Putting the old type back gives the row back. */
  lemma WithTypeRoundTrip<T, U>(c: CarOf<T>, t: U)
    ensures WithType(WithType(c, t), c.carType) == c
  {
  }

  /** A stored car as the ORM object it is loaded into. */
  function Loaded(c: Car): PendingCar {
    WithType(c, CarTypeText(c.carType))
  }

  predicate PlaquesUnique(rows: map<int, Car>) {
    forall i, j :: i in rows && j in rows && i != j ==> rows[i].plaque != rows[j].plaque
  }

  /** Committing a pending row next to the rows `others`: the check constraint is
      evaluated before the unique index (as PostgreSQL does). */
  function Commit(others: map<int, Car>, p: PendingCar): (r: Result<Car>)
    ensures ParseCarType(p.carType).None? ==> r == Err(CheckViolation("cars_type_check"))
    ensures ParseCarType(p.carType).Some? && (exists k :: k in others && others[k].plaque == p.plaque) ==>
              r == Err(UniqueViolation("plaque"))
    ensures r.Ok? <==> ParseCarType(p.carType).Some? && !(exists k :: k in others && others[k].plaque == p.plaque)
    ensures r.Ok? ==> Loaded(r.value) == p
    ensures r.Ok? ==> forall k :: k in others ==> others[k].plaque != r.value.plaque
  {
    match ParseCarType(p.carType)
    case None => Err(CheckViolation("cars_type_check"))
    case Some(t) =>
      if exists k :: k in others && others[k].plaque == p.plaque then Err(UniqueViolation("plaque"))
      else Ok(WithType(p, t))
  }

  /** Adding a car whose plate no other row has keeps the plates unique. */
  lemma CommitKeepsPlaquesUnique(rows: map<int, Car>, id: int, p: PendingCar)
    requires PlaquesUnique(rows)
    requires Commit(rows - {id}, p).Ok?
    ensures PlaquesUnique(rows[id := Commit(rows - {id}, p).value])
  {
    var c := Commit(rows - {id}, p).value;
    var rows' := rows[id := c];
    forall i, j | i in rows' && j in rows' && i != j ensures rows'[i].plaque != rows'[j].plaque {
      if i == id {
        assert j in rows - {id};
      } else if j == id {
        assert i in rows - {id};
      }
    }
  }

  // ---------------------------------------------------------------------------
  // Request bodies

  datatype CarCreate = CarCreate(
    nom: string, modele: string, anneeFab: int, carType: string, plaque: string,
    controleTechnique: int)

  /** `CarUpdate`: every field optional; `None` means not supplied. */
  datatype CarUpdate = CarUpdate(
    nom: Option<string>, modele: Option<string>, anneeFab: Option<int>,
    carType: Option<string>, plaque: Option<string>, controleTechnique: Option<int>)

  /** One `setattr` of the update loop. */
  datatype CarAssignment =
    | SetNom(nom: string)
    | SetModele(modele: string)
    | SetAnneeFab(anneeFab: int)
    | SetCarType(carType: string)
    | SetPlaque(plaque: string)
    | SetControleTechnique(controleTechnique: int)

  function AssignCar(c: PendingCar, a: CarAssignment): PendingCar {
    match a
    case SetNom(v) => c.(nom := v)
    case SetModele(v) => c.(modele := v)
    case SetAnneeFab(v) => c.(anneeFab := v)
    case SetCarType(v) => c.(carType := v)
    case SetPlaque(v) => c.(plaque := v)
    case SetControleTechnique(v) => c.(controleTechnique := v)
  }

  /** The last three supplied fields of an update. */
  function SuppliedTail(u: CarUpdate): seq<CarAssignment> {
    IfSupplied(u.carType, v => SetCarType(v))
    + (IfSupplied(u.plaque, v => SetPlaque(v))
    + IfSupplied(u.controleTechnique, v => SetControleTechnique(v)))
  }

  /** `car.model_dump(exclude_unset=True).items()`: the supplied fields in
      declaration order. */
  function SuppliedFields(u: CarUpdate): seq<CarAssignment> {
    IfSupplied(u.nom, v => SetNom(v))
    + (IfSupplied(u.modele, v => SetModele(v))
    + (IfSupplied(u.anneeFab, v => SetAnneeFab(v))
    + SuppliedTail(u)))
  }

  /** The intended effect of an update: each supplied field is overwritten and
      every other column is kept. */
  function Overwrite(c: PendingCar, u: CarUpdate): (r: PendingCar) {
    c.(nom := u.nom.GetOr(c.nom), modele := u.modele.GetOr(c.modele),
       anneeFab := u.anneeFab.GetOr(c.anneeFab), carType := u.carType.GetOr(c.carType),
       plaque := u.plaque.GetOr(c.plaque),
       controleTechnique := u.controleTechnique.GetOr(c.controleTechnique))
  }

  /** The setattr loop over the last three supplied fields overwrites those
      three. */
  lemma {:induction false} SuppliedTailOverwrite(c: PendingCar, u: CarUpdate)
    ensures Fold(c, SuppliedTail(u), AssignCar)
            == c.(carType := u.carType.GetOr(c.carType), plaque := u.plaque.GetOr(c.plaque),
                  controleTechnique := u.controleTechnique.GetOr(c.controleTechnique))
  {
    var t6 := IfSupplied(u.controleTechnique, v => SetControleTechnique(v));
    var t5 := IfSupplied(u.plaque, v => SetPlaque(v)) + t6;
    var c4 := c.(carType := u.carType.GetOr(c.carType));
    var c5 := c4.(plaque := u.plaque.GetOr(c.plaque));
    FoldSupplied(c, u.carType, v => SetCarType(v), t5, AssignCar);
    assert (if u.carType.Some? then AssignCar(c, SetCarType(u.carType.value)) else c) == c4;
    FoldSupplied(c4, u.plaque, v => SetPlaque(v), t6, AssignCar);
    assert (if u.plaque.Some? then AssignCar(c4, SetPlaque(u.plaque.value)) else c4) == c5;
    FoldSupplied(c5, u.controleTechnique, v => SetControleTechnique(v), [], AssignCar);
    assert t6 + [] == t6;
  }

  /** The setattr loop over the supplied fields performs `Overwrite`. */
  lemma {:induction false} SuppliedFieldsOverwrite(c: PendingCar, u: CarUpdate)
    ensures Fold(c, SuppliedFields(u), AssignCar) == Overwrite(c, u)
  {
    var t4 := SuppliedTail(u);
    var t3 := IfSupplied(u.anneeFab, v => SetAnneeFab(v)) + t4;
    var t2 := IfSupplied(u.modele, v => SetModele(v)) + t3;
    var c1 := c.(nom := u.nom.GetOr(c.nom));
    var c2 := c1.(modele := u.modele.GetOr(c.modele));
    var c3 := c2.(anneeFab := u.anneeFab.GetOr(c.anneeFab));
    FoldSupplied(c, u.nom, v => SetNom(v), t2, AssignCar);
    assert (if u.nom.Some? then AssignCar(c, SetNom(u.nom.value)) else c) == c1;
    FoldSupplied(c1, u.modele, v => SetModele(v), t3, AssignCar);
    assert (if u.modele.Some? then AssignCar(c1, SetModele(u.modele.value)) else c1) == c2;
    FoldSupplied(c2, u.anneeFab, v => SetAnneeFab(v), t4, AssignCar);
    assert (if u.anneeFab.Some? then AssignCar(c2, SetAnneeFab(u.anneeFab.value)) else c2) == c3;
    SuppliedTailOverwrite(c3, u);
  }

  /** Only supplied fields change; an empty update changes nothing; applying the
      same update twice is applying it once. */
  lemma OverwriteProperties(c: PendingCar, u: CarUpdate)
    ensures Overwrite(c, u).nom == (if u.nom.Some? then u.nom.value else c.nom)
    ensures Overwrite(c, u).modele == (if u.modele.Some? then u.modele.value else c.modele)
    ensures Overwrite(c, u).anneeFab == (if u.anneeFab.Some? then u.anneeFab.value else c.anneeFab)
    ensures Overwrite(c, u).carType == (if u.carType.Some? then u.carType.value else c.carType)
    ensures Overwrite(c, u).plaque == (if u.plaque.Some? then u.plaque.value else c.plaque)
    ensures Overwrite(c, u).controleTechnique
            == (if u.controleTechnique.Some? then u.controleTechnique.value else c.controleTechnique)
    ensures Overwrite(c, u).prixParHeure == c.prixParHeure && Overwrite(c, u).disponible == c.disponible
    ensures Overwrite(c, u).imageUrl == c.imageUrl && Overwrite(c, u).createdAt == c.createdAt
    ensures Overwrite(c, u).updatedAt == c.updatedAt
    ensures Overwrite(c, CarUpdate(None, None, None, None, None, None)) == c
    ensures Overwrite(Overwrite(c, u), u) == Overwrite(c, u)
  {
  }

  /** The row `update_car` commits: the stored row with the supplied fields
      overwritten and `updated_at` set to `today`. */
  function UpdatedRow(c: Car, u: CarUpdate, today: int): (r: PendingCar)
    ensures r.updatedAt == today
    ensures r.carType == (if u.carType.Some? then u.carType.value else CarTypeText(c.carType))
    ensures r.plaque == (if u.plaque.Some? then u.plaque.value else c.plaque)
    ensures u == CarUpdate(None, None, None, None, None, None) ==> r == Loaded(c).(updatedAt := today)
    ensures && r.prixParHeure == c.prixParHeure && r.disponible == c.disponible
            && r.imageUrl == c.imageUrl && r.createdAt == c.createdAt
  {
    Overwrite(Loaded(c), u).(updatedAt := today)
  }

  /** The row `create_car` adds: the six request fields, the column defaults for
      price, availability and image, and both timestamps set to `today`. */
  function NewCar(req: CarCreate, today: int): (r: PendingCar)
    ensures r.nom == req.nom && r.modele == req.modele && r.anneeFab == req.anneeFab
    ensures r.carType == req.carType && r.plaque == req.plaque
    ensures r.controleTechnique == req.controleTechnique
    ensures r.prixParHeure == 2000 && r.disponible && r.imageUrl.None?
    ensures r.createdAt == today && r.updatedAt == today
  {
    CarRow(req.nom, req.modele, req.anneeFab, req.carType, req.plaque, req.controleTechnique,
           DefaultPrixParHeure, DefaultDisponible, None, today, today)
  }

  // ---------------------------------------------------------------------------
  // Routes

  /** A car as the API returns it: its id and its columns. */
  datatype CarRecord = CarRecord(id: int, car: Car)

  const CarNotFound: Failure := Http(404, "Voiture non trouvée")
  const CarDeleted: string := "Voiture supprimée"

  class CarTable {
    var rows: map<int, Car>
    var nextId: int

    /** Ids come from an autoincrement counter; plates are unique. */
    ghost predicate Valid()
      reads this
    {
      && 1 <= nextId
      && (forall id :: id in rows ==> 1 <= id < nextId)
      && PlaquesUnique(rows)
    }

    constructor ()
      ensures Valid() && rows == map[] && nextId == 1
    {
      rows := map[];
      nextId := 1;
    }

    /** `create_car`: the new row is committed under the next id; a type outside
        the check constraint or a plate already taken is refused and no row is
        added, but the id the sequence handed out for the insert is used up. */
    method Create(req: CarCreate, today: int) returns (r: Result<CarRecord>)
      requires Valid()
      modifies this
      ensures Valid()
      ensures Commit(old(rows), NewCar(req, today)).Err? ==>
                r == Err(Commit(old(rows), NewCar(req, today)).failure)
                && rows == old(rows) && nextId == old(nextId) + 1
      ensures Commit(old(rows), NewCar(req, today)).Ok? ==>
                var c := Commit(old(rows), NewCar(req, today)).value;
                && r == Ok(CarRecord(old(nextId), c))
                && old(nextId) !in old(rows)
                && rows == old(rows)[old(nextId) := c]
                && nextId == old(nextId) + 1
    {
      var id := nextId;
      nextId := nextId + 1;
      var committed := Commit(rows, NewCar(req, today));
      if committed.Err? {
        return Err(committed.failure);
      }
      assert rows - {id} == rows;
      CommitKeepsPlaquesUnique(rows, id, NewCar(req, today));
      rows := rows[id := committed.value];
      r := Ok(CarRecord(id, committed.value));
    }

    /** `get_car`. */
    function Get(id: int): (r: Result<CarRecord>)
      reads this
      ensures id !in rows <==> r == Err(CarNotFound)
      ensures id in rows ==> r == Ok(CarRecord(id, rows[id]))
    {
      if id in rows then Ok(CarRecord(id, rows[id])) else Err(CarNotFound)
    }

    /** `get_all_cars`: every car of the table, and nothing else. */
    function GetAll(): (r: set<CarRecord>)
      reads this
      ensures forall rec :: rec in r <==> rec.id in rows && rows[rec.id] == rec.car
    {
      set id | id in rows :: CarRecord(id, rows[id])
    }

    /** `update_car`: 404 for an unknown id; otherwise the supplied fields are set
        one by one, `updated_at` becomes `today`, and the row is committed; a
        refused commit leaves the table as it was. */
    method Update(id: int, upd: CarUpdate, today: int) returns (r: Result<CarRecord>)
      requires Valid()
      modifies this
      ensures Valid() && nextId == old(nextId)
      ensures id !in old(rows) ==> r == Err(CarNotFound) && rows == old(rows)
      ensures id in old(rows) ==>
                var committed := Commit(old(rows) - {id}, UpdatedRow(old(rows)[id], upd, today));
                && (committed.Err? ==> r == Err(committed.failure) && rows == old(rows))
                && (committed.Ok? ==> r == Ok(CarRecord(id, committed.value))
                                      && rows == old(rows)[id := committed.value])
    {
      if id !in rows {
        return Err(CarNotFound);
      }
      var p := SetEach(Loaded(rows[id]), SuppliedFields(upd), AssignCar);
      SuppliedFieldsOverwrite(Loaded(rows[id]), upd);
      p := p.(updatedAt := today);
      var committed := Commit(rows - {id}, p);
      if committed.Err? {
        return Err(committed.failure);
      }
      CommitKeepsPlaquesUnique(rows, id, p);
      rows := rows[id := committed.value];
      r := Ok(CarRecord(id, committed.value));
    }

    /** `delete_car`: 404 for an unknown id; otherwise exactly that row goes. */
    method Delete(id: int) returns (r: Result<string>)
      requires Valid()
      modifies this
      ensures Valid() && nextId == old(nextId)
      ensures id !in old(rows) ==> r == Err(CarNotFound) && rows == old(rows)
      ensures id in old(rows) ==> r == Ok(CarDeleted) && rows == old(rows) - {id}
    {
      if id !in rows {
        return Err(CarNotFound);
      }
      rows := rows - {id};
      r := Ok(CarDeleted);
    }
  }
}
