/** The booking table: its columns, default and check constraints, the request
    schemas, the per-car overlap rule, and the create, list, read, update and
    delete routes. Times are integers (for instance minutes since an epoch). */
module Bookings {
  import opened Wrappers
  import opened Rows
  import Cars

  // ---------------------------------------------------------------------------
  // Columns and constraints

  datatype Purpose = PurposeSelf | PurposeAccompanied

  /** The values `bookings_purpose_check` admits, which are also the words of the
      pattern `^(self|accompanied)$` of the request schemas. */
  const PurposeCheck: set<string> := {"self", "accompanied"}

  function PurposeText(p: Purpose): (s: string)
    ensures s in PurposeCheck
  {
    match p
    case PurposeSelf => "self"
    case PurposeAccompanied => "accompanied"
  }

  function ParsePurpose(s: string): (r: Option<Purpose>)
    ensures r.Some? <==> s in PurposeCheck
    ensures r.Some? ==> PurposeText(r.value) == s
    ensures forall p :: PurposeText(p) == s ==> r == Some(p)
  {
    if s == "self" then Some(PurposeSelf)
    else if s == "accompanied" then Some(PurposeAccompanied)
    else None
  }

  datatype Status = Confirmee | Annulee | Terminee

  /** The values `bookings_status_check` admits, which are also the words of the
      update schema's status pattern. */
  const StatusCheck: set<string> := {"confirmée", "annulée", "terminée"}

  function StatusText(st: Status): (s: string)
    ensures s in StatusCheck
  {
    match st
    case Confirmee => "confirmée"
    case Annulee => "annulée"
    case Terminee => "terminée"
  }

  function ParseStatus(s: string): (r: Option<Status>)
    ensures r.Some? <==> s in StatusCheck
    ensures r.Some? ==> StatusText(r.value) == s
    ensures forall st :: StatusText(st) == s ==> r == Some(st)
  {
    if s == "confirmée" then Some(Confirmee)
    else if s == "annulée" then Some(Annulee)
    else if s == "terminée" then Some(Terminee)
    else None
  }

  /** The column default of `status`. */
  const DefaultStatus: Status := Confirmee

  /** A booking row (its id is its key in the table). Every column but the two
      timestamps is NOT NULL, which the types express. */
  datatype Booking = Booking(
    userId: int,
    carId: int,
    startTime: int,
    endTime: int,
    status: Status,
    purpose: Purpose,
    createdAt: int,
    updatedAt: int)

  /** A booking as the API returns it (`BookingResponse`): id, status and both
      timestamps are always present. */
  datatype BookingRecord = BookingRecord(id: int, booking: Booking)

  // ---------------------------------------------------------------------------
  // Request schemas

  /** The JSON body of a create request, before validation. */
  datatype BookingCreateBody = BookingCreateBody(
    userId: int, carId: int, startTime: int, endTime: int, purpose: string)

  /** `BookingCreate`: exactly these five fields; the client cannot set a status. */
  datatype BookingCreate = BookingCreate(
    userId: int, carId: int, startTime: int, endTime: int, purpose: Purpose)

  /** The JSON body of an update request, before validation (`None`: not supplied). */
  datatype BookingUpdateBody = BookingUpdateBody(
    startTime: Option<int>, endTime: Option<int>, status: Option<string>, purpose: Option<string>)

  /** `BookingUpdate`: every field optional, and neither the car nor the owner
      is among them. */
  datatype BookingUpdate = BookingUpdate(
    startTime: Option<int>, endTime: Option<int>, status: Option<Status>, purpose: Option<Purpose>)

  /** Validation of a create body against `BookingCreate` (422 on a bad purpose). */
  function ValidateCreate(body: BookingCreateBody): (r: Result<BookingCreate>)
    ensures r.Ok? <==> body.purpose in PurposeCheck
    ensures r.Err? ==> r == Err(Unprocessable({"purpose"}))
    ensures r.Ok? ==> && r.value.userId == body.userId && r.value.carId == body.carId
                      && r.value.startTime == body.startTime && r.value.endTime == body.endTime
                      && PurposeText(r.value.purpose) == body.purpose
  {
    match ParsePurpose(body.purpose)
    case None => Err(Unprocessable({"purpose"}))
    case Some(p) => Ok(BookingCreate(body.userId, body.carId, body.startTime, body.endTime, p))
  }

  predicate OptionalIn(o: Option<string>, allowed: set<string>) {
    o.None? || o.value in allowed
  }

  /** Validation of an update body against `BookingUpdate`: a supplied status or
      purpose must match its pattern; every bad field is reported. */
  function ValidateUpdate(body: BookingUpdateBody): (r: Result<BookingUpdate>)
    ensures r.Ok? <==> OptionalIn(body.status, StatusCheck) && OptionalIn(body.purpose, PurposeCheck)
    ensures r.Err? ==> r.failure.Unprocessable?
                       && ("status" in r.failure.fields <==> !OptionalIn(body.status, StatusCheck))
                       && ("purpose" in r.failure.fields <==> !OptionalIn(body.purpose, PurposeCheck))
    ensures r.Ok? ==> && r.value.startTime == body.startTime && r.value.endTime == body.endTime
                      && (r.value.status.Some? <==> body.status.Some?)
                      && (r.value.status.Some? ==> StatusText(r.value.status.value) == body.status.value)
                      && (r.value.purpose.Some? <==> body.purpose.Some?)
                      && (r.value.purpose.Some? ==> PurposeText(r.value.purpose.value) == body.purpose.value)
  {
    var badStatus := if OptionalIn(body.status, StatusCheck) then {} else {"status"};
    var badPurpose := if OptionalIn(body.purpose, PurposeCheck) then {} else {"purpose"};
    if badStatus + badPurpose != {} then Err(Unprocessable(badStatus + badPurpose))
    else
      Ok(BookingUpdate(
        body.startTime, body.endTime,
        if body.status.Some? then ParseStatus(body.status.value) else None,
        if body.purpose.Some? then ParsePurpose(body.purpose.value) else None))
  }

  // ---------------------------------------------------------------------------
  // The overlap rule (chosen by this model: half-open intervals, and only
  // confirmed bookings block a car)

  /** [s1, e1) and [s2, e2) overlap. */
  predicate Overlaps(s1: int, e1: int, s2: int, e2: int) {
    s1 < e2 && s2 < e1
  }

  predicate InInterval(t: int, s: int, e: int) {
    s <= t < e
  }

  /** Intervals that share an instant overlap; for intervals that start before
      they end, overlapping is sharing an instant. No route checks that a booking
      starts before it ends, so the rule is applied as written to every interval. */
  lemma OverlapsIffSharedInstant(s1: int, e1: int, s2: int, e2: int)
    ensures (exists t :: InInterval(t, s1, e1) && InInterval(t, s2, e2)) ==> Overlaps(s1, e1, s2, e2)
    ensures s1 < e1 && s2 < e2 ==>
              (Overlaps(s1, e1, s2, e2) <==> exists t :: InInterval(t, s1, e1) && InInterval(t, s2, e2))
  {
    if Overlaps(s1, e1, s2, e2) && s1 < e1 && s2 < e2 {
      var t := if s1 < s2 then s2 else s1;
      assert InInterval(t, s1, e1) && InInterval(t, s2, e2);
    }
  }

  /** Overlap is symmetric, and adjacent intervals do not overlap. */
  lemma OverlapsSymmetricAndAdjacency(s1: int, e1: int, s2: int, e2: int)
    ensures Overlaps(s1, e1, s2, e2) == Overlaps(s2, e2, s1, e1)
    ensures e1 == s2 ==> !Overlaps(s1, e1, s2, e2)
  {
  }

  /** Which statuses keep a car occupied. */
  predicate Blocks(st: Status) {
    st == Confirmee
  }

  /** Some booking of the table blocks car `carId` during [s, e). */
  predicate HasConflict(rows: map<int, Booking>, carId: int, s: int, e: int) {
    exists id :: id in rows && rows[id].carId == carId && Blocks(rows[id].status)
                 && Overlaps(s, e, rows[id].startTime, rows[id].endTime)
  }

  /** Two blocking bookings of one car never overlap. */
  ghost predicate CarScheduleDisjoint(rows: map<int, Booking>) {
    forall i, j :: i in rows && j in rows && i != j && rows[i].carId == rows[j].carId
                   && Blocks(rows[i].status) && Blocks(rows[j].status)
                   ==> !Overlaps(rows[i].startTime, rows[i].endTime, rows[j].startTime, rows[j].endTime)
  }

  /** Admitting a booking that conflicts with nothing keeps the schedules disjoint. */
  lemma AdmitKeepsDisjoint(rows: map<int, Booking>, id: int, b: Booking)
    requires CarScheduleDisjoint(rows) && id !in rows
    requires !HasConflict(rows, b.carId, b.startTime, b.endTime)
    ensures CarScheduleDisjoint(rows[id := b])
  {
    var rows' := rows[id := b];
    forall i, j | i in rows' && j in rows' && i != j && rows'[i].carId == rows'[j].carId
                  && Blocks(rows'[i].status) && Blocks(rows'[j].status)
      ensures !Overlaps(rows'[i].startTime, rows'[i].endTime, rows'[j].startTime, rows'[j].endTime)
    {
      if i == id {
        assert j in rows;
      } else if j == id {
        assert i in rows;
        OverlapsSymmetricAndAdjacency(b.startTime, b.endTime, rows[i].startTime, rows[i].endTime);
      }
    }
  }

  /** Removing bookings never creates an overlap. */
  lemma RemoveKeepsDisjoint(rows: map<int, Booking>, id: int)
    requires CarScheduleDisjoint(rows)
    ensures CarScheduleDisjoint(rows - {id})
  {
  }

  /** A car none of whose bookings blocks it admits any interval. */
  lemma FreeCarAdmits(rows: map<int, Booking>, carId: int, s: int, e: int)
    requires forall id :: id in rows && rows[id].carId == carId ==> !Blocks(rows[id].status)
    ensures !HasConflict(rows, carId, s, e)
  {
  }

  /** A booking on another car never causes a conflict. */
  lemma OtherCarsDoNotConflict(rows: map<int, Booking>, id: int, b: Booking, carId: int, s: int, e: int)
    requires b.carId != carId
    ensures HasConflict(rows[id := b], carId, s, e) <==> HasConflict(rows - {id}, carId, s, e)
  {
    if HasConflict(rows[id := b], carId, s, e) {
      var k :| k in rows[id := b] && rows[id := b][k].carId == carId && Blocks(rows[id := b][k].status)
               && Overlaps(s, e, rows[id := b][k].startTime, rows[id := b][k].endTime);
      assert k in rows - {id};
    }
    if HasConflict(rows - {id}, carId, s, e) {
      var k :| k in rows - {id} && (rows - {id})[k].carId == carId && Blocks((rows - {id})[k].status)
               && Overlaps(s, e, (rows - {id})[k].startTime, (rows - {id})[k].endTime);
      assert k in rows[id := b];
    }
  }

  /** Cancelling or deleting the only blocking booking that overlaps [s, e) on its
      car frees that interval. */
  lemma CancellingFreesInterval(rows: map<int, Booking>, id: int, s: int, e: int)
    requires id in rows
    requires forall k :: k in rows && k != id && rows[k].carId == rows[id].carId && Blocks(rows[k].status)
                         ==> !Overlaps(s, e, rows[k].startTime, rows[k].endTime)
    ensures !HasConflict(rows[id := rows[id].(status := Annulee)], rows[id].carId, s, e)
    ensures !HasConflict(rows - {id}, rows[id].carId, s, e)
  {
  }

  /** Once a confirmed booking holds [s, e) with s < e, the same interval on the
      same car is refused: of identical requests made one after another, only the
      first is admitted. */
  lemma SameIntervalRefused(rows: map<int, Booking>, id: int, b: Booking)
    requires id in rows && rows[id] == b && Blocks(b.status) && b.startTime < b.endTime
    ensures HasConflict(rows, b.carId, b.startTime, b.endTime)
  {
    assert rows[id].carId == b.carId;
  }

  const Unauthorized: Failure := Http(401, "Non autorisé")
  const BookingNotFound: Failure := Http(404, "Réservation non trouvée")
  const Forbidden: Failure := Http(403, "Accès interdit")
  const CarAlreadyBooked: Failure := Http(400, "Car is already booked for the selected time range")
  const BookingDeleted: string := "Réservation supprimée avec succès"

  /** The row `create_booking` adds: the request's fields, status `confirmée`,
      and both timestamps taken from the one clock reading `now`. */
  function NewBooking(req: BookingCreate, now: int): (b: Booking)
    ensures b.userId == req.userId && b.carId == req.carId
    ensures b.startTime == req.startTime && b.endTime == req.endTime && b.purpose == req.purpose
    ensures b.status == DefaultStatus && b.createdAt == now && b.updatedAt == now
  {
    Booking(req.userId, req.carId, req.startTime, req.endTime, Confirmee, req.purpose, now, now)
  }

  /** `create_booking` as the repository writes it: the row is inserted with no
      look at the other bookings of the car. */
  function InsertedAsWritten(rows: map<int, Booking>, id: int, req: BookingCreate, now: int): (r: map<int, Booking>)
    ensures id in r && r[id] == NewBooking(req, now)
    ensures forall k :: k in rows && k != id ==> k in r && r[k] == rows[k]
  {
    rows[id := NewBooking(req, now)]
  }

  /** As written, the second request of the conflict test (30 minutes into a
      one-hour booking of the same car) is inserted and the car is then booked
      twice over the same half hour. */
  lemma AsWrittenAdmitsOverlap()
    ensures var first := BookingCreate(1, 7, 0, 60, PurposeSelf);
            var second := BookingCreate(1, 7, 30, 90, PurposeSelf);
            var rows := InsertedAsWritten(map[], 1, first, 0);
            && CarScheduleDisjoint(rows)
            && !CarScheduleDisjoint(InsertedAsWritten(rows, 2, second, 0))
  {
    var rows := InsertedAsWritten(map[], 1, BookingCreate(1, 7, 0, 60, PurposeSelf), 0);
    var rows2 := InsertedAsWritten(rows, 2, BookingCreate(1, 7, 30, 90, PurposeSelf), 0);
    assert rows2[1].startTime == 0 && rows2[2].startTime == 30;
  }

  // ---------------------------------------------------------------------------
  // Field-by-field update

  datatype BookingAssignment =
    | SetStartTime(startTime: int)
    | SetEndTime(endTime: int)
    | SetStatus(status: Status)
    | SetPurpose(purpose: Purpose)

  function AssignBooking(b: Booking, a: BookingAssignment): Booking {
    match a
    case SetStartTime(v) => b.(startTime := v)
    case SetEndTime(v) => b.(endTime := v)
    case SetStatus(v) => b.(status := v)
    case SetPurpose(v) => b.(purpose := v)
  }

  /** `booking_update.dict(exclude_unset=True).items()`: the supplied fields in
      declaration order. */
  function SuppliedFields(u: BookingUpdate): seq<BookingAssignment> {
    IfSupplied(u.startTime, v => SetStartTime(v))
    + (IfSupplied(u.endTime, v => SetEndTime(v))
    + (IfSupplied(u.status, v => SetStatus(v))
    + IfSupplied(u.purpose, v => SetPurpose(v))))
  }

  /** The intended effect of an update: each supplied field overwritten, every
      other column kept. */
  function Overwrite(b: Booking, u: BookingUpdate): Booking {
    b.(startTime := u.startTime.GetOr(b.startTime), endTime := u.endTime.GetOr(b.endTime),
       status := u.status.GetOr(b.status), purpose := u.purpose.GetOr(b.purpose))
  }

  /** The setattr loop over the supplied fields performs `Overwrite`. */
  lemma {:induction false} SuppliedFieldsOverwrite(b: Booking, u: BookingUpdate)
    ensures Fold(b, SuppliedFields(u), AssignBooking) == Overwrite(b, u)
  {
    var t4 := IfSupplied(u.purpose, v => SetPurpose(v));
    var t3 := IfSupplied(u.status, v => SetStatus(v)) + t4;
    var t2 := IfSupplied(u.endTime, v => SetEndTime(v)) + t3;
    FoldSupplied(b, u.startTime, v => SetStartTime(v), t2, AssignBooking);
    var b1 := if u.startTime.Some? then b.(startTime := u.startTime.value) else b;
    FoldSupplied(b1, u.endTime, v => SetEndTime(v), t3, AssignBooking);
    var b2 := if u.endTime.Some? then b1.(endTime := u.endTime.value) else b1;
    FoldSupplied(b2, u.status, v => SetStatus(v), t4, AssignBooking);
    var b3 := if u.status.Some? then b2.(status := u.status.value) else b2;
    FoldSupplied(b3, u.purpose, v => SetPurpose(v), [], AssignBooking);
    assert t4 + [] == t4;
  }

  /** An update never moves a booking to another car or owner and never touches
      its creation time; unsupplied fields are kept; an empty update changes
      nothing; applying an update twice is applying it once. */
  lemma OverwriteProperties(b: Booking, u: BookingUpdate)
    ensures Overwrite(b, u).carId == b.carId && Overwrite(b, u).userId == b.userId
    ensures Overwrite(b, u).createdAt == b.createdAt
    ensures Overwrite(b, u).startTime == (if u.startTime.Some? then u.startTime.value else b.startTime)
    ensures Overwrite(b, u).endTime == (if u.endTime.Some? then u.endTime.value else b.endTime)
    ensures Overwrite(b, u).status == (if u.status.Some? then u.status.value else b.status)
    ensures Overwrite(b, u).purpose == (if u.purpose.Some? then u.purpose.value else b.purpose)
    ensures Overwrite(b, u).updatedAt == b.updatedAt
    ensures Overwrite(b, BookingUpdate(None, None, None, None)) == b
    ensures Overwrite(Overwrite(b, u), u) == Overwrite(b, u)
  {
  }

  /** The row `update_booking` commits: the overwritten booking stamped with
      the clock reading `now`, still of the same car and owner. */
  function UpdatedBooking(b: Booking, u: BookingUpdate, now: int): (r: Booking)
    ensures r.updatedAt == now && r.createdAt == b.createdAt
    ensures r.carId == b.carId && r.userId == b.userId
    ensures r.startTime == (if u.startTime.Some? then u.startTime.value else b.startTime)
    ensures r.endTime == (if u.endTime.Some? then u.endTime.value else b.endTime)
    ensures u == BookingUpdate(None, None, None, None) ==> r == b.(updatedAt := now)
  {
    Overwrite(b, u).(updatedAt := now)
  }

  /** The car fields `get_bookings_by_user` lists next to a booking: the id and
      the columns up to the image, without the two timestamps. */
  datatype BookedCar = BookedCar(
    id: int, nom: string, modele: string, anneeFab: int, carType: Cars.CarType, plaque: string,
    controleTechnique: int, prixParHeure: int, disponible: bool, imageUrl: Option<string>)

  /** The listed fields of the car stored under `id`. */
  function BookedCarOf(id: int, c: Cars.Car): (r: BookedCar)
    ensures r.id == id && r.nom == c.nom && r.modele == c.modele && r.anneeFab == c.anneeFab
    ensures r.carType == c.carType && r.plaque == c.plaque && r.controleTechnique == c.controleTechnique
    ensures r.prixParHeure == c.prixParHeure && r.disponible == c.disponible && r.imageUrl == c.imageUrl
  {
    BookedCar(id, c.nom, c.modele, c.anneeFab, c.carType, c.plaque, c.controleTechnique,
              c.prixParHeure, c.disponible, c.imageUrl)
  }

  /** A booking with a caller and its car, as `get_bookings_by_user` lists it. */
  datatype BookingWithCar = BookingWithCar(record: BookingRecord, car: BookedCar)

  // ---------------------------------------------------------------------------
  // Routes

  class BookingTable {
    var rows: map<int, Booking>
    var nextId: int

    /** Ids come from an autoincrement counter. */
    ghost predicate Valid()
      reads this
    {
      1 <= nextId && forall id :: id in rows ==> 1 <= id < nextId
    }

    constructor ()
      ensures Valid() && rows == map[] && nextId == 1
    {
      rows := map[];
      nextId := 1;
    }

    /** `create_booking`, with the per-car overlap check that the conflict test
        requires (the route in the repository inserts without it): 401 without a
        caller; 400 and no change when a confirmed booking of the car overlaps the
        request; otherwise the new row under the next id. */
    method Create(caller: Option<int>, req: BookingCreate, now: int) returns (r: Result<BookingRecord>)
      requires Valid()
      modifies this
      ensures Valid()
      ensures caller.None? ==> r == Err(Unauthorized) && rows == old(rows) && nextId == old(nextId)
      ensures caller.Some? && HasConflict(old(rows), req.carId, req.startTime, req.endTime) ==>
                r == Err(CarAlreadyBooked) && rows == old(rows) && nextId == old(nextId)
      ensures caller.Some? && !HasConflict(old(rows), req.carId, req.startTime, req.endTime) ==>
                && old(nextId) !in old(rows)
                && r == Ok(BookingRecord(old(nextId), NewBooking(req, now)))
                && rows == old(rows)[old(nextId) := NewBooking(req, now)]
                && nextId == old(nextId) + 1
      ensures CarScheduleDisjoint(old(rows)) ==> CarScheduleDisjoint(rows)
    {
      if caller.None? {
        return Err(Unauthorized);
      }
      if HasConflict(rows, req.carId, req.startTime, req.endTime) {
        return Err(CarAlreadyBooked);
      }
      var id := nextId;
      var b := NewBooking(req, now);
      if CarScheduleDisjoint(rows) {
        AdmitKeepsDisjoint(rows, id, b);
      }
      rows := rows[id := b];
      nextId := nextId + 1;
      r := Ok(BookingRecord(id, b));
    }

    /** `get_all_bookings`: 401 without a caller, otherwise every booking. */
    function GetAll(caller: Option<int>): (r: Result<set<BookingRecord>>)
      reads this
      ensures caller.None? <==> r == Err(Unauthorized)
      ensures caller.Some? ==> r.Ok?
      ensures r.Ok? ==> forall rec :: rec in r.value <==> rec.id in rows && rows[rec.id] == rec.booking
    {
      if caller.None? then Err(Unauthorized)
      else Ok(set id | id in rows :: BookingRecord(id, rows[id]))
    }

    /** `get_bookings_by_user`: 401 without a caller, otherwise exactly the
        caller's bookings whose car exists, each with the listed fields of its car. */
    function GetByUser(caller: Option<int>, cars: map<int, Cars.Car>): (r: Result<set<BookingWithCar>>)
      reads this
      ensures caller.None? <==> r == Err(Unauthorized)
      ensures caller.Some? ==> r.Ok?
      ensures r.Ok? ==> forall x :: x in r.value <==>
                && x.record.id in rows && rows[x.record.id] == x.record.booking
                && x.record.booking.userId == caller.value
                && x.car.id == x.record.booking.carId && x.car.id in cars
                && x.car == BookedCarOf(x.car.id, cars[x.car.id])
    {
      if caller.None? then Err(Unauthorized)
      else
        Ok(set id | id in rows && rows[id].userId == caller.value && rows[id].carId in cars ::
             BookingWithCar(BookingRecord(id, rows[id]), BookedCarOf(rows[id].carId, cars[rows[id].carId])))
    }

    /** `get_booking`: 401 without a caller, 404 for an unknown id; any caller may
        read any booking. */
    function Get(caller: Option<int>, id: int): (r: Result<BookingRecord>)
      reads this
      ensures caller.None? ==> r == Err(Unauthorized)
      ensures caller.Some? && id !in rows ==> r == Err(BookingNotFound)
      ensures caller.Some? && id in rows ==> r == Ok(BookingRecord(id, rows[id]))
    {
      if caller.None? then Err(Unauthorized)
      else if id !in rows then Err(BookingNotFound)
      else Ok(BookingRecord(id, rows[id]))
    }

    /** `update_booking`: 401, then 404, then 403 for a caller who does not own
        the booking; otherwise the supplied fields are set one by one and
        `updated_at` becomes `now`. There is no overlap check here. */
    method Update(caller: Option<int>, id: int, upd: BookingUpdate, now: int) returns (r: Result<BookingRecord>)
      requires Valid()
      modifies this
      ensures Valid() && nextId == old(nextId)
      ensures caller.None? ==> r == Err(Unauthorized) && rows == old(rows)
      ensures caller.Some? && id !in old(rows) ==> r == Err(BookingNotFound) && rows == old(rows)
      ensures caller.Some? && id in old(rows) && old(rows)[id].userId != caller.value ==>
                r == Err(Forbidden) && rows == old(rows)
      ensures caller.Some? && id in old(rows) && old(rows)[id].userId == caller.value ==>
                var b := UpdatedBooking(old(rows)[id], upd, now);
                r == Ok(BookingRecord(id, b)) && rows == old(rows)[id := b]
    {
      if caller.None? {
        return Err(Unauthorized);
      }
      if id !in rows {
        return Err(BookingNotFound);
      }
      if rows[id].userId != caller.value {
        return Err(Forbidden);
      }
      var b := SetEach(rows[id], SuppliedFields(upd), AssignBooking);
      SuppliedFieldsOverwrite(rows[id], upd);
      b := b.(updatedAt := now);
      rows := rows[id := b];
      r := Ok(BookingRecord(id, b));
    }

    /** `delete_booking`: 401, then 404, then 403; otherwise exactly that booking
        goes. */
    method Delete(caller: Option<int>, id: int) returns (r: Result<string>)
      requires Valid()
      modifies this
      ensures Valid() && nextId == old(nextId)
      ensures caller.None? ==> r == Err(Unauthorized) && rows == old(rows)
      ensures caller.Some? && id !in old(rows) ==> r == Err(BookingNotFound) && rows == old(rows)
      ensures caller.Some? && id in old(rows) && old(rows)[id].userId != caller.value ==>
                r == Err(Forbidden) && rows == old(rows)
      ensures caller.Some? && id in old(rows) && old(rows)[id].userId == caller.value ==>
                r == Ok(BookingDeleted) && rows == old(rows) - {id}
      ensures CarScheduleDisjoint(old(rows)) ==> CarScheduleDisjoint(rows)
    {
      if caller.None? {
        return Err(Unauthorized);
      }
      if id !in rows {
        return Err(BookingNotFound);
      }
      if rows[id].userId != caller.value {
        return Err(Forbidden);
      }
      if CarScheduleDisjoint(rows) {
        RemoveKeepsDisjoint(rows, id);
      }
      rows := rows - {id};
      r := Ok(BookingDeleted);
    }
  }

  /** The conflict test replayed on the model: a one-hour booking on a free car is
      admitted; a second one starting 30 minutes in is refused with the test's
      detail; one starting when the first ends is admitted. */
  method ConflictScenario() returns (first: Result<BookingRecord>, second: Result<BookingRecord>,
                                     adjacent: Result<BookingRecord>)
    ensures first.Ok? && first.value.booking.status == Confirmee
    ensures second == Err(CarAlreadyBooked)
    ensures adjacent.Ok?
  {
    var table := new BookingTable();
    first := table.Create(Some(1), BookingCreate(1, 7, 0, 60, PurposeSelf), 0);
    assert table.rows[1].startTime == 0;
    second := table.Create(Some(1), BookingCreate(1, 7, 30, 90, PurposeSelf), 1);
    adjacent := table.Create(Some(1), BookingCreate(1, 7, 60, 120, PurposeSelf), 2);
  }
}
