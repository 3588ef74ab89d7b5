/** The apprentice/companion association table and its router: the caller's
    role decides which side of the association it fills, both ends must carry
    the right role, and listings and deletion are limited to the people
    concerned or an administrator. */
module Associations {
  import opened Wrappers
  import Users

  datatype Association = Association(apprentiId: int, accompagnateurId: int, lien: string)

  datatype AssociationRecord = AssociationRecord(id: int, association: Association)

  /** `ApprentiAccompagnateurCreate`: both ids and the link; the id on the
      caller's own side is ignored. */
  datatype AssociationCreate = AssociationCreate(apprentiId: int, accompagnateurId: int, lien: string)

  /** The authenticated caller: its id and the text of its role. The route
      compares the role with "admin", a value the users table never stores. */
  datatype Principal = Principal(id: int, role: string)

  const NotAParty: Failure := Http(403, "Seuls les apprentis et accompagnateurs peuvent créer une association.")
  const NotAnApprenti: Failure := Http(400, "L'utilisateur spécifié comme apprenti n'a pas le rôle 'apprenti'.")
  const NotACompanion: Failure :=
    Http(400, "L'utilisateur spécifié comme accompagnateur n'a pas le rôle 'accompagnateur'.")
  const OwnCompanionsOnly: Failure := Http(403, "Accès interdit. Vous ne pouvez voir que vos propres accompagnateurs.")
  const NoCompanionFound: Failure := Http(404, "Aucun accompagnateur trouvé pour cet apprenti.")
  const OwnApprenticesOnly: Failure := Http(403, "Accès interdit. Vous ne pouvez voir que vos propres apprentis.")
  const NoApprenticeFound: Failure := Http(404, "Aucun apprenti trouvé pour cet accompagnateur.")
  const AssociationNotFound: Failure := Http(404, "Association non trouvée.")
  const OwnLinksOnly: Failure := Http(403, "Accès interdit. Vous ne pouvez supprimer que vos propres relations.")
  const AssociationDeleted: string := "Association supprimée avec succès"

  /** The two ends of the association a caller asks for: an apprenti caller is
      the apprenti and names the companion, a companion caller the reverse. */
  function Sides(caller: Principal, req: AssociationCreate): (r: Option<(int, int)>)
    ensures r.None? <==> caller.role !in Users.RoleCheck
    ensures caller.role == "apprenti" ==> r == Some((caller.id, req.accompagnateurId))
    ensures caller.role == "accompagnateur" ==> r == Some((req.apprentiId, caller.id))
  {
    if caller.role == "apprenti" then Some((caller.id, req.accompagnateurId))
    else if caller.role == "accompagnateur" then Some((req.apprentiId, caller.id))
    else None
  }

  predicate HasRole(users: map<int, Users.User>, id: int, role: Users.Role) {
    id in users && users[id].role == role
  }

  /** Nobody without the administrator role sees or removes what is not theirs.
      `admin` is the only role that bypasses the ownership checks. */
  predicate IsAdmin(caller: Principal) {
    caller.role == "admin"
  }

  class AssociationTable {
    var rows: map<int, Association>
    var nextId: int

    ghost predicate Valid()
      reads this
    {
      1 <= nextId && forall id :: id in rows ==> 1 <= id < nextId
    }

    constructor ()
      ensures Valid() && rows == map[] && nextId == 1
    {
      rows := map[];
      nextId := 1;
    }

    /** `create_apprenti_accompagnateur`: 403 for a caller who is neither
        apprenti nor companion; 400 unless the apprenti end is an apprenti, then
        400 unless the companion end is a companion; otherwise both ids and the
        link are stored under a fresh id. */
    method Create(caller: Principal, req: AssociationCreate, users: map<int, Users.User>)
      returns (r: Result<AssociationRecord>)
      requires Valid()
      modifies this
      ensures Valid()
      ensures Sides(caller, req).None? ==> r == Err(NotAParty)
      ensures Sides(caller, req).Some? && !HasRole(users, Sides(caller, req).value.0, Users.Apprenti) ==>
                r == Err(NotAnApprenti)
      ensures Sides(caller, req).Some? && HasRole(users, Sides(caller, req).value.0, Users.Apprenti)
              && !HasRole(users, Sides(caller, req).value.1, Users.Accompagnateur) ==>
                r == Err(NotACompanion)
      ensures (Sides(caller, req).Some? && HasRole(users, Sides(caller, req).value.0, Users.Apprenti)
               && HasRole(users, Sides(caller, req).value.1, Users.Accompagnateur)) ==> r.Ok?
      ensures r.Err? ==> rows == old(rows) && nextId == old(nextId)
      ensures r.Ok? ==>
                var (apprentiId, accompagnateurId) := Sides(caller, req).value;
                && HasRole(users, apprentiId, Users.Apprenti)
                && HasRole(users, accompagnateurId, Users.Accompagnateur)
                && old(nextId) !in old(rows)
                && r.value == AssociationRecord(old(nextId), Association(apprentiId, accompagnateurId, req.lien))
                && rows == old(rows)[old(nextId) := r.value.association]
                && nextId == old(nextId) + 1
    {
      var sides := Sides(caller, req);
      if sides.None? {
        return Err(NotAParty);
      }
      var (apprentiId, accompagnateurId) := sides.value;
      if !HasRole(users, apprentiId, Users.Apprenti) {
        return Err(NotAnApprenti);
      }
      if !HasRole(users, accompagnateurId, Users.Accompagnateur) {
        return Err(NotACompanion);
      }
      var id := nextId;
      var a := Association(apprentiId, accompagnateurId, req.lien);
      rows := rows[id := a];
      nextId := nextId + 1;
      r := Ok(AssociationRecord(id, a));
    }

    /** `get_accompagnateurs_for_apprenti`: 403 unless the caller is that
        apprenti or an administrator; 404 when there is no association for it;
        otherwise exactly the associations whose apprenti is `apprentiId`. */
    function ForApprenti(caller: Principal, apprentiId: int): (r: Result<map<int, Association>>)
      reads this
      ensures caller.id != apprentiId && !IsAdmin(caller) ==> r == Err(OwnCompanionsOnly)
      ensures (caller.id == apprentiId || IsAdmin(caller)) ==>
                (r == Err(NoCompanionFound) <==> forall id :: id in rows ==> rows[id].apprentiId != apprentiId)
      ensures ((caller.id == apprentiId || IsAdmin(caller))
               && (exists id :: id in rows && rows[id].apprentiId == apprentiId)) ==> r.Ok?
      ensures r.Ok? ==> r.value != map[]
      ensures r.Ok? ==> forall id :: id in r.value <==> id in rows && rows[id].apprentiId == apprentiId
      ensures r.Ok? ==> forall id :: id in r.value ==> r.value[id] == rows[id]
    {
      if caller.id != apprentiId && !IsAdmin(caller) then Err(OwnCompanionsOnly)
      else
        var found := map id | id in rows && rows[id].apprentiId == apprentiId :: rows[id];
        if forall id :: id in rows ==> rows[id].apprentiId != apprentiId then
          Err(NoCompanionFound)
        else
          var k :| k in rows && rows[k].apprentiId == apprentiId;
          assert k in found;
          Ok(found)
    }

    /** `get_apprentis_for_accompagnateur`: the same rules on the companion side. */
    function ForAccompagnateur(caller: Principal, accompagnateurId: int): (r: Result<map<int, Association>>)
      reads this
      ensures caller.id != accompagnateurId && !IsAdmin(caller) ==> r == Err(OwnApprenticesOnly)
      ensures (caller.id == accompagnateurId || IsAdmin(caller)) ==>
                (r == Err(NoApprenticeFound) <==>
                 forall id :: id in rows ==> rows[id].accompagnateurId != accompagnateurId)
      ensures ((caller.id == accompagnateurId || IsAdmin(caller))
               && (exists id :: id in rows && rows[id].accompagnateurId == accompagnateurId)) ==> r.Ok?
      ensures r.Ok? ==> r.value != map[]
      ensures r.Ok? ==> forall id :: id in r.value <==> id in rows && rows[id].accompagnateurId == accompagnateurId
      ensures r.Ok? ==> forall id :: id in r.value ==> r.value[id] == rows[id]
    {
      if caller.id != accompagnateurId && !IsAdmin(caller) then Err(OwnApprenticesOnly)
      else
        var found := map id | id in rows && rows[id].accompagnateurId == accompagnateurId :: rows[id];
        if forall id :: id in rows ==> rows[id].accompagnateurId != accompagnateurId then
          Err(NoApprenticeFound)
        else
          var k :| k in rows && rows[k].accompagnateurId == accompagnateurId;
          assert k in found;
          Ok(found)
    }

    /** `delete_apprenti_accompagnateur`: 404 for an unknown id; 403 unless the
        caller is one of its two ends or an administrator; otherwise exactly that
        association goes. */
    method Delete(caller: Principal, id: int) returns (r: Result<string>)
      requires Valid()
      modifies this
      ensures Valid() && nextId == old(nextId)
      ensures id !in old(rows) ==> r == Err(AssociationNotFound) && rows == old(rows)
      ensures id in old(rows) && caller.id != old(rows)[id].apprentiId
              && caller.id != old(rows)[id].accompagnateurId && !IsAdmin(caller) ==>
                r == Err(OwnLinksOnly) && rows == old(rows)
      ensures id in old(rows) && (caller.id == old(rows)[id].apprentiId
              || caller.id == old(rows)[id].accompagnateurId || IsAdmin(caller)) ==>
                r == Ok(AssociationDeleted) && rows == old(rows) - {id}
    {
      if id !in rows {
        return Err(AssociationNotFound);
      }
      var a := rows[id];
      if caller.id != a.apprentiId && caller.id != a.accompagnateurId && !IsAdmin(caller) {
        return Err(OwnLinksOnly);
      }
      rows := rows - {id};
      r := Ok(AssociationDeleted);
    }
  }

  /** A caller taken from the users table never has the administrator role, so
      its listings are only its own: asking for anybody else's is refused. */
  lemma StoredCallerIsNeverAdmin(t: AssociationTable, id: int, u: Users.User, other: int)
    requires other != id
    ensures !IsAdmin(Principal(id, Users.RoleText(u.role)))
    ensures t.ForApprenti(Principal(id, Users.RoleText(u.role)), other) == Err(OwnCompanionsOnly)
    ensures t.ForAccompagnateur(Principal(id, Users.RoleText(u.role)), other) == Err(OwnApprenticesOnly)
  {
  }

  /** An association that was just created is found by both listings, for
      either of its two ends. */
  lemma CreatedIsListed(t: AssociationTable, id: int)
    requires id in t.rows
    ensures var a := t.rows[id];
            && t.ForApprenti(Principal(a.apprentiId, "apprenti"), a.apprentiId).Ok?
            && id in t.ForApprenti(Principal(a.apprentiId, "apprenti"), a.apprentiId).value
            && t.ForAccompagnateur(Principal(a.accompagnateurId, "accompagnateur"), a.accompagnateurId).Ok?
            && id in t.ForAccompagnateur(Principal(a.accompagnateurId, "accompagnateur"), a.accompagnateurId).value
  {
  }
}
