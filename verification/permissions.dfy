/**
 * Capability flags derived from the signed-in user's role. They are plain
 * functions of the role, recomputed on every read.
 */
module Permissions {
  import opened Wrappers
  import Session

  /** The roles the application knows. */
  datatype Role = Admin | Traveler | Entrepreneur | EventOrganizer | EventParticipant

  /** The literal the backend uses for each role. */
  function RoleName(r: Role): string {
    match r
    case Admin => "admin"
    case Traveler => "traveler"
    case Entrepreneur => "entrepreneur"
    case EventOrganizer => "event_organizer"
    case EventParticipant => "event_participant"
  }

  /** The known role a role string names, if any: the inverse of `RoleName`. */
  function ParseRole(role: Option<string>): (r: Option<Role>)
    ensures r.Some? ==> role == Some(RoleName(r.value))
    ensures r.None? ==> forall k: Role :: role != Some(RoleName(k))
  {
    if role == Some("admin") then Some(Admin)
    else if role == Some("traveler") then Some(Traveler)
    else if role == Some("entrepreneur") then Some(Entrepreneur)
    else if role == Some("event_organizer") then Some(EventOrganizer)
    else if role == Some("event_participant") then Some(EventParticipant)
    else None
  }

  /** Every role is recognised by its own name. */
  lemma ParseRoleName(r: Role)
    ensures ParseRole(Some(RoleName(r))) == Some(r)
  {
  }

  datatype Flags = Flags(
    isAdmin: bool,
    isTraveler: bool,
    isEntrepreneur: bool,
    isEventOrganizer: bool,
    isEventParticipant: bool,
    canManageEvents: bool,
    canViewEvents: bool,
    canRegisterForEvents: bool)

  /** The number of role flags that are set. */
  function RoleFlagCount(f: Flags): nat {
    (if f.isAdmin then 1 else 0) + (if f.isTraveler then 1 else 0) + (if f.isEntrepreneur then 1 else 0)
      + (if f.isEventOrganizer then 1 else 0) + (if f.isEventParticipant then 1 else 0)
  }

  /** The flags for a user whose role is `role` (`None` when nobody is signed in). */
  function Derive(role: Option<string>): (f: Flags)
    ensures f.isAdmin <==> ParseRole(role) == Some(Admin)
    ensures f.isTraveler <==> ParseRole(role) == Some(Traveler)
    ensures f.isEntrepreneur <==> ParseRole(role) == Some(Entrepreneur)
    ensures f.isEventOrganizer <==> ParseRole(role) == Some(EventOrganizer)
    ensures f.isEventParticipant <==> ParseRole(role) == Some(EventParticipant)
    ensures RoleFlagCount(f) == (if ParseRole(role).Some? then 1 else 0)
    ensures f.canManageEvents <==> ParseRole(role) in {Some(Admin), Some(Entrepreneur), Some(EventOrganizer)}
    ensures f.canRegisterForEvents <==> ParseRole(role) in {Some(Traveler), Some(EventParticipant)}
    ensures f.canViewEvents
    ensures !(f.canManageEvents && f.canRegisterForEvents)
  {
    var isAdmin := role == Some("admin");
    var isTraveler := role == Some("traveler");
    var isEntrepreneur := role == Some("entrepreneur");
    var isEventOrganizer := role == Some("event_organizer");
    var isEventParticipant := role == Some("event_participant");
    Flags(
      isAdmin, isTraveler, isEntrepreneur, isEventOrganizer, isEventParticipant,
      isAdmin || isEntrepreneur || isEventOrganizer,
      true,
      isTraveler || isEventParticipant)
  }

  /** The flags of the current session. Nobody signed in: no role flag, no
      managing, no registering, but events can still be viewed. */
  function ForSession(s: Session.AuthState): (f: Flags)
    ensures s.user.None? ==>
      RoleFlagCount(f) == 0 && !f.canManageEvents && !f.canRegisterForEvents && f.canViewEvents
    ensures s.user.Some? ==> f == Derive(Some(s.user.value.role))
  {
    Derive(Session.UserRole(s))
  }
}
