/**
 * The observation routes: the permission engine `checkPermission`, the
 * per-observation permissions summary, and the guards of the routes that
 * create, read, update and delete observations.
 */
module ObservationRoutes {
  import opened Records

  /** The eight action names the engine is asked about. */
  datatype Action =
    | View
    | AddObservations
    | EditOwnObservations
    | EditAllObservations
    | DeleteOwnObservations
    | DeleteAllObservations
    | EditObservation
    | DeleteObservation

  /** The two actions about one observation, which the ownership rules refine. */
  predicate IsObservationScoped(a: Action)
  {
    a == EditObservation || a == DeleteObservation
  }

  /**
   * The role capability table; a role it does not list gets no action. Every
   * listed role may view, a co-investigator holds every capability of the
   * table, and no entry names one of the two observation-scoped actions.
   */
  function Capabilities(role: string): (caps: seq<Action>)
    ensures caps != [] <==> IsValidRole(role)
    ensures IsValidRole(role) ==> View in caps
    ensures forall a :: a in caps ==> !IsObservationScoped(a)
    ensures role == CoInvestigator ==> forall a :: !IsObservationScoped(a) ==> a in caps
  {
    if role == CoInvestigator then
      [View, AddObservations, EditOwnObservations, EditAllObservations, DeleteOwnObservations, DeleteAllObservations]
    else if role == AsistentCercetare || role == ResearchAssistant then
      [View, AddObservations, EditOwnObservations, DeleteOwnObservations]
    else if role == ObserverRole then
      [View]
    else
      []
  }

  /** The role a decision was reached under: 'viewer', 'creator' or the member's role string. */
  datatype EffectiveRole = Viewer | Creator | MemberRole(name: string)

  /** The engine's answer `{hasPermission, role, error}`. */
  datatype Decision = Decision(hasPermission: bool, role: Option<EffectiveRole>, error: Option<string>)

  function Granted(role: EffectiveRole): Decision
  {
    Decision(true, Some(role), None)
  }

  function Denied(msg: string): Decision
  {
    Decision(false, None, Some(msg))
  }

  /**
   * The optional observation argument: no id was given, or an id was given
   * and the lookup found the observation or nothing.
   */
  datatype ObservationArg = NoObservationId | Fetched(found: Option<Observation>)

  const MsgNoProject: string := "Proiectul nu exista"
  const MsgAuthRequired: string := "Autentificare necesara"
  const MsgNotMember: string := "Nu sunteti membru al acestui proiect"
  const MsgNoObservation: string := "Observatia nu exista"
  const MsgObserverCannotModify: string := "Nu aveti permisiunea sa modificati observatiile"
  const MsgNotYourObservation: string := "Nu aveti permisiunea sa modificati aceasta observatie"
  const MsgActionNotAllowed: string := "Nu aveti permisiunea pentru aceasta actiune"

  /**
   * `checkPermission(userId, projectId, action, observationId)`, with the
   * project lookup and the observation lookup passed in as their results.
   * Rules apply in order and the first that matches decides.
   */
  function CheckPermission(userId: Option<UserId>, project: Option<Project>, action: Action, obs: ObservationArg): (d: Decision)
    ensures d.hasPermission ==> project.Some? && d.role.Some? && d.error.None?
    ensures !d.hasPermission ==> d.error.Some?
    ensures d.hasPermission && userId.None? ==> action == View && project.value.visibility == Public
  {
    match project
    case None => Denied(MsgNoProject)
    case Some(p) =>
      if action == View && p.visibility == Public then Granted(Viewer)
      else if userId.None? then Denied(MsgAuthRequired)
      else
        var u := userId.value;
        if p.creator == u then Granted(Creator)
        else
          var member := FindMember(p.members, u);
          if member.None? then
            // Unreachable in effect: the first rule already granted this case.
            if action == View && p.visibility == Public then Granted(Viewer)
            else Denied(MsgNotMember)
          else
            var role := member.value.role;
            var caps := Capabilities(role);
            if IsObservationScoped(action) && obs.Fetched? then
              match obs.found
              case None => Denied(MsgNoObservation)
              case Some(o) =>
                if p.creator == u then Granted(Creator)
                else if role == CoInvestigator then Granted(MemberRole(role))
                else if IsAssistantRole(role) && o.observer == u then Granted(MemberRole(role))
                else if role == ObserverRole then Denied(MsgObserverCannotModify)
                else Denied(MsgNotYourObservation)
            else
              Decision(action in caps, Some(MemberRole(role)), if action in caps then None else Some(MsgActionNotAllowed))
  }

  // ---------------------------------------------------------------------
  // Properties of the engine
  // ---------------------------------------------------------------------

  /** Anyone, signed in or not, may view a public project. */
  lemma PublicViewAllowed(userId: Option<UserId>, p: Project, obs: ObservationArg)
    requires p.visibility == Public
    ensures CheckPermission(userId, Some(p), View, obs) == Granted(Viewer)
  {
  }

  /** Without a user id everything but viewing a public project is refused as needing authentication. */
  lemma AnonymousDenied(p: Project, action: Action, obs: ObservationArg)
    requires !(action == View && p.visibility == Public)
    ensures CheckPermission(None, Some(p), action, obs) == Denied(MsgAuthRequired)
  {
  }

  /** The creator may do everything, whoever made the observation. */
  lemma CreatorAllowedEverything(p: Project, action: Action, obs: ObservationArg)
    ensures CheckPermission(Some(p.creator), Some(p), action, obs).hasPermission
    ensures action == View && p.visibility == Public ==> CheckPermission(Some(p.creator), Some(p), action, obs).role == Some(Viewer)
    ensures !(action == View && p.visibility == Public) ==> CheckPermission(Some(p.creator), Some(p), action, obs).role == Some(Creator)
  {
  }

  /**
   * A signed-in user who is neither creator nor member may only view, and
   * only a public project; everything else is refused as "not a member".
   */
  lemma NonMemberRules(u: UserId, p: Project, action: Action, obs: ObservationArg)
    requires p.creator != u && !IsMember(p.members, u)
    ensures CheckPermission(Some(u), Some(p), action, obs).hasPermission <==> action == View && p.visibility == Public
    ensures !(action == View && p.visibility == Public) ==> CheckPermission(Some(u), Some(p), action, obs) == Denied(MsgNotMember)
  {
  }

  /** A missing project is always refused. */
  lemma MissingProjectDenied(userId: Option<UserId>, action: Action, obs: ObservationArg)
    ensures CheckPermission(userId, None, action, obs) == Denied(MsgNoProject)
  {
  }

  /** The grants of the capability table, role by role. */
  ghost predicate TableGrants(role: string, a: Action)
  {
    || (role == CoInvestigator && !IsObservationScoped(a))
    || (IsAssistantRole(role) && a in {View, AddObservations, EditOwnObservations, DeleteOwnObservations})
    || (role == ObserverRole && a == View)
  }

  /**
   * For a member asking about a coarse action (or about edit/delete without
   * an observation id), the capability table decides, and the decision
   * carries the member's role. Since the table grants neither
   * `edit_observation` nor `delete_observation`, both are refused without an
   * observation id. Roles outside the fixed set, such as the schema's
   * default 'membru', get nothing.
   */
  lemma MemberCoarseActions(u: UserId, p: Project, action: Action, obs: ObservationArg)
    requires p.creator != u && IsMember(p.members, u)
    requires !(action == View && p.visibility == Public)
    requires !IsObservationScoped(action) || obs == NoObservationId
    ensures var role := FindMember(p.members, u).value.role;
      && CheckPermission(Some(u), Some(p), action, obs).hasPermission == TableGrants(role, action)
      && CheckPermission(Some(u), Some(p), action, obs).role == Some(MemberRole(role))
    ensures IsObservationScoped(action) ==> !CheckPermission(Some(u), Some(p), action, obs).hasPermission
  {
  }

  /**
   * The ownership override for edit/delete of a fetched observation: a
   * co-investigator may always, a research assistant exactly on their own
   * observations, and an observer never.
   */
  lemma OwnershipOverride(u: UserId, p: Project, action: Action, o: Observation)
    requires p.creator != u && IsMember(p.members, u)
    requires IsObservationScoped(action)
    ensures var role := FindMember(p.members, u).value.role;
      var allowed := CheckPermission(Some(u), Some(p), action, Fetched(Some(o))).hasPermission;
      allowed <==> role == CoInvestigator || (IsAssistantRole(role) && o.observer == u)
    ensures FindMember(p.members, u).value.role == ObserverRole ==>
      CheckPermission(Some(u), Some(p), action, Fetched(Some(o))) == Denied(MsgObserverCannotModify)
  {
  }

  /** An observation id that resolves to nothing is refused, for members. */
  lemma MissingObservationDenied(u: UserId, p: Project, action: Action)
    requires p.creator != u && IsMember(p.members, u)
    requires IsObservationScoped(action)
    ensures CheckPermission(Some(u), Some(p), action, Fetched(None)) == Denied(MsgNoObservation)
  {
  }

  /**
   * Whoever may add observations to a project may later edit and delete the
   * observations they made there.
   */
  lemma {:induction false} AuthorMayModifyOwnObservation(u: UserId, p: Project, o: Observation, action: Action)
    requires CheckPermission(Some(u), Some(p), AddObservations, NoObservationId).hasPermission
    requires o.observer == u && IsObservationScoped(action)
    ensures CheckPermission(Some(u), Some(p), action, Fetched(Some(o))).hasPermission
  {
    if p.creator != u {
      var role := FindMember(p.members, u).value.role;
      assert AddObservations in Capabilities(role);
    }
  }

  /**
   * The walk-through of a private project P created by A, with B a research
   * assistant who made O1 and A the author of O2, and C an unrelated user.
   */
  lemma PrivateProjectScenario(a: UserId, b: UserId, c: UserId, p: Project, o1: Observation, o2: Observation)
    requires a != b && a != c && b != c
    requires p.visibility == Private && p.creator == a
    requires p.members == [Membership(b, ResearchAssistant, 0)]
    requires o1.observer == b && o2.observer == a
    ensures CheckPermission(Some(c), Some(p), EditObservation, Fetched(Some(o1))) == Denied(MsgNotMember)
    ensures CheckPermission(Some(a), Some(p), EditObservation, Fetched(Some(o1))) == Granted(Creator)
    ensures CheckPermission(Some(b), Some(p), EditObservation, Fetched(Some(o1))) == Granted(MemberRole(ResearchAssistant))
    ensures CheckPermission(Some(b), Some(p), EditObservation, Fetched(Some(o2))) == Denied(MsgNotYourObservation)
  {
    assert !IsMember(p.members, c);
    assert !IsMember(p.members, a);
  }

  // ---------------------------------------------------------------------
  // GET /:id/permissions
  // ---------------------------------------------------------------------

  datatype PermissionSummary = PermissionSummary(userRole: Option<string>, canEdit: bool, canDelete: bool, isOwner: bool)

  const MsgObservationNotFound: string := "Observatia nu a fost gasita"
  const MsgProjectNotFound: string := "Proiectul nu a fost gasit"

  /**
   * The permissions handler. It agrees with the engine: `canEdit` and
   * `canDelete` are exactly what the engine answers for `edit_observation`
   * and `delete_observation` on this observation.
   */
  method PermissionsSummary(user: Option<UserId>, observation: Option<Observation>, project: Option<Project>)
    returns (r: Reply<PermissionSummary>)
    ensures observation.None? ==> r == Fail(404, MsgObservationNotFound)
    ensures observation.Some? && project.None? ==> r == Fail(404, MsgProjectNotFound)
    ensures observation.Some? && project.Some? && user.None? ==>
      r == if project.value.visibility == Public then Ok(PermissionSummary(None, false, false, false))
           else Fail(403, MsgAuthRequired)
    ensures observation.Some? && project.Some? && user.Some? ==> r.Ok?
    ensures r.Ok? ==> r.value.canEdit == r.value.canDelete
    ensures r.Ok? ==> r.value.canEdit == CheckPermission(user, project, EditObservation, Fetched(observation)).hasPermission
    ensures r.Ok? ==> r.value.canDelete == CheckPermission(user, project, DeleteObservation, Fetched(observation)).hasPermission
    ensures r.Ok? ==> (r.value.isOwner <==> user.Some? && observation.value.observer == user.value)
    ensures r.Ok? && user.Some? ==>
      var p, u := project.value, user.value;
      r.value.userRole ==
        if p.creator == u then Some("creator")
        else if IsMember(p.members, u) then Some(FindMember(p.members, u).value.role)
        else if p.visibility == Public then Some("viewer")
        else None
  {
    if observation.None? {
      return Fail(404, MsgObservationNotFound);
    }
    var obs := observation.value;
    if project.None? {
      return Fail(404, MsgProjectNotFound);
    }
    var p := project.value;
    if user.None? {
      if p.visibility == Public {
        return Ok(PermissionSummary(None, false, false, false));
      } else {
        return Fail(403, MsgAuthRequired);
      }
    }
    var u := user.value;
    var userRole: Option<string> := None;
    var canEdit := false;
    var canDelete := false;
    if p.creator == u {
      userRole := Some("creator");
      canEdit := true;
      canDelete := true;
    } else {
      var member := FindMember(p.members, u);
      if member.Some? {
        userRole := Some(member.value.role);
        var isOwner := obs.observer == u;
        var role := member.value.role;
        if role == CoInvestigator {
          canEdit := true;
          canDelete := true;
        } else if role == AsistentCercetare || role == ResearchAssistant {
          canEdit := isOwner;
          canDelete := isOwner;
        } else if role == ObserverRole {
          canEdit := false;
          canDelete := false;
        }
      } else {
        if p.visibility == Public {
          userRole := Some("viewer");
          canEdit := false;
          canDelete := false;
        }
      }
    }
    r := Ok(PermissionSummary(userRole, canEdit, canDelete, obs.observer == u));
  }

  // ---------------------------------------------------------------------
  // Route guards: POST /, GET /:id, PUT /:id, DELETE /:id
  // ---------------------------------------------------------------------

  /** The body of POST /: the fields of a new observation. */
  datatype NewObservation = NewObservation(
    species: Species,
    coordinates: seq<real>,
    observationDate: Date,
    count: Option<int>,
    notes: Option<string>,
    images: seq<string>)

  /**
   * The body of PUT /:id. `None` is a field left out. `notes` is applied
   * whenever it is given (even null), `count` only when it is non-zero.
   */
  datatype ObservationPatch = ObservationPatch(
    species: Option<Species>,
    coordinates: Option<seq<real>>,
    observationDate: Option<Date>,
    count: Option<int>,
    notes: Option<Option<string>>,
    images: Option<seq<string>>)

  const MsgObservationDeleted: string := "Observatie stearsa"

  const MsgServerError: string := "Eroare de server"

  /**
   * GET /:id: an observation is shown only to whom the engine lets view its
   * project. The handler reads the populated project's id before it asks the
   * engine; when the lookup found no project that read throws, and the
   * handler's catch answers 500.
   */
  function ReadObservation(user: Option<UserId>, observation: Option<Observation>, project: Option<Project>): (r: Reply<Observation>)
    ensures observation.None? ==> r == Fail(404, MsgObservationNotFound)
    ensures observation.Some? && project.None? ==> r == Fail(500, MsgServerError)
    ensures observation.Some? && project.Some? ==>
      (r.Ok? <==> CheckPermission(user, project, View, NoObservationId).hasPermission)
    ensures r.Ok? ==> r.value == observation.value
    ensures r.Fail? && observation.Some? && project.Some? ==>
      r == Fail(403, CheckPermission(user, project, View, NoObservationId).error.value)
  {
    if observation.None? then Fail(404, MsgObservationNotFound)
    else if project.None? then Fail(500, MsgServerError)
    else
      var d := CheckPermission(user, project, View, NoObservationId);
      if !d.hasPermission then Fail(403, d.error.value) else Ok(observation.value)
  }

  /** The observations collection, keyed by observation id. */
  class ObservationStore {
    var docs: map<string, Observation>

    ghost predicate Valid()
      reads this
    {
      forall id :: id in docs ==> docs[id].id == id
    }

    constructor ()
      ensures Valid() && docs == map[]
    {
      docs := map[];
    }

    /**
     * POST /: the acting user may add observations to the project; the new
     * observation is theirs and belongs to that project.
     */
    method Create(user: UserId, projectId: string, project: Option<Project>, input: NewObservation, newId: string)
      returns (r: Reply<Observation>)
      requires Valid() && newId !in docs
      requires project.Some? ==> project.value.id == projectId
      modifies this
      ensures Valid()
      ensures var d := CheckPermission(Some(user), project, AddObservations, NoObservationId);
        if d.hasPermission then
          && r.Ok?
          && r.value == Observation(newId, projectId, user, input.species, input.coordinates,
                                    input.observationDate, input.count.GetOr(1), input.notes, input.images)
          && docs == old(docs)[newId := r.value]
        else
          r == Fail(403, d.error.value) && docs == old(docs)
    {
      var d := CheckPermission(Some(user), project, AddObservations, NoObservationId);
      if !d.hasPermission {
        return Fail(403, d.error.value);
      }
      var o := Observation(newId, projectId, user, input.species, input.coordinates,
                           input.observationDate, input.count.GetOr(1), input.notes, input.images);
      docs := docs[newId := o];
      r := Ok(o);
    }

    /**
     * PUT /:id: after a granted `edit_observation`, only the supplied fields
     * change; the id, the project and the observer never do.
     */
    method Update(user: UserId, id: string, project: Option<Project>, patch: ObservationPatch)
      returns (r: Reply<Observation>)
      requires Valid()
      requires id in docs && project.Some? ==> project.value.id == docs[id].project
      modifies this
      ensures Valid()
      ensures id !in old(docs) ==> r == Fail(404, MsgObservationNotFound) && docs == old(docs)
      ensures id in old(docs) ==>
        var d := CheckPermission(Some(user), project, EditObservation, Fetched(Some(old(docs)[id])));
        && (r.Ok? <==> d.hasPermission)
        && (!d.hasPermission ==> r == Fail(403, d.error.value))
      ensures r.Fail? ==> docs == old(docs)
      ensures r.Ok? ==> id in old(docs) && docs == old(docs)[id := r.value]
      ensures r.Ok? ==>
        var was := old(docs)[id];
        && r.value.id == was.id && r.value.project == was.project && r.value.observer == was.observer
        && r.value.species == (if patch.species.Some? then patch.species.value else was.species)
        && r.value.coordinates == (if patch.coordinates.Some? then patch.coordinates.value else was.coordinates)
        && r.value.observationDate == (if patch.observationDate.Some? then patch.observationDate.value else was.observationDate)
        && r.value.count == (if patch.count.Some? && patch.count.value != 0 then patch.count.value else was.count)
        && r.value.notes == (if patch.notes.Some? then patch.notes.value else was.notes)
        && r.value.images == (if patch.images.Some? then patch.images.value else was.images)
    {
      if id !in docs {
        return Fail(404, MsgObservationNotFound);
      }
      var o := docs[id];
      var d := CheckPermission(Some(user), project, EditObservation, Fetched(Some(o)));
      if !d.hasPermission {
        return Fail(403, d.error.value);
      }
      o := ApplyPatch(o, patch);
      docs := docs[id := o];
      r := Ok(o);
    }

    /** The field assignments of PUT /:id, one `if` per supplied field; a zero count is not applied. */
    static method ApplyPatch(was: Observation, patch: ObservationPatch) returns (o: Observation)
      ensures o.id == was.id && o.project == was.project && o.observer == was.observer
      ensures o.species == (if patch.species.Some? then patch.species.value else was.species)
      ensures o.coordinates == (if patch.coordinates.Some? then patch.coordinates.value else was.coordinates)
      ensures o.observationDate == (if patch.observationDate.Some? then patch.observationDate.value else was.observationDate)
      ensures o.count == (if patch.count.Some? && patch.count.value != 0 then patch.count.value else was.count)
      ensures o.notes == (if patch.notes.Some? then patch.notes.value else was.notes)
      ensures o.images == (if patch.images.Some? then patch.images.value else was.images)
    {
      o := was;
      if patch.species.Some? { o := o.(species := patch.species.value); }
      if patch.coordinates.Some? { o := o.(coordinates := patch.coordinates.value); }
      if patch.observationDate.Some? { o := o.(observationDate := patch.observationDate.value); }
      if patch.count.Some? && patch.count.value != 0 { o := o.(count := patch.count.value); }
      if patch.notes.Some? { o := o.(notes := patch.notes.value); }
      if patch.images.Some? { o := o.(images := patch.images.value); }
    }

    /** DELETE /:id: after a granted `delete_observation` the observation is gone and nothing else is touched. */
    method Delete(user: UserId, id: string, project: Option<Project>) returns (r: Reply<string>)
      requires Valid()
      requires id in docs && project.Some? ==> project.value.id == docs[id].project
      modifies this
      ensures Valid()
      ensures id !in old(docs) ==> r == Fail(404, MsgObservationNotFound) && docs == old(docs)
      ensures id in old(docs) ==>
        var d := CheckPermission(Some(user), project, DeleteObservation, Fetched(Some(old(docs)[id])));
        if d.hasPermission then r == Ok(MsgObservationDeleted) && docs == old(docs) - {id}
        else r == Fail(403, d.error.value) && docs == old(docs)
    {
      if id !in docs {
        return Fail(404, MsgObservationNotFound);
      }
      var d := CheckPermission(Some(user), project, DeleteObservation, Fetched(Some(docs[id])));
      if !d.hasPermission {
        return Fail(403, d.error.value);
      }
      docs := docs - {id};
      r := Ok(MsgObservationDeleted);
    }
  }
}
