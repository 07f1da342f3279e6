/**
 * The project routes: `hasProjectAccess`, creating and updating a project,
 * and the membership routes that add, remove and re-role a member by
 * changing `project.members` in place.
 */
module ProjectRoutes {
  import opened Seqs
  import opened Records

  /**
   * `hasProjectAccess(project, userId)`: a public project is open to
   * everyone; a private one to its creator and its members only.
   */
  function HasProjectAccess(p: Project, userId: Option<UserId>): (r: bool)
    ensures p.visibility == Public ==> r
    ensures p.visibility == Private && userId.None? ==> !r
    ensures userId.Some? ==> (r <==> p.visibility == Public || Involves(p, userId.value))
  {
    if p.visibility == Public then true
    else if userId.None? then false
    else if p.creator == userId.value then true
    else exists j :: 0 <= j < |p.members| && p.members[j].user == userId.value
  }

  const MsgBadVisibility: string := "Vizibilitatea poate fi doar \"public\" sau \"private\""
  const MsgProjectNotFound: string := "Proiectul nu a fost găsit"
  const MsgNotAuthorizedUpdate: string := "Nu sunteți autorizat să modificați acest proiect"
  const MsgInvalidRole: string := "Rol invalid. Rolurile permise sunt: co-investigator, asistent-cercetare, research-assistant, observer"
  const MsgUserNotFound: string := "Utilizatorul nu a fost găsit"
  const MsgNotAuthorizedAdd: string := "Nu sunteți autorizat să adăugați membri în acest proiect"
  const MsgAlreadyMember: string := "Utilizatorul este deja membru al proiectului"
  const MsgCreatorIsMember: string := "Creatorul proiectului este automat membru"
  const MsgNotAuthorizedRemove: string := "Nu sunteți autorizat să eliminați membri din acest proiect"
  const MsgMemberNotFound: string := "Membrul nu a fost găsit în proiect"
  const MsgMemberAdded: string := "Membru adăugat cu succes"
  const MsgMemberRemoved: string := "Membru eliminat cu succes"
  const MsgNotAuthorizedRole: string := "Nu sunteți autorizat să modificați rolurile în acest proiect"
  const MsgRoleUpdated: string := "Rolul a fost actualizat cu succes"

  /** The schema's default status of a new project. */
  const DefaultStatus: string := "planificat"

  /** The body of POST /. `None` is a field left out. */
  datatype ProjectInput = ProjectInput(
    title: string,
    description: string,
    startDate: Instant,
    endDate: Option<Instant>,
    status: Option<string>,
    visibility: Option<string>,
    targetSpecies: seq<Species>)

  /**
   * POST /: a visibility other than 'public'/'private' is refused; otherwise
   * the new project is private unless asked otherwise, belongs to the acting
   * user and has no members yet.
   */
  function CreateProject(actor: UserId, input: ProjectInput, newId: string): (r: Reply<Project>)
    ensures r.Fail? <==> Truthy(input.visibility) && !IsVisibilityName(input.visibility.value)
    ensures r.Fail? ==> r == Fail(400, MsgBadVisibility)
    ensures r.Ok? ==>
      && r.value.creator == actor && r.value.members == [] && r.value.id == newId
      && r.value.visibility == (if Truthy(input.visibility) then ParseVisibility(input.visibility.value) else Private)
      && MembershipInvariant(r.value)
  {
    if Truthy(input.visibility) && !IsVisibilityName(input.visibility.value) then
      Fail(400, MsgBadVisibility)
    else
      var visibility := if Truthy(input.visibility) then ParseVisibility(input.visibility.value) else Private;
      Ok(Project(newId, input.title, input.description, input.startDate, input.endDate,
                 input.status.GetOr(DefaultStatus), visibility, actor, [], input.targetSpecies))
  }

  /**
   * A stored project document; the membership routes change its `members`
   * in place. The creator is fixed when the document is made.
   */
  class ProjectDoc {
    const id: string
    const creator: UserId
    var title: string
    var description: string
    var startDate: Instant
    var endDate: Option<Instant>
    var status: string
    var visibility: Visibility
    var members: seq<Membership>
    var targetSpecies: seq<Species>

    constructor (p: Project)
      ensures Snapshot() == p
    {
      id, creator := p.id, p.creator;
      title, description := p.title, p.description;
      startDate, endDate := p.startDate, p.endDate;
      status, visibility := p.status, p.visibility;
      members, targetSpecies := p.members, p.targetSpecies;
    }

    /** The document as a record, the form the permission engine reads. */
    function Snapshot(): Project
      reads this
    {
      Project(id, title, description, startDate, endDate, status, visibility, creator, members, targetSpecies)
    }

    /** The membership invariant, on the document's own fields. */
    ghost predicate Valid()
      reads this
      ensures Valid() <==> MembershipInvariant(Snapshot())
    {
      UniqueMembers(members) && !IsMember(members, creator)
    }
  }

  /** The body of PUT /:id. `None` is a field left out. */
  datatype ProjectPatch = ProjectPatch(
    title: Option<string>,
    description: Option<string>,
    startDate: Option<Instant>,
    endDate: Option<Instant>,
    status: Option<string>,
    visibility: Option<string>,
    targetSpecies: Option<seq<Species>>)

  /**
   * The fields of `p` after the update `title || project.title`, ...: a text
   * field takes the supplied value when it is a non-empty string, a date or
   * the species list whenever it is given, and every other field keeps its
   * old value. The id, creator and members are never touched.
   */
  function PatchProject(p: Project, patch: ProjectPatch): (q: Project)
    requires Truthy(patch.visibility) ==> IsVisibilityName(patch.visibility.value)
    ensures q.id == p.id && q.creator == p.creator && q.members == p.members
    ensures q.title == if Truthy(patch.title) then patch.title.value else p.title
    ensures q.description == if Truthy(patch.description) then patch.description.value else p.description
    ensures q.startDate == if patch.startDate.Some? then patch.startDate.value else p.startDate
    ensures q.endDate == if patch.endDate.Some? then patch.endDate else p.endDate
    ensures q.status == if Truthy(patch.status) then patch.status.value else p.status
    ensures q.visibility == if Truthy(patch.visibility) then ParseVisibility(patch.visibility.value) else p.visibility
    ensures q.targetSpecies == if patch.targetSpecies.Some? then patch.targetSpecies.value else p.targetSpecies
  {
    Project(
      p.id,
      if Truthy(patch.title) then patch.title.value else p.title,
      if Truthy(patch.description) then patch.description.value else p.description,
      if patch.startDate.Some? then patch.startDate.value else p.startDate,
      if patch.endDate.Some? then patch.endDate else p.endDate,
      if Truthy(patch.status) then patch.status.value else p.status,
      if Truthy(patch.visibility) then ParseVisibility(patch.visibility.value) else p.visibility,
      p.creator,
      p.members,
      if patch.targetSpecies.Some? then patch.targetSpecies.value else p.targetSpecies)
  }

  /**
   * PUT /:id: only the creator may update and a bad visibility is refused,
   * both leaving the document as it was; otherwise the fields are patched as
   * `PatchProject` says, and the membership invariant is kept.
   */
  method UpdateProject(actor: UserId, project: ProjectDoc?, patch: ProjectPatch) returns (r: Reply<Project>)
    modifies project
    ensures project == null ==> r == Fail(404, MsgProjectNotFound)
    ensures project != null && project.creator != actor ==> r == Fail(401, MsgNotAuthorizedUpdate)
    ensures project != null && project.creator == actor ==>
      if Truthy(patch.visibility) && !IsVisibilityName(patch.visibility.value) then r == Fail(400, MsgBadVisibility)
      else r == Ok(PatchProject(old(project.Snapshot()), patch)) && project.Snapshot() == r.value
    ensures project != null && r.Fail? ==> unchanged(project)
    ensures project != null && old(project.Valid()) ==> project.Valid()
  {
    if project == null {
      return Fail(404, MsgProjectNotFound);
    }
    if project.creator != actor {
      return Fail(401, MsgNotAuthorizedUpdate);
    }
    if Truthy(patch.visibility) && !IsVisibilityName(patch.visibility.value) {
      return Fail(400, MsgBadVisibility);
    }
    var next := PatchProject(project.Snapshot(), patch);
    project.title := next.title;
    project.description := next.description;
    project.startDate := next.startDate;
    project.endDate := next.endDate;
    project.status := next.status;
    project.visibility := next.visibility;
    project.targetSpecies := next.targetSpecies;
    r := Ok(project.Snapshot());
  }

  /** The answer of POST /:id/members: a message and the new member list. */
  datatype MembersReply = MembersReply(msg: string, members: seq<Membership>)

  /**
   * POST /:id/members. Checks, in order: the role is one of the fixed set,
   * the invited user exists, the project exists, the actor is its creator,
   * the invitee is not already a member and is not the creator. On success
   * exactly one entry is appended; the invariant is kept.
   */
  method AddMember(actor: UserId, project: ProjectDoc?, role: string, invitee: Option<UserId>, now: Instant)
    returns (r: Reply<MembersReply>)
    modifies project
    ensures !IsValidRole(role) ==> r == Fail(400, MsgInvalidRole)
    ensures IsValidRole(role) && invitee.None? ==> r == Fail(404, MsgUserNotFound)
    ensures IsValidRole(role) && invitee.Some? && project == null ==> r == Fail(404, MsgProjectNotFound)
    ensures IsValidRole(role) && invitee.Some? && project != null && project.creator != actor ==>
      r == Fail(401, MsgNotAuthorizedAdd)
    ensures (IsValidRole(role) && invitee.Some? && project != null && project.creator == actor
             && IsMember(old(project.members), invitee.value)) ==>
      r == Fail(400, MsgAlreadyMember)
    ensures (IsValidRole(role) && invitee.Some? && project != null && project.creator == actor
             && !IsMember(old(project.members), invitee.value) && invitee.value == project.creator) ==>
      r == Fail(400, MsgCreatorIsMember)
    ensures r.Ok? <==>
      && IsValidRole(role) && invitee.Some? && project != null && project.creator == actor
      && !IsMember(old(project.members), invitee.value) && invitee.value != project.creator
    ensures project != null && r.Fail? ==> unchanged(project)
    ensures project != null && r.Ok? ==>
      && project.members == old(project.members) + [Membership(invitee.value, role, now)]
      && r.value == MembersReply(MsgMemberAdded, project.members)
      && project.Snapshot() == old(project.Snapshot()).(members := project.members)
    ensures project != null && old(project.Valid()) ==> project.Valid()
  {
    if !IsValidRole(role) {
      return Fail(400, MsgInvalidRole);
    }
    if invitee.None? {
      return Fail(404, MsgUserNotFound);
    }
    if project == null {
      return Fail(404, MsgProjectNotFound);
    }
    if project.creator != actor {
      return Fail(401, MsgNotAuthorizedAdd);
    }
    var newcomer := invitee.value;
    if exists j :: 0 <= j < |project.members| && project.members[j].user == newcomer {
      return Fail(400, MsgAlreadyMember);
    }
    if project.creator == newcomer {
      return Fail(400, MsgCreatorIsMember);
    }
    project.members := project.members + [Membership(newcomer, role, now)];
    r := Ok(MembersReply(MsgMemberAdded, project.members));
  }

  /**
   * DELETE /:id/members/:userId: only the creator may remove; an absent
   * member is "not found"; otherwise the first entry of that user is spliced
   * out and the others keep their order.
   */
  method RemoveMember(actor: UserId, project: ProjectDoc?, target: UserId) returns (r: Reply<string>)
    modifies project
    ensures project == null ==> r == Fail(404, MsgProjectNotFound)
    ensures project != null && project.creator != actor ==> r == Fail(401, MsgNotAuthorizedRemove)
    ensures project != null && project.creator == actor && !IsMember(old(project.members), target) ==>
      r == Fail(404, MsgMemberNotFound)
    ensures r.Ok? <==> project != null && project.creator == actor && IsMember(old(project.members), target)
    ensures project != null && r.Fail? ==> unchanged(project)
    ensures project != null && r.Ok? ==>
      var i := MemberIndex(old(project.members), target);
      && r.value == MsgMemberRemoved
      && project.members == old(project.members)[..i] + old(project.members)[i + 1..]
      && project.Snapshot() == old(project.Snapshot()).(members := project.members)
    ensures project != null && old(project.Valid()) ==> project.Valid()
  {
    if project == null {
      return Fail(404, MsgProjectNotFound);
    }
    if project.creator != actor {
      return Fail(401, MsgNotAuthorizedRemove);
    }
    var i := MemberIndex(project.members, target);
    if i == -1 {
      return Fail(404, MsgMemberNotFound);
    }
    ghost var before := project.members;
    project.members := project.members[..i] + project.members[i + 1..];
    assert forall m :: m in project.members ==> m in before;
    r := Ok(MsgMemberRemoved);
  }

  /**
   * Under the membership invariant, removing a member leaves exactly the
   * entries of the other users, in their order: nothing of the removed user
   * survives and nobody else is lost.
   */
  lemma {:induction false} RemoveLeavesOthers(ms: seq<Membership>, target: UserId)
    requires UniqueMembers(ms) && IsMember(ms, target)
    ensures var i := MemberIndex(ms, target);
      ms[..i] + ms[i + 1..] == Filter(ms, (m: Membership) => m.user != target)
    ensures !IsMember(Filter(ms, (m: Membership) => m.user != target), target)
  {
    var i := MemberIndex(ms, target);
    var keep := (m: Membership) => m.user != target;
    var before, after := ms[..i], ms[i + 1..];
    assert ms == before + [ms[i]] + after;
    forall m | m in after ensures keep(m) {
      var k :| 0 <= k < |after| && after[k] == m;
      assert ms[i + 1 + k] == m;
    }
    FilterDropOne(before, ms[i], after, keep);
    var rest := Filter(ms, keep);
    forall j | 0 <= j < |rest| ensures rest[j].user != target {
      assert rest[j] in rest;
    }
  }

  /** Filtering out one rejected element from between two runs that all pass leaves the two runs joined. */
  lemma {:induction false} FilterDropOne<T>(before: seq<T>, x: T, after: seq<T>, keep: T -> bool)
    requires forall m :: m in before ==> keep(m)
    requires !keep(x)
    requires forall m :: m in after ==> keep(m)
    ensures Filter(before + [x] + after, keep) == before + after
  {
    var dropped := Filter([x], keep);
    assert dropped == [] by {
      assert [x][1..] == [];
      assert Filter([x][1..], keep) == [];
    }
    FilterConcat(before, [x], keep);
    FilterIdentity(before, keep);
    assert Filter(before + [x], keep) == before;
    FilterConcat(before + [x], after, keep);
    FilterIdentity(after, keep);
  }

  /**
   * PUT /:id/members/:userId/role. Checks, in order: the role is one of the
   * fixed set, the project exists, the actor is its creator, the user is a
   * member. On success only that member's role changes.
   */
  method UpdateMemberRole(actor: UserId, project: ProjectDoc?, target: UserId, role: string) returns (r: Reply<string>)
    modifies project
    ensures !IsValidRole(role) ==> r == Fail(400, MsgInvalidRole)
    ensures IsValidRole(role) && project == null ==> r == Fail(404, MsgProjectNotFound)
    ensures IsValidRole(role) && project != null && project.creator != actor ==> r == Fail(401, MsgNotAuthorizedRole)
    ensures IsValidRole(role) && project != null && project.creator == actor && !IsMember(old(project.members), target) ==>
      r == Fail(404, MsgMemberNotFound)
    ensures r.Ok? <==>
      IsValidRole(role) && project != null && project.creator == actor && IsMember(old(project.members), target)
    ensures project != null && r.Fail? ==> unchanged(project)
    ensures project != null && r.Ok? ==>
      var i := MemberIndex(old(project.members), target);
      && r.value == MsgRoleUpdated
      && project.members == old(project.members)[i := old(project.members)[i].(role := role)]
      && project.Snapshot() == old(project.Snapshot()).(members := project.members)
    ensures project != null && old(project.Valid()) ==> project.Valid()
  {
    if !IsValidRole(role) {
      return Fail(400, MsgInvalidRole);
    }
    if project == null {
      return Fail(404, MsgProjectNotFound);
    }
    if project.creator != actor {
      return Fail(401, MsgNotAuthorizedRole);
    }
    var i := MemberIndex(project.members, target);
    if i == -1 {
      return Fail(404, MsgMemberNotFound);
    }
    ghost var before := project.members;
    project.members := project.members[i := project.members[i].(role := role)];
    assert forall j :: 0 <= j < |before| ==> project.members[j].user == before[j].user;
    r := Ok(MsgRoleUpdated);
  }
}
