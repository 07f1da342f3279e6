/**
 * How the two access checks of the server relate: the observation routes
 * decide with `checkPermission`, the project routes with
 * `hasProjectAccess`, and the membership routes change what both see.
 */
module Consistency {
  import opened Records
  import ObservationRoutes
  import ProjectRoutes

  /** Whatever the engine grants on a project, the project routes would also open to that user. */
  lemma EngineGrantImpliesAccess(userId: Option<UserId>, p: Project, action: ObservationRoutes.Action, obs: ObservationRoutes.ObservationArg)
    requires ObservationRoutes.CheckPermission(userId, Some(p), action, obs).hasPermission
    ensures ProjectRoutes.HasProjectAccess(p, userId)
  {
    if userId.Some? && p.visibility == Private && p.creator != userId.value {
      assert FindMember(p.members, userId.value).Some?;
    }
  }

  /**
   * Conversely, a user the project routes let in may view the project
   * through the engine, provided every member holds one of the four
   * roles the membership routes hand out.
   */
  lemma AccessImpliesView(u: UserId, p: Project, obs: ObservationRoutes.ObservationArg)
    requires ProjectRoutes.HasProjectAccess(p, Some(u))
    requires forall m :: m in p.members ==> IsValidRole(m.role)
    ensures ObservationRoutes.CheckPermission(Some(u), Some(p), ObservationRoutes.View, obs).hasPermission
  {
    var member := FindMember(p.members, u);
    if p.visibility == Private && p.creator != u {
      assert member.Some?;
      assert IsValidRole(member.value.role);
    }
  }

  /**
   * A member still holding the schema's default role 'membru' passes
   * `hasProjectAccess` on a private project yet may not even view it
   * through the engine.
   */
  lemma DefaultRoleMemberLockedOut(u: UserId, p: Project, obs: ObservationRoutes.ObservationArg)
    requires p.visibility == Private && p.creator != u
    requires FindMember(p.members, u).Some? && FindMember(p.members, u).value.role == "membru"
    ensures ProjectRoutes.HasProjectAccess(p, Some(u))
    ensures ObservationRoutes.CheckPermission(Some(u), Some(p), ObservationRoutes.View, obs)
      == ObservationRoutes.Decision(false, Some(ObservationRoutes.MemberRole("membru")), Some(ObservationRoutes.MsgActionNotAllowed))
  {
  }

  /** The user who creates a project may then do anything the engine knows on it. */
  lemma CreatorMayDoEverything(actor: UserId, input: ProjectRoutes.ProjectInput, newId: string,
                               action: ObservationRoutes.Action, obs: ObservationRoutes.ObservationArg)
    requires ProjectRoutes.CreateProject(actor, input, newId).Ok?
    ensures var p := ProjectRoutes.CreateProject(actor, input, newId).value;
      ObservationRoutes.CheckPermission(Some(actor), Some(p), action, obs).hasPermission
  {
  }

  /** A member added with one of the four roles may view the project at once. */
  lemma AddedMemberMayView(p: Project, m: Membership, obs: ObservationRoutes.ObservationArg)
    requires !IsMember(p.members, m.user) && IsValidRole(m.role)
    ensures ObservationRoutes.CheckPermission(Some(m.user), Some(p.(members := p.members + [m])), ObservationRoutes.View, obs).hasPermission
  {
    var ms := p.members + [m];
    assert ms[|p.members|] == m;
    var found := FindMember(ms, m.user);
    assert found.Some?;
    assert MemberIndex(ms, m.user) == |p.members|;
  }

  /**
   * Under the membership invariant, a user removed from a private project
   * loses access: the project routes shut them out and the engine denies
   * every action.
   */
  lemma RemovedMemberLosesAccess(p: Project, target: UserId, action: ObservationRoutes.Action, obs: ObservationRoutes.ObservationArg)
    requires MembershipInvariant(p) && IsMember(p.members, target) && p.visibility == Private
    ensures var i := MemberIndex(p.members, target);
      var q := p.(members := p.members[..i] + p.members[i + 1..]);
      && !ProjectRoutes.HasProjectAccess(q, Some(target))
      && !ObservationRoutes.CheckPermission(Some(target), Some(q), action, obs).hasPermission
  {
    var i := MemberIndex(p.members, target);
    var q := p.(members := p.members[..i] + p.members[i + 1..]);
    ProjectRoutes.RemoveLeavesOthers(p.members, target);
    assert !IsMember(q.members, target);
    if ObservationRoutes.CheckPermission(Some(target), Some(q), action, obs).hasPermission {
      EngineGrantImpliesAccess(Some(target), q, action, obs);
    }
  }
}
