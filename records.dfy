/**
 * The records the tracker stores (the Project and Observation schemas), the
 * fixed set of member roles, the reply shape of the HTTP handlers, and the
 * membership lookups (`find`, `findIndex`, `some` over `project.members`)
 * that every route file repeats.
 */
module Records {
  import opened Seqs

  datatype Option<T> = None | Some(value: T)
  {
    function GetOr(default: T): T
    {
      match this
      case Some(v) => v
      case None => default
    }
  }

  /** A user id: the hex string of a database id, never empty, so a missing identity is `None`. */
  type UserId = s: string | s != [] witness "0"

  /** A stored `Date`, kept opaque as milliseconds since the epoch. */
  type Instant = int

  type Month = m: int | 1 <= m <= 12 witness 1

  /**
   * An observation date: the instant, and the calendar year and month (1-12)
   * the server's clock reads for it (`getFullYear()`, `getMonth() + 1`).
   */
  datatype Date = Date(stamp: Instant, year: nat, month: Month)

  datatype Visibility = Public | Private

  /** The stored spelling of a visibility. */
  function VisibilityName(v: Visibility): string
  {
    match v
    case Public => "public"
    case Private => "private"
  }

  /** A value of the `visibility` field the routes accept. */
  predicate IsVisibilityName(s: string)
  {
    s == "public" || s == "private"
  }

  function ParseVisibility(s: string): (v: Visibility)
    requires IsVisibilityName(s)
    ensures VisibilityName(v) == s
  {
    if s == "public" then Public else Private
  }

  /** A request field that JavaScript treats as present: given and not the empty string. */
  predicate Truthy(field: Option<string>)
  {
    field.Some? && field.value != ""
  }

  // The member roles the membership routes accept; 'research-assistant' and
  // 'asistent-cercetare' name the same tier. The schema's default role
  // 'membru' is none of them.
  const CoInvestigator: string := "co-investigator"
  const AsistentCercetare: string := "asistent-cercetare"
  const ResearchAssistant: string := "research-assistant"
  const ObserverRole: string := "observer"

  predicate IsValidRole(role: string)
  {
    role == CoInvestigator || role == AsistentCercetare || role == ResearchAssistant || role == ObserverRole
  }

  predicate IsAssistantRole(role: string)
  {
    role == AsistentCercetare || role == ResearchAssistant
  }

  datatype Membership = Membership(user: UserId, role: string, joinedDate: Instant)

  datatype Species = Species(scientificName: string, commonName: Option<string>)

  datatype Project = Project(
    id: string,
    title: string,
    description: string,
    startDate: Instant,
    endDate: Option<Instant>,
    status: string,
    visibility: Visibility,
    creator: UserId,
    members: seq<Membership>,
    targetSpecies: seq<Species>)

  datatype Observation = Observation(
    id: string,
    project: string,
    observer: UserId,
    species: Species,
    coordinates: seq<real>,
    observationDate: Date,
    count: int,
    notes: Option<string>,
    images: seq<string>)

  /** A handler's answer: the JSON body, or an HTTP status with its message. */
  datatype Reply<T> = Ok(value: T) | Fail(status: nat, msg: string)

  /** `members.findIndex(m => m.user === u)`: the first entry of `u`, or -1. */
  function MemberIndex(ms: seq<Membership>, u: UserId): (r: int)
    ensures -1 <= r < |ms|
    ensures r >= 0 ==> ms[r].user == u
    ensures forall j :: 0 <= j < |ms| && (r < 0 || j < r) ==> ms[j].user != u
  {
    if ms == [] then -1
    else if ms[0].user == u then 0
    else
      var k := MemberIndex(ms[1..], u);
      if k < 0 then -1 else k + 1
  }

  /** `members.some(m => m.user === u)`. */
  predicate IsMember(ms: seq<Membership>, u: UserId)
  {
    exists j :: 0 <= j < |ms| && ms[j].user == u
  }

  /** `members.find(m => m.user === u)`: the first entry of `u`, if any. */
  function FindMember(ms: seq<Membership>, u: UserId): (r: Option<Membership>)
    ensures r.Some? <==> IsMember(ms, u)
    ensures r.Some? ==> r.value in ms && r.value.user == u
    ensures r.Some? ==>
      exists i :: 0 <= i < |ms| && ms[i] == r.value && forall j :: 0 <= j < i ==> ms[j].user != u
  {
    var i := MemberIndex(ms, u);
    if i < 0 then None else Some(ms[i])
  }

  /** No user has two entries in `members`. */
  ghost predicate UniqueMembers(ms: seq<Membership>)
  {
    forall i, j :: 0 <= i < j < |ms| ==> ms[i].user != ms[j].user
  }

  /**
   * The membership invariant: members are unique and the creator, who is
   * implicitly privileged, never has an entry of their own.
   */
  ghost predicate MembershipInvariant(p: Project)
  {
    UniqueMembers(p.members) && !IsMember(p.members, p.creator)
  }

  /** The user created the project. */
  predicate IsCreator(p: Project, u: UserId)
  {
    p.creator == u
  }

  /** The user belongs to the project through a membership, not as its creator. */
  predicate IsNonCreatorMember(p: Project, u: UserId)
  {
    p.creator != u && IsMember(p.members, u)
  }

  /** The project involves the user, as creator or as a member. */
  predicate Involves(p: Project, u: UserId)
  {
    p.creator == u || IsMember(p.members, u)
  }

  function CreatedBy(ps: seq<Project>, u: UserId): seq<Project>
  {
    Filter(ps, p => IsCreator(p, u))
  }

  function JoinedNotCreated(ps: seq<Project>, u: UserId): seq<Project>
  {
    Filter(ps, p => IsNonCreatorMember(p, u))
  }

  /**
   * Over projects that all involve the user, "created by" and "member but not
   * creator" split the list: no project is in both and the counts add up.
   */
  lemma CreatedAndJoinedPartition(ps: seq<Project>, u: UserId)
    requires forall p :: p in ps ==> Involves(p, u)
    ensures |CreatedBy(ps, u)| + |JoinedNotCreated(ps, u)| == |ps|
    ensures forall p :: p in CreatedBy(ps, u) ==> p !in JoinedNotCreated(ps, u)
  {
    FilterComplementLengths(ps, p => IsCreator(p, u), p => IsNonCreatorMember(p, u));
  }
}
