/**
 * The profile routes: the statistics `GET /stats` computes over the
 * projects that involve the user and the observations they made, and the
 * membership projection of `GET /activity`.
 *
 * The two dictionaries the handler fills in `forEach` loops,
 * `observationsByMonth` and `speciesCount`, are association lists kept in
 * the order their keys were first inserted.
 */
module ProfileRoutes {
  import opened Seqs
  import opened Text
  import opened Records

  // ---------------------------------------------------------------------
  // Project counts
  // ---------------------------------------------------------------------

  /**
   * The `isPublic` property the handler reads. The Project schema declares
   * no such path (it stores `visibility`), so every document reads it as
   * `undefined`.
   */
  function IsPublicProperty(p: Project): Option<bool>
  {
    None
  }

  /** JavaScript truthiness of a property that may be `undefined`. */
  predicate TruthyBool(b: Option<bool>)
  {
    b == Some(true)
  }

  /** `publicProjects` as written: created projects whose `isPublic` is truthy. */
  function PublicProjectsAsWritten(ps: seq<Project>, u: UserId): nat
  {
    |Filter(ps, p => TruthyBool(IsPublicProperty(p)) && IsCreator(p, u))|
  }

  /** `privateProjects` as written: created projects whose `isPublic` is falsy. */
  function PrivateProjectsAsWritten(ps: seq<Project>, u: UserId): nat
  {
    |Filter(ps, p => !TruthyBool(IsPublicProperty(p)) && IsCreator(p, u))|
  }

  /**
   * As written, no project is ever counted public and every created project
   * is counted private, whatever its visibility.
   */
  lemma PublicProjectsAsWrittenIgnoresVisibility(ps: seq<Project>, u: UserId)
    ensures PublicProjectsAsWritten(ps, u) == 0
    ensures PrivateProjectsAsWritten(ps, u) == |CreatedBy(ps, u)|
  {
    FilterNone(ps, p => TruthyBool(IsPublicProperty(p)) && IsCreator(p, u));
    FilterSamePredicate(ps, p => !TruthyBool(IsPublicProperty(p)) && IsCreator(p, u), p => IsCreator(p, u));
  }

  /** Two predicates that agree on every element filter alike. */
  lemma {:induction false} FilterSamePredicate<T>(s: seq<T>, p: T -> bool, q: T -> bool)
    requires forall x :: x in s ==> (p(x) <==> q(x))
    ensures Filter(s, p) == Filter(s, q)
  {
    if s != [] {
      FilterSamePredicate(s[1..], p, q);
    }
  }

  /** The user's only project, public and created by them, is counted private and not public. */
  lemma PublicProjectsCounterexample(p: Project)
    requires p.visibility == Public
    ensures PublicProjectsAsWritten([p], p.creator) == 0
    ensures PublicProjects([p], p.creator) == 1
  {
    PublicProjectsAsWrittenIgnoresVisibility([p], p.creator);
    assert [p][1..] == [];
  }

  /** `publicProjects` as intended: created projects whose visibility is public. */
  function PublicProjects(ps: seq<Project>, u: UserId): nat
  {
    |Filter(ps, (p: Project) => p.visibility == Public && IsCreator(p, u))|
  }

  /** `privateProjects` as intended: created projects whose visibility is private. */
  function PrivateProjects(ps: seq<Project>, u: UserId): nat
  {
    |Filter(ps, (p: Project) => p.visibility == Private && IsCreator(p, u))|
  }

  /** Every created project is counted exactly once, as public or as private. */
  lemma {:induction false} VisibilitySplitsCreated(ps: seq<Project>, u: UserId)
    ensures PublicProjects(ps, u) + PrivateProjects(ps, u) == |CreatedBy(ps, u)|
  {
    if ps != [] {
      VisibilitySplitsCreated(ps[1..], u);
    }
  }

  // ---------------------------------------------------------------------
  // Projects by status
  // ---------------------------------------------------------------------

  datatype StatusCounts = StatusCounts(planificat: nat, activ: nat, finalizat: nat, suspendat: nat)
  {
    function Total(): nat
    {
      planificat + activ + finalizat + suspendat
    }
  }

  /** The projects whose status is exactly `status`. */
  function WithStatus(ps: seq<Project>, status: string): seq<Project>
  {
    Filter(ps, (p: Project) => p.status == status)
  }

  /** `projectsByStatus`: one count per status of the schema's enumeration. */
  function CountByStatus(ps: seq<Project>): (c: StatusCounts)
    ensures c.Total() <= |ps|
    ensures (forall p :: p in ps ==> IsProjectStatus(p.status)) ==> c.Total() == |ps|
  {
    StatusCountsBound(ps);
    StatusCounts(
      |WithStatus(ps, "planificat")|,
      |WithStatus(ps, "activ")|,
      |WithStatus(ps, "finalizat")|,
      |WithStatus(ps, "suspendat")|)
  }

  /** The statuses the Project schema allows. */
  predicate IsProjectStatus(s: string)
  {
    s == "planificat" || s == "activ" || s == "finalizat" || s == "suspendat"
  }

  /**
   * A project is counted under at most one status, so the four counts never
   * exceed the number of projects, and reach it when every status is one of
   * the four.
   */
  lemma {:induction false} StatusCountsBound(ps: seq<Project>)
    ensures |WithStatus(ps, "planificat")| + |WithStatus(ps, "activ")|
          + |WithStatus(ps, "finalizat")| + |WithStatus(ps, "suspendat")| <= |ps|
    ensures (forall p :: p in ps ==> IsProjectStatus(p.status)) ==>
      |WithStatus(ps, "planificat")| + |WithStatus(ps, "activ")|
      + |WithStatus(ps, "finalizat")| + |WithStatus(ps, "suspendat")| == |ps|
  {
    if ps != [] {
      StatusCountsBound(ps[1..]);
      assert forall p :: p in ps[1..] ==> p in ps;
    }
  }

  // ---------------------------------------------------------------------
  // Observations by month
  // ---------------------------------------------------------------------

  /** The test "dated at or after `cutoff`". */
  function IsRecent(cutoff: Instant): Observation -> bool
  {
    (o: Observation) => o.observationDate.stamp >= cutoff
  }

  /**
   * The observations dated at or after the cutoff (one year before the
   * request): every such observation and nothing else.
   */
  function RecentObservations(obs: seq<Observation>, cutoff: Instant): (r: seq<Observation>)
    ensures forall o :: o in r <==> o in obs && o.observationDate.stamp >= cutoff
  {
    var r := Filter(obs, IsRecent(cutoff));
    forall o | o in obs && o.observationDate.stamp >= cutoff ensures o in r {
      FilterKeeps(obs, IsRecent(cutoff), o);
    }
    r
  }

  /** The query keeps the observations in the order they came: selecting from a concatenation concatenates the selections. */
  lemma RecentObservationsInOrder(a: seq<Observation>, b: seq<Observation>, cutoff: Instant)
    ensures RecentObservations(a + b, cutoff) == RecentObservations(a, cutoff) + RecentObservations(b, cutoff)
  {
    FilterConcat(a, b, IsRecent(cutoff));
  }

  /** The `YYYY-MM` key of a date: the year in decimal, a dash, the month padded to two digits. */
  function MonthKey(d: Date): (k: string)
    ensures |k| >= 4 && IsDigit(k[0]) && k[|k| - 3] == '-'
  {
    DecimalRoundTrip(d.year);
    Pad2TwoDigits(d.month);
    DecimalString(d.year) + "-" + Pad2(d.month)
  }

  /** A month key is the year's digits, a dash and exactly two digits that read back as the month. */
  lemma MonthKeyShape(d: Date)
    ensures var k := MonthKey(d);
      && |k| == |DecimalString(d.year)| + 3
      && k[..|k| - 3] == DecimalString(d.year)
      && k[|k| - 3] == '-'
      && k[|k| - 2..] == Pad2(d.month)
      && IsDigit(k[|k| - 2]) && IsDigit(k[|k| - 1])
      && DigitsValue(k[|k| - 2..]) == d.month
  {
    Pad2TwoDigits(d.month);
    var k := MonthKey(d);
    assert k[..|k| - 3] == DecimalString(d.year);
    assert k[|k| - 2..] == Pad2(d.month);
  }

  /** Two dates share a key exactly when they fall in the same year and month. */
  lemma MonthKeyInjective(a: Date, b: Date)
    ensures MonthKey(a) == MonthKey(b) <==> a.year == b.year && a.month == b.month
  {
    if MonthKey(a) == MonthKey(b) {
      MonthKeyShape(a);
      MonthKeyShape(b);
      var ka := MonthKey(a);
      assert |DecimalString(a.year)| == |DecimalString(b.year)|;
      DecimalInjective(a.year, b.year);
      assert Pad2(a.month) == ka[|ka| - 2..] == Pad2(b.month);
    }
  }

  datatype MonthCount = MonthCount(month: string, count: nat)

  /** The keys of a month tally, in insertion order. */
  function Months(t: seq<MonthCount>): (ks: seq<string>)
    ensures |ks| == |t| && forall i :: 0 <= i < |t| ==> ks[i] == t[i].month
  {
    seq(|t|, i requires 0 <= i < |t| => t[i].month)
  }

  /** `observationsByMonth[key] || 0`. */
  function MonthCountOf(t: seq<MonthCount>, key: string): nat
  {
    var i := Find(Months(t), key);
    if i < 0 then 0 else t[i].count
  }

  /** One step of the loop: create the key at 0 if absent, then increment it. */
  function BumpMonth(t: seq<MonthCount>, key: string): seq<MonthCount>
  {
    var i := Find(Months(t), key);
    if i < 0 then t + [MonthCount(key, 1)] else t[i := t[i].(count := t[i].count + 1)]
  }

  /** The tally after the loop has visited every observation of `recent`, in order. */
  function MonthTally(recent: seq<Observation>): seq<MonthCount>
  {
    if recent == [] then []
    else BumpMonth(MonthTally(recent[..|recent| - 1]), MonthKey(recent[|recent| - 1].observationDate))
  }

  /** One more observation bumps the tally of the prefix before it. */
  lemma MonthTallyStep(recent: seq<Observation>, n: nat)
    requires n < |recent|
    ensures MonthTally(recent[..n + 1]) == BumpMonth(MonthTally(recent[..n]), MonthKey(recent[n].observationDate))
  {
    assert recent[..n + 1][..n] == recent[..n];
  }

  /** The test "dated in the month `key`". */
  function MonthIs(key: string): Observation -> bool
  {
    (o: Observation) => MonthKey(o.observationDate) == key
  }

  /** The observations whose date falls under `key`. */
  function InMonth(recent: seq<Observation>, key: string): seq<Observation>
  {
    Filter(recent, MonthIs(key))
  }

  /** No key is stored twice. */
  ghost predicate DistinctKeys(ks: seq<string>)
  {
    forall i, j :: 0 <= i < j < |ks| ==> ks[i] != ks[j]
  }

  function SumMonthCounts(t: seq<MonthCount>): nat
  {
    if t == [] then 0 else SumMonthCounts(t[..|t| - 1]) + t[|t| - 1].count
  }

  /** A bump adds one to the key it names and leaves every other key's count alone. */
  lemma BumpMonthCounts(t: seq<MonthCount>, key: string, other: string)
    ensures MonthCountOf(BumpMonth(t, key), other) == MonthCountOf(t, other) + (if other == key then 1 else 0)
  {
    var i := Find(Months(t), key);
    var t' := BumpMonth(t, key);
    if i < 0 {
      assert Months(t') == Months(t) + [key];
      FindAppend(Months(t), key, other);
    } else {
      assert Months(t') == Months(t);
    }
  }

  /** A bump stores a key at most once if the tally did. */
  lemma BumpMonthDistinct(t: seq<MonthCount>, key: string)
    requires DistinctKeys(Months(t))
    ensures DistinctKeys(Months(BumpMonth(t, key)))
  {
    var t' := BumpMonth(t, key);
    if Find(Months(t), key) < 0 {
      assert Months(t') == Months(t) + [key];
    } else {
      assert Months(t') == Months(t);
    }
  }

  /** A bump adds one to the sum of the counts. */
  lemma BumpMonthSum(t: seq<MonthCount>, key: string)
    ensures SumMonthCounts(BumpMonth(t, key)) == SumMonthCounts(t) + 1
  {
    var i := Find(Months(t), key);
    var t' := BumpMonth(t, key);
    if i < 0 {
      assert t'[..|t'| - 1] == t;
    } else {
      SumMonthCountsUpdate(t, i, t[i].count + 1);
    }
  }

  /** Changing one count changes the sum by the difference. */
  lemma {:induction false} SumMonthCountsUpdate(t: seq<MonthCount>, i: nat, c: nat)
    requires i < |t|
    ensures SumMonthCounts(t[i := t[i].(count := c)]) + t[i].count == SumMonthCounts(t) + c
  {
    var t' := t[i := t[i].(count := c)];
    if i < |t| - 1 {
      assert t'[..|t'| - 1] == t[..|t| - 1][i := t[i].(count := c)];
      SumMonthCountsUpdate(t[..|t| - 1], i, c);
    } else {
      assert t'[..|t'| - 1] == t[..|t| - 1];
    }
  }

  /**
   * After the loop, every key is stored once, its value is the number of
   * recent observations in that month, and the values add up to the number
   * of recent observations.
   */
  lemma MonthTallyCorrect(recent: seq<Observation>)
    ensures DistinctKeys(Months(MonthTally(recent)))
    ensures forall key :: MonthCountOf(MonthTally(recent), key) == |InMonth(recent, key)|
    ensures SumMonthCounts(MonthTally(recent)) == |recent|
  {
    MonthTallyDistinct(recent);
    MonthTallySum(recent);
    forall key ensures MonthCountOf(MonthTally(recent), key) == |InMonth(recent, key)| {
      MonthTallyCount(recent, key);
    }
  }

  lemma {:induction false} MonthTallyDistinct(recent: seq<Observation>)
    ensures DistinctKeys(Months(MonthTally(recent)))
  {
    if recent != [] {
      var front := recent[..|recent| - 1];
      MonthTallyDistinct(front);
      BumpMonthDistinct(MonthTally(front), MonthKey(recent[|recent| - 1].observationDate));
    }
  }

  lemma {:induction false} MonthTallySum(recent: seq<Observation>)
    ensures SumMonthCounts(MonthTally(recent)) == |recent|
  {
    if recent != [] {
      var front := recent[..|recent| - 1];
      MonthTallySum(front);
      BumpMonthSum(MonthTally(front), MonthKey(recent[|recent| - 1].observationDate));
    }
  }

  lemma {:induction false} MonthTallyCount(recent: seq<Observation>, key: string)
    ensures MonthCountOf(MonthTally(recent), key) == |InMonth(recent, key)|
  {
    if recent != [] {
      var front, last := recent[..|recent| - 1], recent[|recent| - 1];
      MonthTallyCount(front, key);
      BumpMonthCounts(MonthTally(front), MonthKey(last.observationDate), key);
      InMonthLast(recent, key);
    }
  }

  /** `InMonthAppend` for a sequence split before its last element. */
  lemma InMonthLast(recent: seq<Observation>, key: string)
    requires recent != []
    ensures var last := recent[|recent| - 1];
      |InMonth(recent, key)| == |InMonth(recent[..|recent| - 1], key)| + (if MonthKey(last.observationDate) == key then 1 else 0)
  {
    var front, last := recent[..|recent| - 1], recent[|recent| - 1];
    assert recent == front + [last];
    InMonthAppend(front, last, key);
  }

  /** One more observation adds one to the count of its own month only. */
  lemma InMonthAppend(front: seq<Observation>, last: Observation, key: string)
    ensures |InMonth(front + [last], key)| == |InMonth(front, key)| + (if MonthKey(last.observationDate) == key then 1 else 0)
  {
    FilterConcat(front, [last], MonthIs(key));
    assert [last][1..] == [];
  }

  /** The body of that loop: create the key at 0 when it is missing, then increment it. */
  method IncrementMonth(t: seq<MonthCount>, key: string) returns (t': seq<MonthCount>)
    ensures t' == BumpMonth(t, key)
  {
    t' := t;
    var i := Find(Months(t'), key);
    ghost var absent := i < 0;
    if i < 0 {
      t' := t' + [MonthCount(key, 0)];
      i := |t'| - 1;
    }
    t' := t'[i := t'[i].(count := t'[i].count + 1)];
    assert absent ==> t' == t + [MonthCount(key, 1)];
  }

  /** The `forEach` over the recent observations that fills `observationsByMonth`. */
  method TallyByMonth(recent: seq<Observation>) returns (t: seq<MonthCount>)
    ensures t == MonthTally(recent)
  {
    t := [];
    var n := 0;
    while n < |recent|
      invariant 0 <= n <= |recent|
      invariant t == MonthTally(recent[..n])
    {
      var key := MonthKey(recent[n].observationDate);
      t := IncrementMonth(t, key);
      MonthTallyStep(recent, n);
      n := n + 1;
    }
    assert recent[..n] == recent;
  }

  // ---------------------------------------------------------------------
  // Species tally and the top ten
  // ---------------------------------------------------------------------

  datatype SpeciesStat = SpeciesStat(scientificName: string, commonName: Option<string>, count: nat, totalIndividuals: int)

  function Names(t: seq<SpeciesStat>): (ks: seq<string>)
    ensures |ks| == |t| && forall i :: 0 <= i < |t| ==> ks[i] == t[i].scientificName
  {
    seq(|t|, i requires 0 <= i < |t| => t[i].scientificName)
  }

  /**
   * One step of the loop: the first observation of a name creates its entry
   * with that observation's common name; every observation then adds one to
   * `count` and its own `count` to `totalIndividuals`.
   */
  function BumpSpecies(t: seq<SpeciesStat>, o: Observation): seq<SpeciesStat>
  {
    var name := o.species.scientificName;
    var i := Find(Names(t), name);
    if i < 0 then t + [SpeciesStat(name, o.species.commonName, 1, o.count)]
    else t[i := t[i].(count := t[i].count + 1, totalIndividuals := t[i].totalIndividuals + o.count)]
  }

  function SpeciesTally(obs: seq<Observation>): seq<SpeciesStat>
  {
    if obs == [] then [] else BumpSpecies(SpeciesTally(obs[..|obs| - 1]), obs[|obs| - 1])
  }

  /** One more observation bumps the tally of the prefix before it. */
  lemma SpeciesTallyStep(obs: seq<Observation>, n: nat)
    requires n < |obs|
    ensures SpeciesTally(obs[..n + 1]) == BumpSpecies(SpeciesTally(obs[..n]), obs[n])
  {
    assert obs[..n + 1][..n] == obs[..n];
  }

  /** The test "of the scientific name `name`". */
  function NameIs(name: string): Observation -> bool
  {
    (o: Observation) => o.species.scientificName == name
  }

  /** The observations of one scientific name. */
  function OfSpecies(obs: seq<Observation>, name: string): seq<Observation>
  {
    Filter(obs, NameIs(name))
  }

  /** The individuals the observations report in total. */
  function SumIndividuals(obs: seq<Observation>): int
  {
    if obs == [] then 0 else SumIndividuals(obs[..|obs| - 1]) + obs[|obs| - 1].count
  }

  lemma {:induction false} SumIndividualsAppend(a: seq<Observation>, b: seq<Observation>)
    ensures SumIndividuals(a + b) == SumIndividuals(a) + SumIndividuals(b)
    decreases |b|
  {
    if b == [] {
      assert a + b == a;
    } else {
      assert (a + b)[..|a + b| - 1] == a + b[..|b| - 1];
      SumIndividualsAppend(a, b[..|b| - 1]);
    }
  }

  /** What the tally says for one name: nothing, or its entry. */
  function StatOf(t: seq<SpeciesStat>, name: string): Option<SpeciesStat>
  {
    var i := Find(Names(t), name);
    if i < 0 then None else Some(t[i])
  }

  /** The tally's entry for a name describes exactly the observations of that name. */
  ghost predicate Describes(t: seq<SpeciesStat>, obs: seq<Observation>, name: string)
  {
    match StatOf(t, name)
    case None => OfSpecies(obs, name) == []
    case Some(s) =>
      && OfSpecies(obs, name) != []
      && s.scientificName == name
      && s.commonName == OfSpecies(obs, name)[0].species.commonName
      && s.count == |OfSpecies(obs, name)|
      && s.totalIndividuals == SumIndividuals(OfSpecies(obs, name))
  }

  /**
   * A step of the loop creates the entry of the observation's name on its
   * first observation, or adds to that entry, and touches no other name.
   */
  lemma BumpSpeciesStat(t: seq<SpeciesStat>, o: Observation, name: string)
    ensures var s := StatOf(t, name); var s' := StatOf(BumpSpecies(t, o), name);
      if name != o.species.scientificName then s' == s
      else if s.None? then s' == Some(SpeciesStat(name, o.species.commonName, 1, o.count))
      else s' == Some(s.value.(count := s.value.count + 1, totalIndividuals := s.value.totalIndividuals + o.count))
  {
    var t' := BumpSpecies(t, o);
    if Find(Names(t), o.species.scientificName) < 0 {
      assert Names(t') == Names(t) + [o.species.scientificName];
      FindAppend(Names(t), o.species.scientificName, name);
    } else {
      assert Names(t') == Names(t);
    }
  }

  /** A step stores a name at most once if the tally did. */
  lemma BumpSpeciesDistinct(t: seq<SpeciesStat>, o: Observation)
    requires DistinctKeys(Names(t))
    ensures DistinctKeys(Names(BumpSpecies(t, o)))
  {
    var t' := BumpSpecies(t, o);
    if Find(Names(t), o.species.scientificName) < 0 {
      assert Names(t') == Names(t) + [o.species.scientificName];
    } else {
      assert Names(t') == Names(t);
    }
  }

  /**
   * After the loop, each name is stored once, and its entry holds the common
   * name of its first observation, the number of its observations and the sum
   * of their counts; a name that was never observed has no entry.
   */
  lemma SpeciesTallyCorrect(obs: seq<Observation>)
    ensures DistinctKeys(Names(SpeciesTally(obs)))
    ensures forall name :: Describes(SpeciesTally(obs), obs, name)
  {
    SpeciesTallyDistinct(obs);
    forall name ensures Describes(SpeciesTally(obs), obs, name) {
      SpeciesTallyDescribes(obs, name);
    }
  }

  lemma {:induction false} SpeciesTallyDistinct(obs: seq<Observation>)
    ensures DistinctKeys(Names(SpeciesTally(obs)))
  {
    if obs != [] {
      var front := obs[..|obs| - 1];
      SpeciesTallyDistinct(front);
      BumpSpeciesDistinct(SpeciesTally(front), obs[|obs| - 1]);
    }
  }

  lemma {:induction false} SpeciesTallyDescribes(obs: seq<Observation>, name: string)
    ensures Describes(SpeciesTally(obs), obs, name)
  {
    if obs != [] {
      var front, last := obs[..|obs| - 1], obs[|obs| - 1];
      SpeciesTallyDescribes(front, name);
      BumpSpeciesStat(SpeciesTally(front), last, name);
      OfSpeciesLast(obs, name);
    }
  }

  /** `OfSpeciesAppend` for a sequence split before its last element. */
  lemma OfSpeciesLast(obs: seq<Observation>, name: string)
    requires obs != []
    ensures var front, last := obs[..|obs| - 1], obs[|obs| - 1];
      && OfSpecies(obs, name) == OfSpecies(front, name) + (if last.species.scientificName == name then [last] else [])
      && SumIndividuals(OfSpecies(obs, name)) == SumIndividuals(OfSpecies(front, name)) + (if last.species.scientificName == name then last.count else 0)
  {
    var front, last := obs[..|obs| - 1], obs[|obs| - 1];
    assert obs == front + [last];
    OfSpeciesAppend(front, last, name);
  }

  /** One more observation extends the observations of its own name only. */
  lemma OfSpeciesAppend(front: seq<Observation>, last: Observation, name: string)
    ensures OfSpecies(front + [last], name)
      == OfSpecies(front, name) + (if last.species.scientificName == name then [last] else [])
    ensures SumIndividuals(OfSpecies(front + [last], name))
      == SumIndividuals(OfSpecies(front, name)) + (if last.species.scientificName == name then last.count else 0)
  {
    FilterConcat(front, [last], NameIs(name));
    assert [last][1..] == [];
    var tail := if last.species.scientificName == name then [last] else [];
    SumIndividualsAppend(OfSpecies(front, name), tail);
    assert SumIndividuals([last]) == last.count by {
      assert [last][..0] == [];
    }
  }

  /** The body of that loop: create the entry with zero counts when it is missing, then add the observation. */
  method IncrementSpecies(t: seq<SpeciesStat>, o: Observation) returns (t': seq<SpeciesStat>)
    ensures t' == BumpSpecies(t, o)
  {
    t' := t;
    var name := o.species.scientificName;
    var i := Find(Names(t'), name);
    ghost var absent := i < 0;
    if i < 0 {
      t' := t' + [SpeciesStat(name, o.species.commonName, 0, 0)];
      i := |t'| - 1;
    }
    t' := t'[i := t'[i].(count := t'[i].count + 1)];
    t' := t'[i := t'[i].(totalIndividuals := t'[i].totalIndividuals + o.count)];
    assert absent ==> t' == t + [SpeciesStat(name, o.species.commonName, 1, o.count)];
  }

  /** The `forEach` over all the user's observations that fills `speciesCount`. */
  method TallySpecies(obs: seq<Observation>) returns (t: seq<SpeciesStat>)
    ensures t == SpeciesTally(obs)
  {
    t := [];
    var n := 0;
    while n < |obs|
      invariant 0 <= n <= |obs|
      invariant t == SpeciesTally(obs[..n])
    {
      t := IncrementSpecies(t, obs[n]);
      SpeciesTallyStep(obs, n);
      n := n + 1;
    }
    assert obs[..n] == obs;
  }

  /** The number of entries `slice(0, 10)` keeps. */
  const TopCount: nat := 10

  function Min(a: nat, b: nat): nat
  {
    if a <= b then a else b
  }

  /** `(b, a) => b.count - a.count` is the ascending comparator of the key `-count`. */
  function ByCountDescending(s: SpeciesStat): int
  {
    -(s.count as int)
  }

  /** `topSpecies`: the tally sorted stably by decreasing count, cut to its first ten entries. */
  function TopSpecies(t: seq<SpeciesStat>): (top: seq<SpeciesStat>)
    ensures |top| <= TopCount
  {
    var sorted := SortByKey(t, ByCountDescending);
    sorted[..Min(TopCount, |sorted|)]
  }

  /**
   * The top list has at most ten entries, all from the tally, in
   * non-increasing order of count, and no entry it leaves out was observed
   * more often than any entry it keeps; it drops nothing when the tally is
   * short.
   */
  lemma TopSpeciesCorrect(t: seq<SpeciesStat>)
    ensures |TopSpecies(t)| == Min(TopCount, |t|)
    ensures forall s :: s in TopSpecies(t) ==> s in t
    ensures forall i, j :: 0 <= i < j < |TopSpecies(t)| ==> TopSpecies(t)[i].count >= TopSpecies(t)[j].count
    ensures forall s, s' :: s in t && s !in TopSpecies(t) && s' in TopSpecies(t) ==> s'.count >= s.count
    ensures |t| <= TopCount ==> multiset(TopSpecies(t)) == multiset(t)
  {
    TopSpeciesFromTally(t);
    TopSpeciesOrdered(t);
    TopSpeciesKeepsHighest(t);
  }

  /** The top list is a prefix of a permutation of the tally. */
  lemma TopSpeciesFromTally(t: seq<SpeciesStat>)
    ensures |TopSpecies(t)| == Min(TopCount, |t|)
    ensures forall s :: s in TopSpecies(t) ==> s in t
    ensures |t| <= TopCount ==> multiset(TopSpecies(t)) == multiset(t)
  {
    var sorted := SortByKey(t, ByCountDescending);
    var top := TopSpecies(t);
    assert |sorted| == |multiset(sorted)| == |multiset(t)| == |t|;
    forall s | s in top ensures s in t {
      assert s in multiset(sorted);
    }
    if |t| <= TopCount {
      assert top == sorted;
    }
  }

  lemma TopSpeciesOrdered(t: seq<SpeciesStat>)
    ensures forall i, j :: 0 <= i < j < |TopSpecies(t)| ==> TopSpecies(t)[i].count >= TopSpecies(t)[j].count
  {
    var sorted := SortByKey(t, ByCountDescending);
    var top := TopSpecies(t);
    forall i, j | 0 <= i < j < |top| ensures top[i].count >= top[j].count {
      assert top[i] == sorted[i] && top[j] == sorted[j];
      assert ByCountDescending(sorted[i]) <= ByCountDescending(sorted[j]);
    }
  }

  lemma TopSpeciesKeepsHighest(t: seq<SpeciesStat>)
    ensures forall s, s' :: s in t && s !in TopSpecies(t) && s' in TopSpecies(t) ==> s'.count >= s.count
  {
    forall s, s' | s in t && s !in TopSpecies(t) && s' in TopSpecies(t) ensures s'.count >= s.count {
      TopSpeciesPair(t, s, s');
    }
  }

  /** One pair: an entry left out of the top list has no higher count than one kept. */
  lemma TopSpeciesPair(t: seq<SpeciesStat>, s: SpeciesStat, s': SpeciesStat)
    requires s in t && s !in TopSpecies(t) && s' in TopSpecies(t)
    ensures s'.count >= s.count
  {
    var sorted := SortByKey(t, ByCountDescending);
    var top := TopSpecies(t);
    assert s in multiset(sorted);
    var j :| 0 <= j < |sorted| && sorted[j] == s;
    var i :| 0 <= i < |top| && top[i] == s';
    OutsidePrefix(sorted, |top|, j);
    SortedByCountDescending(sorted, i, j);
  }

  /** An element of `s` that is not in a prefix of `s` stands at or after that prefix's end. */
  lemma OutsidePrefix<T>(s: seq<T>, n: nat, j: nat)
    requires n <= |s| && j < |s| && s[j] !in s[..n]
    ensures j >= n
  {
  }

  /** In a list sorted by `ByCountDescending`, an earlier entry has a count at least as high. */
  lemma SortedByCountDescending(sorted: seq<SpeciesStat>, i: nat, j: nat)
    requires SortedByKey(sorted, ByCountDescending)
    requires i < j < |sorted|
    ensures sorted[i].count >= sorted[j].count
  {
    assert ByCountDescending(sorted[i]) <= ByCountDescending(sorted[j]);
  }

  // ---------------------------------------------------------------------
  // The whole response
  // ---------------------------------------------------------------------

  datatype Stats = Stats(
    totalProjects: nat,
    createdProjects: nat,
    memberProjects: nat,
    publicProjects: nat,
    privateProjects: nat,
    totalObservations: nat,
    projectsByStatus: StatusCounts,
    observationsByMonth: seq<MonthCount>,
    topSpecies: seq<SpeciesStat>)

  /**
   * The statistics of user `u`, from the projects that involve them, the
   * observations they made and the one-year cutoff. Public and private
   * projects are counted by visibility.
   */
  function StatsOf(u: UserId, ps: seq<Project>, obs: seq<Observation>, cutoff: Instant): (s: Stats)
    ensures s.publicProjects + s.privateProjects == s.createdProjects
    ensures SumMonthCounts(s.observationsByMonth) == |RecentObservations(obs, cutoff)|
    ensures |s.topSpecies| <= TopCount
  {
    VisibilitySplitsCreated(ps, u);
    MonthTallyCorrect(RecentObservations(obs, cutoff));
    Stats(
      |ps|,
      |CreatedBy(ps, u)|,
      |JoinedNotCreated(ps, u)|,
      PublicProjects(ps, u),
      PrivateProjects(ps, u),
      |obs|,
      CountByStatus(ps),
      MonthTally(RecentObservations(obs, cutoff)),
      TopSpecies(SpeciesTally(obs)))
  }

  /** The `/stats` handler after its two queries. */
  method ComputeStats(u: UserId, ps: seq<Project>, obs: seq<Observation>, cutoff: Instant) returns (stats: Stats)
    ensures stats == StatsOf(u, ps, obs, cutoff)
  {
    var recent := RecentObservations(obs, cutoff);
    var byMonth := TallyByMonth(recent);
    var species := TallySpecies(obs);
    stats := Stats(
      |ps|,
      |CreatedBy(ps, u)|,
      |JoinedNotCreated(ps, u)|,
      PublicProjects(ps, u),
      PrivateProjects(ps, u),
      |obs|,
      CountByStatus(ps),
      byMonth,
      TopSpecies(species));
  }

  /**
   * The statistics agree with each other over the projects the query
   * returns (each involves the user): created and member-only projects add
   * up to the total, public and private to the created ones, the status
   * counts stay within the total, the months add up to the recent
   * observations, and the top list is at most ten entries long.
   */
  lemma StatsConsistent(u: UserId, ps: seq<Project>, obs: seq<Observation>, cutoff: Instant)
    requires forall p :: p in ps ==> Involves(p, u)
    ensures var s := StatsOf(u, ps, obs, cutoff);
      && s.createdProjects + s.memberProjects == s.totalProjects
      && s.publicProjects + s.privateProjects == s.createdProjects
      && s.projectsByStatus.Total() <= s.totalProjects
      && SumMonthCounts(s.observationsByMonth) <= s.totalObservations
      && |s.topSpecies| <= TopCount
  {
    CreatedAndJoinedPartition(ps, u);
    VisibilitySplitsCreated(ps, u);
    MonthTallyCorrect(RecentObservations(obs, cutoff));
    TopSpeciesCorrect(SpeciesTally(obs));
  }

  // ---------------------------------------------------------------------
  // Recent memberships (GET /activity)
  // ---------------------------------------------------------------------

  datatype MembershipActivity = MembershipActivity(
    id: string,
    title: string,
    creator: string,
    role: string,
    joinedDate: Option<Instant>)

  /** The role reported for a project the user does not (or no longer) appear in. */
  const UnknownRole: string := "unknown"

  /**
   * One entry of `recentMemberships`: the user's first membership row gives
   * the role and join date; without a row the role is 'unknown' and the date
   * null.
   */
  function MembershipEntry(p: Project, creatorName: string, u: UserId): (e: MembershipActivity)
    ensures e.id == p.id && e.title == p.title && e.creator == creatorName
    ensures e.joinedDate.None? <==> !IsMember(p.members, u)
    ensures !IsMember(p.members, u) ==> e.role == UnknownRole
    ensures IsMember(p.members, u) ==>
      exists i :: 0 <= i < |p.members| && p.members[i].user == u
        && (forall j :: 0 <= j < i ==> p.members[j].user != u)
        && e.role == p.members[i].role && e.joinedDate == Some(p.members[i].joinedDate)
  {
    var i := MemberIndex(p.members, u);
    if i < 0 then MembershipActivity(p.id, p.title, creatorName, UnknownRole, None)
    else
      var m := p.members[i];
      MembershipActivity(p.id, p.title, creatorName, m.role, Some(m.joinedDate))
  }
}
