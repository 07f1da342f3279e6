/**
 * The browser side of the tracker: the five project filters and the list
 * view that applies them, sorts the result and reports its size; the split
 * of the user's projects into created and joined ones; and the parser of
 * the comma-separated target-species field of the project form.
 */
module Client {
  import opened Seqs
  import opened Text
  import opened Records

  /**
   * A project as `GET /api/projects` delivers it to the browser: the stored
   * record, the populated creator's name and the creation instant.
   */
  datatype ListedProject = ListedProject(project: Project, creatorName: string, createdAt: Instant)

  // ---------------------------------------------------------------------
  // Filters
  // ---------------------------------------------------------------------

  /** `currentFilters`. The two free-text terms are kept in lower case. */
  datatype Filters = Filters(search: string, status: string, visibility: string, creator: string, species: string)

  /** The filters before any is set, and after "clear". */
  const NoFilters: Filters := Filters("", "", "", "", "")

  /** The value of each filter control; `None` when the control is absent from the page. */
  datatype FilterInputs = FilterInputs(
    search: Option<string>,
    status: Option<string>,
    visibility: Option<string>,
    creator: Option<string>,
    species: Option<string>)

  /** The creator-filter value that selects the logged-in user's own projects. */
  const Mine: string := "mine"

  /** `control?.value || ''`. */
  function ValueOr(control: Option<string>): string
  {
    if control.Some? then control.value else ""
  }

  /** Reads the filters off the controls, lowering the two free-text terms. */
  function CollectFilters(inputs: FilterInputs): (f: Filters)
    ensures ToLower(f.search) == f.search && ToLower(f.species) == f.species
    ensures f.status == ValueOr(inputs.status) && f.visibility == ValueOr(inputs.visibility)
    ensures f.creator == ValueOr(inputs.creator)
    ensures inputs.search.None? ==> f.search == ""
    ensures inputs.species.None? ==> f.species == ""
    ensures f.search == ToLower(ValueOr(inputs.search)) && f.species == ToLower(ValueOr(inputs.species))
  {
    ToLowerIdempotent(ValueOr(inputs.search));
    ToLowerIdempotent(ValueOr(inputs.species));
    Filters(
      ToLower(ValueOr(inputs.search)),
      ValueOr(inputs.status),
      ValueOr(inputs.visibility),
      ValueOr(inputs.creator),
      ToLower(ValueOr(inputs.species)))
  }

  /**
   * `matchesSearchFilter`: an empty term passes every project; a term longer
   * than the title, the description and the creator's name passes none.
   */
  predicate MatchesSearch(f: Filters, lp: ListedProject): (m: bool)
    ensures f.search == "" ==> m
    ensures m && f.search != "" ==>
      |f.search| <= |lp.project.title| || |f.search| <= |lp.project.description| || |f.search| <= |lp.creatorName|
  {
    f.search == ""
    || Contains(ToLower(lp.project.title), f.search)
    || Contains(ToLower(lp.project.description), f.search)
    || Contains(ToLower(lp.creatorName), f.search)
  }

  /** `matchesStatusFilter`: an empty filter passes every project, a set one those of exactly that status. */
  predicate MatchesStatus(f: Filters, lp: ListedProject): (m: bool)
    ensures f.status == "" ==> m
    ensures f.status != "" ==> (m <==> lp.project.status == f.status)
  {
    f.status == "" || lp.project.status == f.status
  }

  /**
   * `matchesVisibilityFilter`: the stored spelling must equal the filter, so
   * a value other than 'public' or 'private' passes nothing.
   */
  predicate MatchesVisibility(f: Filters, lp: ListedProject): (m: bool)
    ensures f.visibility == "" ==> m
    ensures f.visibility != "" && m ==> IsVisibilityName(f.visibility) && ParseVisibility(f.visibility) == lp.project.visibility
    ensures m <==> f.visibility == "" || (IsVisibilityName(f.visibility) && ParseVisibility(f.visibility) == lp.project.visibility)
  {
    f.visibility == "" || VisibilityName(lp.project.visibility) == f.visibility
  }

  /**
   * `matchesCreatorFilter`, for the logged-in user `user` (if any): 'mine'
   * stands for that user and passes nothing when nobody is logged in; any
   * other value is a creator id.
   */
  predicate MatchesCreator(f: Filters, user: Option<UserId>, lp: ListedProject): (m: bool)
    ensures f.creator == "" ==> m
    ensures f.creator == Mine && user.None? ==> !m
    ensures f.creator != "" && m ==> lp.project.creator == (if f.creator == Mine then user.value else f.creator)
  {
    if f.creator == "" then true
    else if f.creator == Mine then user.Some? && lp.project.creator == user.value
    else lp.project.creator == f.creator
  }

  /** A target species whose scientific or (present) common name contains the term. */
  predicate SpeciesMentions(sp: Species, term: string)
  {
    Contains(ToLower(sp.scientificName), term)
    || (Truthy(sp.commonName) && Contains(ToLower(sp.commonName.value), term))
  }

  /** `matchesSpeciesFilter`: a set term passes only projects with a target species that mentions it. */
  predicate MatchesSpecies(f: Filters, lp: ListedProject): (m: bool)
    ensures f.species == "" ==> m
    ensures m && f.species != "" ==> exists sp :: sp in lp.project.targetSpecies && SpeciesMentions(sp, f.species)
  {
    f.species == ""
    || exists i :: 0 <= i < |lp.project.targetSpecies| && SpeciesMentions(lp.project.targetSpecies[i], f.species)
  }

  /** The conjunction `applyFilters` keeps a project by. */
  predicate MatchesAll(f: Filters, user: Option<UserId>, lp: ListedProject)
  {
    MatchesSearch(f, lp) && MatchesStatus(f, lp) && MatchesVisibility(f, lp)
    && MatchesCreator(f, user, lp) && MatchesSpecies(f, lp)
  }

  /** The projects the filters keep, in the order of `state.projects`. */
  function Selected(ps: seq<ListedProject>, f: Filters, user: Option<UserId>): (r: seq<ListedProject>)
    ensures forall lp :: lp in r <==> lp in ps && MatchesAll(f, user, lp)
  {
    var r := Filter(ps, lp => MatchesAll(f, user, lp));
    forall lp | lp in ps && MatchesAll(f, user, lp) ensures lp in r {
      FilterKeeps(ps, lp => MatchesAll(f, user, lp), lp);
    }
    r
  }

  /** With no filter set, every project is kept and the order is unchanged. */
  lemma NoFiltersKeepAll(ps: seq<ListedProject>, user: Option<UserId>)
    ensures Selected(ps, NoFilters, user) == ps
  {
    FilterIdentity(ps, lp => MatchesAll(NoFilters, user, lp));
  }

  /** Filtering on "mine" while logged out keeps nothing. */
  lemma MineWhenLoggedOut(ps: seq<ListedProject>, f: Filters)
    requires f.creator == Mine
    ensures Selected(ps, f, None) == []
  {
    FilterNone(ps, lp => MatchesAll(f, None, lp));
  }

  /**
   * Setting one more filter can only narrow the selection: a project kept
   * under the stricter filters is kept under the ones that leave that
   * filter empty.
   */
  lemma ClearingAFilterWidens(ps: seq<ListedProject>, f: Filters, user: Option<UserId>)
    ensures forall lp :: lp in Selected(ps, f, user) ==> lp in Selected(ps, f.(search := ""), user)
    ensures forall lp :: lp in Selected(ps, f, user) ==> lp in Selected(ps, f.(status := ""), user)
    ensures forall lp :: lp in Selected(ps, f, user) ==> lp in Selected(ps, f.(visibility := ""), user)
    ensures forall lp :: lp in Selected(ps, f, user) ==> lp in Selected(ps, f.(creator := ""), user)
    ensures forall lp :: lp in Selected(ps, f, user) ==> lp in Selected(ps, f.(species := ""), user)
  {
    forall lp | lp in Selected(ps, f, user)
      ensures && lp in Selected(ps, f.(search := ""), user)
              && lp in Selected(ps, f.(status := ""), user)
              && lp in Selected(ps, f.(visibility := ""), user)
              && lp in Selected(ps, f.(creator := ""), user)
              && lp in Selected(ps, f.(species := ""), user)
    {
      EmptyFilterPasses(f, user, lp);
    }
  }

  /** An empty filter passes every project, so a project passing all five passes with any one emptied. */
  lemma EmptyFilterPasses(f: Filters, user: Option<UserId>, lp: ListedProject)
    requires MatchesAll(f, user, lp)
    ensures MatchesAll(f.(search := ""), user, lp) && MatchesAll(f.(status := ""), user, lp)
    ensures MatchesAll(f.(visibility := ""), user, lp) && MatchesAll(f.(creator := ""), user, lp)
    ensures MatchesAll(f.(species := ""), user, lp)
  {
  }

  // ---------------------------------------------------------------------
  // Sorting
  // ---------------------------------------------------------------------

  /** `statusOrder`: the rank of each status of the schema; other strings have none. */
  function StatusOrder(s: string): Option<int>
  {
    if s == "activ" then Some(0)
    else if s == "planificat" then Some(1)
    else if s == "suspendat" then Some(2)
    else if s == "finalizat" then Some(3)
    else None
  }

  /** `statusOrder[s] || 4` as written: a rank of 0 is falsy and turns into 4. */
  function StatusRankAsWritten(s: string): (r: int)
    ensures 1 <= r <= 4
    ensures r == 4 <==> StatusOrder(s).None? || s == "activ"
  {
    var o := StatusOrder(s);
    if o.Some? && o.value != 0 then o.value else 4
  }

  /** The intended key: the status's rank, and 4 for a status outside the table. */
  function StatusRank(s: string): (r: int)
    ensures 0 <= r <= 4
    ensures r == 4 <==> StatusOrder(s).None?
  {
    StatusOrder(s).GetOr(4)
  }

  /**
   * As written, an active project ranks like an unknown status, after
   * finished ones; the two keys differ only on 'activ'.
   */
  lemma StatusRankAsWrittenSinksActive(s: string)
    ensures StatusRankAsWritten("activ") == 4 == StatusRankAsWritten("")
    ensures StatusRankAsWritten("finalizat") < StatusRankAsWritten("activ")
    ensures s != "activ" ==> StatusRankAsWritten(s) == StatusRank(s)
  {
  }

  /**
   * Sorted by the key as written, every finished project comes before every
   * active one.
   */
  lemma AsWrittenActiveAfterFinished(ps: seq<ListedProject>)
    ensures var r := SortByKey(ps, AsWrittenStatusKey);
      forall i, j :: 0 <= i < |r| && 0 <= j < |r| && r[i].project.status == "activ" && r[j].project.status == "finalizat" ==> j < i
  {
    var key := AsWrittenStatusKey;
    var r := SortByKey(ps, key);
    forall i, j | 0 <= i < |r| && 0 <= j < |r| && r[i].project.status == "activ" && r[j].project.status == "finalizat"
      ensures j < i
    {
      StatusRankAsWrittenSinksActive("");
      assert key(r[j]) == StatusRankAsWritten("finalizat");
      assert key(r[i]) == StatusRankAsWritten("activ");
      SortedOrdersByKey(r, key, j, i);
    }
  }

  /** In a list sorted by a key, an element of smaller key lies before one of larger key. */
  lemma SortedOrdersByKey<T>(r: seq<T>, key: T -> int, a: nat, b: nat)
    requires SortedByKey(r, key)
    requires a < |r| && b < |r| && key(r[a]) < key(r[b])
    ensures a < b
  {
  }

  /** The comparator key of the status sort as written. */
  function AsWrittenStatusKey(lp: ListedProject): int
  {
    StatusRankAsWritten(lp.project.status)
  }

  /** The comparator key of the status sort as intended. */
  function StatusKey(lp: ListedProject): int
  {
    StatusRank(lp.project.status)
  }

  /** The intended ranks: the four statuses in table order, then everything else. */
  lemma StatusRankOrders(s: string)
    ensures StatusRank("activ") < StatusRank("planificat") < StatusRank("suspendat") < StatusRank("finalizat")
    ensures StatusOrder(s).None? ==> StatusRank("finalizat") < StatusRank(s)
    ensures StatusRank(s) == 0 <==> s == "activ"
  {
  }

  /** The collation order `localeCompare` applies to titles, as integer keys. */
  type Collation = string -> int

  /**
   * The order `applySorting` puts the list in for a sort value: by creation
   * instant, by title, by status rank, or unchanged for any other value.
   * Every comparator is numeric, and `Array.prototype.sort` is stable.
   */
  function Arrange(ps: seq<ListedProject>, sortValue: string, collation: Collation): (r: seq<ListedProject>)
    ensures multiset(r) == multiset(ps)
    ensures sortValue == "date-desc" ==> forall i, j :: 0 <= i < j < |r| ==> r[i].createdAt >= r[j].createdAt
    ensures sortValue == "date-asc" ==> forall i, j :: 0 <= i < j < |r| ==> r[i].createdAt <= r[j].createdAt
    ensures sortValue == "title-asc" ==> forall i, j :: 0 <= i < j < |r| ==> collation(r[i].project.title) <= collation(r[j].project.title)
    ensures sortValue == "title-desc" ==> forall i, j :: 0 <= i < j < |r| ==> collation(r[i].project.title) >= collation(r[j].project.title)
    ensures sortValue == "status" ==> SortedByKey(r, StatusKey)
    ensures sortValue !in {"date-desc", "date-asc", "title-asc", "title-desc", "status"} ==> r == ps
  {
    if sortValue == "date-desc" then SortByKey(ps, (lp: ListedProject) => -lp.createdAt)
    else if sortValue == "date-asc" then SortByKey(ps, (lp: ListedProject) => lp.createdAt)
    else if sortValue == "title-asc" then SortByKey(ps, (lp: ListedProject) => collation(lp.project.title))
    else if sortValue == "title-desc" then SortByKey(ps, (lp: ListedProject) => -collation(lp.project.title))
    else if sortValue == "status" then SortByKey(ps, StatusKey)
    else ps
  }

  /** Under the status sort, every active project comes before every project of another status. */
  lemma StatusSortPutsActiveFirst(ps: seq<ListedProject>, collation: Collation)
    ensures var r := Arrange(ps, "status", collation);
      forall i, j :: 0 <= i < |r| && 0 <= j < |r| && r[i].project.status == "activ" && r[j].project.status != "activ" ==> i < j
  {
    var key := StatusKey;
    var r := Arrange(ps, "status", collation);
    forall i, j | 0 <= i < |r| && 0 <= j < |r| && r[i].project.status == "activ" && r[j].project.status != "activ"
      ensures i < j
    {
      StatusRankOrders(r[j].project.status);
      SortedOrdersByKey(r, key, i, j);
    }
  }

  // ---------------------------------------------------------------------
  // The result count
  // ---------------------------------------------------------------------

  /** `updateResultsCount`: the text shown for `count` of `total` projects. */
  function ResultsText(count: nat, total: nat): (text: string)
    ensures var digits := DecimalString(count);
      && |text| >= |digits| + |" proiecte"|
      && text[..|digits|] == digits
      && text[|text| - |" proiecte"|..] == " proiecte"
  {
    if count == total then DecimalString(count) + " proiecte"
    else DecimalString(count) + " din " + DecimalString(total) + " proiecte"
  }

  /** The short text shows exactly when nothing was filtered out. */
  lemma ResultsTextShort(count: nat, total: nat)
    ensures ResultsText(count, total) == DecimalString(total) + " proiecte" <==> count == total
  {
    if count != total {
      DecimalRoundTrip(count);
    }
  }

  /**
   * The count reads "N proiecte" exactly when every project passes the
   * filters; otherwise it reads "K din N proiecte".
   */
  lemma ResultsShowTotalIffAllPass(ps: seq<ListedProject>, f: Filters, user: Option<UserId>, sortValue: string, collation: Collation)
    ensures var shown := Arrange(Selected(ps, f, user), sortValue, collation);
      ResultsText(|shown|, |ps|) == DecimalString(|ps|) + " proiecte"
      <==> forall i :: 0 <= i < |ps| ==> MatchesAll(f, user, ps[i])
  {
    var sel := Selected(ps, f, user);
    var shown := Arrange(sel, sortValue, collation);
    assert |shown| == |multiset(shown)| == |multiset(sel)| == |sel|;
    FilterKeepsAll(ps, lp => MatchesAll(f, user, lp));
    ResultsTextShort(|shown|, |ps|);
  }

  // ---------------------------------------------------------------------
  // The list view
  // ---------------------------------------------------------------------

  /**
   * The state of the project list: the loaded projects, the logged-in user,
   * the filters and sort in force, and the list on display.
   */
  class ProjectBrowser {
    var projects: seq<ListedProject>
    var user: Option<UserId>
    var currentFilters: Filters
    var currentSort: string
    var filteredProjects: seq<ListedProject>

    /** The initial state: no filter, newest first, every project on display. */
    constructor (projects: seq<ListedProject>, user: Option<UserId>)
      ensures this.projects == projects && this.user == user
      ensures currentFilters == NoFilters && currentSort == "date-desc"
      ensures filteredProjects == projects
    {
      this.projects := projects;
      this.user := user;
      currentFilters := NoFilters;
      currentSort := "date-desc";
      filteredProjects := projects;
    }

    /** `applySorting`: the sort control's value when set, else the current sort, applied in place. */
    method ApplySorting(sortSelect: Option<string>, collation: Collation)
      modifies this
      ensures currentSort == if Truthy(sortSelect) then sortSelect.value else old(currentSort)
      ensures filteredProjects == Arrange(old(filteredProjects), currentSort, collation)
      ensures projects == old(projects) && user == old(user) && currentFilters == old(currentFilters)
    {
      currentSort := if Truthy(sortSelect) then sortSelect.value else currentSort;
      filteredProjects := Arrange(filteredProjects, currentSort, collation);
    }

    /**
     * `applyFilters`: collects the filters, keeps the projects that pass all
     * five, and sorts them.
     */
    method ApplyFilters(inputs: FilterInputs, sortSelect: Option<string>, collation: Collation)
      modifies this
      ensures currentFilters == CollectFilters(inputs)
      ensures currentSort == if Truthy(sortSelect) then sortSelect.value else old(currentSort)
      ensures filteredProjects == Arrange(Selected(projects, currentFilters, user), currentSort, collation)
      ensures forall lp :: lp in filteredProjects <==> lp in projects && MatchesAll(currentFilters, user, lp)
      ensures projects == old(projects) && user == old(user)
    {
      currentFilters := CollectFilters(inputs);
      filteredProjects := Selected(projects, currentFilters, user);
      ApplySorting(sortSelect, collation);
      assert forall lp :: lp in filteredProjects <==> lp in multiset(filteredProjects);
    }

    /** `updateResultsCount`: the counter shows the bare total exactly when the list on display is as long as the list loaded. */
    function ResultsCount(): (text: string)
      reads this
      ensures text == DecimalString(|projects|) + " proiecte" <==> |filteredProjects| == |projects|
    {
      ResultsTextShort(|filteredProjects|, |projects|);
      ResultsText(|filteredProjects|, |projects|)
    }
  }

  // ---------------------------------------------------------------------
  // The user's projects
  // ---------------------------------------------------------------------

  /** `userProjects.created`: the projects the user created. */
  function CreatedList(all: seq<ListedProject>, me: UserId): seq<ListedProject>
  {
    Filter(all, (lp: ListedProject) => lp.project.creator == me)
  }

  /** `userProjects.member`: the projects the user did not create but appears in as a member. */
  function MemberList(all: seq<ListedProject>, me: UserId): seq<ListedProject>
  {
    Filter(all, (lp: ListedProject) => lp.project.creator != me && IsMember(lp.project.members, me))
  }

  /**
   * The two lists are disjoint, neither loses a project that qualifies, and
   * together they hold no more projects than were loaded.
   */
  lemma {:induction false} UserProjectsPartition(all: seq<ListedProject>, me: UserId)
    ensures forall lp :: lp in CreatedList(all, me) <==> lp in all && lp.project.creator == me
    ensures forall lp :: lp in MemberList(all, me) <==>
      lp in all && lp.project.creator != me && IsMember(lp.project.members, me)
    ensures forall lp :: lp in CreatedList(all, me) ==> lp !in MemberList(all, me)
    ensures |CreatedList(all, me)| + |MemberList(all, me)| <= |all|
  {
    if all != [] {
      UserProjectsPartition(all[1..], me);
      assert forall lp :: lp in all <==> lp == all[0] || lp in all[1..];
    }
  }

  // ---------------------------------------------------------------------
  // Target species field
  // ---------------------------------------------------------------------

  /**
   * `/(.+)\s*\((.+)\)/` finds a match in `s`: some '(' that is not the first
   * character has a ')' at least two places after it.
   */
  ghost predicate RegexMatches(s: string)
  {
    exists k, c :: 1 <= k && k + 2 <= c < |s| && s[k] == '(' && s[c] == ')'
  }

  /**
   * One trimmed piece of the field. The greedy groups put the split at the
   * last '(' that leaves room for a common name before the last ')': the
   * scientific name is what precedes it, the common name what lies between
   * it and that ')', both trimmed. A piece without a match is a scientific
   * name alone.
   */
  function ParseSpecies(part: string): (sp: Species)
    ensures sp.commonName.None? ==> sp.scientificName == part
    ensures sp.commonName.Some? ==>
      && '(' in part && ')' in part
      && |sp.scientificName| + |sp.commonName.value| + 2 <= |part|
  {
    var close := LastIndexOf(part, ')');
    var open := if close >= 3 then LastIndexOf(part[..close - 1], '(') else -1;
    if open >= 1 then
      assert part[open] == part[..close - 1][open];
      Species(Trim(part[..open]), Some(Trim(part[open + 1..close])))
    else
      Species(part, None)
  }

  /**
   * A piece gets a common name exactly when the expression matches it;
   * otherwise the whole piece is the scientific name.
   */
  lemma ParseSpeciesFollowsRegex(part: string)
    ensures ParseSpecies(part).commonName.Some? <==> RegexMatches(part)
    ensures ParseSpecies(part).commonName.None? ==> ParseSpecies(part).scientificName == part
  {
    var close := LastIndexOf(part, ')');
    if RegexMatches(part) {
      var k, c :| 1 <= k && k + 2 <= c < |part| && part[k] == '(' && part[c] == ')';
      assert part[..close - 1][k] == '(';
    }
  }

  /** One piece of the field, trimmed then parsed. */
  function ParsePiece(piece: string): Species
  {
    ParseSpecies(Trim(piece))
  }

  /** The pieces parsed in order, one species each. */
  function ParsePieces(parts: seq<string>): (r: seq<Species>)
    ensures |r| == |parts|
  {
    if parts == [] then [] else ParsePieces(parts[..|parts| - 1]) + [ParsePiece(parts[|parts| - 1])]
  }

  lemma {:induction false} ParsePiecesAt(parts: seq<string>, i: nat)
    requires i < |parts|
    ensures ParsePieces(parts)[i] == ParsePiece(parts[i])
  {
    if i < |parts| - 1 {
      ParsePiecesAt(parts[..|parts| - 1], i);
    }
  }

  /** The species the form sends: none for an empty field, else one per comma-separated piece. */
  function ParseSpeciesList(input: string): (r: seq<Species>)
    ensures input != "" ==> |r| == |Split(input, ',')|
  {
    if input == "" then [] else ParsePieces(Split(input, ','))
  }

  /** A non-empty field yields one species more than it has commas. */
  lemma SpeciesCountFollowsCommas(input: string)
    requires input != ""
    ensures |ParseSpeciesList(input)| == Occurrences(input, ',') + 1
  {
    SplitCount(input, ',');
  }

  /** The loop of the project form that pushes one species per piece. */
  method ParseSpeciesInput(input: string) returns (targetSpecies: seq<Species>)
    ensures targetSpecies == ParseSpeciesList(input)
  {
    targetSpecies := [];
    if input != "" {
      var speciesList := Split(input, ',');
      var i := 0;
      while i < |speciesList|
        invariant 0 <= i <= |speciesList|
        invariant targetSpecies == ParsePieces(speciesList[..i])
      {
        targetSpecies := targetSpecies + [ParseSpecies(Trim(speciesList[i]))];
        assert speciesList[..i + 1][..i] == speciesList[..i];
        i := i + 1;
      }
      assert speciesList[..i] == speciesList;
    }
  }

  /**
   * A species the form can carry back unchanged: a non-empty trimmed
   * scientific name without ',' or '(', and, if present, a non-empty trimmed
   * common name without ',' or '('.
   */
  predicate Writable(sp: Species)
  {
    && sp.scientificName != [] && IsTrimmed(sp.scientificName)
    && ',' !in sp.scientificName && '(' !in sp.scientificName
    && (sp.commonName.Some? ==>
        && sp.commonName.value != [] && IsTrimmed(sp.commonName.value)
        && ',' !in sp.commonName.value && '(' !in sp.commonName.value)
  }

  /** How the field writes one species: `X (Y)`, or `X` without a common name. */
  function FormatSpecies(sp: Species): string
  {
    if sp.commonName.Some? then sp.scientificName + " (" + sp.commonName.value + ")" else sp.scientificName
  }

  /** The field for a list of species: the pieces joined by commas. */
  function FormatSpeciesList(species: seq<Species>): string
    requires |species| >= 1
  {
    Join(seq(|species|, i requires 0 <= i < |species| => FormatSpecies(species[i])), ',')
  }

  /** A writable species survives being written as a piece and parsed back. */
  lemma ParseFormatSpecies(sp: Species)
    requires Writable(sp)
    ensures ParseSpecies(FormatSpecies(sp)) == sp
  {
    if sp.commonName.Some? {
      ParseWithCommonName(sp.scientificName, sp.commonName.value);
    }
  }

  /** `X (Y)` splits at the '(' after `X` when `Y` holds no '('. */
  lemma ParseWithCommonName(x: string, y: string)
    requires x != [] && IsTrimmed(x) && y != [] && IsTrimmed(y) && '(' !in y
    ensures ParseSpecies(x + " (" + y + ")") == Species(x, Some(y))
  {
    var s := x + " (" + y + ")";
    CommonNameBrackets(x, y);
    CommonNameGroups(x, y);
    ParseSpeciesSplitsAt(s, |x| + 1);
  }

  /** Where the last ')' ends the piece and a '(' before it is found, the piece splits there. */
  lemma ParseSpeciesSplitsAt(part: string, open: int)
    requires |part| >= 4 && LastIndexOf(part, ')') == |part| - 1
    requires 1 <= open && LastIndexOf(part[..|part| - 2], '(') == open
    ensures ParseSpecies(part) == Species(Trim(part[..open]), Some(Trim(part[open + 1..|part| - 1])))
  {
    var close := |part| - 1;
    assert part[..close - 1] == part[..|part| - 2];
    ParseSpeciesAt(part, close, open);
  }

  /** `ParseSpecies` once the last ')' and the '(' the groups split at are known. */
  lemma ParseSpeciesAt(part: string, close: int, open: int)
    requires 3 <= close == LastIndexOf(part, ')')
    requires 1 <= open == LastIndexOf(part[..close - 1], '(')
    ensures ParseSpecies(part) == Species(Trim(part[..open]), Some(Trim(part[open + 1..close])))
  {
  }

  /** In `X (Y)`, the last ')' ends the piece and the last '(' before it follows `X` and a blank. */
  lemma CommonNameBrackets(x: string, y: string)
    requires y != [] && '(' !in y
    ensures var s := x + " (" + y + ")";
      LastIndexOf(s, ')') == |s| - 1 && LastIndexOf(s[..|s| - 2], '(') == |x| + 1
  {
    var s := x + " (" + y + ")";
    assert s[|s| - 1] == ')';
    var front := y[..|y| - 1];
    assert s[..|s| - 2] == (x + [' ']) + ['('] + front;
    assert '(' !in front by {
      assert forall c :: c in front ==> c in y;
    }
    LastIndexOfBefore(x + [' '], '(', front);
  }

  /** In `X (Y)`, the text before the blank trims to `X` and the text inside the brackets to `Y`. */
  lemma CommonNameGroups(x: string, y: string)
    requires x != [] && IsTrimmed(x) && IsTrimmed(y)
    ensures var s := x + " (" + y + ")";
      Trim(s[..|x| + 1]) == x && Trim(s[|x| + 2..|s| - 1]) == y
  {
    var s := x + " (" + y + ")";
    assert s[..|x| + 1] == x + [' '];
    TrimTrailingBlank(x, ' ');
    assert s[|x| + 2..|s| - 1] == y;
    TrimTrims(y);
  }

  /** Writing a list of writable species into the field and parsing it gives the list back. */
  lemma ParseFormatSpeciesList(species: seq<Species>)
    requires |species| >= 1
    requires forall sp :: sp in species ==> Writable(sp)
    ensures ParseSpeciesList(FormatSpeciesList(species)) == species
  {
    var pieces := seq(|species|, i requires 0 <= i < |species| => FormatSpecies(species[i]));
    forall p | p in pieces ensures ',' !in p {
      var i :| 0 <= i < |pieces| && pieces[i] == p;
      assert species[i] in species;
    }
    JoinSplit(pieces, ',');
    var input := FormatSpeciesList(species);
    assert input != "" by {
      assert species[0] in species;
      assert pieces[0] != [];
      JoinStartsWithFirst(pieces, ',');
    }
    forall i | 0 <= i < |species| ensures ParsePieces(pieces)[i] == species[i] {
      ParsePiecesAt(pieces, i);
      assert species[i] in species;
      PieceIsTrimmed(species[i]);
      TrimTrims(pieces[i]);
      ParseFormatSpecies(species[i]);
    }
  }

  /** A joined string begins with its first piece. */
  lemma JoinStartsWithFirst(parts: seq<string>, sep: char)
    requires |parts| >= 1
    ensures |Join(parts, sep)| >= |parts[0]|
  {
  }

  /** A written piece neither starts nor ends with a blank. */
  lemma PieceIsTrimmed(sp: Species)
    requires Writable(sp)
    ensures IsTrimmed(FormatSpecies(sp))
  {
  }
}
