# ZooCollab access control and membership, in Dafny

ZooCollab is a field-research tracker. Each research project has:

- a creator;
- a public/private visibility;
- an ordered list of members, each with a role;
- observations of species, each carrying the id of the user who made it.

This project models the part of the tracker that decides who may do what, and the bookkeeping around it:

- **ObservationRoutes** (`observation_routes.dfy`) holds three parts:
  - the permission engine `checkPermission`, a pure function of the user id, the project lookup, the action and the optional observation lookup;
  - the per-observation permissions summary, a method with the handler's local `let` variables;
  - the create, read, update and delete routes for observations, modelled as a class that holds the observation collection.
- **ProjectRoutes** (`project_routes.dfy`) holds:
  - `hasProjectAccess`;
  - project creation and update;
  - the membership routes, which change `project.members` of a project document (a class) in place.
- **ProfileRoutes** (`profile_routes.dfy`) holds the `/stats` aggregation, and the membership projection of `/activity`. The aggregation covers the created/member partition, the public/private counts, the status counts, the per-month tally, the per-species tally and the top-ten cut.
- **Client** (`client.dfy`) holds the browser-side code:
  - the five project filters and the list view that applies and sorts them;
  - the result counter;
  - the created/member split of the user's projects;
  - the parser of the comma-separated target-species field.
- **Consistency** (`consistency.dfy`) relates the two access checks the server uses, and the membership routes that change what both see.
- **Records**, **Seqs** and **Text** hold the shared pieces:
  - the stored records and the member lookups;
  - the array built-ins used, `filter` and the stable `sort` with a numeric comparator, and the key lookup that stands for reading an object-as-dictionary entry;
  - the string built-ins used: `trim`, `toLowerCase`, `includes`, `split`, `padStart` and decimal printing.

Database lookups become their results, passed in as `Option` values. The identity the authentication middleware attaches becomes an `Option<UserId>`.

Three behaviours of the code that are easy to misread, which the model keeps as the code has them:

- **Roles outside the fixed set.** The membership routes hand out four roles. The Project schema, however, gives a member the default role `membru`, which the engine's table grants nothing. That member passes `hasProjectAccess` and still may not view a private project (`Consistency.DefaultRoleMemberLockedOut`).
- **403, not 404.** A read of an existing observation the user may not view is answered 403 with the engine's message, not 404, so the answer tells that the observation exists (`ObservationRoutes.ReadObservation`).
- **Raw role strings.** The engine's decision reports the member's raw role string (for example `asistent-cercetare` or `research-assistant`), not a tier name, so the model keeps roles as strings.

## Model

| member | source | states |
|---|---|---|
| ObservationRoutes.CheckPermission | src/routes/observation.js:42-129 | A grant always concerns an existing project and carries a role and no error. A refusal always carries an error. Without a user, the only grant is viewing a public project. |
| ObservationRoutes.PublicViewAllowed | src/routes/observation.js:51-53 | Viewing a public project is granted as viewer to every user id, including none. |
| ObservationRoutes.AnonymousDenied | src/routes/observation.js:56-58 | Without a user id, anything but a public-project view is refused with "Autentificare necesara". |
| ObservationRoutes.CreatorAllowedEverything | src/routes/observation.js:61-63 | The creator is granted every action with any observation argument. The role is 'creator', or 'viewer' on the public-view path. |
| ObservationRoutes.NonMemberRules | src/routes/observation.js:66-73 | A signed-in user who is neither creator nor member is granted exactly the view of a public project. Everything else is refused as "not a member". This is why the public branch at line 69 can never decide. |
| ObservationRoutes.MissingProjectDenied | src/routes/observation.js:46-48 | A missing project is refused with "Proiectul nu exista" for every user, action and observation. |
| ObservationRoutes.Capabilities | src/routes/observation.js:78-85 | A role gets actions iff it is one of the four valid roles, and then it may view. No entry is an observation-scoped action. A co-investigator holds every other action. |
| ObservationRoutes.MemberCoarseActions | src/routes/observation.js:78-123 | For a member, the capability table decides every coarse action, under the member's role. This includes edit/delete without an observation id. Co-investigator gets all six coarse actions; either assistant spelling gets view, add, edit-own and delete-own; observer gets view only; any other role, such as 'membru', gets nothing. Edit/delete without an id are always refused. |
| ObservationRoutes.OwnershipOverride | src/routes/observation.js:88-116 | On a fetched observation, a member may edit or delete iff they are a co-investigator, or an assistant who made the observation. An observer is refused with "Nu aveti permisiunea sa modificati observatiile". |
| ObservationRoutes.MissingObservationDenied | src/routes/observation.js:89-93 | For a member, an observation id that resolves to nothing is refused with "Observatia nu exista". |
| ObservationRoutes.AuthorMayModifyOwnObservation | src/routes/observation.js:78-116 | Whoever may add observations to a project may later edit and delete their own observations there. |
| ObservationRoutes.PrivateProjectScenario | src/routes/observation.js:42-129 | The walk-through: creator A, research assistant B who made O1, unrelated user C. C is refused as a non-member, A is granted as creator, B is granted on O1 and refused on A's O2. |
| ObservationRoutes.PermissionsSummary | src/routes/observation.js:321-400 | It gives 404 for a missing observation or project. Anonymous: all-false with no role on a public project, 403 otherwise. For a signed-in user, canEdit and canDelete are equal and agree with the engine's edit/delete decision. isOwner holds iff the user made the observation. userRole is 'creator', the member's role, 'viewer' on a public project, or null. |
| ObservationRoutes.ReadObservation | src/routes/observation.js:183-209 | A missing observation gives 404. An observation whose project lookup found nothing gives the catch's 500 "Eroare de server", because the handler reads the project's id before it asks the engine. Otherwise the observation is returned iff the engine lets the user view its project; a refusal gives 403 with the engine's message. |
| ObservationRoutes.ObservationStore.Create | src/routes/observation.js:134-178 | The observation is stored iff the engine grants add_observations, with the acting user as observer and a count of 1 by default. Otherwise the reply is 403 with the engine's message and the store is unchanged. |
| ObservationRoutes.ObservationStore.Update | src/routes/observation.js:214-262 | A missing id gives 404. The update succeeds iff the engine grants edit_observation on the stored observation. Only the supplied fields change: count only when non-zero, notes whenever given. The id, project and observer never change, and a refusal changes nothing. |
| ObservationRoutes.ObservationStore.ApplyPatch | src/routes/observation.js:239-244 | Each supplied field replaces the stored one, except that a count of 0 is ignored. The id, the project and the observer never change. |
| ObservationRoutes.ObservationStore.Delete | src/routes/observation.js:267-294 | A missing id gives 404. If delete_observation is granted, exactly that observation is removed; otherwise the reply is 403 and nothing changes. |
| ProjectRoutes.HasProjectAccess | src/routes/projects.js:43-64 | It is true for every public project. On a private project it is false without a user, and for a user true iff they are the creator or a member. |
| ProjectRoutes.CreateProject | src/routes/projects.js:128-155 | It fails with 400 iff a non-empty visibility is neither 'public' nor 'private'. Otherwise the project is private unless asked, belongs to the actor, has no members, and satisfies the membership invariant. |
| ProjectRoutes.PatchProject | src/routes/projects.js:223-230 | Each field takes the supplied value when it is truthy and keeps its old value otherwise. The id, creator and members are never touched. |
| ProjectRoutes.UpdateProject | src/routes/projects.js:202-244 | It gives 404 without a project, 401 when the actor is not the creator, and 400 for a bad visibility; each of these leaves the document unchanged. Otherwise the document becomes the patched project. The membership invariant is preserved. |
| ProjectRoutes.AddMember | src/routes/projects.js:249-312 | The checks run in the source's order, each with its reply: 400 bad role, 404 unknown user, 404 missing project, 401 not the creator, 400 already a member, 400 invitee is the creator. It succeeds iff all of them pass; then exactly one entry with the role and the current instant is appended, and nothing else changes. A failure leaves the project as it was. |
| ProjectRoutes.RemoveMember | src/routes/projects.js:317-347 | It gives 404 without a project, 401 when the actor is not the creator, and 404 when the target is not a member. Otherwise exactly the first entry of the target is spliced out and the others keep their order. The invariant is preserved. |
| ProjectRoutes.RemoveLeavesOthers | src/routes/projects.js:330-339 | Under the invariant, the splice leaves exactly the other users' entries, in order, and none of the removed user's. |
| ProjectRoutes.UpdateMemberRole | src/routes/projects.js:352-393 | The checks run in the source's order, each with its reply: 400 bad role, 404 missing project, 401 not the creator, 404 target not a member. It succeeds iff all of them pass. Only that member's role changes. A failure changes nothing, and the invariant is preserved. |
| ProfileRoutes.PublicProjectsAsWrittenIgnoresVisibility | src/routes/profile.js:52-53 | As written, publicProjects is always 0 and privateProjects always equals the number of created projects. |
| ProfileRoutes.PublicProjectsCounterexample | src/routes/profile.js:52-53 | A single public project created by the user counts 0 as written and 1 by visibility. |
| ProfileRoutes.VisibilitySplitsCreated | src/routes/profile.js:52-53 | Counted by visibility, the public and private counts add up to the created projects. |
| ProfileRoutes.CountByStatus | src/routes/profile.js:55-60 | The four status counts never exceed the number of projects. They equal it when every status is one of the schema's four. |
| ProfileRoutes.StatusCountsBound | src/routes/profile.js:55-60 | A project is counted under at most one status. |
| ProfileRoutes.RecentObservations | src/routes/profile.js:69-71 | An observation is kept iff it is one of the user's observations dated at or after the cutoff. |
| ProfileRoutes.RecentObservationsInOrder | src/routes/profile.js:69-71 | `filter` keeps the observations in their query order: the selection from a concatenation is the concatenation of the selections. |
| ProfileRoutes.MonthKey | src/routes/profile.js:76 | A key is at least four characters long, starts with a digit and has its dash three places from the end. |
| ProfileRoutes.MonthKeyShape | src/routes/profile.js:76 | A month key is the year's decimal digits, a dash, then exactly two digits that read back as the month. |
| ProfileRoutes.MonthKeyInjective | src/routes/profile.js:76 | Two dates share a key iff they have the same year and month. |
| ProfileRoutes.BumpMonthCounts | src/routes/profile.js:78-81 | One loop step adds one to the count of its own key and leaves every other key's count as it was. |
| ProfileRoutes.BumpMonthDistinct | src/routes/profile.js:78-81 | One loop step never stores a key twice: a missing key is appended, a present one updated in place. |
| ProfileRoutes.BumpMonthSum | src/routes/profile.js:78-81 | One loop step adds exactly one to the sum of all counts. |
| ProfileRoutes.MonthTallyCorrect | src/routes/profile.js:74-82 | After the loop, keys are distinct and each key's value is the number of recent observations in that month. The values add up to the number of recent observations. |
| ProfileRoutes.TallyByMonth | src/routes/profile.js:74-82 | The forEach loop produces the month tally. |
| ProfileRoutes.BumpSpeciesStat | src/routes/profile.js:88-97 | One loop step creates a name's entry on its first observation (count 1, individuals = its count) or increments that entry. It touches no other name. |
| ProfileRoutes.BumpSpeciesDistinct | src/routes/profile.js:88-95 | One loop step never stores a scientific name twice. |
| ProfileRoutes.SpeciesTallyCorrect | src/routes/profile.js:85-98 | After the loop, each observed name has exactly one entry. The entry holds the first observation's common name, the number of observations of the name and the sum of their counts. An unobserved name has no entry. |
| ProfileRoutes.TallySpecies | src/routes/profile.js:85-98 | The forEach loop produces the species tally. |
| ProfileRoutes.TopSpecies | src/routes/profile.js:101-103 | The top list never holds more than ten entries. |
| ProfileRoutes.TopSpeciesCorrect | src/routes/profile.js:101-103 | The top list has min(10, n) entries, all from the tally, in non-increasing count. No entry left out has a higher count than any entry kept. Nothing is lost when there are at most 10 species. |
| ProfileRoutes.StatsOf | src/routes/profile.js:44-103 | The statistics object: public and private counts add up to the created projects, the month counts add up to the recent observations, and at most ten top species. |
| ProfileRoutes.ComputeStats | src/routes/profile.js:44-103 | The handler, with its two forEach loops, yields the statistics `StatsOf` describes (public and private counts as corrected, see "## Left out"). |
| ProfileRoutes.StatsConsistent | src/routes/profile.js:45-63 | Over projects that involve the user: created plus member-only equals total; public plus private equals created; status counts stay within the total; month counts stay within the observations; at most 10 top species. |
| ProfileRoutes.MembershipEntry | src/routes/profile.js:160-169 | The entry copies id, title and creator name. Role and joinedDate come from the user's first membership row. Without a row the role is 'unknown' and the date is null. |
| Client.CollectFilters | public/js/main.js:1619-1625 | The search and species terms are the lower-cased control values, and the other three filters are the control values as given. Each is empty when its control is absent. |
| Client.MatchesSearch | public/js/main.js:1653-1660 | An empty term passes every project. A term longer than the title, the description and the creator's name passes none. |
| Client.MatchesStatus | public/js/main.js:1662-1664 | An empty filter passes every project; a set one passes exactly the projects of that status. |
| Client.MatchesVisibility | public/js/main.js:1666-1668 | An empty filter passes every project; a set one passes only projects whose visibility it spells, so a value other than 'public' or 'private' passes none. |
| Client.MatchesCreator | public/js/main.js:1670-1678 | An empty filter passes every project. 'mine' passes nothing when nobody is logged in. A passing project was created by the logged-in user for 'mine', and otherwise by the user whose id the filter holds. |
| Client.MatchesSpecies | public/js/main.js:1680-1688 | An empty term passes every project. A set term passes only projects that have a target species mentioning it. |
| Client.Selected | public/js/main.js:1628-1634 | A project is kept iff it is loaded and passes all five filters. |
| Client.NoFiltersKeepAll | public/js/main.js:1653-1688 | With every filter empty, every project is kept, in order. |
| Client.MineWhenLoggedOut | public/js/main.js:1673-1675 | The creator filter 'mine' keeps nothing when nobody is logged in. |
| Client.ClearingAFilterWidens | public/js/main.js:1653-1688 | Emptying any one filter keeps every project kept before. |
| Client.StatusRankAsWritten | public/js/main.js:1706-1707 | As written, no status ranks 0; the rank is 4 exactly for 'activ' and for statuses outside the table. |
| Client.StatusRankAsWrittenSinksActive | public/js/main.js:1706-1707 | As written, 'activ' ranks 4, like an unknown status and after 'finalizat'. On every other status, the key agrees with the intended one. |
| Client.AsWrittenActiveAfterFinished | public/js/main.js:1705-1707 | Under the status sort as written, every finished project precedes every active one. |
| Client.StatusRank | public/js/main.js:1706-1707 | The intended rank lies between 0 and 4, and is 4 exactly for statuses outside the table. |
| Client.StatusRankOrders | public/js/main.js:1706-1707 | The intended ranks order activ < planificat < suspendat < finalizat < any other status. Rank 0 belongs to 'activ' only. |
| Client.Arrange | public/js/main.js:1695-1711 | Every sort order is a permutation of the list. The date sorts order by creation instant (newest or oldest first), the title sorts by collation key (ascending or descending), and "status" by the corrected rank (see "## Left out"). Any other value leaves the list unchanged. |
| Client.StatusSortPutsActiveFirst | public/js/main.js:1705-1707 | Under the corrected status sort, every active project precedes every other. |
| Client.ResultsText | public/js/main.js:1821-1825 | The text starts with the count's digits and ends with " proiecte". |
| Client.ResultsTextShort | public/js/main.js:1821-1825 | The short text "N proiecte" is shown iff the count equals the total. |
| Client.ResultsShowTotalIffAllPass | public/js/main.js:1816-1827 | After filtering and sorting, the counter shows the bare total iff every loaded project passes the filters. |
| Client.ProjectBrowser.ApplySorting | public/js/main.js:1691-1712 | The sort is the control's value when set, else the current one. The list becomes its arrangement, and nothing else changes. |
| Client.ProjectBrowser.ApplyFilters | public/js/main.js:1615-1637 | The filters are re-read, and the list on display is the sorted selection. It holds exactly the loaded projects passing all five filters, and the loaded projects are unchanged. |
| Client.ProjectBrowser.ResultsCount | public/js/main.js:1816-1827 | The counter shows the bare total iff the list on display is as long as the loaded list. |
| Client.UserProjectsPartition | public/js/main.js:1321-1328 | The created list is exactly the projects the user created. The member list is exactly the projects the user did not create but is a member of. The lists are disjoint and together no longer than the input. |
| Client.ParseSpecies | public/js/main.js:975-985 | Without a common name, the scientific name is the whole piece. With one, the piece holds a '(' and a ')', and the two names together are at least two characters shorter than the piece. |
| Client.ParseSpeciesFollowsRegex | public/js/main.js:975-985 | A piece gets a common name iff `/(.+)\s*\((.+)\)/` matches it; otherwise the whole piece is the scientific name. |
| Client.ParseSpeciesList | public/js/main.js:970-987 | An empty field gives no species; otherwise there is one species per comma-separated piece. |
| Client.SpeciesCountFollowsCommas | public/js/main.js:972 | A non-empty field yields one more species than it has commas. |
| Client.ParseSpeciesInput | public/js/main.js:970-987 | The push loop produces the parsed species list. |
| Client.ParseWithCommonName | public/js/main.js:975-980 | `X (Y)` parses to scientific name X and common name Y, for trimmed non-empty X and Y where Y has no '('. |
| Client.ParseFormatSpecies | public/js/main.js:975-985 | A writable species, written as `X (Y)` or `X`, parses back to itself. |
| Client.ParseFormatSpeciesList | public/js/main.js:970-987 | A list of writable species, written comma-separated, parses back to the same list. |
| Consistency.EngineGrantImpliesAccess | src/routes/projects.js:43-64 | Whatever the engine grants on a project, hasProjectAccess also allows. |
| Consistency.AccessImpliesView | src/routes/observation.js:51-85 | When every member holds one of the four roles, a user hasProjectAccess lets in may view through the engine. |
| Consistency.DefaultRoleMemberLockedOut | src/models/Project.js:39-42 | A member with the schema's default role 'membru' passes hasProjectAccess on a private project, yet the engine refuses them even a view. |
| Consistency.CreatorMayDoEverything | src/routes/projects.js:137-146 | The user who creates a project may then do every action on it. |
| Consistency.AddedMemberMayView | src/routes/projects.js:292-296 | A member appended with a valid role may view the project at once. |
| Consistency.RemovedMemberLosesAccess | src/routes/projects.js:339 | Under the invariant, a member spliced out of a private project loses hasProjectAccess and every engine grant. |
| Records.ParseVisibility | src/routes/projects.js:133-143 | An accepted visibility string parses to the value whose stored spelling is that string. |
| Records.MemberIndex | src/routes/projects.js:331-333 | The index of the user's first entry, or -1 when they have none. |
| Records.FindMember | src/routes/observation.js:66 | Some entry iff the user is a member. It is their first entry: no entry before it belongs to the user, so a user with two entries gets the role of the first. |
| Records.CreatedAndJoinedPartition | src/routes/profile.js:46-51 | Over projects that involve the user, the created and the member-only projects are disjoint, and their counts add up to the total. |
| Seqs.Filter | src/routes/profile.js:47-51 | `filter` keeps exactly the elements of the input that pass: every kept element is in the input and passes, and every passing element is kept. The result is never longer than the input. Order is kept (`Seqs.FilterConcat`). |
| Seqs.SortByKey | src/routes/profile.js:101-102 | The numeric-comparator sort returns a permutation of its input, ordered by the key. |
| Text.TrimTrims | public/js/main.js:972 | `trim` leaves no blank at either end and leaves an already trimmed string alone. |
| Text.SplitJoin | public/js/main.js:972 | Joining the pieces of `split(',')` with commas gives the input back. |
| Text.SplitCount | public/js/main.js:972 | `split(',')` yields one more piece than there are commas. |
| Text.JoinSplit | public/js/main.js:972 | Splitting comma-free pieces joined with commas gives the pieces back. |
| Text.ToLowerIdempotent | public/js/main.js:1620 | Lower-casing twice is lower-casing once. |
| Text.DecimalRoundTrip | src/routes/profile.js:76 | The decimal string of a number is all digits and reads back as the number. |
| Text.Pad2TwoDigits | src/routes/profile.js:76 | `padStart(2, '0')` of a month gives two digits that read back as the month. |

## Left out

- JSON Web Tokens, the authentication middleware and `auth.js` are left out, because they are foreign crypto. The identity they yield is an `Option<UserId>` parameter.
- bcrypt password hashing (`User.js`) is left out, because it is a foreign library.
- Mongo queries and their `populate`, `sort`, `limit` and `$or` selectors are left out, as are `save` and the connection setup in `db.js`, because they are I/O. Their results are passed in as values: `/stats` receives the projects and observations the queries return, and the routes receive the lookups' results.
- Mongoose's validation on `save` is left out, because it runs inside the library: `required` fields, the `status` and `visibility` enums, and number casts. The model stores what the route hands over.
- Most `try`/`catch` replies are left out: the 404 for a malformed id (`err.kind === 'ObjectId'`), the engine's "Eroare la verificarea permisiunilor", and the 500 "Eroare de server" when a database call fails. Each of these arises from a failing library call. One 500 does not, and it is modelled: GET /observations/:id answers 500 when the observation's project no longer exists (`ObservationRoutes.ReadObservation`).
- ObservationRoutes.ObservationStore.Update and ProjectRoutes.PatchProject: request fields are typed values, so an empty-string date or a `null` species counts as a field left out. Body values that are not strings, arrays or numbers are not modelled.
- Dates are opaque. `Date` fields carry the calendar year and month the server clock reads, and `/stats` receives the one-year cutoff (`oneYearAgo`) as a parameter. `setFullYear` arithmetic and time zones are not modelled.
- The `localeCompare` title sort is left out: locale collation is modelled as an integer key function passed in (`Client.Collation`). The date sorts compare instants, not floating-point milliseconds.
- `toLowerCase` lowers ASCII letters only. Non-ASCII case mappings are not modelled.
- The species expression assumes its input holds no line terminator, because the field is a single-line text input. `.` does not match one, and that case is not modelled. `trim` and `\s` use the ECMAScript whitespace and line-terminator set.
- JavaScript object keys are modelled as insertion-ordered association lists. `observationsByMonth` and `speciesCount` keys that look like integers enumerate first in JavaScript, and a name such as `constructor` would hit `Object.prototype`; neither is modelled.
- The race between two concurrent add-member requests (check at `projects.js:282`, push, then save) is left out, because the model is sequential.
- The DOM, event listeners, `fetch`, modals, `debounce` and `setTimeout` in `main.js` are left out, because they are UI and timers. So are `escapeRegex` and search highlighting, which are presentation only.
- The list route `GET /observations/project/:projectId` is not modelled beyond its engine check, which `ObservationRoutes.PublicViewAllowed` and the other engine lemmas cover. The project list queries `GET /api/projects` and `/public` are Mongo selectors.
- The `recentObservations` and `recentProjects` projections of `/activity` only copy fields. `recentProjects` also reads the undefined `isPublic` that the first finding below describes.
- Coordinates are `seq<real>`. `parseFloat` on the form and floating-point behaviour are not modelled.
- ProfileRoutes.ComputeStats: reports `publicProjects` and `privateProjects` by each created project's `visibility`, the corrected counts of the first finding below. As written, `/stats` reports 0 public projects and every created project as private (`ProfileRoutes.PublicProjectsAsWrittenIgnoresVisibility`).
- ProfileRoutes.StatsOf: the same corrected public and private counts as `ComputeStats`.
- Client.Arrange: the "status" order uses the corrected rank (`Client.StatusKey`, 'activ' first), from the second finding below. As written, 'activ' ranks 4 and sorts after 'finalizat' (`Client.AsWrittenActiveAfterFinished`). The other sort values are as written.
- Client.ProjectBrowser.ApplySorting: installs `Arrange`'s order, so its "status" sort is the corrected one.
- Client.ProjectBrowser.ApplyFilters: re-sorts the selection with `Arrange`, so its "status" sort is the corrected one.
- Seqs.SortByKey: its contract states a permutation ordered by the key. Stability, which `Array.prototype.sort` guarantees, holds by construction of the insertion sort but is not stated as a lemma.
- ProfileRoutes.StatsConsistent bounds the month counts by `totalObservations`. Their exact sum, the number of recent observations, is stated by `ProfileRoutes.MonthTallyCorrect`.

## Findings

| source | as written | input that shows it | evidently intended | confidence | as-written member | corrected member |
|---|---|---|---|---|---|---|
| src/routes/profile.js:52-53 | `publicProjects` and `privateProjects` test `p.isPublic`, a path the Project schema does not declare (it stores `visibility`), so it is always undefined | one project created by the user with `visibility: 'public'`: publicProjects 0, privateProjects 1 | count created projects by `visibility === 'public'` / `'private'` | not executed | ProfileRoutes.PublicProjectsCounterexample | ProfileRoutes.VisibilitySplitsCreated |
| public/js/main.js:1706-1707 | the status sort key falls back to 4 for every falsy rank, and the rank of `'activ'` is the falsy 0 | projects with statuses `'activ'` and `'finalizat'` sorted by status: the finished one comes first | active projects first: rank `'activ'` 0 and only unknown statuses 4 | not executed | Client.AsWrittenActiveAfterFinished | Client.StatusSortPutsActiveFirst |
