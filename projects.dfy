/**
 * The rows of the project table behind /api/projects, the request and
 * response bodies of its handlers, and the order in which the list query
 * returns rows. The database is an in-memory map from project id to record.
 */
module Projects {
  import opened Wrappers
  import opened Session

  type ProjectId = string

  /** A stored row: its owner, the four user-editable fields, and its creation time. */
  datatype Project = Project(
    userId: UserId,
    title: string,
    description: string,
    techStack: string,
    status: string,
    createdAt: nat)

  /** A row as the handlers return it in JSON: the record together with its id. */
  datatype Entry = Entry(id: ProjectId, project: Project)

  /** The JSON body of a create request. */
  datatype Draft = Draft(title: string, description: string, techStack: string, status: string)

  /**
   * The JSON body of an update request. A field left out of the body is
   * `undefined`, which the database client skips when it writes.
   */
  datatype Patch = Patch(
    id: Option<ProjectId>,
    title: Option<string>,
    description: Option<string>,
    techStack: Option<string>,
    status: Option<string>)

  /** The JSON body of a delete request. */
  datatype Target = Target(id: Option<ProjectId>)

  datatype Body =
    | ErrorBody(error: string)
    | MessageBody(message: string)
    | ProjectBody(entry: Entry)
    | ListBody(entries: seq<Entry>)

  datatype Response = Response(status: nat, body: Body)

  const NotAuthenticated := Response(401, ErrorBody("Not authenticated"))
  const Forbidden := Response(403, ErrorBody("Unauthorized"))
  const CreateFailed := Response(500, ErrorBody("Error creating project"))
  const FetchFailed := Response(500, ErrorBody("Error fetching projects"))
  const UpdateFailed := Response(500, ErrorBody("Error updating project"))
  const DeleteFailed := Response(500, ErrorBody("Error deleting project"))
  const Deleted := Response(200, MessageBody("Project deleted"))

  /** The row a create request writes for `owner` at time `now`. */
  function NewProject(d: Draft, owner: UserId, now: nat): (p: Project)
    ensures p.userId == owner && p.createdAt == now
    ensures p.title == d.title && p.description == d.description
    ensures p.techStack == d.techStack && p.status == d.status
  {
    Project(owner, d.title, d.description, d.techStack, d.status, now)
  }

  /** The row an update writes: owner and creation time are never touched. */
  function Apply(p: Project, patch: Patch): (q: Project)
    ensures q.userId == p.userId && q.createdAt == p.createdAt
    ensures patch.title.Some? ==> q.title == patch.title.value
    ensures patch.title.None? ==> q.title == p.title
    ensures patch.description.Some? ==> q.description == patch.description.value
    ensures patch.description.None? ==> q.description == p.description
    ensures patch.techStack.Some? ==> q.techStack == patch.techStack.value
    ensures patch.techStack.None? ==> q.techStack == p.techStack
    ensures patch.status.Some? ==> q.status == patch.status.value
    ensures patch.status.None? ==> q.status == p.status
  {
    p.(title := patch.title.GetOr(p.title),
       description := patch.description.GetOr(p.description),
       techStack := patch.techStack.GetOr(p.techStack),
       status := patch.status.GetOr(p.status))
  }

  // ---------------------------------------------------------------------
  // Listing: findMany({ where: { userId }, orderBy: { createdAt: "desc" } })
  // ---------------------------------------------------------------------

  ghost predicate NewestFirst(s: seq<Entry>) {
    forall i, j :: 0 <= i < j < |s| ==> s[i].project.createdAt >= s[j].project.createdAt
  }

  ghost predicate DistinctIds(s: seq<Entry>) {
    forall i, j :: 0 <= i < j < |s| ==> s[i].id != s[j].id
  }

  /** The ids of the rows owned by `u`. */
  ghost function OwnedBy(rows: map<ProjectId, Project>, u: UserId): (ids: set<ProjectId>)
    ensures ids <= rows.Keys
    ensures forall id :: id in ids <==> id in rows && rows[id].userId == u
  {
    set id | id in rows && rows[id].userId == u
  }

  /**
   * What the list query may answer for `u`: each of u's rows exactly once,
   * as stored, no row of anyone else, newest first. Rows created at the same
   * instant may come in either order.
   */
  ghost predicate IsListing(rows: map<ProjectId, Project>, u: UserId, s: seq<Entry>) {
    && NewestFirst(s)
    && DistinctIds(s)
    && forall e :: e in s <==> e.id in rows && rows[e.id] == e.project && e.project.userId == u
  }

  /** Where `e` goes in a newest-first sequence: after every strictly newer entry. */
  function InsertionPoint(e: Entry, s: seq<Entry>): (k: nat)
    ensures k <= |s|
    ensures forall i :: 0 <= i < k ==> s[i].project.createdAt > e.project.createdAt
    ensures k < |s| ==> s[k].project.createdAt <= e.project.createdAt
  {
    if s == [] || s[0].project.createdAt <= e.project.createdAt then 0
    else 1 + InsertionPoint(e, s[1..])
  }

  function Insert(e: Entry, s: seq<Entry>): (r: seq<Entry>)
    requires NewestFirst(s)
    ensures NewestFirst(r)
    ensures |r| == |s| + 1
    ensures multiset(r) == multiset(s) + multiset{e}
    ensures forall x :: x in r <==> x == e || x in s
    ensures DistinctIds(s) && (forall x :: x in s ==> x.id != e.id) ==> DistinctIds(r)
  {
    var k := InsertionPoint(e, s);
    SplicePreservesOrder(e, s, k);
    SpliceMembers(e, s, k);
    SplicePreservesDistinct(e, s, k);
    s[..k] + [e] + s[k..]
  }

  lemma SplicePreservesOrder(e: Entry, s: seq<Entry>, k: nat)
    requires NewestFirst(s) && k == InsertionPoint(e, s)
    ensures NewestFirst(s[..k] + [e] + s[k..])
  {

  }

  lemma SpliceMembers(e: Entry, s: seq<Entry>, k: nat)
    requires k <= |s|
    ensures multiset(s[..k] + [e] + s[k..]) == multiset(s) + multiset{e}
    ensures forall x :: x in s[..k] + [e] + s[k..] <==> x == e || x in s
  {
    assert s == s[..k] + s[k..];
  }

  lemma SplicePreservesDistinct(e: Entry, s: seq<Entry>, k: nat)
    requires k <= |s|
    ensures DistinctIds(s) && (forall x :: x in s ==> x.id != e.id) ==> DistinctIds(s[..k] + [e] + s[k..])
  {

  }

  /** The rows with ids in `ids`, newest first. */
  ghost function ListingOf(rows: map<ProjectId, Project>, ids: set<ProjectId>): (s: seq<Entry>)
    requires ids <= rows.Keys
    ensures NewestFirst(s) && DistinctIds(s) && |s| == |ids|
    ensures forall e :: e in s <==> e.id in ids && rows[e.id] == e.project
    decreases ids
  {
    if ids == {} then []
    else
      var id :| id in ids;
      Insert(Entry(id, rows[id]), ListingOf(rows, ids - {id}))
  }

  /** The result of the list query for `u`. */
  ghost function ListFor(rows: map<ProjectId, Project>, u: UserId): (s: seq<Entry>)
    ensures IsListing(rows, u, s)
    ensures |s| == |OwnedBy(rows, u)|
  {
    ListingOf(rows, OwnedBy(rows, u))
  }

  /**
   * When no two of the caller's rows share a creation time, the listing is
   * fully determined: any two answers that meet IsListing are the same.
   */
  lemma {:induction false} ListingDetermined(rows: map<ProjectId, Project>, u: UserId, s1: seq<Entry>, s2: seq<Entry>)
    requires IsListing(rows, u, s1) && IsListing(rows, u, s2)
    requires forall a, b :: a in OwnedBy(rows, u) && b in OwnedBy(rows, u) && a != b ==>
               rows[a].createdAt != rows[b].createdAt
    ensures s1 == s2
  {
    SameNewestFirst(s1, s2);
  }

  lemma {:induction false} SameNewestFirst(s1: seq<Entry>, s2: seq<Entry>)
    requires NewestFirst(s1) && NewestFirst(s2) && DistinctIds(s1) && DistinctIds(s2)
    requires forall e :: e in s1 <==> e in s2
    requires forall a, b :: a in s1 && b in s1 && a.id != b.id ==> a.project.createdAt != b.project.createdAt
    ensures s1 == s2
    decreases |s1|
  {
    if s1 == [] || s2 == [] {
      EmptyAlike(s1, s2);
    } else {
      SameHead(s1, s2);
      var t1, t2 := s1[1..], s2[1..];
      TailKeeps(s1);
      TailKeeps(s2);
      forall e ensures e in t1 <==> e in t2 {
        TailMembers(s1, e);
        TailMembers(s2, e);
      }
      forall a, b | a in t1 && b in t1 && a.id != b.id
        ensures a.project.createdAt != b.project.createdAt
      {
        TailMembers(s1, a);
        TailMembers(s1, b);
      }
      SameNewestFirst(t1, t2);
      assert s1 == [s1[0]] + t1 && s2 == [s2[0]] + t2;
    }
  }

  lemma EmptyAlike(s1: seq<Entry>, s2: seq<Entry>)
    requires forall e :: e in s1 <==> e in s2
    ensures s1 == [] <==> s2 == []
  {
    if s1 != [] { assert s1[0] in s2; }
    if s2 != [] { assert s2[0] in s1; }
  }

  /** Two newest-first listings of the same rows with distinct times start alike. */
  lemma SameHead(s1: seq<Entry>, s2: seq<Entry>)
    requires |s1| > 0 && |s2| > 0
    requires NewestFirst(s1) && NewestFirst(s2) && DistinctIds(s1)
    requires forall e :: e in s1 <==> e in s2
    requires forall a, b :: a in s1 && b in s1 && a.id != b.id ==> a.project.createdAt != b.project.createdAt
    ensures s1[0] == s2[0]
  {
    assert s1[0] in s2 && s2[0] in s1;
    var j :| 0 <= j < |s1| && s1[j] == s2[0];
    var i :| 0 <= i < |s2| && s2[i] == s1[0];
    assert s1[0].project.createdAt >= s1[j].project.createdAt;
    assert s2[0].project.createdAt >= s2[i].project.createdAt;
  }

  lemma TailKeeps(s: seq<Entry>)
    requires |s| > 0 && NewestFirst(s) && DistinctIds(s)
    ensures NewestFirst(s[1..]) && DistinctIds(s[1..])
  {
  }

  /** With distinct ids, the tail holds exactly the entries other than the head's id. */
  lemma TailMembers(s: seq<Entry>, e: Entry)
    requires |s| > 0 && DistinctIds(s)
    ensures e in s[1..] <==> e in s && e.id != s[0].id
  {

  }
}
