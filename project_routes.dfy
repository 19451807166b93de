/**
 * The four handlers of app/api/projects/route.ts over the project table:
 * GET only reads it; POST, PUT and DELETE change it in place.
 */
module ProjectRoutes {
  import opened Wrappers
  import opened Session
  import opened Projects

  /** The id of an update or delete body names a stored row. */
  predicate Targets(id: Option<ProjectId>, rows: map<ProjectId, Project>) {
    id.Some? && id.value in rows
  }

  /** GET /api/projects: the caller's projects, newest first; the store is only read. */
  ghost function Get(rows: map<ProjectId, Project>, cookie: Option<Token>, codec: Codec): (r: Response)
    ensures !Present(cookie) ==> r == NotAuthenticated
    ensures Authenticate(cookie, codec).Rejected? ==> r == FetchFailed
    ensures Authenticate(cookie, codec).Authenticated? ==>
              r.status == 200 && r.body.ListBody? &&
              IsListing(rows, Authenticate(cookie, codec).userId, r.body.entries)
  {
    match Authenticate(cookie, codec)
    case Missing => NotAuthenticated
    case Rejected => FetchFailed
    case Authenticated(u) => Response(200, ListBody(ListFor(rows, u)))
  }

  /** The project table, changed in place by the create, update and delete handlers. */
  class ProjectTable {
    var rows: map<ProjectId, Project>

    constructor ()
      ensures rows == map[]
    {
      rows := map[];
    }

    /**
     * POST /api/projects. The body is parsed before the cookie is read, so a
     * malformed body gives 500 even without a token. `freshId` and `now` are
     * the id and timestamp the database assigns.
     */
    method Create(body: Option<Draft>, cookie: Option<Token>, codec: Codec, freshId: ProjectId, now: nat)
      returns (r: Response)
      requires freshId !in rows
      modifies this
      ensures r.status == 200 || r.status == 401 || r.status == 500
      ensures r.status != 200 ==> rows == old(rows)
      ensures forall id :: id in old(rows) ==> id in rows && rows[id] == old(rows)[id]
      ensures body.None? ==> r == CreateFailed
      ensures body.Some? && !Present(cookie) ==> r == NotAuthenticated
      ensures body.Some? && Authenticate(cookie, codec).Rejected? ==> r == CreateFailed
      ensures body.Some? && Authenticate(cookie, codec).Authenticated? ==>
                var p := NewProject(body.value, Authenticate(cookie, codec).userId, now);
                r == Response(200, ProjectBody(Entry(freshId, p))) && rows == old(rows)[freshId := p]
    {
      if body.None? {
        return CreateFailed;
      }
      match Authenticate(cookie, codec)
      case Missing =>
        r := NotAuthenticated;
      case Rejected =>
        r := CreateFailed;
      case Authenticated(u) =>
        var p := NewProject(body.value, u, now);
        rows := rows[freshId := p];
        r := Response(200, ProjectBody(Entry(freshId, p)));
    }

    /**
     * PUT /api/projects, as written: the row is rewritten first and its
     * owner compared with the caller afterwards, so a 403 answer comes after
     * someone else's row has already changed. An id that is missing or not
     * stored makes the write throw (500).
     */
    method Update(body: Option<Patch>, cookie: Option<Token>, codec: Codec) returns (r: Response)
      modifies this
      ensures r.status == 200 || r.status == 401 || r.status == 403 || r.status == 500
      ensures rows.Keys == old(rows).Keys
      ensures forall id :: id in rows ==>
                rows[id].userId == old(rows)[id].userId && rows[id].createdAt == old(rows)[id].createdAt
      ensures r.status == 401 || r.status == 500 ==> rows == old(rows)
      ensures body.None? ==> r == UpdateFailed
      ensures body.Some? && !Present(cookie) ==> r == NotAuthenticated
      ensures body.Some? && Authenticate(cookie, codec).Rejected? ==> r == UpdateFailed
      ensures body.Some? && Authenticate(cookie, codec).Authenticated? && !Targets(body.value.id, old(rows)) ==>
                r == UpdateFailed
      ensures body.Some? && Authenticate(cookie, codec).Authenticated? && Targets(body.value.id, old(rows)) ==>
                var id := body.value.id.value;
                var p := Apply(old(rows)[id], body.value);
                rows == old(rows)[id := p] &&
                r == if old(rows)[id].userId == Authenticate(cookie, codec).userId
                     then Response(200, ProjectBody(Entry(id, p)))
                     else Forbidden
      ensures r.status == 403 ==>
                && body.Some? && Targets(body.value.id, old(rows))
                && Authenticate(cookie, codec).Authenticated?
                && old(rows)[body.value.id.value].userId != Authenticate(cookie, codec).userId
                && rows[body.value.id.value] == Apply(old(rows)[body.value.id.value], body.value)
    {
      if body.None? {
        return UpdateFailed;
      }
      match Authenticate(cookie, codec)
      case Missing =>
        r := NotAuthenticated;
      case Rejected =>
        r := UpdateFailed;
      case Authenticated(u) =>
        if !Targets(body.value.id, rows) {
          return UpdateFailed;
        }
        var id := body.value.id.value;
        var p := Apply(rows[id], body.value);
        rows := rows[id := p];
        if p.userId != u {
          return Forbidden;
        }
        r := Response(200, ProjectBody(Entry(id, p)));
    }

    /**
     * PUT /api/projects with the owner check moved before the write, as the
     * check's own comment intends: a caller who does not own the row gets 403
     * and the table is unchanged. Everything else is as in Update.
     */
    method GuardedUpdate(body: Option<Patch>, cookie: Option<Token>, codec: Codec) returns (r: Response)
      modifies this
      ensures r.status == 200 || r.status == 401 || r.status == 403 || r.status == 500
      ensures r.status != 200 ==> rows == old(rows)
      ensures body.None? ==> r == UpdateFailed
      ensures body.Some? && !Present(cookie) ==> r == NotAuthenticated
      ensures body.Some? && Authenticate(cookie, codec).Rejected? ==> r == UpdateFailed
      ensures body.Some? && Authenticate(cookie, codec).Authenticated? && !Targets(body.value.id, old(rows)) ==>
                r == UpdateFailed
      ensures body.Some? && Authenticate(cookie, codec).Authenticated? && Targets(body.value.id, old(rows)) ==>
                var id := body.value.id.value;
                var p := Apply(old(rows)[id], body.value);
                if old(rows)[id].userId == Authenticate(cookie, codec).userId
                then r == Response(200, ProjectBody(Entry(id, p))) && rows == old(rows)[id := p]
                else r == Forbidden
    {
      if body.None? {
        return UpdateFailed;
      }
      match Authenticate(cookie, codec)
      case Missing =>
        r := NotAuthenticated;
      case Rejected =>
        r := UpdateFailed;
      case Authenticated(u) =>
        if !Targets(body.value.id, rows) {
          return UpdateFailed;
        }
        var id := body.value.id.value;
        if rows[id].userId != u {
          return Forbidden;
        }
        var p := Apply(rows[id], body.value);
        rows := rows[id := p];
        r := Response(200, ProjectBody(Entry(id, p)));
    }

    /**
     * DELETE /api/projects. The row is looked up first; an absent row and a
     * row owned by someone else both give 403 and leave the table alone.
     * A body without an id makes the lookup throw (500).
     */
    method Delete(body: Option<Target>, cookie: Option<Token>, codec: Codec) returns (r: Response)
      modifies this
      ensures r.status == 200 || r.status == 401 || r.status == 403 || r.status == 500
      ensures r.status != 200 ==> rows == old(rows)
      ensures body.None? ==> r == DeleteFailed
      ensures body.Some? && !Present(cookie) ==> r == NotAuthenticated
      ensures body.Some? && Authenticate(cookie, codec).Rejected? ==> r == DeleteFailed
      ensures body.Some? && Authenticate(cookie, codec).Authenticated? && body.value.id.None? ==>
                r == DeleteFailed
      ensures body.Some? && Authenticate(cookie, codec).Authenticated? && body.value.id.Some? ==>
                var id := body.value.id.value;
                if id in old(rows) && old(rows)[id].userId == Authenticate(cookie, codec).userId
                then r == Deleted && rows == old(rows) - {id}
                else r == Forbidden
    {
      if body.None? {
        return DeleteFailed;
      }
      match Authenticate(cookie, codec)
      case Missing =>
        r := NotAuthenticated;
      case Rejected =>
        r := DeleteFailed;
      case Authenticated(u) =>
        if body.value.id.None? {
          return DeleteFailed;
        }
        var id := body.value.id.value;
        if id !in rows || rows[id].userId != u {
          return Forbidden;
        }
        rows := rows - {id};
        r := Deleted;
    }
  }

  /**
   * A concrete run of Update: alice creates a row, bob (not its owner) sends
   * a PUT for it, gets 403, and the row's title is bob's all the same.
   */
  method ForeignUpdateExhibit() returns (status: nat, titleAfter: string)
    ensures status == 403 && titleAfter == "defaced"
  {
    var codec := Codec(u => "t" + u, t => if |t| > 0 && t[0] == 't' then Some(t[1..]) else None);
    var table := new ProjectTable();
    var r := table.Create(Some(Draft("T", "D", "Go", "todo")), Some("talice"), codec, "p1", 1);
    r := table.Update(Some(Patch(Some("p1"), Some("defaced"), None, None, None)), Some("tbob"), codec);
    status := r.status;
    titleAfter := table.rows["p1"].title;
  }
}
