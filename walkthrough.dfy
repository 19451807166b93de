/**
 * One user's session end to end, through the contracts alone: log in, create
 * a project, list, change its status, list, delete, list.
 */
module Walkthrough {
  import opened Wrappers
  import opened Session
  import opened Projects
  import opened ProjectRoutes
  import Login

  /** A table holding one row of the caller's lists exactly that row. */
  lemma ListsOnlyRow(rows: map<ProjectId, Project>, cookie: Option<Token>, codec: Codec, e: Entry)
    requires rows.Keys == {e.id} && rows[e.id] == e.project
    requires Authenticate(cookie, codec) == Authenticated(e.project.userId)
    ensures Get(rows, cookie, codec) == Response(200, ListBody([e]))
  {

  }

  /** An empty table lists nothing. */
  lemma ListsNothing(cookie: Option<Token>, codec: Codec, u: UserId)
    requires Authenticate(cookie, codec) == Authenticated(u)
    ensures Get(map[], cookie, codec) == Response(200, ListBody([]))
  {

  }

  /**
   * Any caller whose cookie passes the gate as "u1": create a project, list,
   * set its status to "done" through the route's update, list, delete, list.
   */
  method ManageOneProject(cookie: Option<Token>, codec: Codec)
    returns (statuses: seq<nat>, ghost listed: seq<Entry>, ghost relisted: seq<Entry>, ghost emptied: seq<Entry>)
    requires Authenticate(cookie, codec) == Authenticated("u1")
    ensures statuses == [200, 200, 200]
    ensures listed == [Entry("p1", Project("u1", "T", "D", "Go", "todo", 1))]
    ensures relisted == [Entry("p1", Project("u1", "T", "D", "Go", "done", 1))]
    ensures emptied == []
  {
    var table := new ProjectTable();
    var created := table.Create(Some(Draft("T", "D", "Go", "todo")), cookie, codec, "p1", 1);
    var todo := Entry("p1", Project("u1", "T", "D", "Go", "todo", 1));
    assert table.rows.Keys == {"p1"} && table.rows["p1"] == todo.project;
    ListsOnlyRow(table.rows, cookie, codec, todo);
    listed := Get(table.rows, cookie, codec).body.entries;

    var patch := Patch(Some("p1"), None, None, None, Some("done"));
    var done := Entry("p1", Project("u1", "T", "D", "Go", "done", 1));
    assert Apply(todo.project, patch) == done.project;
    assert Targets(patch.id, table.rows);
    var updated := table.Update(Some(patch), cookie, codec);
    assert table.rows.Keys == {"p1"} && table.rows["p1"] == done.project;
    ListsOnlyRow(table.rows, cookie, codec, done);
    relisted := Get(table.rows, cookie, codec).body.entries;

    var deleted := table.Delete(Some(Target(Some("p1"))), cookie, codec);
    assert table.rows == map[];
    ListsNothing(cookie, codec, "u1");
    emptied := Get(table.rows, cookie, codec).body.entries;

    statuses := [created.status, updated.status, deleted.status];
  }

  /**
   * The whole session, starting from login. Any token library keeping its
   * promise and any password check accepting "pw1" against the stored hash
   * will do.
   */
  method OneUserSession(codec: Codec, matches: (string, string) -> bool)
    returns (statuses: seq<nat>, ghost listed: seq<Entry>, ghost relisted: seq<Entry>, ghost emptied: seq<Entry>)
    requires Sound(codec)
    requires matches("pw1", "hash:pw1")
    ensures statuses == [200, 200, 200, 200]
    ensures listed == [Entry("p1", Project("u1", "T", "D", "Go", "todo", 1))]
    ensures relisted == [Entry("p1", Project("u1", "T", "D", "Go", "done", 1))]
    ensures emptied == []
  {
    var users := map["a@x.com" := Login.User("u1", "hash:pw1")];
    var login := Login.SignIn(users, "a@x.com", "pw1", matches, codec);
    Login.SessionCarriesUser(users, "a@x.com", "pw1", matches, codec);
    var rest;
    rest, listed, relisted, emptied := ManageOneProject(login.cookie, codec);
    statuses := [login.status] + rest;
  }
}
