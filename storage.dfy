/** The saved connection profiles (`ConnectionStorage`): a list kept in one configuration file. The file is
    modelled by whether it exists and the list it holds; its TOML encoding is not part of this model. */
module Storage {
  import opened Common
  import opened Models

  /** `Vec::retain(|c| c.id != id)`: every profile with that id goes, the others stay. */
  function RemoveAll(s: seq<Connection>, id: string): (r: seq<Connection>)
    ensures |r| <= |s|
    ensures forall i :: 0 <= i < |r| ==> r[i].id != id
    ensures forall c :: c in r <==> c in s && c.id != id
  {
    if s == [] then []
    else if s[0].id == id then RemoveAll(s[1..], id)
    else [s[0]] + RemoveAll(s[1..], id)
  }

  /** `iter().position(|c| c.id == id)`: the index of the first profile with that id. */
  function Position(s: seq<Connection>, id: string): (r: Option<nat>)
    ensures r.Some? ==> r.value < |s| && s[r.value].id == id
    ensures r.Some? ==> forall j :: 0 <= j < r.value ==> s[j].id != id
    ensures r.None? <==> forall j :: 0 <= j < |s| ==> s[j].id != id
  {
    if s == [] then None
    else if s[0].id == id then Some(0)
    else match Position(s[1..], id)
      case None => None
      case Some(p) => Some(p + 1)
  }

  /** `into_iter().find(|c| c.id == id)`: the first profile with that id, if any. */
  function Find(s: seq<Connection>, id: string): (r: Option<Connection>)
    ensures r.None? <==> forall c :: c in s ==> c.id != id
    ensures r.Some? ==> exists i :: 0 <= i < |s| && s[i] == r.value && r.value.id == id &&
                                    forall j :: 0 <= j < i ==> s[j].id != id
  {
    if s == [] then None
    else if s[0].id == id then Some(s[0])
    else Find(s[1..], id)
  }

  /** Removal keeps the surviving profiles in their original relative order: it distributes over concatenation. */
  lemma {:induction false} RemoveAllKeepsOrder(a: seq<Connection>, b: seq<Connection>, id: string)
    ensures RemoveAll(a + b, id) == RemoveAll(a, id) + RemoveAll(b, id)
  {
    if a == [] {
      assert a + b == b;
    } else {
      assert (a + b)[0] == a[0];
      assert (a + b)[1..] == a[1..] + b;
      RemoveAllKeepsOrder(a[1..], b, id);
    }
  }

  /** Removing an id that no profile carries leaves the list as it was. */
  lemma {:induction false} RemoveAbsentIsIdentity(s: seq<Connection>, id: string)
    requires forall c :: c in s ==> c.id != id
    ensures RemoveAll(s, id) == s
  {
    if s != [] {
      assert s[0] in s;
      assert forall c :: c in s[1..] ==> c in s;
      RemoveAbsentIsIdentity(s[1..], id);
      assert [s[0]] + s[1..] == s;
    }
  }

  /** Once an id is removed, looking it up finds nothing. */
  lemma RemovedIsNotFound(s: seq<Connection>, id: string)
    ensures Find(RemoveAll(s, id), id).None?
  {
  }

  /** Appending never deduplicates and never shadows: a lookup finds the earlier profile when one has the
      id, and the appended one otherwise. */
  lemma {:induction false} AppendKeepsFirstMatch(s: seq<Connection>, c: Connection, id: string)
    ensures Find(s + [c], id) == (if Find(s, id).Some? then Find(s, id) else if c.id == id then Some(c) else None)
  {
    if s == [] {
      assert s + [c] == [c];
    } else {
      assert (s + [c])[0] == s[0];
      assert (s + [c])[1..] == s[1..] + [c];
      AppendKeepsFirstMatch(s[1..], c, id);
    }
  }

  /** Replacing the first match keeps the length, changes that one slot only, and the replacement is what a
      later lookup of its id returns. */
  lemma ReplaceFirstMatch(s: seq<Connection>, c: Connection)
    requires Position(s, c.id).Some?
    ensures var p := Position(s, c.id).value;
            && |s[p := c]| == |s|
            && (forall j :: 0 <= j < |s| && j != p ==> s[p := c][j] == s[j])
            && Find(s[p := c], c.id) == Some(c)
  {
    var t := s[Position(s, c.id).value := c];
    assert t[Position(s, c.id).value] in t;
  }

  class ConnectionStorage {
    /** Whether `connections.toml` exists. */
    var fileExists: bool
    /** The profiles the file holds, in file order (meaningful only while the file exists). */
    var saved: seq<Connection>

    /** A store over a configuration file in the given state. */
    constructor (present: bool, contents: seq<Connection>)
      ensures fileExists == present && saved == (if present then contents else [])
    {
      fileExists := present;
      saved := if present then contents else [];
    }

    /** The list `load_connections` reads. */
    ghost function Stored(): seq<Connection>
      reads this
    {
      if fileExists then saved else []
    }

    /** `load_connections`: the saved list, or the empty list when there is no file yet. */
    method LoadConnections() returns (connections: seq<Connection>)
      ensures !fileExists ==> connections == []
      ensures fileExists ==> connections == saved
    {
      if !fileExists {
        return [];
      }
      connections := saved;
    }

    /** `save_connections`: the file is (re)written with exactly the given list. */
    method SaveConnections(connections: seq<Connection>)
      modifies this
      ensures fileExists && saved == connections
    {
      fileExists := true;
      saved := connections;
    }

    /** `add_connection`: appends at the end, keeping earlier profiles and their order, without deduplicating. */
    method AddConnection(connection: Connection)
      modifies this
      ensures fileExists && saved == old(Stored()) + [connection]
    {
      var connections := LoadConnections();
      connections := connections + [connection];
      SaveConnections(connections);
    }

    /** `remove_connection`: drops every profile with that id and keeps the rest in order. */
    method RemoveConnection(id: string)
      modifies this
      ensures fileExists && saved == RemoveAll(old(Stored()), id)
      ensures Find(Stored(), id).None?
    {
      var connections := LoadConnections();
      connections := RemoveAll(connections, id);
      SaveConnections(connections);
      RemovedIsNotFound(old(Stored()), id);
    }

    /** `update_connection`: replaces the first profile with the same id; with no such profile nothing is
        written (the file is not even created) and the call still succeeds. */
    method UpdateConnection(connection: Connection)
      modifies this
      ensures Position(old(Stored()), connection.id).None? ==> fileExists == old(fileExists) && saved == old(saved)
      ensures Position(old(Stored()), connection.id).Some? ==>
                fileExists && saved == old(Stored())[Position(old(Stored()), connection.id).value := connection]
      ensures |Stored()| == |old(Stored())|
    {
      var connections := LoadConnections();
      match Position(connections, connection.id)
      case Some(pos) =>
        connections := connections[pos := connection];
        SaveConnections(connections);
      case None =>
    }

    /** `get_connection`: the first saved profile with that id, or None. */
    method GetConnection(id: string) returns (r: Option<Connection>)
      ensures r.None? <==> forall c :: c in Stored() ==> c.id != id
      ensures r.Some? ==> r.value.id == id && r.value in Stored()
      ensures r == Find(Stored(), id)
    {
      var connections := LoadConnections();
      r := Find(connections, id);
    }
  }
}
