/**
 A user's grants: membership rows grouped by team, role and scope, closed under the capability rules, and the
 questions asked of them. Grouping must not change any answer a direct reading of the rows gives.
 */
module Iam {
  import opened Base
  import opened Capabilities

  /** A primary key: never empty. An optional field holds "" for none. */
  type Name = s: string | s != "" witness "a"

  datatype Scope = AllServers | OneServer(server: Name)

  /** A membership joined with its role and one capability. `server` and `siteServer` are empty unless the
      resource belongs to the team. */
  datatype Row = Row(team: Name, role: Name, resourceType: string, server: string, siteServer: string,
                     isSystem: bool, roleTeam: string, capability: Cap)

  datatype Key = Key(team: Name, role: Name, scope: Scope)
  datatype Grant = Grant(role: Name, scope: Scope, caps: seq<Cap>)
  type Grants = map<Name, seq<Grant>>

  // ---------------------------------------------------------------- rows

  function Named(server: string): Option<Scope>
  {
    if server == "" then None else Some(OneServer(server))
  }

  function GrantScope(row: Row): Option<Scope>
  {
    if row.resourceType == "" || row.resourceType == "*" then Some(AllServers)
    else if row.resourceType == "Server" then Named(row.server)
    else if row.resourceType == "Site" then Named(row.siteServer)
    else None
  }

  /** A custom role counts only in its own team. */
  predicate IsValid(row: Row)
  {
    (row.isSystem || row.roleTeam == row.team) && GrantScope(row).Some?
  }

  function KeyOf(row: Row): Key
    requires IsValid(row)
  {
    Key(row.team, row.role, GrantScope(row).value)
  }

  predicate Covers(scope: Scope, server: string)
  {
    scope == AllServers || scope.server == server
  }

  /** One row read on its own, field by field. A system role or a role of the team counts. It grants what its
      capability leads to: in the whole team if it names no kind of resource or every one, and else on the one server
      it names, itself or by its site, and there only what one server can carry. */
  ghost predicate RowAllows(rules: Rules, serverCaps: set<Cap>, row: Row, team: string, cap: Cap, server: string)
  {
    && (row.isSystem || row.roleTeam == row.team) && row.team == team && Reaches(rules, row.capability, cap)
    && (|| row.resourceType in {"", "*"}
        || (row.resourceType == "Server" && row.server != "" && row.server == server && cap in serverCaps)
        || (row.resourceType == "Site" && row.siteServer != "" && row.siteServer == server && cap in serverCaps))
  }

  /** The scope the code takes from a row says the same. */
  lemma ScopeReadsRow(rules: Rules, serverCaps: set<Cap>, row: Row, team: string, cap: Cap, server: string)
    ensures RowAllows(rules, serverCaps, row, team, cap, server) <==>
            && IsValid(row) && row.team == team && Reaches(rules, row.capability, cap)
            && Covers(GrantScope(row).value, server)
            && (GrantScope(row).value == AllServers || cap in serverCaps)
  {
  }

  // ---------------------------------------------------------------- grouping

  /** A team's keys in the order they first appear. */
  function KeyOrder(rows: seq<Row>, team: Name): (keys: seq<Key>)
    ensures forall k :: k in keys ==> k.team == team
  {
    if rows == [] then []
    else
      var n := |rows| - 1;
      var keys := KeyOrder(rows[..n], team);
      if IsValid(rows[n]) && rows[n].team == team && KeyOf(rows[n]) !in keys then keys + [KeyOf(rows[n])] else keys
  }

  /** A key's capabilities in the order they first appear. */
  function CapsOf(rows: seq<Row>, key: Key): seq<Cap>
  {
    if rows == [] then []
    else
      var n := |rows| - 1;
      var caps := CapsOf(rows[..n], key);
      if IsValid(rows[n]) && KeyOf(rows[n]) == key && rows[n].capability !in caps then caps + [rows[n].capability]
      else caps
  }

  predicate HasRow(rows: seq<Row>, key: Key, cap: Cap)
  {
    exists i :: 0 <= i < |rows| && IsValid(rows[i]) && KeyOf(rows[i]) == key && rows[i].capability == cap
  }

  predicate HasKey(rows: seq<Row>, key: Key)
  {
    exists i :: 0 <= i < |rows| && IsValid(rows[i]) && KeyOf(rows[i]) == key
  }

  lemma {:induction false} KeyOrderHolds(rows: seq<Row>, key: Key)
    ensures key in KeyOrder(rows, key.team) <==> HasKey(rows, key)
  {
    if rows != [] {
      var n := |rows| - 1;
      KeyOrderHolds(rows[..n], key);
      if i :| 0 <= i < |rows| && IsValid(rows[i]) && KeyOf(rows[i]) == key {
        assert i < n ==> rows[..n][i] == rows[i];
      }
      if i :| 0 <= i < n && IsValid(rows[..n][i]) && KeyOf(rows[..n][i]) == key {
        assert rows[..n][i] == rows[i];
      }
    }
  }

  lemma {:induction false} CapsOfHolds(rows: seq<Row>, key: Key, cap: Cap)
    ensures cap in CapsOf(rows, key) <==> HasRow(rows, key, cap)
  {
    if rows != [] {
      var n := |rows| - 1;
      CapsOfHolds(rows[..n], key, cap);
      if i :| 0 <= i < |rows| && IsValid(rows[i]) && KeyOf(rows[i]) == key && rows[i].capability == cap {
        assert i < n ==> rows[..n][i] == rows[i];
      }
      if i :| 0 <= i < n && IsValid(rows[..n][i]) && KeyOf(rows[..n][i]) == key && rows[..n][i].capability == cap {
        assert rows[..n][i] == rows[i];
      }
    }
  }

  /** A scoped grant keeps only what one server can carry. */
  function Keep(caps: seq<Cap>, allowed: set<Cap>): (kept: seq<Cap>)
    ensures forall c :: c in kept <==> c in caps && c in allowed
  {
    if caps == [] then []
    else
      var rest := Keep(caps[1..], allowed);
      assert caps == [caps[0]] + caps[1..];
      if caps[0] in allowed then [caps[0]] + rest else rest
  }

  /** `caps` is the closure of what the rows of `key` list, cut down to the scope. */
  ghost predicate IsClosedFor(rules: Rules, serverCaps: set<Cap>, rows: seq<Row>, key: Key, caps: seq<Cap>)
  {
    exists e :: IsExpansion(rules, CapsOf(rows, key), e)
                && caps == if key.scope == AllServers then e else Keep(e, serverCaps)
  }

  ghost predicate IsGrantOf(rules: Rules, serverCaps: set<Cap>, rows: seq<Row>, key: Key, g: Grant)
  {
    g.role == key.role && g.scope == key.scope && IsClosedFor(rules, serverCaps, rows, key, g.caps)
  }

  ghost predicate AreGrantsOf(rules: Rules, serverCaps: set<Cap>, rows: seq<Row>, team: Name, grants: seq<Grant>)
  {
    var keys := KeyOrder(rows, team);
    |grants| == |keys| && forall i :: 0 <= i < |grants| ==> IsGrantOf(rules, serverCaps, rows, keys[i], grants[i])
  }

  /** The whole answer: a team is there exactly when a row grants something in it, with one grant for each role
      and scope, in order. */
  ghost predicate IsResolved(rules: Rules, serverCaps: set<Cap>, rows: seq<Row>, grants: Grants)
  {
    && (forall t: Name :: t in grants <==> KeyOrder(rows, t) != [])
    && (forall t: Name :: t in grants ==> AreGrantsOf(rules, serverCaps, rows, t, grants[t]))
  }

  /** The state after the rows so far: keys listed by team, capabilities listed by key. */
  ghost predicate AreGroups(rows: seq<Row>, keysByTeam: map<Name, seq<Key>>, capsByKey: map<Key, seq<Cap>>)
  {
    && (forall t: Name :: t in keysByTeam <==> KeyOrder(rows, t) != [])
    && (forall t :: t in keysByTeam ==> keysByTeam[t] == KeyOrder(rows, t))
    && (forall k :: k in capsByKey <==> k in KeyOrder(rows, k.team))
    && (forall k :: k in capsByKey ==> capsByKey[k] == CapsOf(rows, k))
  }

  lemma UnseenHasNoCaps(rows: seq<Row>, key: Key)
    requires key !in KeyOrder(rows, key.team)
    ensures CapsOf(rows, key) == []
  {
  }

  function ListOf<K, V>(m: map<K, seq<V>>, k: K): seq<V>
  {
    if k in m then m[k] else []
  }

  function Include<V(==)>(list: seq<V>, v: V): seq<V>
  {
    if v in list then list else list + [v]
  }

  lemma OneMoreRow(rows: seq<Row>, n: nat)
    requires n < |rows|
    ensures IsValid(rows[n]) ==>
              && KeyOrder(rows[..n + 1], rows[n].team) == Include(KeyOrder(rows[..n], rows[n].team), KeyOf(rows[n]))
              && CapsOf(rows[..n + 1], KeyOf(rows[n])) == Include(CapsOf(rows[..n], KeyOf(rows[n])), rows[n].capability)
    ensures forall t: Name :: !IsValid(rows[n]) || t != rows[n].team ==>
              KeyOrder(rows[..n + 1], t) == KeyOrder(rows[..n], t)
    ensures forall k :: !IsValid(rows[n]) || k != KeyOf(rows[n]) ==> CapsOf(rows[..n + 1], k) == CapsOf(rows[..n], k)
  {
    assert rows[..n + 1][..n] == rows[..n];
  }

  /** The keys side of one more row. */
  lemma KeysGrouped(rows: seq<Row>, n: nat, keysByTeam: map<Name, seq<Key>>, more: map<Name, seq<Key>>)
    requires n < |rows| && IsValid(rows[n])
    requires forall t: Name :: ListOf(keysByTeam, t) == KeyOrder(rows[..n], t)
    requires forall t: Name :: t in keysByTeam <==> KeyOrder(rows[..n], t) != []
    requires more == keysByTeam[rows[n].team := Include(ListOf(keysByTeam, rows[n].team), KeyOf(rows[n]))]
    ensures forall t: Name :: t in more <==> KeyOrder(rows[..n + 1], t) != []
    ensures forall t :: t in more ==> more[t] == KeyOrder(rows[..n + 1], t)
  {
    OneMoreRow(rows, n);
  }

  /** The capabilities side of one more row. */
  lemma CapsGrouped(rows: seq<Row>, n: nat, capsByKey: map<Key, seq<Cap>>, more: map<Key, seq<Cap>>)
    requires n < |rows| && IsValid(rows[n])
    requires forall k :: k in capsByKey <==> k in KeyOrder(rows[..n], k.team)
    requires forall k :: k in capsByKey ==> capsByKey[k] == CapsOf(rows[..n], k)
    requires more == capsByKey[KeyOf(rows[n]) := Include(ListOf(capsByKey, KeyOf(rows[n])), rows[n].capability)]
    ensures forall k :: k in more <==> k in KeyOrder(rows[..n + 1], k.team)
    ensures forall k :: k in more ==> more[k] == CapsOf(rows[..n + 1], k)
  {
    OneMoreRow(rows, n);
    var key := KeyOf(rows[n]);
    if key !in capsByKey {
      UnseenHasNoCaps(rows[..n], key);
    }
    forall k: Key ensures k in KeyOrder(rows[..n + 1], k.team) <==> k in KeyOrder(rows[..n], k.team) || k == key {
      KeyAdded(rows, n, k);
    }
  }

  lemma KeyAdded(rows: seq<Row>, n: nat, k: Key)
    requires n < |rows| && IsValid(rows[n])
    ensures k in KeyOrder(rows[..n + 1], k.team) <==> k in KeyOrder(rows[..n], k.team) || k == KeyOf(rows[n])
  {
    OneMoreRow(rows, n);
  }

  lemma RowGrouped(rows: seq<Row>, n: nat, keysByTeam: map<Name, seq<Key>>, capsByKey: map<Key, seq<Cap>>)
    requires n < |rows| && IsValid(rows[n]) && AreGroups(rows[..n], keysByTeam, capsByKey)
    ensures var row, key := rows[n], KeyOf(rows[n]);
            AreGroups(rows[..n + 1],
                      keysByTeam[row.team := Include(ListOf(keysByTeam, row.team), key)],
                      capsByKey[key := Include(ListOf(capsByKey, key), row.capability)])
  {
    var row, key := rows[n], KeyOf(rows[n]);
    KeysGrouped(rows, n, keysByTeam, keysByTeam[row.team := Include(ListOf(keysByTeam, row.team), key)]);
    CapsGrouped(rows, n, capsByKey, capsByKey[key := Include(ListOf(capsByKey, key), row.capability)]);
  }

  lemma RowSkipped(rows: seq<Row>, n: nat, keysByTeam: map<Name, seq<Key>>, capsByKey: map<Key, seq<Cap>>)
    requires n < |rows| && !IsValid(rows[n]) && AreGroups(rows[..n], keysByTeam, capsByKey)
    ensures AreGroups(rows[..n + 1], keysByTeam, capsByKey)
  {
    OneMoreRow(rows, n);
  }

  /** One row: a new key opens a grant and joins its team's list, and each capability is kept once. */
  method GroupRow(row: Row, keys: map<Name, seq<Key>>, caps: map<Key, seq<Cap>>)
    returns (keysByTeam: map<Name, seq<Key>>, capsByKey: map<Key, seq<Cap>>)
    requires IsValid(row) && (KeyOf(row) in caps <==> KeyOf(row) in ListOf(keys, row.team))
    ensures keysByTeam == keys[row.team := Include(ListOf(keys, row.team), KeyOf(row))]
    ensures capsByKey == caps[KeyOf(row) := Include(ListOf(caps, KeyOf(row)), row.capability)]
  {
    keysByTeam, capsByKey := keys, caps;
    var key := KeyOf(row);
    if key !in capsByKey {
      capsByKey := capsByKey[key := []];
      keysByTeam := keysByTeam[row.team := ListOf(keysByTeam, row.team) + [key]];
    }
    if row.capability !in capsByKey[key] {
      capsByKey := capsByKey[key := capsByKey[key] + [row.capability]];
    }
  }

  /** The first loop. A row that counts for nothing is passed by. */
  method GroupRows(rows: seq<Row>) returns (keysByTeam: map<Name, seq<Key>>, capsByKey: map<Key, seq<Cap>>)
    ensures AreGroups(rows, keysByTeam, capsByKey)
  {
    keysByTeam, capsByKey := map[], map[];
    for n := 0 to |rows|
      invariant AreGroups(rows[..n], keysByTeam, capsByKey)
    {
      if !IsValid(rows[n]) {
        RowSkipped(rows, n, keysByTeam, capsByKey);
      } else {
        RowGrouped(rows, n, keysByTeam, capsByKey);
        keysByTeam, capsByKey := GroupRow(rows[n], keysByTeam, capsByKey);
      }
    }
    assert rows[..|rows|] == rows;
  }

  /** The second loop, which closes every grant. */
  method CloseGrants(rules: Rules, serverCaps: set<Cap>, ghost rows: seq<Row>, capsByKey: map<Key, seq<Cap>>)
    returns (closed: map<Key, seq<Cap>>)
    requires forall k :: k in capsByKey ==> capsByKey[k] == CapsOf(rows, k)
    ensures closed.Keys == capsByKey.Keys
    ensures forall k :: k in closed ==> IsClosedFor(rules, serverCaps, rows, k, closed[k])
  {
    closed := map[];
    var left := capsByKey.Keys;
    while left != {}
      invariant left <= capsByKey.Keys && closed.Keys == capsByKey.Keys - left
      invariant forall k :: k in closed ==> IsClosedFor(rules, serverCaps, rows, k, closed[k])
      decreases left
    {
      var key :| key in left;
      var caps := ExpandCapabilities(rules, capsByKey[key]);
      closed := closed[key := if key.scope == AllServers then caps else Keep(caps, serverCaps)];
      left := left - {key};
    }
  }

  /** `resolve_user_grants` for a member. */
  method ResolveMemberGrants(rules: Rules, serverCaps: set<Cap>, rows: seq<Row>) returns (grants: Grants)
    ensures IsResolved(rules, serverCaps, rows, grants)
  {
    var keysByTeam, capsByKey := GroupRows(rows);
    var closed := CloseGrants(rules, serverCaps, rows, capsByKey);
    forall t | t in keysByTeam ensures AreGrantsOf(rules, serverCaps, rows, t, GrantList(keysByTeam[t], closed)) {
      GrantsBuilt(rules, serverCaps, rows, t, closed);
    }
    grants := map t | t in keysByTeam :: GrantList(keysByTeam[t], closed);
  }

  function GrantList(keys: seq<Key>, closed: map<Key, seq<Cap>>): (grants: seq<Grant>)
    requires forall k :: k in keys ==> k in closed
  {
    seq(|keys|, i requires 0 <= i < |keys| => Grant(keys[i].role, keys[i].scope, closed[keys[i]]))
  }

  lemma GrantsBuilt(rules: Rules, serverCaps: set<Cap>, rows: seq<Row>, team: Name, closed: map<Key, seq<Cap>>)
    requires forall k :: k in closed ==> IsClosedFor(rules, serverCaps, rows, k, closed[k])
    requires forall k :: k in KeyOrder(rows, team) ==> k in closed
    ensures AreGrantsOf(rules, serverCaps, rows, team, GrantList(KeyOrder(rows, team), closed))
  {
  }

  /** What `resolve_user_grants` gives an operator: every registered capability in every active team. */
  predicate IsOperatorGrants(grants: Grants, activeTeams: set<Name>, registered: seq<Cap>)
  {
    grants.Keys == activeTeams
    && forall t :: t in activeTeams ==> grants[t] == [Grant("System Manager", AllServers, registered)]
  }

  /** `resolve_user_grants` for an operator. */
  method ResolveOperatorGrants(activeTeams: seq<Name>, registered: seq<Cap>) returns (grants: Grants)
    ensures IsOperatorGrants(grants, (set t | t in activeTeams), registered)
  {
    grants := map[];
    for n := 0 to |activeTeams|
      invariant grants.Keys == set t | t in activeTeams[..n]
      invariant forall t :: t in grants ==> grants[t] == [Grant("System Manager", AllServers, registered)]
    {
      assert activeTeams[..n + 1] == activeTeams[..n] + [activeTeams[n]];
      grants := grants[activeTeams[n] := [Grant("System Manager", AllServers, registered)]];
    }
    assert activeTeams[..|activeTeams|] == activeTeams;
  }

  // ---------------------------------------------------------------- the question

  /** Somebody asking: an operator bypasses every grant. */
  datatype User = User(isOperator: bool, isStaffViewer: bool, grants: Grants)

  predicate GrantAllows(g: Grant, cap: Cap, server: string)
  {
    cap in g.caps && Covers(g.scope, server)
  }

  predicate CanIn(grants: Grants, team: string, cap: Cap, server: string)
  {
    team != "" && team in grants && exists g :: g in grants[team] && GrantAllows(g, cap, server)
  }

  /** `can`: with no server only a team-wide grant counts. */
  predicate Can(user: User, team: string, cap: Cap, server: string)
  {
    user.isOperator || CanIn(user.grants, team, cap, server)
  }

  lemma GrantAllowsIff(rules: Rules, serverCaps: set<Cap>, rows: seq<Row>, key: Key, g: Grant, cap: Cap)
    requires IsGrantOf(rules, serverCaps, rows, key, g)
    ensures cap in g.caps <==>
            (key.scope == AllServers || cap in serverCaps)
            && exists i :: 0 <= i < |rows| && IsValid(rows[i]) && KeyOf(rows[i]) == key
                           && Reaches(rules, rows[i].capability, cap)
  {
    var caps := CapsOf(rows, key);
    if Follows(rules, caps, cap) {
      var a :| a in caps && Reaches(rules, a, cap);
      CapsOfHolds(rows, key, a);
    }
    if i :| 0 <= i < |rows| && IsValid(rows[i]) && KeyOf(rows[i]) == key && Reaches(rules, rows[i].capability, cap) {
      CapsOfHolds(rows, key, rows[i].capability);
      assert Follows(rules, caps, cap);
    }
  }

  /** Grouping, closing and filtering change no answer: a member can exactly what some row allows. */
  lemma CanIffSomeRow(rules: Rules, serverCaps: set<Cap>, rows: seq<Row>, grants: Grants, team: string, cap: Cap,
                      server: string)
    requires IsResolved(rules, serverCaps, rows, grants)
    ensures CanIn(grants, team, cap, server) <==>
            exists i :: 0 <= i < |rows| && RowAllows(rules, serverCaps, rows[i], team, cap, server)
  {
    if CanIn(grants, team, cap, server) {
      CanHasRow(rules, serverCaps, rows, grants, team, cap, server);
    }
    if i :| 0 <= i < |rows| && RowAllows(rules, serverCaps, rows[i], team, cap, server) {
      RowGivesCan(rules, serverCaps, rows, grants, cap, server, i);
    }
  }

  lemma CanHasRow(rules: Rules, serverCaps: set<Cap>, rows: seq<Row>, grants: Grants, team: string, cap: Cap,
                  server: string)
    requires IsResolved(rules, serverCaps, rows, grants) && CanIn(grants, team, cap, server)
    ensures exists i :: 0 <= i < |rows| && RowAllows(rules, serverCaps, rows[i], team, cap, server)
  {
    var keys := KeyOrder(rows, team);
    var g :| g in grants[team] && GrantAllows(g, cap, server);
    var n :| 0 <= n < |grants[team]| && grants[team][n] == g;
    assert AreGrantsOf(rules, serverCaps, rows, team, grants[team]);
    assert keys[n] in keys;
    GrantAllowsIff(rules, serverCaps, rows, keys[n], g, cap);
    var i :| 0 <= i < |rows| && IsValid(rows[i]) && KeyOf(rows[i]) == keys[n]
             && Reaches(rules, rows[i].capability, cap);
    ScopeReadsRow(rules, serverCaps, rows[i], team, cap, server);
  }

  lemma RowGivesCan(rules: Rules, serverCaps: set<Cap>, rows: seq<Row>, grants: Grants, cap: Cap, server: string,
                    i: nat)
    requires IsResolved(rules, serverCaps, rows, grants) && i < |rows|
    requires RowAllows(rules, serverCaps, rows[i], rows[i].team, cap, server)
    ensures CanIn(grants, rows[i].team, cap, server)
  {
    ScopeReadsRow(rules, serverCaps, rows[i], rows[i].team, cap, server);
    var team, key := rows[i].team, KeyOf(rows[i]);
    var keys := KeyOrder(rows, team);
    KeyOrderHolds(rows, key);
    assert AreGrantsOf(rules, serverCaps, rows, team, grants[team]);
    var n :| 0 <= n < |keys| && keys[n] == key;
    GrantAllowsIff(rules, serverCaps, rows, key, grants[team][n], cap);
    assert GrantAllows(grants[team][n], cap, server);
  }

  // ---------------------------------------------------------------- this program's rules

  /** The rules are one step deep: nothing implied implies anything else. */
  lemma {:induction false} RulesAreShallow(a: Cap, b: Cap, n: nat)
    requires ReachesIn(CAP_IMPLICATIONS, a, b, n)
    ensures a == b || Implies(CAP_IMPLICATIONS, a, b)
    decreases n
  {
  }

  /** A member whose rows in a team all name one server, themselves or by a site on it, can do nothing on another server
      and nothing in the whole team, and on that one only what one server can carry. */
  lemma OneServerOnly(rules: Rules, serverCaps: set<Cap>, rows: seq<Row>, grants: Grants, team: string, only: Name,
                      cap: Cap, server: string)
    requires IsResolved(rules, serverCaps, rows, grants)
    requires forall i :: 0 <= i < |rows| && rows[i].team == team ==>
               || (rows[i].resourceType == "Server" && rows[i].server == only)
               || (rows[i].resourceType == "Site" && rows[i].siteServer == only)
    ensures CanIn(grants, team, cap, server) ==> server == only && cap in serverCaps
  {
    CanIffSomeRow(rules, serverCaps, rows, grants, team, cap, server);
  }

  /** What the shipped rules let see servers. */
  const SHOWS_SERVERS: set<Cap> := {
    "server:view", "server:create", "server:terminate", "server:power", "server:network", "server:resize",
    "server:snapshot", "server:ssh-key", "server:wireguard", "server:console"
  }

  /** A server is seen exactly with a row in the whole team, or on that server, of a capability that shows servers:
      creating servers or handling the WireGuard library on one server still shows that server. */
  lemma SeesServerIff(rows: seq<Row>, grants: Grants, team: string, server: Name)
    requires IsResolved(CAP_IMPLICATIONS, SERVER_CAPABILITIES, rows, grants)
    ensures CanIn(grants, team, "server:view", server) <==>
            exists i :: 0 <= i < |rows| && (rows[i].isSystem || rows[i].roleTeam == team) && rows[i].team == team
                        && rows[i].capability in SHOWS_SERVERS
                        && (|| rows[i].resourceType in {"", "*"}
                            || (rows[i].resourceType == "Server" && rows[i].server == server)
                            || (rows[i].resourceType == "Site" && rows[i].siteServer == server))
  {
    CanIffSomeRow(CAP_IMPLICATIONS, SERVER_CAPABILITIES, rows, grants, team, "server:view", server);
    forall i | 0 <= i < |rows|
      ensures rows[i].capability in SHOWS_SERVERS <==> Reaches(CAP_IMPLICATIONS, rows[i].capability, "server:view")
    {
      ShowsServersIff(rows[i].capability);
    }
  }

  lemma ShowsServersIff(cap: Cap)
    ensures cap in SHOWS_SERVERS <==> Reaches(CAP_IMPLICATIONS, cap, "server:view")
  {
    if n: nat :| ReachesIn(CAP_IMPLICATIONS, cap, "server:view", n) {
      RulesAreShallow(cap, "server:view", n);
    }
    ReachesSelf(CAP_IMPLICATIONS, cap);
    if cap in SHOWS_SERVERS && cap != "server:view" {
      ReachesStep(CAP_IMPLICATIONS, cap, cap, "server:view");
    }
  }
}
