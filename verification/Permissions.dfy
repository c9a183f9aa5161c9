/**
 The readings of the same grants that must agree: the row filter of a list, the check of one document, the gate
 of the feed, and the filter of the digest.
 */
module Permissions {
  import opened Base
  import opened Capabilities
  import opened Iam

  const VIEW: Cap := "server:view"

  // ---------------------------------------------------------------- allowed servers

  /** Where a capability holds in one team. */
  datatype Allowed = Everywhere | Only(servers: set<Name>)

  /** Held team-wide or on at least one server. */
  predicate HoldsSomewhere(grants: Grants, team: string, cap: Cap)
  {
    team != "" && team in grants && exists g :: g in grants[team] && cap in g.caps
  }

  predicate AllowsOn(a: Allowed, server: string)
  {
    a == Everywhere || server in a.servers
  }

  /** Team by team, an allowed list answers what `can` answers, server by server. */
  ghost predicate IsAllowed(grants: Grants, cap: Cap, allowed: map<Name, Allowed>)
  {
    && (forall t: Name :: t in allowed <==> HoldsSomewhere(grants, t, cap))
    && (forall t: Name :: t in allowed ==> forall s: string :: AllowsOn(allowed[t], s) <==> CanIn(grants, t, cap, s))
  }

  /** One team of `get_allowed_servers`. */
  function AllowedIn(list: seq<Grant>, cap: Cap): Allowed
  {
    var scopes := set g | g in list && cap in g.caps :: g.scope;
    if AllServers in scopes then Everywhere else Only(set s | s in scopes && s.OneServer? :: s.server)
  }

  method GetAllowedServers(grants: Grants, cap: Cap) returns (allowed: map<Name, Allowed>)
    ensures IsAllowed(grants, cap, allowed)
  {
    allowed := map[];
    var left := grants.Keys;
    while left != {}
      invariant left <= grants.Keys
      invariant forall t: Name :: t in allowed <==> t in grants && t !in left && HoldsSomewhere(grants, t, cap)
      invariant forall t: Name :: t in allowed ==> allowed[t] == AllowedIn(grants[t], cap)
      decreases left
    {
      var team :| team in left;
      if exists g :: g in grants[team] && cap in g.caps {
        allowed := allowed[team := AllowedIn(grants[team], cap)];
      }
      left := left - {team};
    }
    forall t: Name, s: string | t in allowed ensures AllowsOn(allowed[t], s) <==> CanIn(grants, t, cap, s) {
    }
  }

  /** `can_on_any_server`, which reads the allowed list's teams. */
  predicate CanOnAnyServer(user: User, team: string, cap: Cap)
  {
    user.isOperator || HoldsSomewhere(user.grants, team, cap)
  }

  // ---------------------------------------------------------------- lists and documents

  /** The two columns every rule reads. Both may be empty. */
  datatype Record = Record(team: string, server: string)

  datatype Clause = TeamIn(teams: set<Name>) | ServerIn(team: Name, servers: set<Name>)
  datatype Condition = Everything | AnyOf(clauses: seq<Clause>)

  predicate Meets(c: Clause, r: Record)
  {
    match c
    case TeamIn(teams) => r.team in teams
    case ServerIn(team, servers) => r.team == team && r.server in servers
  }

  /** No clause at all admits nothing. */
  predicate Admits(c: Condition, r: Record)
  {
    c.Everything? || exists k :: k in c.clauses && Meets(k, r)
  }

  /** `OtherRead` is any type that neither changes the record nor reads or selects it: print, export, none given. */
  datatype Permission = Read | Select | OtherRead | Mutate

  predicate ServerScopedHasPermission(user: User, r: Record, ptype: Permission)
  {
    user.isOperator || (r.team != "" && ptype != Mutate && Can(user, r.team, VIEW, r.server))
  }

  predicate IsStaffRead(user: User, ptype: Permission)
  {
    (ptype == Read || ptype == Select) && user.isStaffViewer
  }

  predicate StaffReadableHasPermission(user: User, r: Record, ptype: Permission)
  {
    IsStaffRead(user, ptype) || ServerScopedHasPermission(user, r, ptype)
  }

  /** Who may do what to one record, without the names of the checks. An operator may do anything. Nobody else may
      change it; anybody may read it who holds the view of servers in its team, on the whole team or on its own server;
      and a staff viewer reads and selects what is open to staff. */
  lemma ChecksExactly(user: User, r: Record, ptype: Permission)
    ensures var mayView := && r.team != "" && r.team in user.grants
                           && exists g :: g in user.grants[r.team] && "server:view" in g.caps
                                          && (g.scope.AllServers? || g.scope.server == r.server);
            && (ServerScopedHasPermission(user, r, ptype) <==>
                user.isOperator || (ptype in {Read, Select, OtherRead} && mayView))
            && (StaffReadableHasPermission(user, r, ptype) <==>
                || user.isOperator || (ptype in {Read, Select, OtherRead} && mayView)
                || (user.isStaffViewer && ptype in {Read, Select}))
  {
    if r.team != "" && r.team in user.grants {
      assert forall g :: g in user.grants[r.team] ==>
               (GrantAllows(g, VIEW, r.server) <==>
                "server:view" in g.caps && (g.scope.AllServers? || g.scope.server == r.server));
    }
  }

  ghost predicate IsClauseOf(allowed: map<Name, Allowed>, k: Clause)
  {
    match k
    case TeamIn(teams) => forall t :: t in teams <==> t in allowed && allowed[t] == Everywhere
    case ServerIn(team, servers) => team in allowed && allowed[team] == Only(servers)
  }

  /** The list admits a record exactly when the document check lets the user read it. */
  method ServerScopedQueryConditions(user: User) returns (c: Condition)
    ensures forall r :: Admits(c, r) <==> ServerScopedHasPermission(user, r, Read)
  {
    if user.isOperator {
      return Everything;
    }
    var allowed := GetAllowedServers(user.grants, VIEW);
    var wide := set t | t in allowed && allowed[t] == Everywhere;
    var clauses := if wide != {} then [TeamIn(wide)] else [];
    var left := allowed.Keys;
    while left != {}
      invariant left <= allowed.Keys
      invariant forall k :: k in clauses ==> IsClauseOf(allowed, k)
      invariant wide != {} ==> TeamIn(wide) in clauses
      invariant forall t: Name :: t in allowed && t !in left && allowed[t].Only? ==>
                  ServerIn(t, allowed[t].servers) in clauses
      decreases left
    {
      var team :| team in left;
      if allowed[team].Only? {
        clauses := clauses + [ServerIn(team, allowed[team].servers)];
      }
      left := left - {team};
    }
    c := AnyOf(clauses);
    forall r ensures Admits(c, r) <==> ServerScopedHasPermission(user, r, Read) {
      ClausesDecide(user, allowed, wide, clauses, r);
    }
  }

  lemma ClausesDecide(user: User, allowed: map<Name, Allowed>, wide: set<Name>, clauses: seq<Clause>, r: Record)
    requires !user.isOperator && IsAllowed(user.grants, VIEW, allowed)
    requires forall k :: k in clauses ==> IsClauseOf(allowed, k)
    requires wide == (set t | t in allowed && allowed[t] == Everywhere) && (wide != {} ==> TeamIn(wide) in clauses)
    requires forall t: Name :: t in allowed && allowed[t].Only? ==> ServerIn(t, allowed[t].servers) in clauses
    ensures Admits(AnyOf(clauses), r) <==> ServerScopedHasPermission(user, r, Read)
  {
    if Admits(AnyOf(clauses), r) {
      var k :| k in clauses && Meets(k, r);
      assert AllowsOn(allowed[r.team], r.server);
    }
    if ServerScopedHasPermission(user, r, Read) {
      var t: Name := r.team;
      assert t in allowed && AllowsOn(allowed[t], r.server);
      if allowed[t] == Everywhere {
        assert Meets(TeamIn(wide), r);
      } else {
        assert Meets(ServerIn(t, allowed[t].servers), r);
      }
    }
  }

  /** The same for the records a Staff Viewer reads across teams. */
  method StaffReadableQueryConditions(user: User) returns (c: Condition)
    ensures forall r :: Admits(c, r) <==> StaffReadableHasPermission(user, r, Read)
  {
    if IsStaffRead(user, Read) {
      return Everything;
    }
    c := ServerScopedQueryConditions(user);
  }

  /** `_team_field_query_conditions`: the team's rows, wherever in it the capability is held. */
  method TeamFieldQueryConditions(user: User, cap: Cap) returns (c: Condition)
    ensures forall r :: Admits(c, r) <==> CanOnAnyServer(user, r.team, cap)
  {
    if user.isOperator {
      return Everything;
    }
    var allowed := GetAllowedServers(user.grants, cap);
    var teams := allowed.Keys;
    if teams == {} {
      c := AnyOf([]);
      assert forall t: Name :: !HoldsSomewhere(user.grants, t, cap);
    } else {
      c := AnyOf([TeamIn(teams)]);
      forall r ensures Admits(c, r) <==> HoldsSomewhere(user.grants, r.team, cap) {
        assert Admits(c, r) <==> Meets(TeamIn(teams), r);
      }
    }
  }

  /** A capability no server can carry is held somewhere exactly when it is held team-wide. */
  lemma UnscopableIsTeamWide(rules: Rules, serverCaps: set<Cap>, rows: seq<Row>, grants: Grants, team: string, cap: Cap)
    requires IsResolved(rules, serverCaps, rows, grants) && cap !in serverCaps
    ensures HoldsSomewhere(grants, team, cap) <==> CanIn(grants, team, cap, "")
  {
  }

  const WIREGUARD: Cap := "server:wireguard"

  /** `wireguard_device_has_permission` for anything but a change or a removal. */
  predicate MayReadDevice(user: User, r: Record)
  {
    user.isOperator || (r.team != "" && Can(user, r.team, WIREGUARD, ""))
  }

  /** The device list and the device check agree, because no grant on one server carries the capability. */
  lemma DeviceListAgrees(rows: seq<Row>, user: User, c: Condition, r: Record)
    requires IsResolved(CAP_IMPLICATIONS, SERVER_CAPABILITIES, rows, user.grants)
    requires forall x :: Admits(c, x) <==> CanOnAnyServer(user, x.team, WIREGUARD)
    ensures Admits(c, r) <==> MayReadDevice(user, r)
  {
  }

  /** With a capability a server can carry, the team filter shows more than the team-wide check if and only if
      only grants on single servers hold it. */
  lemma TeamListShowsMoreIff(user: User, team: string, cap: Cap)
    ensures CanOnAnyServer(user, team, cap) && !Can(user, team, cap, "") <==>
            && !user.isOperator && team != "" && team in user.grants
            && (exists g :: g in user.grants[team] && cap in g.caps)
            && forall g :: g in user.grants[team] && cap in g.caps ==> g.scope.OneServer?
  {
  }

  // ---------------------------------------------------------------- feed and digest

  /** `category` may be missing. */
  datatype Entry = Entry(requiredCap: string, server: string, category: Option<string>)

  datatype GateClause = NoCapability | Anywhere(cap: Cap) | OnServers(cap: Cap, servers: set<Name>)

  predicate Opens(k: GateClause, e: Entry)
  {
    match k
    case NoCapability => e.requiredCap == ""
    case Anywhere(cap) => e.requiredCap == cap
    case OnServers(cap, servers) => e.requiredCap == cap && e.server in servers
  }

  predicate Passes(gate: seq<GateClause>, e: Entry)
  {
    exists k :: k in gate && Opens(k, e)
  }

  function GateFor(cap: Cap, allowed: Allowed): GateClause
  {
    match allowed
    case Everywhere => Anywhere(cap)
    case Only(servers) => OnServers(cap, servers)
  }

  function SetOf(caps: seq<Cap>): set<Cap>
  {
    set c | c in caps
  }

  function CapsIn(grants: Grants, team: Name): set<Cap>
  {
    if team in grants then set g, cap | g in grants[team] && cap in g.caps :: cap else {}
  }

  /** The gate built so far asks about the capabilities in `done`. */
  ghost predicate IsGate(grants: Grants, team: Name, done: set<Cap>, gate: seq<GateClause>)
  {
    forall e :: Passes(gate, e) <==>
                e.requiredCap == "" || (e.requiredCap in done && CanIn(grants, team, e.requiredCap, e.server))
  }

  lemma PassesMore(gate: seq<GateClause>, k: GateClause, e: Entry)
    ensures Passes(gate + [k], e) <==> Passes(gate, e) || Opens(k, e)
  {
  }

  lemma GateGrows(grants: Grants, team: Name, done: set<Cap>, gate: seq<GateClause>, cap: Cap, allowed: Allowed)
    requires IsGate(grants, team, done, gate)
    requires forall s: string :: AllowsOn(allowed, s) <==> CanIn(grants, team, cap, s)
    ensures IsGate(grants, team, done + {cap}, gate + [GateFor(cap, allowed)])
  {
    forall e ensures Passes(gate + [GateFor(cap, allowed)], e) <==>
                     e.requiredCap == ""
                     || (e.requiredCap in done + {cap} && CanIn(grants, team, e.requiredCap, e.server)) {
      PassesMore(gate, GateFor(cap, allowed), e);
      assert AllowsOn(allowed, e.server) <==> CanIn(grants, team, cap, e.server);
    }
  }

  /** The gate admits an entry exactly when it asks no capability or the grants hold it on the entry's server. */
  method GetCapabilityGate(grants: Grants, team: Name) returns (gate: seq<GateClause>)
    ensures forall e :: Passes(gate, e) <==> e.requiredCap == "" || CanIn(grants, team, e.requiredCap, e.server)
  {
    gate := [NoCapability];
    var caps := Sorted(CapsIn(grants, team));
    assert forall e :: Passes(gate, e) <==> Opens(NoCapability, e);
    for n := 0 to |caps|
      invariant IsGate(grants, team, SetOf(caps[..n]), gate)
    {
      var allowed := GetAllowedServers(grants, caps[n]);
      assert caps[n] in CapsIn(grants, team);
      assert HoldsSomewhere(grants, team, caps[n]);
      assert SetOf(caps[..n + 1]) == SetOf(caps[..n]) + {caps[n]};
      GateGrows(grants, team, SetOf(caps[..n]), gate, caps[n], allowed[team]);
      gate := gate + [GateFor(caps[n], allowed[team])];
    }
    assert caps[..|caps|] == caps;
    forall e: Entry | CanIn(grants, team, e.requiredCap, e.server) ensures e.requiredCap in caps {
      assert e.requiredCap in CapsIn(grants, team);
    }
  }

  /** What both the feed's and the digest's reader may see of an entry. */
  predicate MaySee(user: User, team: Name, e: Entry)
  {
    e.requiredCap == "" || Can(user, team, e.requiredCap, e.server)
  }

  /** A category the reader turned off in the app. The database holds no missing category to be outside a list, so a
      reader who turned any off sees none of those either. */
  predicate IsTurnedOff(off: set<string>, category: Option<string>)
  {
    off != {} && (category == None || category.value in off)
  }

  /** `_visible_conditions`: an operator is asked neither the gate nor the categories. */
  predicate FeedShows(user: User, gate: seq<GateClause>, off: set<string>, e: Entry)
  {
    user.isOperator || (Passes(gate, e) && !IsTurnedOff(off, e.category))
  }

  function Seen(user: User, team: Name, entries: seq<Entry>): seq<Entry>
  {
    if entries == [] then []
    else
      var n := |entries| - 1;
      var seen := Seen(user, team, entries[..n]);
      if MaySee(user, team, entries[n]) then seen + [entries[n]] else seen
  }

  lemma {:induction false} SeenIff(user: User, team: Name, entries: seq<Entry>, e: Entry)
    ensures e in Seen(user, team, entries) <==> e in entries && MaySee(user, team, e)
  {
    if entries != [] {
      var n := |entries| - 1;
      SeenIff(user, team, entries[..n], e);
      assert entries == entries[..n] + [entries[n]];
    }
  }

  /** The digest asks once for each capability and server, and keeps what the reader may see, in order. */
  method VisibleRows(user: User, team: Name, entries: seq<Entry>) returns (kept: seq<Entry>)
    ensures kept == Seen(user, team, entries)
  {
    var answers: map<(string, string), bool> := map[];
    kept := [];
    for n := 0 to |entries|
      invariant kept == Seen(user, team, entries[..n])
      invariant forall k :: k in answers ==> answers[k] == Can(user, team, k.0, k.1)
    {
      assert entries[..n + 1][..n] == entries[..n];
      var e := entries[n];
      if e.requiredCap != "" {
        var key := (e.requiredCap, e.server);
        if key !in answers {
          answers := answers[key := Can(user, team, e.requiredCap, e.server)];
        }
        if !answers[key] {
          continue;
        }
      }
      kept := kept + [e];
    }
    assert entries[..|entries|] == entries;
  }

  /** Of the entries the digest reads, the feed shows exactly those it keeps whose category is not turned off in the
      app, which only the feed asks: a reader who turned any off sees no entry without a category either. */
  lemma FeedMatchesDigest(user: User, team: Name, gate: seq<GateClause>, off: set<string>, entries: seq<Entry>,
                          e: Entry)
    requires forall x :: Passes(gate, x) <==> x.requiredCap == "" || CanIn(user.grants, team, x.requiredCap, x.server)
    requires e in entries
    ensures e in Seen(user, team, entries) <==>
            user.isOperator || e.requiredCap == "" || CanIn(user.grants, team, e.requiredCap, e.server)
    ensures var isShown := user.isOperator || off == {} || (e.category.Some? && e.category.value !in off);
            && (FeedShows(user, gate, off, e) <==> e in Seen(user, team, entries) && isShown)
            && ((FeedShows(user, gate, off, e) <==> e in Seen(user, team, entries)) <==>
                isShown || e !in Seen(user, team, entries))
  {
    SeenIff(user, team, entries, e);
  }

  /** A caller that asks an operator the gate, without the bypass, agrees with `can` if and only if the entry
      asks nothing, or the team is active and the capability is registered. */
  lemma GateAloneAgreesIff(user: User, team: Name, gate: seq<GateClause>, e: Entry, activeTeams: set<Name>,
                           registered: seq<Cap>)
    requires user.isOperator && IsOperatorGrants(user.grants, activeTeams, registered)
    requires forall x :: Passes(gate, x) <==> x.requiredCap == "" || CanIn(user.grants, team, x.requiredCap, x.server)
    ensures (Passes(gate, e) <==> MaySee(user, team, e)) <==>
            e.requiredCap == "" || (team in activeTeams && e.requiredCap in registered)
  {
    if team in activeTeams {
      var g := Grant("System Manager", AllServers, registered);
      assert user.grants[team][0] == g;
      assert GrantAllows(g, e.requiredCap, e.server) <==> e.requiredCap in registered;
    }
  }
}
