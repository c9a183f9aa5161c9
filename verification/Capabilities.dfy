/**
 Capability lists and their closure: granting a capability grants what it implies, however many rules away.
 */
module Capabilities {
  type Cap = string

  /** For each capability, what a grant of it implies. */
  type Rules = map<Cap, seq<Cap>>

  /** The rules of this program. */
  const CAP_IMPLICATIONS: Rules := map[
    "server:create" := ["server:view", "cluster:view"],
    "server:terminate" := ["server:view"],
    "server:power" := ["server:view"],
    "server:network" := ["server:view"],
    "server:resize" := ["server:view"],
    "server:snapshot" := ["server:view"],
    "server:ssh-key" := ["server:view"],
    "server:wireguard" := ["server:view"],
    "server:console" := ["server:view"],
    "service:manage" := ["service:view"]
  ]

  /** What a grant can scope to one server. */
  const SERVER_CAPABILITIES: set<Cap> := {
    "server:view", "server:power", "server:network", "server:resize", "server:snapshot", "server:terminate",
    "server:console"
  }

  // ---------------------------------------------------------------- what follows from what

  ghost predicate Implies(rules: Rules, a: Cap, b: Cap)
  {
    a in rules && b in rules[a]
  }

  /** `b` follows from `a` by exactly `n` rules. */
  ghost predicate ReachesIn(rules: Rules, a: Cap, b: Cap, n: nat)
    decreases n
  {
    if n == 0 then a == b else exists c :: Implies(rules, c, b) && ReachesIn(rules, a, c, n - 1)
  }

  ghost predicate Reaches(rules: Rules, a: Cap, b: Cap)
  {
    exists n: nat :: ReachesIn(rules, a, b, n)
  }

  ghost predicate Follows(rules: Rules, caps: seq<Cap>, c: Cap)
  {
    exists a :: a in caps && Reaches(rules, a, c)
  }

  ghost predicate IsClosed(rules: Rules, caps: set<Cap>)
  {
    forall a, b :: a in caps && Implies(rules, a, b) ==> b in caps
  }

  lemma ReachesSelf(rules: Rules, a: Cap)
    ensures Reaches(rules, a, a)
  {
    assert ReachesIn(rules, a, a, 0);
  }

  lemma ReachesStep(rules: Rules, a: Cap, b: Cap, c: Cap)
    requires Reaches(rules, a, b) && Implies(rules, b, c)
    ensures Reaches(rules, a, c)
  {
    var n: nat :| ReachesIn(rules, a, b, n);
    assert ReachesIn(rules, a, c, n + 1);
  }

  lemma {:induction false} ReachesTrans(rules: Rules, a: Cap, b: Cap, c: Cap, n: nat)
    requires Reaches(rules, a, b) && ReachesIn(rules, b, c, n)
    ensures Reaches(rules, a, c)
    decreases n
  {
    if n > 0 {
      var d :| Implies(rules, d, c) && ReachesIn(rules, b, d, n - 1);
      ReachesTrans(rules, a, b, d, n - 1);
      ReachesStep(rules, a, d, c);
    }
  }

  /** A closed set that holds a capability holds all that follows from it: the closure is the least one. */
  lemma {:induction false} ClosedHoldsReached(rules: Rules, caps: set<Cap>, a: Cap, b: Cap, n: nat)
    requires IsClosed(rules, caps) && a in caps && ReachesIn(rules, a, b, n)
    ensures b in caps
    decreases n
  {
    if n > 0 {
      var c :| Implies(rules, c, b) && ReachesIn(rules, a, c, n - 1);
      ClosedHoldsReached(rules, caps, a, c, n - 1);
    }
  }

  // ---------------------------------------------------------------- alphabetical order

  predicate Before(s: string, t: string)
  {
    if t == "" then false
    else if s == "" then true
    else if s[0] != t[0] then s[0] < t[0]
    else Before(s[1..], t[1..])
  }

  lemma {:induction false} BeforeTotal(s: string, t: string)
    ensures Before(s, t) || s == t || Before(t, s)
    ensures !(Before(s, t) && Before(t, s)) && !Before(s, s)
  {
    if s != "" {
      BeforeTotal(s[1..], s[1..]);
      if t != "" && s[0] == t[0] {
        BeforeTotal(s[1..], t[1..]);
        assert s == [s[0]] + s[1..] && t == [t[0]] + t[1..];
      }
    }
  }

  lemma {:induction false} BeforeTrans(s: string, t: string, u: string)
    requires Before(s, t) && Before(t, u)
    ensures Before(s, u)
  {
    if s != "" && s[0] == t[0] && t[0] == u[0] {
      BeforeTrans(s[1..], t[1..], u[1..]);
    }
  }

  predicate IsAscending(caps: seq<Cap>)
  {
    forall i, j :: 0 <= i < j < |caps| ==> Before(caps[i], caps[j])
  }

  predicate IsFirst(caps: set<Cap>, c: Cap)
  {
    c in caps && forall d :: d in caps && d != c ==> Before(c, d)
  }

  lemma {:induction false} FirstExists(caps: set<Cap>)
    requires caps != {}
    ensures exists c :: IsFirst(caps, c)
  {
    var a :| a in caps;
    var rest := caps - {a};
    if rest == {} {
      assert caps == {a};
      assert IsFirst(caps, a);
    } else {
      FirstExists(rest);
      var b :| IsFirst(rest, b);
      BeforeTotal(a, b);
      if Before(a, b) {
        forall d | d in caps && d != a ensures Before(a, d) {
          if d != b { BeforeTrans(a, b, d); }
        }
        assert IsFirst(caps, a);
      } else {
        assert IsFirst(caps, b);
      }
    }
  }

  method Sorted(caps: set<Cap>) returns (list: seq<Cap>)
    ensures IsAscending(list) && forall c :: c in list <==> c in caps
  {
    list := [];
    var left := caps;
    while left != {}
      invariant left <= caps && forall c :: c in list <==> c in caps - left
      invariant IsAscending(list)
      invariant forall c, d :: c in list && d in left ==> Before(c, d)
      decreases left
    {
      FirstExists(left);
      var first :| IsFirst(left, first);
      assert first in left;
      list, left := list + [first], left - {first};
    }
  }

  lemma SomeMember(a: seq<Cap>)
    ensures a != [] ==> exists c :: c in a
  {
    if a != [] {
      assert a[0] in a;
    }
  }

  /** Two ascending lists of the same capabilities are one list. */
  lemma {:induction false} AscendingUnique(a: seq<Cap>, b: seq<Cap>)
    requires IsAscending(a) && IsAscending(b) && forall c :: c in a <==> c in b
    ensures a == b
  {
    if a == [] {
      SomeMember(b);
    } else {
      assert a[0] in b;
      assert b[0] in a;
      FirstsAgree(a, b);
      forall c | c in a[1..] ensures c in b[1..] { TailHolds(a, c, b); }
      forall c | c in b[1..] ensures c in a[1..] { TailHolds(b, c, a); }
      AscendingUnique(a[1..], b[1..]);
      assert a == [a[0]] + a[1..] && b == [b[0]] + b[1..];
    }
  }

  lemma FirstsAgree(a: seq<Cap>, b: seq<Cap>)
    requires IsAscending(a) && IsAscending(b) && a != [] && b != [] && a[0] in b && b[0] in a
    ensures a[0] == b[0]
  {
    BeforeTotal(a[0], b[0]);
  }

  lemma TailHolds(a: seq<Cap>, c: Cap, b: seq<Cap>)
    requires IsAscending(a) && a != [] && c in a[1..] && c in b && b != [] && a[0] == b[0]
    ensures c in b[1..]
  {
    BeforeTotal(a[0], c);
    var i :| 0 <= i < |a| - 1 && a[1..][i] == c;
    assert Before(a[0], a[i + 1]);
    var j :| 0 <= j < |b| && b[j] == c;
    assert j > 0;
    assert b[1..][j - 1] == c;
  }

  // ---------------------------------------------------------------- the closure

  /** The given list in its order, then everything else that follows from it, in alphabetical order. */
  ghost predicate IsExpansion(rules: Rules, caps: seq<Cap>, expanded: seq<Cap>)
  {
    && caps <= expanded
    && (forall c :: c in expanded <==> Follows(rules, caps, c))
    && IsAscending(expanded[|caps|..])
    && (forall c :: c in expanded[|caps|..] ==> c !in caps)
  }

  function Known(given: set<Cap>, rules: Rules): set<Cap>
  {
    given + (set a, b | a in rules && b in rules[a] :: b)
  }

  /** The inner loop: what is implied and not held yet is held, and waits for its own turn. */
  method PushImplied(implied: seq<Cap>, held: set<Cap>, waiting: seq<Cap>) returns (have: set<Cap>, pending: seq<Cap>)
    ensures have == held + (set c | c in implied)
    ensures waiting <= pending && forall c :: c in pending[|waiting|..] <==> c in have && c !in held
    ensures have == held ==> pending == waiting
  {
    have, pending := held, waiting;
    for i := 0 to |implied|
      invariant have == held + set c | c in implied[..i]
      invariant waiting <= pending && forall c :: c in pending[|waiting|..] <==> c in have && c !in held
      invariant have == held ==> pending == waiting
    {
      assert implied[..i + 1] == implied[..i] + [implied[i]];
      if implied[i] !in have {
        assert (pending + [implied[i]])[|waiting|..] == pending[|waiting|..] + [implied[i]];
        have, pending := have + {implied[i]}, pending + [implied[i]];
      }
    }
    assert implied[..|implied|] == implied;
  }

  ghost predicate IsProgress(rules: Rules, caps: seq<Cap>, have: set<Cap>, pending: seq<Cap>)
  {
    && (forall c :: c in caps ==> c in have)
    && (forall c :: c in pending ==> c in have)
    && (forall c :: c in have ==> Follows(rules, caps, c))
    && (forall a, b :: a in have && a !in pending && Implies(rules, a, b) ==> b in have)
  }

  lemma TurnKeeps(rules: Rules, caps: seq<Cap>, have: set<Cap>, pending: seq<Cap>, more: set<Cap>, next: seq<Cap>)
    requires IsProgress(rules, caps, have, pending) && pending != []
    requires var top := pending[|pending| - 1];
             && more == have + (set c | top in rules && c in rules[top])
             && pending[..|pending| - 1] <= next
             && forall c :: c in next[|pending| - 1..] <==> c in more && c !in have
    ensures IsProgress(rules, caps, more, next)
  {
    var n := |pending| - 1;
    var top := pending[n];
    assert pending == pending[..n] + [top] && next == pending[..n] + next[n..];
    forall c | c in more ensures Follows(rules, caps, c) {
      if c !in have { FollowsStep(rules, caps, top, c); }
    }
    forall a, b | a in more && a !in next && Implies(rules, a, b) ensures b in more {
      assert a in have;
      assert a != top ==> a !in pending;
    }
  }

  lemma ProgressStarts(rules: Rules, caps: seq<Cap>)
    ensures IsProgress(rules, caps, (set c | c in caps), caps)
  {
    forall c | c in caps ensures Follows(rules, caps, c) { ReachesSelf(rules, c); }
  }

  lemma Done(rules: Rules, caps: seq<Cap>, have: set<Cap>, extra: seq<Cap>)
    requires IsProgress(rules, caps, have, [])
    requires IsAscending(extra) && forall c :: c in extra <==> c in have && c !in caps
    ensures IsExpansion(rules, caps, caps + extra)
  {
    assert (caps + extra)[|caps|..] == extra;
    forall c | Follows(rules, caps, c) ensures c in have {
      var a :| a in caps && Reaches(rules, a, c);
      var n: nat :| ReachesIn(rules, a, c, n);
      ClosedHoldsReached(rules, have, a, c, n);
    }
  }

  /** One turn of the worklist: what is held stays within what can be, and something is gained or the list gets
      shorter. */
  lemma OneTurn(rules: Rules, caps: seq<Cap>, known: set<Cap>, have: set<Cap>, pending: seq<Cap>, more: set<Cap>,
                next: seq<Cap>)
    requires known == Known((set c | c in caps), rules) && have <= known
    requires IsProgress(rules, caps, have, pending) && pending != []
    requires var top := pending[|pending| - 1];
             && more == have + (set c | top in rules && c in rules[top])
             && pending[..|pending| - 1] <= next
             && (forall c :: c in next[|pending| - 1..] <==> c in more && c !in have)
             && (more == have ==> next == pending[..|pending| - 1])
    ensures more <= known && IsProgress(rules, caps, more, next)
    ensures known - more < known - have || (more == have && |next| < |pending|)
  {
    TurnKeeps(rules, caps, have, pending, more, next);
    if more != have {
      Shrinks(known, have, more);
    }
  }

  lemma Shrinks(known: set<Cap>, have: set<Cap>, more: set<Cap>)
    requires have <= more <= known && have != more
    ensures known - more < known - have
  {
  }

  /** The worklist stops, whatever the rules, with the least closed superset. */
  method ExpandCapabilities(rules: Rules, caps: seq<Cap>) returns (expanded: seq<Cap>)
    ensures IsExpansion(rules, caps, expanded)
  {
    var given := set c | c in caps;
    var have, pending := given, caps;
    ghost var known := Known(given, rules);
    ProgressStarts(rules, caps);
    while pending != []
      invariant have <= known && IsProgress(rules, caps, have, pending)
      decreases known - have, |pending|
    {
      var top := pending[|pending| - 1];
      var implied := if top in rules then rules[top] else [];
      var more, next := PushImplied(implied, have, pending[..|pending| - 1]);
      assert more == have + set c | top in rules && c in rules[top];
      OneTurn(rules, caps, known, have, pending, more, next);
      have, pending := more, next;
    }
    var extra := Sorted(have - given);
    Done(rules, caps, have, extra);
    expanded := caps + extra;
  }

  lemma FollowsStep(rules: Rules, caps: seq<Cap>, a: Cap, b: Cap)
    requires Follows(rules, caps, a) && Implies(rules, a, b)
    ensures Follows(rules, caps, b)
  {
    var c :| c in caps && Reaches(rules, c, a);
    ReachesStep(rules, c, a, b);
  }

  /** The expansion is determined. */
  lemma ExpansionUnique(rules: Rules, caps: seq<Cap>, e: seq<Cap>, f: seq<Cap>)
    requires IsExpansion(rules, caps, e) && IsExpansion(rules, caps, f)
    ensures e == f
  {
    var n := |caps|;
    assert e == caps + e[n..] && f == caps + f[n..];
    forall c ensures c in e[n..] <==> c in f[n..] {
      assert c in e <==> c in f;
    }
    AscendingUnique(e[n..], f[n..]);
  }

  /** The expansion is closed, and inside every closed set that holds the given capabilities. */
  lemma ExpansionIsLeastClosed(rules: Rules, caps: seq<Cap>, e: seq<Cap>, closed: set<Cap>)
    requires IsExpansion(rules, caps, e) && IsClosed(rules, closed) && forall c :: c in caps ==> c in closed
    ensures IsClosed(rules, set c | c in e)
    ensures forall c :: c in e ==> c in closed
  {
    forall a, b | a in e && Implies(rules, a, b) ensures b in e {
      FollowsStep(rules, caps, a, b);
    }
    forall c | c in e ensures c in closed {
      var a :| a in caps && Reaches(rules, a, c);
      var n: nat :| ReachesIn(rules, a, c, n);
      ClosedHoldsReached(rules, closed, a, c, n);
    }
  }

  /** Expanding an expansion adds nothing. */
  lemma ExpansionIdempotent(rules: Rules, caps: seq<Cap>, e: seq<Cap>, f: seq<Cap>)
    requires IsExpansion(rules, caps, e) && IsExpansion(rules, e, f)
    ensures f == e
  {
    forall c | c in f ensures c in e {
      var a :| a in e && Reaches(rules, a, c);
      assert Follows(rules, caps, a);
      var b :| b in caps && Reaches(rules, b, a);
      var n: nat :| ReachesIn(rules, a, c, n);
      ReachesTrans(rules, b, a, c, n);
    }
    SomeMember(f[|e|..]);
    assert f == e + f[|e|..];
  }

  /** Expanding two lists together gives what expanding them apart gives. */
  lemma ExpansionOfUnion(rules: Rules, a: seq<Cap>, b: seq<Cap>, ea: seq<Cap>, eb: seq<Cap>, eab: seq<Cap>)
    requires IsExpansion(rules, a, ea) && IsExpansion(rules, b, eb) && IsExpansion(rules, a + b, eab)
    ensures forall c :: c in eab <==> c in ea || c in eb
  {
  }
}
