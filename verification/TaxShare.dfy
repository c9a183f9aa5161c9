/**
 A team's invoice read server by server: each line is one server's, each server's share of the tax follows the
 invoice's rate, and the shares add up again but for rounding. Money is in cents.
 */
module TaxShare {
  type Server = string

  datatype Line = Line(resource: Server, amount: int)

  // ---------------------------------------------------------------- subtotals

  function Total(lines: seq<Line>): int
  {
    if lines == [] then 0 else Total(lines[..|lines| - 1]) + lines[|lines| - 1].amount
  }

  /** What one server is charged. */
  function Subtotal(lines: seq<Line>, server: Server): int
  {
    if lines == [] then 0
    else
      var last := lines[|lines| - 1];
      Subtotal(lines[..|lines| - 1], server) + (if last.resource == server then last.amount else 0)
  }

  function Subtotals(lines: seq<Line>, servers: seq<Server>): int
  {
    if servers == [] then 0
    else Subtotals(lines, servers[..|servers| - 1]) + Subtotal(lines, servers[|servers| - 1])
  }

  predicate AreDistinct(servers: seq<Server>)
  {
    forall i, j :: 0 <= i < j < |servers| ==> servers[i] != servers[j]
  }

  lemma {:induction false} OneMoreLine(lines: seq<Line>, servers: seq<Server>)
    requires lines != [] && AreDistinct(servers)
    ensures var last := lines[|lines| - 1];
            Subtotals(lines, servers) ==
            Subtotals(lines[..|lines| - 1], servers) + (if last.resource in servers then last.amount else 0)
    decreases |servers|
  {
    if servers != [] {
      OneMoreLine(lines, servers[..|servers| - 1]);
      assert servers == servers[..|servers| - 1] + [servers[|servers| - 1]];
    }
  }

  /** Every line is counted for exactly one server. */
  lemma {:induction false} SubtotalsAddUp(lines: seq<Line>, servers: seq<Server>)
    requires AreDistinct(servers) && forall i :: 0 <= i < |lines| ==> lines[i].resource in servers
    ensures Subtotals(lines, servers) == Total(lines)
    decreases |lines|
  {
    if lines == [] {
      NoLines(servers);
    } else {
      OneMoreLine(lines, servers);
      SubtotalsAddUp(lines[..|lines| - 1], servers);
    }
  }

  lemma {:induction false} NoLines(servers: seq<Server>)
    ensures Subtotals([], servers) == 0
    decreases |servers|
  {
    if servers != [] {
      NoLines(servers[..|servers| - 1]);
    }
  }

  // ---------------------------------------------------------------- tax

  function Abs(x: int): int
  {
    if x < 0 then -x else x
  }

  /** A whole number of cents nearest to `num / den`. A half may go either way. */
  predicate IsNearest(r: int, num: int, den: int)
  {
    -Abs(den) <= 2 * (r * den - num) <= Abs(den)
  }

  /** `get_tax_share`: an invoice without a subtotal has no rate. */
  predicate IsTaxShare(tax: int, teamSubtotal: int, serverSubtotal: int, share: int)
  {
    if teamSubtotal == 0 then share == 0 else IsNearest(share, serverSubtotal * tax, teamSubtotal)
  }

  function SumOf(xs: seq<int>): int
  {
    if xs == [] then 0 else SumOf(xs[..|xs| - 1]) + xs[|xs| - 1]
  }

  /** The shares of several servers together are within half a cent each of the tax on their subtotals. */
  lemma {:induction false} SharesOfSome(tax: int, team: int, subtotals: seq<int>, shares: seq<int>)
    requires team != 0 && |shares| == |subtotals|
    requires forall i :: 0 <= i < |shares| ==> IsTaxShare(tax, team, subtotals[i], shares[i])
    ensures -(|shares| * Abs(team)) <= 2 * (SumOf(shares) * team - SumOf(subtotals) * tax) <= |shares| * Abs(team)
    decreases |shares|
  {
    if shares != [] {
      var n := |shares| - 1;
      SharesOfSome(tax, team, subtotals[..n], shares[..n]);
      Distribute(SumOf(shares[..n]), shares[n], team);
      Distribute(SumOf(subtotals[..n]), subtotals[n], tax);
      Distribute(n, 1, Abs(team));
    }
  }

  lemma Distribute(a: int, b: int, c: int)
    ensures (a + b) * c == a * c + b * c
  {
  }

  /** A bound times the subtotal is a bound. */
  lemma Unscale(sum: int, tax: int, n: int, t: int)
    requires t != 0 && n >= 0 && -(n * Abs(t)) <= 2 * (sum * t - t * tax) <= n * Abs(t)
    ensures -n <= 2 * (sum - tax) <= n
  {
  }

  /** The shares of all servers on an invoice add up to its tax within half a cent for each server. */
  lemma SharesAddUp(lines: seq<Line>, servers: seq<Server>, tax: int, shares: seq<int>)
    requires AreDistinct(servers) && |shares| == |servers| && Total(lines) != 0
    requires forall i :: 0 <= i < |lines| ==> lines[i].resource in servers
    requires forall i :: 0 <= i < |servers| ==> IsTaxShare(tax, Total(lines), Subtotal(lines, servers[i]), shares[i])
    ensures -|servers| <= 2 * (SumOf(shares) - tax) <= |servers|
  {
    var subtotals := seq(|servers|, i requires 0 <= i < |servers| => Subtotal(lines, servers[i]));
    SumIsSubtotals(lines, servers, subtotals);
    SubtotalsAddUp(lines, servers);
    SharesOfSome(tax, Total(lines), subtotals, shares);
    Unscale(SumOf(shares), tax, |servers|, Total(lines));
  }

  lemma {:induction false} SumIsSubtotals(lines: seq<Line>, servers: seq<Server>, subtotals: seq<int>)
    requires |subtotals| == |servers|
    requires forall i :: 0 <= i < |servers| ==> subtotals[i] == Subtotal(lines, servers[i])
    ensures SumOf(subtotals) == Subtotals(lines, servers)
    decreases |servers|
  {
    if servers != [] {
      var n := |servers| - 1;
      SumIsSubtotals(lines, servers[..n], subtotals[..n]);
    }
  }

  /** A server that is charged the whole invoice bears the whole tax, one that is charged nothing bears none, and none
      does on an invoice without a subtotal. */
  lemma SoleServerBearsAll(tax: int, team: int, share: int)
    ensures team != 0 ==> (IsTaxShare(tax, team, team, share) <==> share == tax)
    ensures team != 0 ==> (IsTaxShare(tax, team, 0, share) <==> share == 0)
    ensures IsTaxShare(tax, 0, 0, share) <==> share == 0
  {
    if team != 0 && IsTaxShare(tax, team, team, share) {
      Unscale(share, tax, 1, team);
    }
    if team != 0 && IsTaxShare(tax, team, 0, share) {
      Unscale(share, 0, 1, team);
    }
  }

  /** The bound is met: two equal servers and one cent of tax, both halves rounded up. */
  lemma BoundIsMet()
    ensures IsTaxShare(1, 2, 1, 1) && 2 * (SumOf([1, 1]) - 1) == 2
  {
  }

  // ---------------------------------------------------------------- statements

  datatype Invoice = Invoice(name: nat, lines: seq<Line>, isOpen: bool, isIssued: bool)

  datatype Statement = Statement(name: nat, subtotal: int, hasPdf: bool, canPay: bool)

  predicate Names(invoice: Invoice, servers: set<Server>)
  {
    exists i :: 0 <= i < |invoice.lines| && invoice.lines[i].resource in servers
  }

  /** `assert_covers_only_server` lets the invoice through. */
  predicate CoversOnly(invoice: Invoice, teamServers: set<Server>, server: Server)
  {
    !Names(invoice, teamServers - {server})
  }

  /** The server's lines, their subtotal, and whether another server of the team is named. */
  method ReadLines(lines: seq<Line>, server: Server, others: set<Server>)
    returns (hasLines: bool, subtotal: int, namesOther: bool)
    ensures hasLines <==> exists i :: 0 <= i < |lines| && lines[i].resource == server
    ensures subtotal == Subtotal(lines, server)
    ensures namesOther <==> exists i :: 0 <= i < |lines| && lines[i].resource in others
  {
    hasLines, subtotal, namesOther := false, 0, false;
    for n := 0 to |lines|
      invariant hasLines <==> exists i :: 0 <= i < n && lines[i].resource == server
      invariant subtotal == Subtotal(lines[..n], server)
      invariant namesOther <==> exists i :: 0 <= i < n && lines[i].resource in others
    {
      assert lines[..n + 1][..n] == lines[..n];
      if lines[n].resource == server {
        hasLines, subtotal := true, subtotal + lines[n].amount;
      }
      namesOther := namesOther || lines[n].resource in others;
    }
    assert lines[..|lines|] == lines;
  }

  /** The invoice's statement for the server: its lines' sum, and a PDF or a payment only where no line names another
      server of the team, as asking for either is refused there. */
  predicate IsStatement(invoice: Invoice, teamServers: set<Server>, server: Server, s: Statement)
  {
    var isAlone := forall i :: 0 <= i < |invoice.lines| && invoice.lines[i].resource in teamServers ==>
                                 invoice.lines[i].resource == server;
    && s.name == invoice.name && s.subtotal == Subtotal(invoice.lines, server)
    && (s.hasPdf <==> isAlone && invoice.isIssued)
    && (s.canPay <==> isAlone && invoice.isOpen)
  }

  /** `assert_covers_only_server` refuses exactly where no statement offers anything. */
  lemma CoversOnlyIff(invoice: Invoice, teamServers: set<Server>, server: Server, s: Statement)
    requires IsStatement(invoice, teamServers, server, s)
    ensures s.hasPdf <==> CoversOnly(invoice, teamServers, server) && invoice.isIssued
    ensures s.canPay <==> CoversOnly(invoice, teamServers, server) && invoice.isOpen
  {
  }

  ghost predicate AreStatements(invoices: seq<Invoice>, teamServers: set<Server>, server: Server, list: seq<Statement>)
  {
    if invoices == [] then list == []
    else
      var n := |invoices| - 1;
      if !Names(invoices[n], {server}) then AreStatements(invoices[..n], teamServers, server, list)
      else list != [] && AreStatements(invoices[..n], teamServers, server, list[..|list| - 1])
           && IsStatement(invoices[n], teamServers, server, list[|list| - 1])
  }

  /** What the list shows: for every invoice with a line of the server there is its statement, and for no other. */
  lemma {:induction false} ListedIff(invoices: seq<Invoice>, teamServers: set<Server>, server: Server,
                                     list: seq<Statement>, s: Statement)
    requires AreStatements(invoices, teamServers, server, list)
    ensures s in list <==>
            exists n :: 0 <= n < |invoices| && (exists i :: 0 <= i < |invoices[n].lines|
                                                            && invoices[n].lines[i].resource == server)
                        && IsStatement(invoices[n], teamServers, server, s)
    ensures |list| <= |invoices|
  {
    if invoices != [] {
      var n := |invoices| - 1;
      var isNamed := Names(invoices[n], {server});
      var before := if isNamed then list[..|list| - 1] else list;
      ListedIff(invoices[..n], teamServers, server, before, s);
      assert isNamed <==> exists i :: 0 <= i < |invoices[n].lines| && invoices[n].lines[i].resource == server;
      assert isNamed ==> list == before + [list[|list| - 1]];
      assert forall k :: 0 <= k < n ==> invoices[..n][k] == invoices[k];
      assert isNamed && IsStatement(invoices[n], teamServers, server, s) ==> s == list[|list| - 1];
    }
  }

  /** `get_server_invoices`: one statement, in order, for each invoice that names the server. */
  method GetServerInvoices(invoices: seq<Invoice>, teamServers: set<Server>, server: Server)
    returns (statements: seq<Statement>)
    ensures AreStatements(invoices, teamServers, server, statements)
  {
    statements := [];
    for n := 0 to |invoices|
      invariant AreStatements(invoices[..n], teamServers, server, statements)
    {
      assert invoices[..n + 1][..n] == invoices[..n];
      var invoice := invoices[n];
      var hasLines, subtotal, namesOther := ReadLines(invoice.lines, server, teamServers - {server});
      if hasLines {
        var s := Statement(invoice.name, subtotal, !namesOther && invoice.isIssued, !namesOther && invoice.isOpen);
        assert (statements + [s])[..|statements|] == statements;
        statements := statements + [s];
      }
    }
    assert invoices[..|invoices|] == invoices;
  }
}
