/**
 * Snapshots of the payment graph.  Its rows are lists that grow in place, so a
 * snapshot keeps its edges only because it is given lists of its own.
 */
module GraphSnapshot {
  import opened PaymentGraph

  /** A list that is appended to where it is. */
  class EdgeList {
    var edges: seq<PaymentEdge>

    constructor (edges: seq<PaymentEdge>)
      ensures this.edges == edges
    {
      this.edges := edges;
    }

    method Append(e: PaymentEdge)
      modifies this
      ensures edges == old(edges) + [e]
    {
      edges := edges + [e];
    }
  }

  /** A corridor: sender and receiver. */
  type Corridor = (Bic, Bic)

  function CorridorOf(e: PaymentEdge): Corridor {
    (e.p.sender, e.p.receiver)
  }

  /** What a graph of lists holds: the edges of every corridor, and all edges. */
  datatype Edges = Edges(rows: map<Corridor, seq<PaymentEdge>>, all: seq<PaymentEdge>)

  function Entered(g: Edges, e: PaymentEdge): Edges {
    var k := CorridorOf(e);
    Edges(g.rows[k := (if k in g.rows then g.rows[k] else []) + [e]], g.all + [e])
  }

  /** The graph with the first n edges entered. */
  function EnteredAll(g: Edges, es: seq<PaymentEdge>, n: nat): Edges
    requires n <= |es|
  {
    if n == 0 then g else Entered(EnteredAll(g, es, n - 1), es[n - 1])
  }

  /** The row of one corridor. */
  function RowOf(g: Edges, s: Bic, r: Bic): seq<PaymentEdge> {
    if (s, r) in g.rows then g.rows[(s, r)] else []
  }

  /** Entering edges one by one builds the adjacency rows of the payment graph. */
  lemma {:induction false} EnteredIsCorridors(es: seq<PaymentEdge>, n: nat, s: Bic, r: Bic)
    requires n <= |es|
    ensures RowOf(EnteredAll(Edges(map[], []), es, n), s, r) == Nested(Corridors(es[..n]), s, r)
    ensures EnteredAll(Edges(map[], []), es, n).all == es[..n]
  {
    EnteredRows(es, n, s, r);
    CorridorIsSentReceived(es[..n], s, r);
  }

  lemma {:induction false} EnteredRows(es: seq<PaymentEdge>, n: nat, s: Bic, r: Bic)
    requires n <= |es|
    ensures RowOf(EnteredAll(Edges(map[], []), es, n), s, r) == Received(Sent(es[..n], s), r)
    ensures EnteredAll(Edges(map[], []), es, n).all == es[..n]
  {
    if n > 0 {
      var before, e := EnteredAll(Edges(map[], []), es, n - 1), es[n - 1];
      EnteredRows(es, n - 1, s, r);
      EnteredRow(before, e, s, r);
      assert es[..n] == es[..n - 1] + [e];
      RowGrows(es[..n - 1], e, s, r);
    }
  }

  lemma {:induction false} EnteredRow(g: Edges, e: PaymentEdge, s: Bic, r: Bic)
    ensures RowOf(Entered(g, e), s, r) == RowOf(g, s, r) + if CorridorOf(e) == (s, r) then [e] else []
    ensures Entered(g, e).all == g.all + [e]
  {
  }

  lemma {:induction false} RowGrows(es: seq<PaymentEdge>, e: PaymentEdge, s: Bic, r: Bic)
    ensures Received(Sent(es + [e], s), r)
         == Received(Sent(es, s), r) + if CorridorOf(e) == (s, r) then [e] else []
  {
    assert (es + [e])[..|es|] == es;
    var sent := Sent(es, s);
    if e.p.sender == s {
      assert Sent(es + [e], s) == sent + [e];
      assert (sent + [e])[..|sent|] == sent;
    }
  }

  /** The lists of a builder, or of a snapshot of it. */
  class ListGraph {
    var rows: map<Corridor, EdgeList>
    var all: EdgeList

    ghost function Lists(): set<EdgeList>
      reads this
    {
      rows.Values + {all}
    }

    /** No list serves two corridors. */
    ghost predicate Valid()
      reads this
    {
      && all !in rows.Values
      && forall j, k :: j in rows && k in rows && j != k ==> rows[j] != rows[k]
    }

    ghost function View(): Edges
      reads this, Lists()
    {
      Edges(map k | k in rows :: rows[k].edges, all.edges)
    }

    constructor ()
      ensures Valid() && fresh(all) && rows == map[] && all.edges == []
    {
      rows := map[];
      all := new EdgeList([]);
    }

    method AddEdge(e: PaymentEdge)
      requires Valid()
      modifies this, Lists()
      ensures Valid() && View() == Entered(old(View()), e)
      ensures fresh(Lists() - old(Lists()))
    {
      if CorridorOf(e) !in rows {
        PutRow(CorridorOf(e), []);
      }
      assert CorridorOf(e) in rows;
      AppendEdge(e);
    }

    method AppendEdge(e: PaymentEdge)
      requires Valid() && CorridorOf(e) in rows
      modifies rows[CorridorOf(e)], all
      ensures Valid() && View() == Entered(old(View()), e)
    {
      rows[CorridorOf(e)].Append(e);
      all.Append(e);
    }

    /** A copy with a list of its own for every list. */
    method BuildGraph() returns (g: ListGraph)
      requires Valid()
      ensures fresh(g) && fresh(g.Lists()) && g.Valid() && g.View() == View()
    {
      g := new ListGraph();
      g.all.edges := all.edges;
      CopyRows(g);
    }

    method CopyRows(g: ListGraph)
      requires Valid() && g != this && g.Valid() && g.rows == map[]
      modifies g
      ensures g.Valid() && g.all == old(g.all) && g.rows.Keys == rows.Keys && forall k :: k in g.rows ==> fresh(g.rows[k])
      ensures forall k :: k in rows ==> g.rows[k].edges == rows[k].edges
    {
      var left := rows.Keys;
      while left != {}
        invariant left <= rows.Keys && g.rows.Keys == rows.Keys - left
        invariant g.Valid() && g.all == old(g.all)
        invariant forall k :: k in g.rows ==> fresh(g.rows[k])
        invariant forall k :: k in g.rows ==> g.rows[k].edges == rows[k].edges
      {
        var k :| k in left;
        g.PutRow(k, rows[k].edges);
        left := left - {k};
      }
    }

    method PutRow(k: Corridor, edges: seq<PaymentEdge>)
      requires Valid() && k !in rows
      modifies this
      ensures Valid() && all == old(all)
      ensures rows.Keys == old(rows).Keys + {k} && fresh(rows[k]) && rows[k].edges == edges
      ensures forall j :: j in old(rows) ==> rows[j] == old(rows)[j]
      ensures View() == Edges(old(View()).rows[k := edges], old(View()).all)
    {
      var row := new EdgeList(edges);
      rows := rows[k := row];
    }
  }

  /** A graph with its own lists does not notice what is added to another. */
  method AddBeside(b: ListGraph, g: ListGraph, e: PaymentEdge)
    requires b.Valid() && b != g && b.Lists() !! g.Lists()
    modifies b, b.Lists()
    ensures b.Valid() && b.View() == Entered(old(b.View()), e)
    ensures fresh(b.Lists() - old(b.Lists()))
    ensures g.Lists() == old(g.Lists()) && g.View() == old(g.View()) && b.Lists() !! g.Lists()
  {
    b.AddEdge(e);
  }

  method AddAllBeside(b: ListGraph, g: ListGraph, es: seq<PaymentEdge>, n: nat)
    requires n <= |es| && b.Valid() && b != g && b.Lists() !! g.Lists()
    modifies b, b.Lists()
    ensures b.Valid() && b.View() == EnteredAll(old(b.View()), es, n)
    ensures fresh(b.Lists() - old(b.Lists())) && b.Lists() !! g.Lists()
    ensures g.Lists() == old(g.Lists()) && g.View() == old(g.View())
  {
    if n > 0 {
      AddAllBeside(b, g, es, n - 1);
      AddBeside(b, g, es[n - 1]);
    }
  }

  /** Main result: whatever is added to the graph later, a snapshot keeps its edges. */
  method SnapshotKeepsEdges(b: ListGraph, later: seq<PaymentEdge>) returns (g: ListGraph)
    requires b.Valid()
    modifies b, b.Lists()
    ensures b.Valid() && b.View() == EnteredAll(old(b.View()), later, |later|)
    ensures fresh(g) && g.View() == old(b.View())
  {
    g := b.BuildGraph();
    AddAllBeside(b, g, later, |later|);
  }
}
