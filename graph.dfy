/**
 * An in-memory graph: a mutable set of vertices and a mutable set of edges,
 * where every edge joins two vertices of the graph.
 *
 * Edges are objects. Their identity is the object's identity, not the tuple
 * of their attributes: two `Connect` calls with the same arguments create
 * two different edges, and both stay in the edge set.
 */
module Graphs {
  import opened Values

  const AddNoneMessage := "Object to be added must not be None."
  const RemoveNoneMessage := "Object to be removed must not be None."
  const ArgumentNoneMessage := "Argument must not be None."
  const ConnectNoneMessage := "Objects to be connected must not be None."
  const DirectedMessage := "'directed' must be either True or False."
  const WeightMessage := "'weight' must be either a number or None."
  const EdgeMessage := "Argument must be an Edge object."

  /**
   * An immutable edge between `v1` and `v2`. It is directed from `v1` to `v2`
   * when `directed` holds; `weight` is absent for an unweighted edge.
   */
  class Edge<V> {
    const v1: V
    const v2: V
    const directed: bool
    const weight: Option<real>

    predicate IsWeighted() {
      weight.Some?
    }

    /**
     * The endpoints are never `None` and `directed` is a boolean by their
     * types; the weight must be a number (not a bool) or `None`, and one
     * that `float()` can convert (`Graph.Connect` checks this first).
     */
    constructor (v1: V, v2: V, directed: bool := false, weight: PyValue := PyNone)
      requires IsNumberOrNone(weight) && !FloatOverflows(weight)
      ensures this.v1 == v1 && this.v2 == v2 && this.directed == directed
      ensures IsWeighted() <==> !weight.PyNone?
    {
      this.v1 := v1;
      this.v2 := v2;
      this.directed := directed;
      this.weight := ToFloat(weight).value;
    }
  }

  /** What may be passed where an edge is expected. */
  datatype EdgeArg<V> =
    | NoEdge                 // `None`
    | NotAnEdge              // an object that is not an `Edge`
    | AnEdge(edge: Edge<V>)

  /** The edges of `es` that have `v` as one of their endpoints. */
  ghost function Incident<V>(es: set<Edge<V>>, v: V): set<Edge<V>> {
    set e | e in es && (e.v1 == v || e.v2 == v)
  }

  class Graph<V(==)> {
    var vertices: set<V>
    var edges: set<Edge<V>>

    /** No edge dangles: both endpoints of every edge are vertices. */
    ghost predicate Valid()
      reads this
    {
      forall e :: e in edges ==> e.v1 in vertices && e.v2 in vertices
    }

    constructor ()
      ensures Valid()
      ensures vertices == {} && edges == {}
    {
      vertices := {};
      edges := {};
    }

    /** Inserts `v` as a vertex; adding a member again changes nothing. */
    method Add(v: Option<V>) returns (r: Outcome)
      requires Valid()
      modifies this
      ensures Valid()
      ensures edges == old(edges)
      ensures v.None? ==> r == Fail(TypeError(AddNoneMessage)) && vertices == old(vertices)
      ensures v.Some? ==> r == Pass && vertices == old(vertices) + {v.value}
    {
      if v.None? {
        return Fail(TypeError(AddNoneMessage));
      }
      if v.value !in vertices {
        vertices := vertices + {v.value};
      }
      r := Pass;
    }

    /**
     * Removes the vertex `v` together with every edge incident to it; a
     * vertex that is not a member leaves the graph as it was.
     */
    method Remove(v: Option<V>) returns (r: Outcome)
      requires Valid()
      modifies this
      ensures Valid()
      ensures v.None? ==> r == Fail(TypeError(RemoveNoneMessage))
      ensures v.None? || v.value !in old(vertices) ==>
                vertices == old(vertices) && edges == old(edges)
      ensures v.Some? ==> r == Pass
      ensures v.Some? && v.value in old(vertices) ==>
                && vertices == old(vertices) - {v.value}
                && edges == old(edges) - Incident(old(edges), v.value)
      ensures v.Some? ==> forall e :: e in edges ==> e.v1 != v.value && e.v2 != v.value
    {
      if v.None? {
        return Fail(TypeError(RemoveNoneMessage));
      }
      r := Pass;
      if v.value in vertices {
        var incident := CollectIncident(v.value);
        var rest := incident;
        while rest != {}
          invariant rest <= incident
          invariant vertices == old(vertices)
          invariant edges == old(edges) - (incident - rest)
          decreases rest
        {
          var x :| x in rest;
          edges := edges - {x};
          rest := rest - {x};
        }
        vertices := vertices - {v.value};
      }
    }

    /** Gathers, one edge at a time, the edges that touch `v`. */
    method CollectIncident(v: V) returns (incident: set<Edge<V>>)
      ensures incident == Incident(edges, v)
    {
      incident := {};
      var rest := edges;
      while rest != {}
        invariant rest <= edges
        invariant incident == Incident(edges - rest, v)
        decreases rest
      {
        var x :| x in rest;
        if x.v1 == v || x.v2 == v {
          incident := incident + {x};
        }
        rest := rest - {x};
      }
    }

    /** Membership of a vertex; `None` is rejected. */
    method HasVertex(v: Option<V>) returns (r: Result<bool>)
      ensures v.None? ==> r == Err(TypeError(ArgumentNoneMessage))
      ensures v.Some? ==> r.Ok? && (r.value <==> v.value in vertices)
    {
      if v.None? {
        return Err(TypeError(ArgumentNoneMessage));
      }
      r := Ok(v.value in vertices);
    }

    /** A snapshot of the vertex set. */
    method Vertices() returns (s: set<V>)
      ensures s == vertices
    {
      s := vertices;
    }

    /**
     * Creates a new edge from `v1` to `v2`, first adding both endpoints as
     * vertices. The argument types are checked in order before anything
     * changes; a weight too large for `float` is only refused once both
     * endpoints have been added.
     */
    method Connect(v1: Option<V>, v2: Option<V>, directed: PyValue := PyBool(false),
                   weight: PyValue := PyNone)
      returns (r: Result<Edge<V>>)
      requires Valid()
      modifies this
      ensures Valid()
      ensures r.Err? ==> edges == old(edges)
      ensures (v1.None? || v2.None?) ==> r == Err(TypeError(ConnectNoneMessage))
      ensures v1.Some? && v2.Some? && !directed.PyBool? ==>
                r == Err(TypeError(DirectedMessage))
      ensures v1.Some? && v2.Some? && directed.PyBool? && !IsNumberOrNone(weight) ==>
                r == Err(TypeError(WeightMessage))
      ensures r.Err? && r.error.TypeError? ==> vertices == old(vertices)
      ensures v1.Some? && v2.Some? && directed.PyBool? && FloatOverflows(weight) ==>
                && r == Err(OverflowError(FloatOverflowMessage))
                && vertices == old(vertices) + {v1.value, v2.value}
      ensures v1.Some? && v2.Some? && directed.PyBool? && IsNumberOrNone(weight)
              && !FloatOverflows(weight) ==>
                && r.Ok?
                && fresh(r.value)
                && r.value.v1 == v1.value && r.value.v2 == v2.value
                && r.value.directed == directed.b
                && (r.value.IsWeighted() <==> !weight.PyNone?)
                && vertices == old(vertices) + {v1.value, v2.value}
                && edges == old(edges) + {r.value}
    {
      if v1.None? || v2.None? {
        return Err(TypeError(ConnectNoneMessage));
      }
      if !directed.PyBool? {
        return Err(TypeError(DirectedMessage));
      }
      if weight.PyBool? {
        return Err(TypeError(WeightMessage));
      }
      if !IsNumberOrNone(weight) {
        return Err(TypeError(WeightMessage));
      }
      var _ := Add(v1);
      var _ := Add(v2);
      if FloatOverflows(weight) {
        return Err(OverflowError(FloatOverflowMessage));
      }
      var e := new Edge(v1.value, v2.value, directed.b, weight);
      edges := edges + {e};
      r := Ok(e);
    }

    /** Removes the edge `e` if it is in the graph; the vertices stay. */
    method Disconnect(e: EdgeArg<V>) returns (r: Outcome)
      requires Valid()
      modifies this
      ensures Valid()
      ensures vertices == old(vertices)
      ensures !e.AnEdge? ==> r == Fail(TypeError(EdgeMessage)) && edges == old(edges)
      ensures e.AnEdge? ==> r == Pass && edges == old(edges) - {e.edge}
    {
      if !e.AnEdge? {
        return Fail(TypeError(EdgeMessage));
      }
      if e.edge in edges {
        edges := edges - {e.edge};
      }
      r := Pass;
    }

    /** Membership of an edge, by identity; a non-edge is rejected. */
    method HasEdge(e: EdgeArg<V>) returns (r: Result<bool>)
      ensures !e.AnEdge? ==> r == Err(TypeError(EdgeMessage))
      ensures e.AnEdge? ==> r.Ok? && (r.value <==> e.edge in edges)
    {
      if !e.AnEdge? {
        return Err(TypeError(EdgeMessage));
      }
      r := Ok(e.edge in edges);
    }

    /** A snapshot of the edge set. */
    method Edges() returns (s: set<Edge<V>>)
      ensures s == edges
    {
      s := edges;
    }

    /** Empties the graph. */
    method Clear()
      modifies this
      ensures Valid()
      ensures vertices == {} && edges == {}
    {
      edges := {};
      vertices := {};
    }
  }

  /**
   * Two connections with identical accepted arguments give two distinct
   * edges, and disconnecting one of them leaves exactly the other.
   */
  method ParallelEdges<V(==)>(a: V, b: V, directed: PyValue, weight: PyValue)
    returns (e1: Edge<V>, e2: Edge<V>, after: set<Edge<V>>)
    requires directed.PyBool? && IsNumberOrNone(weight) && !FloatOverflows(weight)
    ensures e1 != e2
    ensures e1.v1 == e2.v1 == a && e1.v2 == e2.v2 == b
    ensures e1.directed == e2.directed == directed.b
    ensures after == {e2}
  {
    var g := new Graph<V>();
    var r1 := g.Connect(Some(a), Some(b), directed, weight);
    var r2 := g.Connect(Some(a), Some(b), directed, weight);
    e1, e2 := r1.value, r2.value;
    var _ := g.Disconnect(AnEdge(e1));
    after := g.Edges();
  }

  /**
   * Adding a new vertex and removing it again restores the graph: no edge can
   * touch a vertex that was not in the graph.
   */
  method AddThenRemove<V(==)>(g: Graph<V>, v: V)
    requires g.Valid() && v !in g.vertices
    modifies g
    ensures g.Valid()
    ensures g.vertices == old(g.vertices) && g.edges == old(g.edges)
  {
    var _ := g.Add(Some(v));
    var _ := g.Remove(Some(v));
  }

  /**
   * Whatever `Connect` answers, disconnecting the edge it returned (if any)
   * restores the edge set; the endpoints stay added once the argument types
   * were accepted.
   */
  method ConnectThenDisconnect<V(==)>(g: Graph<V>, a: V, b: V, directed: PyValue, weight: PyValue)
    requires g.Valid()
    modifies g
    ensures g.Valid()
    ensures g.edges == old(g.edges)
    ensures directed.PyBool? && IsNumberOrNone(weight) ==>
              g.vertices == old(g.vertices) + {a, b}
    ensures !(directed.PyBool? && IsNumberOrNone(weight)) ==> g.vertices == old(g.vertices)
  {
    var r := g.Connect(Some(a), Some(b), directed, weight);
    if r.Ok? {
      var _ := g.Disconnect(AnEdge(r.value));
    }
  }

  /** `connect(a, b)` with the default arguments makes an undirected, unweighted edge. */
  method ConnectDefaults<V(==)>(a: V, b: V) returns (e: Edge<V>)
    ensures e.v1 == a && e.v2 == b
    ensures !e.directed && !e.IsWeighted()
  {
    var g := new Graph<V>();
    var r := g.Connect(Some(a), Some(b));
    e := r.value;
  }
}
