# Graph container

A model of the in-memory graph of `mkt/graph.py`: a `Graph` object that
owns a mutable set of vertices and a mutable set of edges, and the edge
objects it creates. Vertices are arbitrary values compared by equality.
Edges are objects compared by identity, since the edge class defines no
equality of its own. Two `connect` calls with the same arguments therefore
make two different edges, and both stay in the graph.

- `values.dfy` (module `Values`): the kinds of dynamically typed argument
  that the graph checks (`PyValue`), the `TypeError` and `OverflowError` it
  raises (`Error`), the conversion of a weight to `float` (`ToFloat`),
  and the `Outcome`/`Result` values that stand for "returned normally" or
  "raised".
- `graph.dfy` (module `Graphs`): the class `Edge` and the class `Graph`
  with fields `vertices: set<V>` and `edges: set<Edge<V>>`. The methods of
  `Graph` update those fields in place, as the Python methods do.

The edge accessors `v1()`, `v2()`, `isdirected()` and `weight()` are the
immutable fields `v1`, `v2`, `directed` and `weight` of `Edge`;
`isweighted()` is the predicate `Edge.IsWeighted`. The defaults
`directed=False, weight=None` of `connect` and of the edge constructor are
default parameter values.

The object invariant `Graph.Valid()` says that no edge dangles: both
endpoints of every edge are vertices of the graph. The constructor
establishes it. `Add`, `Remove`, `Connect`, `Disconnect` and `Clear`
preserve it. It holds because `Connect` adds both endpoints and `Remove`
deletes every edge incident to the vertex it removes.

A call that the code answers with an explicit `TypeError` returns
`Fail`/`Err` carrying the same message, and it leaves both sets unchanged.
A weight too large for `float()` raises `OverflowError` inside the edge
constructor, after `connect` has already added both endpoints; the model
returns that error with the endpoints added and the edges unchanged.

Arguments whose kind is checked at run time are passed as values that
carry their kind:
- `Option<V>` for a vertex or `None`;
- `PyValue` for `directed` and `weight`;
- `EdgeArg` for an edge, `None` or some other object.

`mkt/graph.py` has no weighted/unweighted mode and no search, and its
edges are compared by identity.

## Model

| member | source | states |
|---|---|---|
| `Values.ToFloat` | mkt/graph.py:38-41 | the conversion fails with `OverflowError` exactly for an `int` of magnitude at least 2^1024 - 2^970; otherwise the stored weight is present exactly when the weight argument is not `None` |
| `Graphs.Edge.constructor` | mkt/graph.py:29-41 | an edge needs a weight that is a number other than a bool, or `None`, and that `float()` can convert; it keeps its endpoints and direction as given (undirected by default), and reports itself weighted exactly when a weight was given |
| `Graphs.Graph.constructor` | mkt/graph.py:65-67 | a new graph has no vertices and no edges, and satisfies the no-dangling-edge invariant |
| `Graphs.Graph.Add` | mkt/graph.py:69-73 | `None` is rejected with no change; otherwise the vertex set becomes the old set plus `v` (so adding twice is the same as adding once), the edges are unchanged, and the invariant is kept |
| `Graphs.Graph.Remove` | mkt/graph.py:75-85 | `None` is rejected with no change; a non-member leaves both sets unchanged; a member is removed with exactly the edges incident to it, and every other vertex and edge is kept; afterwards no edge touches `v`, and the invariant is kept |
| `Graphs.Graph.CollectIncident` | mkt/graph.py:79-82 | the loop over the edge set collects exactly the edges with `v` as either endpoint |
| `Graphs.Graph.HasVertex` | mkt/graph.py:87-90 | `None` is rejected; otherwise the answer is true exactly when `v` is a vertex |
| `Graphs.Graph.Vertices` | mkt/graph.py:92-93 | returns the current vertex set as a value, which later changes to the graph do not affect |
| `Graphs.Graph.Connect` | mkt/graph.py:95-108 | the type checks run in source order: a `None` endpoint, then a non-bool `directed`, then a bool or non-numeric `weight`; each is rejected with its own message before anything changes; a weight too large for `float` fails with `OverflowError` after both endpoints were added, with the edges unchanged; on success both endpoints become vertices, the vertex set grows by exactly `{v1, v2}`, and a new edge is added with the given endpoints, direction and presence of weight; every previous edge remains and the invariant is kept |
| `Graphs.Graph.Disconnect` | mkt/graph.py:110-114 | a non-edge is rejected; otherwise exactly that edge is removed if present, nothing happens if it is absent, and the vertices are never touched |
| `Graphs.Graph.HasEdge` | mkt/graph.py:116-119 | a non-edge is rejected; otherwise the answer is true exactly when that very edge object is in the graph |
| `Graphs.Graph.Edges` | mkt/graph.py:121-122 | returns the current edge set as a value, which later changes to the graph do not affect |
| `Graphs.Graph.Clear` | mkt/graph.py:124-126 | both sets are empty afterwards |
| `Graphs.ParallelEdges` | mkt/graph.py:95-114 | two `connect` calls with the same accepted arguments (any direction flag, any convertible weight or none) give two distinct edges with those endpoints and direction; disconnecting the first leaves exactly the second |
| `Graphs.AddThenRemove` | mkt/graph.py:69-85 | adding a new vertex and then removing it restores both sets |
| `Graphs.ConnectThenDisconnect` | mkt/graph.py:95-114 | for any arguments, disconnecting the edge `connect` returned (if it returned one) restores the edge set; the endpoints remain added exactly when the argument types were accepted |
| `Graphs.ConnectDefaults` | mkt/graph.py:95-108 | `connect(a, b)` with the default arguments gives an undirected, unweighted edge from `a` to `b` |

## Left out

- The abstract base class `Edge` (mkt/graph.py:3-23) is not modelled as a type hierarchy. `isinstance(e, Edge)` becomes the `EdgeArg` cases. An edge class written by a user is not modelled: an `EdgeArg` holds only this model's own `Edge` objects.
- `__repr__` (mkt/graph.py:58-63) is left out: it only formats text for display.
- Values.ToFloat: beyond the overflow case, states only whether a weight is present, not its value. `float()` rounds integers to 53 significant bits, and a float can be infinite or NaN; floating point is not modelled.
- Graphs.Graph.Connect: states that the new edge is weighted exactly when a weight is given, but not the stored value, for the same reason.
- Graphs.Graph.Connect: vertices are assumed hashable. An unhashable vertex such as a list raises `TypeError` at the set lookup in `add` (mkt/graph.py:72), so `connect('a', [1])` raises after `'a'` was added; the same lookup fails in `remove` and `has_vertex` (mkt/graph.py:78, 90). This path is not modelled.
- The overflow of `float(weight)` is raised inside the edge constructor (mkt/graph.py:41); the model tests for it in `Connect` just before constructing the edge, at the same point in the sequence of effects.
- Graphs.Graph.Remove: vertices are assumed equal to themselves, as Dafny's equality is. For a vertex not equal to itself, such as `float('nan')`, the membership test at mkt/graph.py:78 matches by identity but the test at mkt/graph.py:81 uses `==` only, so `remove` deletes the vertex and keeps its edges, which then dangle. The invariant `Graph.Valid()` holds only for vertices whose `==` is reflexive.
- Vertices are compared with Dafny equality. Python's `__eq__`/`__hash__` on user objects, and vertices whose hash changes while they are in the set, are not modelled.
- The loops in `remove` visit the edges in an arbitrary order (`:|`). Python's set iteration order is not modelled; the result does not depend on it.
