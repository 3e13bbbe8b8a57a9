/** backend/src/route.py: a route between two points of the bike network,
    summarised by the average of one edge attribute along it, and the batch
    of routes from every census block to one school. Snapping a point to
    its nearest node and finding the shortest path are calls into osmnx;
    here they are oracles passed in as functions. */
module Route {
  import opened Wrappers
  import Text
  import Seqs

  type NodeId = int

  /** A start or end point: a shapely Point or an (x, y) tuple. */
  datatype Coord = PointGeom(px: real, py: real) | XY(x: real, y: real)

  /** The attributes of one edge; only numeric ones are modelled. */
  type EdgeAttrs = map<string, real>

  /** The edge data between two nodes of a multigraph: one or more parallel
      edges, in insertion order. */
  datatype Parallel = Parallel(first: EdgeAttrs, others: seq<EdgeAttrs>)

  /** The graph: the position of every node, and the parallel edges of
      every ordered pair of nodes that has any. */
  datatype Graph = Graph(nodes: map<NodeId, (real, real)>, edges: map<(NodeId, NodeId), Parallel>)

  /** What a route is reduced to: its polyline and the average weight. */
  datatype RouteInfo = RouteInfo(polyline: seq<(real, real)>, avgWeight: Option<real>)

  /** A census block: its index label in the table, its centroid and its
      GEOID20. */
  datatype Block = Block(index: int, geometry: Coord, geoid: string)

  /** The school every route goes to. */
  datatype School = School(geometry: Coord, name: string, globalId: string)

  /** A route with the three columns the batch adds. */
  datatype TaggedRoute = TaggedRoute(info: RouteInfo, fromBlockId: string, toSchoolName: string, toSchoolId: string)

  /** `nearest_nodes(G, X=x, Y=y)`. */
  type Nearest = ((real, real)) -> NodeId

  /** `shortest_path(G, orig, dest, weight=weight)`: None when there is no
      path. */
  type Shortest = (NodeId, NodeId) -> Option<seq<NodeId>>

  const NoRoute: string := "No route found between start and end"
  const NothingToConcat: string := "No objects to concatenate"
  /** The error shapely raises for a line of fewer than two points. */
  const SinglePointLine: string := "LineStrings must have at least 2 coordinate tuples"

  /** What osmnx promises of a path: it is not empty, it runs from the origin
      to the destination, and every node on it is a node of the graph. */
  predicate SoundPath(g: Graph, orig: NodeId, dest: NodeId, path: seq<NodeId>) {
    && |path| > 0 && path[0] == orig && path[|path| - 1] == dest
    && forall i :: 0 <= i < |path| ==> path[i] in g.nodes
  }

  ghost predicate SoundOracle(g: Graph, shortest: Shortest) {
    forall o, d :: shortest(o, d).Some? ==> SoundPath(g, o, d, shortest(o, d).value)
  }

  /** Step 1: a Point and a tuple both give their x and y. */
  function XYOf(c: Coord): (p: (real, real))
    ensures c.PointGeom? ==> p == (c.px, c.py)
    ensures c.XY? ==> p == (c.x, c.y)
  {
    match c
    case PointGeom(x, y) => (x, y)
    case XY(x, y) => (x, y)
  }

  /** `zip(route[:-1], route[1:])`: the consecutive pairs of a path. */
  function Hops(path: seq<NodeId>): (r: seq<(NodeId, NodeId)>)
    ensures |r| == if |path| == 0 then 0 else |path| - 1
    ensures forall i :: 0 <= i < |r| ==> r[i] == (path[i], path[i + 1])
  {
    if |path| <= 1 then [] else seq(|path| - 1, i requires 0 <= i < |path| - 1 => (path[i], path[i + 1]))
  }

  /** The weight of one hop: the attribute of the first parallel edge, 0
      when that edge lacks it or there is no edge data. */
  function HopWeight(g: Graph, hop: (NodeId, NodeId), weight: string): (w: real)
    ensures hop !in g.edges ==> w == 0.0
    ensures hop in g.edges && weight !in g.edges[hop].first ==> w == 0.0
    ensures hop in g.edges && weight in g.edges[hop].first ==> w == g.edges[hop].first[weight]
  {
    if hop in g.edges then
      var edge := g.edges[hop].first;
      if weight in edge then edge[weight] else 0.0
    else 0.0
  }

  /** The weight of every hop of a path, in order. */
  function HopWeights(g: Graph, hops: seq<(NodeId, NodeId)>, weight: string): (ws: seq<real>)
    ensures |ws| == |hops|
    ensures forall i :: 0 <= i < |hops| ==> ws[i] == HopWeight(g, hops[i], weight)
  {
    seq(|hops|, i requires 0 <= i < |hops| => HopWeight(g, hops[i], weight))
  }

  /** `sum(ws) / len(ws) if ws else None`. */
  function Average(ws: seq<real>): (a: Option<real>)
    ensures a.None? <==> |ws| == 0
  {
    if |ws| == 0 then None else Some(Seqs.Sum(ws) / |ws| as real)
  }

  /** Step 5: the position of every node of the path, in order. */
  function Polyline(g: Graph, path: seq<NodeId>): (line: seq<(real, real)>)
    requires forall i :: 0 <= i < |path| ==> path[i] in g.nodes
    ensures |line| == |path|
    ensures forall i :: 0 <= i < |path| ==> line[i] == g.nodes[path[i]]
  {
    seq(|path|, i requires 0 <= i < |path| => g.nodes[path[i]])
  }

  /** `get_route_gdf` as a value: the polyline and average weight of the
      oracle's path; the error raised when it has none, or when the path is a
      single node, whose one-point polyline `LineString` rejects. */
  function RouteOf(g: Graph, start: Coord, end: Coord, weight: string, nearest: Nearest, shortest: Shortest): Result<RouteInfo, string>
    requires SoundOracle(g, shortest)
  {
    var orig := nearest(XYOf(start));
    var dest := nearest(XYOf(end));
    match shortest(orig, dest)
    case None => Failure(NoRoute)
    case Some(path) =>
      assert SoundPath(g, orig, dest, path);
      if |path| < 2 then Failure(SinglePointLine)
      else Success(RouteInfo(Polyline(g, path), Average(HopWeights(g, Hops(path), weight))))
  }

  /** `get_route_gdf`: the hop weights are collected in a loop. */
  method GetRoute(g: Graph, start: Coord, end: Coord, weight: string, nearest: Nearest, shortest: Shortest)
    returns (r: Result<RouteInfo, string>)
    requires SoundOracle(g, shortest)
    ensures r == RouteOf(g, start, end, weight, nearest, shortest)
  {
    var orig := nearest(XYOf(start));
    var dest := nearest(XYOf(end));
    var route := shortest(orig, dest);
    if route.None? {
      return Failure(NoRoute);
    }
    var path := route.value;
    assert SoundPath(g, orig, dest, path);
    var hops := Hops(path);
    var edgeWeights: seq<real> := [];
    for k := 0 to |hops|
      invariant edgeWeights == HopWeights(g, hops[..k], weight)
    {
      edgeWeights := edgeWeights + [HopWeight(g, hops[k], weight)];
    }
    assert hops[..|hops|] == hops;
    var avg := if |edgeWeights| > 0 then Some(Seqs.Sum(edgeWeights) / |edgeWeights| as real) else None;
    if |path| < 2 {
      return Failure(SinglePointLine);
    }
    return Success(RouteInfo(Polyline(g, path), avg));
  }

  /** The average lies between the smallest and largest hop weight. */
  lemma {:induction false} AverageBetween(ws: seq<real>, lo: real, hi: real)
    requires forall i :: 0 <= i < |ws| ==> lo <= ws[i] <= hi
    ensures Average(ws).Some? ==> lo <= Average(ws).value <= hi
  {
    if |ws| > 0 {
      Seqs.SumBetween(ws, lo, hi);
      Seqs.DivideBetween(Seqs.Sum(ws), |ws| as real, lo, hi);
    }
  }

  /** A route fails with "No route found" exactly when the oracle has no
      path, and with shapely's error exactly when the path is a single node
      (both ends snap to the same node); otherwise its polyline follows the
      path node by node from the origin's node to the destination's, and it
      has an average weight. */
  lemma {:induction false} RouteShape(g: Graph, start: Coord, end: Coord, weight: string, nearest: Nearest, shortest: Shortest)
    requires SoundOracle(g, shortest)
    ensures var path := shortest(nearest(XYOf(start)), nearest(XYOf(end)));
      var r := RouteOf(g, start, end, weight, nearest, shortest);
      && (path.None? <==> r == Failure(NoRoute))
      && (path.Some? && |path.value| == 1 <==> r == Failure(SinglePointLine))
      && (r.Success? <==> path.Some? && |path.value| >= 2)
      && (r.Success? ==>
            && |r.value.polyline| == |path.value|
            && r.value.polyline[0] == g.nodes[nearest(XYOf(start))]
            && r.value.polyline[|r.value.polyline| - 1] == g.nodes[nearest(XYOf(end))]
            && r.value.avgWeight.Some?)
  {
    var orig := nearest(XYOf(start));
    var dest := nearest(XYOf(end));
    if shortest(orig, dest).Some? {
      assert SoundPath(g, orig, dest, shortest(orig, dest).value);
    }
  }

  /** With every edge attribute between two bounds (and 0 between them, for
      hops that lack it), the average weight lies between the bounds. */
  lemma {:induction false} RouteWeightBetween(g: Graph, start: Coord, end: Coord, weight: string,
                                              nearest: Nearest, shortest: Shortest, lo: real, hi: real)
    requires SoundOracle(g, shortest)
    requires lo <= 0.0 <= hi
    requires forall hop :: hop in g.edges && weight in g.edges[hop].first ==> lo <= g.edges[hop].first[weight] <= hi
    ensures RouteOf(g, start, end, weight, nearest, shortest).Success? ==>
      var avg := RouteOf(g, start, end, weight, nearest, shortest).value.avgWeight;
      avg.Some? ==> lo <= avg.value <= hi
  {
    var orig := nearest(XYOf(start));
    var dest := nearest(XYOf(end));
    if shortest(orig, dest).Some? {
      var ws := HopWeights(g, Hops(shortest(orig, dest).value), weight);
      AverageBetween(ws, lo, hi);
    }
  }

  // ---- the batch from census blocks to a school ----

  /** `f"Error on index {i}: {e}"`. */
  function ErrorLine(index: int, message: string): string {
    "Error on index " + Text.IntToString(index) + ": " + message
  }

  /** The routes the batch keeps, tagged, in block order. */
  function Routes(g: Graph, blocks: seq<Block>, school: School, weight: string, nearest: Nearest, shortest: Shortest): (rs: seq<TaggedRoute>)
    requires SoundOracle(g, shortest)
    ensures |rs| <= |blocks|
  {
    if |blocks| == 0 then []
    else
      var init := Routes(g, blocks[..|blocks| - 1], school, weight, nearest, shortest);
      var b := blocks[|blocks| - 1];
      match RouteOf(g, b.geometry, school.geometry, weight, nearest, shortest)
      case Success(info) => init + [TaggedRoute(info, b.geoid, school.name, school.globalId)]
      case Failure(_) => init
  }

  /** The error lines the batch records, in block order. */
  function Errors(g: Graph, blocks: seq<Block>, school: School, weight: string, nearest: Nearest, shortest: Shortest): (es: seq<string>)
    requires SoundOracle(g, shortest)
    ensures |es| <= |blocks|
  {
    if |blocks| == 0 then []
    else
      var init := Errors(g, blocks[..|blocks| - 1], school, weight, nearest, shortest);
      var b := blocks[|blocks| - 1];
      match RouteOf(g, b.geometry, school.geometry, weight, nearest, shortest)
      case Success(_) => init
      case Failure(e) => init + [ErrorLine(b.index, e)]
  }

  /** `compute_routes_from_census_blocks_to_school`: every block is tried
      in turn and a failure is recorded without stopping the loop; when no
      route was kept, concatenating nothing raises. */
  method Batch(g: Graph, blocks: seq<Block>, school: School, weight: string, nearest: Nearest, shortest: Shortest)
    returns (r: Result<(seq<TaggedRoute>, seq<string>), string>)
    requires SoundOracle(g, shortest)
    ensures var routes := Routes(g, blocks, school, weight, nearest, shortest);
      && (|routes| == 0 ==> r == Failure(NothingToConcat))
      && (|routes| > 0 ==> r == Success((routes, Errors(g, blocks, school, weight, nearest, shortest))))
  {
    var errors: seq<string> := [];
    var dataframes: seq<TaggedRoute> := [];
    for k := 0 to |blocks|
      invariant dataframes == Routes(g, blocks[..k], school, weight, nearest, shortest)
      invariant errors == Errors(g, blocks[..k], school, weight, nearest, shortest)
    {
      var b := blocks[k];
      assert blocks[..k + 1][..k] == blocks[..k];
      var route := GetRoute(g, b.geometry, school.geometry, weight, nearest, shortest);
      if route.Failure? {
        errors := errors + [ErrorLine(b.index, route.error)];
      } else {
        dataframes := dataframes + [TaggedRoute(route.value, b.geoid, school.name, school.globalId)];
      }
    }
    assert blocks[..|blocks|] == blocks;
    if |dataframes| == 0 {
      return Failure(NothingToConcat);
    }
    return Success((dataframes, errors));
  }

  /** Every block yields exactly one outcome: a kept route or an error
      line. */
  lemma {:induction false} OneOutcomePerBlock(g: Graph, blocks: seq<Block>, school: School, weight: string, nearest: Nearest, shortest: Shortest)
    requires SoundOracle(g, shortest)
    ensures |Routes(g, blocks, school, weight, nearest, shortest)| + |Errors(g, blocks, school, weight, nearest, shortest)| == |blocks|
  {
    if |blocks| > 0 {
      OneOutcomePerBlock(g, blocks[..|blocks| - 1], school, weight, nearest, shortest);
    }
  }

  /** Every kept route is tagged with the GEOID20 of a block whose route
      it is, and with the school's name and GlobalID. */
  lemma {:induction false} RoutesTagged(g: Graph, blocks: seq<Block>, school: School, weight: string, nearest: Nearest, shortest: Shortest)
    requires SoundOracle(g, shortest)
    ensures forall t :: t in Routes(g, blocks, school, weight, nearest, shortest) ==>
      && t.toSchoolName == school.name && t.toSchoolId == school.globalId
      && exists i :: (0 <= i < |blocks| && t.fromBlockId == blocks[i].geoid &&
           RouteOf(g, blocks[i].geometry, school.geometry, weight, nearest, shortest) == Success(t.info))
  {
    if |blocks| > 0 {
      var init := blocks[..|blocks| - 1];
      RoutesTagged(g, init, school, weight, nearest, shortest);
      forall t | t in Routes(g, init, school, weight, nearest, shortest)
        ensures exists i :: (0 <= i < |blocks| && t.fromBlockId == blocks[i].geoid &&
          RouteOf(g, blocks[i].geometry, school.geometry, weight, nearest, shortest) == Success(t.info))
      {
        var i :| 0 <= i < |init| && t.fromBlockId == init[i].geoid &&
          RouteOf(g, init[i].geometry, school.geometry, weight, nearest, shortest) == Success(t.info);
        assert blocks[i] == init[i];
      }
    }
  }

  /** Every error line names the index of a block whose route failed, with
      the "No route found" message or shapely's single-point message. */
  lemma {:induction false} ErrorsNamed(g: Graph, blocks: seq<Block>, school: School, weight: string, nearest: Nearest, shortest: Shortest)
    requires SoundOracle(g, shortest)
    ensures forall e :: e in Errors(g, blocks, school, weight, nearest, shortest) ==>
      exists i :: (0 <= i < |blocks| &&
        RouteOf(g, blocks[i].geometry, school.geometry, weight, nearest, shortest).Failure? &&
        (e == ErrorLine(blocks[i].index, NoRoute) || e == ErrorLine(blocks[i].index, SinglePointLine)))
  {
    if |blocks| > 0 {
      var init := blocks[..|blocks| - 1];
      ErrorsNamed(g, init, school, weight, nearest, shortest);
      var b := blocks[|blocks| - 1];
      RouteShape(g, b.geometry, school.geometry, weight, nearest, shortest);
      forall e | e in Errors(g, init, school, weight, nearest, shortest)
        ensures exists i :: (0 <= i < |blocks| &&
          RouteOf(g, blocks[i].geometry, school.geometry, weight, nearest, shortest).Failure? &&
          (e == ErrorLine(blocks[i].index, NoRoute) || e == ErrorLine(blocks[i].index, SinglePointLine)))
      {
        var i :| 0 <= i < |init| &&
          RouteOf(g, init[i].geometry, school.geometry, weight, nearest, shortest).Failure? &&
          (e == ErrorLine(init[i].index, NoRoute) || e == ErrorLine(init[i].index, SinglePointLine));
        assert blocks[i] == init[i];
      }
    }
  }

  /** No route is kept exactly when every block fails, which is when the
      batch raises. */
  lemma {:induction false} NoRoutesIffAllFail(g: Graph, blocks: seq<Block>, school: School, weight: string, nearest: Nearest, shortest: Shortest)
    requires SoundOracle(g, shortest)
    ensures (forall i :: 0 <= i < |blocks| ==> RouteOf(g, blocks[i].geometry, school.geometry, weight, nearest, shortest).Failure?)
      <==> |Routes(g, blocks, school, weight, nearest, shortest)| == 0
  {
    if |blocks| > 0 {
      var init := blocks[..|blocks| - 1];
      NoRoutesIffAllFail(g, init, school, weight, nearest, shortest);
      assert forall i :: 0 <= i < |init| ==> init[i] == blocks[i];
    }
  }
}
