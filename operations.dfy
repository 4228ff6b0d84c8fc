/**
 * The operations panel (src/components/OperationsSection.jsx): a telemetry log that
 * keeps its newest entries, and a canvas of nodes that drift, bounce off the edges
 * and are linked when close. The random message choice and the random starting
 * values are parameters; the drawing calls are not modelled, only which links are
 * drawn.
 */
module Operations {
  import opened ThreeMath
  import LogTail

  // ---------------------------------------------------------------------------
  // The log

  const InitialLog: seq<string> := ["SYSTEM_INITIALIZED", "CONNECTING_TO_GLOBAL_NODES...", "ENCRYPTED_SIGNAL_STREAM_ACTIVE"]
  const Messages: seq<string> := [
    "PING_RESPONSE_7ms_TOKYO", "NODE_UPDATE_SUCCESS_[44.2.1]", "THREAT_NEUTRALIZED_LEVEL_2",
    "BUFFER_XFL_CLEARING...", "SYNC_COMPLETE_SECTOR_7G", "ANOMALY_DETECTED_RECALIBRATING"]
  /** How many old entries a tick keeps. */
  const LogKeep: nat := 5

  /** One tick of the log stream; pick is floor(random * 6), an index into the messages. */
  function LogTick(prev: seq<string>, pick: nat): (r: seq<string>)
    requires pick < |Messages|
    ensures 0 < |r| <= LogKeep + 1 && r[|r| - 1] in Messages
    ensures |prev| <= LogKeep ==> r[..|r| - 1] == prev
    ensures |prev| > LogKeep ==> r[..|r| - 1] == prev[|prev| - LogKeep..]
  {
    LogTail.Append(prev, LogKeep, Messages[pick])
  }

  /** The messages a run of picks appends. */
  function Picked(picks: seq<nat>): (ms: seq<string>)
    requires forall k :: 0 <= k < |picks| ==> picks[k] < |Messages|
    ensures |ms| == |picks| && forall k :: 0 <= k < |ms| ==> ms[k] in Messages
  {
    seq(|picks|, k requires 0 <= k < |picks| => Messages[picks[k]])
  }

  /**
   * The log starts with three entries; after n ticks it is the last six entries of the
   * initial log followed by every message picked, so it holds min(3 + n, 6) entries.
   */
  lemma LogWindow(picks: seq<nat>)
    requires forall k :: 0 <= k < |picks| ==> picks[k] < |Messages|
    ensures |InitialLog| == 3
    ensures LogTail.AppendAll(InitialLog, LogKeep, Picked(picks)) == LogTail.Last(InitialLog + Picked(picks), LogKeep + 1)
    ensures |LogTail.AppendAll(InitialLog, LogKeep, Picked(picks))| == if 3 + |picks| < 6 then 3 + |picks| else 6
  {
    LogTail.AppendAllWindow(InitialLog, LogKeep, Picked(picks));
    LogTail.LogLength(InitialLog, LogKeep, Picked(picks));
  }

  // ---------------------------------------------------------------------------
  // The nodes

  /** One node of the canvas. */
  datatype Node = Node(x: real, y: real, vx: real, vy: real, radius: real)

  /** How many nodes the canvas holds. */
  const NodeCount: nat := 15

  /** The five random draws, each in [0, 1), that make one node. */
  datatype Draw = Draw(px: real, py: real, pvx: real, pvy: real, pr: real)

  predicate InUnit(d: Draw) {
    0.0 <= d.px < 1.0 && 0.0 <= d.py < 1.0 && 0.0 <= d.pvx < 1.0 && 0.0 <= d.pvy < 1.0 && 0.0 <= d.pr < 1.0
  }

  /** `canvas.width || fallback`: a zero canvas size falls back to the default. */
  function SizeOr(size: nat, fallback: nat): (r: nat)
    ensures r > 0 <== fallback > 0
    ensures size > 0 ==> r == size
  {
    if size == 0 then fallback else size
  }

  /**
   * A fresh node: anywhere on the canvas (800 by 400 when it has no size yet), each
   * velocity component in [-0.25, 0.25), radius in [1, 3).
   */
  function Spawn(d: Draw, width: nat, height: nat): (n: Node)
    requires InUnit(d)
    ensures 0.0 <= n.x < SizeOr(width, 800) as real && 0.0 <= n.y < SizeOr(height, 400) as real
    ensures -0.25 <= n.vx < 0.25 && -0.25 <= n.vy < 0.25
    ensures 1.0 <= n.radius < 3.0
  {
    Node(Spread(d.px, SizeOr(width, 800)), Spread(d.py, SizeOr(height, 400)),
         (d.pvx - 0.5) * 0.5, (d.pvy - 0.5) * 0.5, d.pr * 2.0 + 1.0)
  }

  /** `random * size`: a point on a side of the canvas. */
  function Spread(p: real, size: nat): (r: real)
    requires 0.0 <= p < 1.0 && size > 0
    ensures 0.0 <= r < size as real
  {
    MulPos(1.0 - p, size as real);
    MulRight(0.0, p, size as real);
    p * (size as real)
  }

  /** The node array: one node per draw, made once when the panel mounts. */
  method CreateNodes(draws: seq<Draw>, width: nat, height: nat) returns (nodes: array<Node>)
    requires |draws| == NodeCount && forall k :: 0 <= k < |draws| ==> InUnit(draws[k])
    ensures fresh(nodes) && nodes.Length == NodeCount
    ensures forall k :: 0 <= k < NodeCount ==> nodes[k] == Spawn(draws[k], width, height)
  {
    nodes := new Node[NodeCount](k requires 0 <= k < NodeCount => Spawn(draws[k], width, height));
  }

  /** A coordinate has left the canvas along its axis. */
  predicate Outside(v: real, limit: real) { v < 0.0 || v > limit }

  /**
   * One node's update: it moves by its velocity, then each velocity component whose
   * new coordinate lies outside the canvas is reversed.
   */
  function Move(n: Node, width: real, height: real): Node {
    var x := n.x + n.vx;
    var y := n.y + n.vy;
    Node(x, y, if Outside(x, width) then -n.vx else n.vx, if Outside(y, height) then -n.vy else n.vy, n.radius)
  }

  /**
   * The bounce keeps every speed: only the sign of a component can change, and a
   * non-zero component is reversed exactly when the moved coordinate is off the canvas.
   */
  lemma Bounce(n: Node, width: real, height: real)
    ensures var r := Move(n, width, height);
      && r.x == n.x + n.vx && r.y == n.y + n.vy && r.radius == n.radius
      && Abs(r.vx) == Abs(n.vx) && Abs(r.vy) == Abs(n.vy)
      && (n.vx != 0.0 ==> (r.vx != n.vx <==> Outside(r.x, width)))
      && (n.vy != 0.0 ==> (r.vy != n.vy <==> Outside(r.y, height)))
  {
  }

  /** Whether two node positions are within linking distance: hypot(dx, dy) < 200, squared. */
  predicate Close(a: Node, b: Node) {
    (a.x - b.x) * (a.x - b.x) + (a.y - b.y) * (a.y - b.y) < 200.0 * 200.0
  }

  /**
   * A link i-j drawn from frame state s: i comes first, and it is measured from the
   * moved node i to the node j that has not moved yet this frame.
   */
  predicate Linked(s: seq<Node>, width: real, height: real, i: nat, j: nat) {
    i < j < |s| && Close(Move(s[i], width, height), s[j])
  }

  /** Links are listed by first node, then by second node. */
  predicate Before(a: (nat, nat), b: (nat, nat)) { a.0 < b.0 || (a.0 == b.0 && a.1 < b.1) }

  /** The nodes after one frame: each moved and bounced. */
  function Step(s: seq<Node>, width: real, height: real): (r: seq<Node>)
    ensures |r| == |s|
    ensures forall k :: 0 <= k < |s| ==> r[k] == Move(s[k], width, height)
  {
    seq(|s|, k requires 0 <= k < |s| => Move(s[k], width, height))
  }

  /**
   * One animation frame: every node is moved and bounced in place, in index order,
   * and after node i moves it is measured against every later node. The links are
   * exactly the close pairs, in order; the number of nodes never changes.
   */
  method Animate(nodes: array<Node>, width: real, height: real) returns (links: seq<(nat, nat)>)
    modifies nodes
    ensures nodes[..] == Step(old(nodes[..]), width, height)
    ensures forall k :: 0 <= k < |links| ==> Linked(old(nodes[..]), width, height, links[k].0, links[k].1)
    ensures forall i: nat, j: nat :: Linked(old(nodes[..]), width, height, i, j) ==> (i, j) in links
    ensures forall k :: 0 <= k < |links| - 1 ==> Before(links[k], links[k + 1])
  {
    ghost var s := nodes[..];
    links := [];
    var i := 0;
    while i < nodes.Length
      invariant 0 <= i <= nodes.Length
      invariant forall k :: 0 <= k < i ==> nodes[k] == Move(s[k], width, height)
      invariant forall k :: i <= k < nodes.Length ==> nodes[k] == s[k]
      invariant forall k :: 0 <= k < |links| ==> links[k].0 < i && Linked(s, width, height, links[k].0, links[k].1)
      invariant forall a: nat, b: nat :: a < i && Linked(s, width, height, a, b) ==> (a, b) in links
      invariant forall k :: 0 <= k < |links| - 1 ==> Before(links[k], links[k + 1])
    {
      var node := nodes[i];
      node := node.(x := node.x + node.vx);
      node := node.(y := node.y + node.vy);
      if node.x < 0.0 || node.x > width {
        node := node.(vx := node.vx * -1.0);
      }
      if node.y < 0.0 || node.y > height {
        node := node.(vy := node.vy * -1.0);
      }
      nodes[i] := node;
      assert node == Move(s[i], width, height);
      var found := LinksFrom(nodes, i, node);
      assert forall j: nat :: Linked(s, width, height, i, j) <==> i < j < nodes.Length && Close(node, nodes[j]);
      ghost var before := links;
      links := links + found;
      forall a: nat, b: nat | a <= i && Linked(s, width, height, a, b)
        ensures (a, b) in links
      {
        if a < i {
          assert (a, b) in before;
        } else {
          assert (a, b) in found;
        }
      }
      i := i + 1;
    }
  }

  /** The inner loop of a frame: the later nodes close to the just-moved node i, in index order. */
  method LinksFrom(nodes: array<Node>, i: nat, node: Node) returns (found: seq<(nat, nat)>)
    requires i < nodes.Length
    ensures forall k :: 0 <= k < |found| ==> found[k].0 == i && i < found[k].1 < nodes.Length && Close(node, nodes[found[k].1])
    ensures forall j: nat :: i < j < nodes.Length && Close(node, nodes[j]) ==> (i, j) in found
    ensures forall k :: 0 <= k < |found| - 1 ==> found[k].1 < found[k + 1].1
  {
    found := [];
    var j := i + 1;
    while j < nodes.Length
      invariant i + 1 <= j <= nodes.Length
      invariant forall k :: 0 <= k < |found| ==> found[k].0 == i && i < found[k].1 < j && Close(node, nodes[found[k].1])
      invariant forall b: nat :: i < b < j && Close(node, nodes[b]) ==> (i, b) in found
      invariant forall k :: 0 <= k < |found| - 1 ==> found[k].1 < found[k + 1].1
    {
      var node2 := nodes[j];
      if Close(node, node2) {
        found := found + [(i, j)];
      }
      j := j + 1;
    }
  }

  // ---------------------------------------------------------------------------
  // A node outside the canvas

  /** k frames of one node's update. */
  function Iterate(n: Node, width: real, height: real, k: nat): Node {
    if k == 0 then n else Move(Iterate(n, width, height, k - 1), width, height)
  }

  /**
   * As written the bounce reverses a component whenever the coordinate is outside,
   * even when the node is already heading back. A node further right of the canvas
   * than one step (after the canvas shrinks, say) therefore turns round every frame
   * and never comes back: every other frame it is exactly where it started.
   */
  lemma {:induction false} TrappedOutside(n: Node, width: real, height: real, k: nat)
    requires n.x > width && n.x + n.vx > width
    ensures Iterate(n, width, height, 2 * k).x == n.x && Iterate(n, width, height, 2 * k).vx == n.vx
  {
    if k > 0 {
      TrappedOutside(n, width, height, k - 1);
      var m := Iterate(n, width, height, 2 * (k - 1));
      assert Iterate(n, width, height, 2 * k) == Move(Move(m, width, height), width, height);
    }
  }

  /** The evidently intended bounce: a component is reversed only when it points away from the canvas. */
  function MoveInward(n: Node, width: real, height: real): Node {
    var x := n.x + n.vx;
    var y := n.y + n.vy;
    Node(x, y,
         if (x < 0.0 && n.vx < 0.0) || (x > width && n.vx > 0.0) then -n.vx else n.vx,
         if (y < 0.0 && n.vy < 0.0) || (y > height && n.vy > 0.0) then -n.vy else n.vy,
         n.radius)
  }

  /**
   * With the intended bounce a node off the canvas always heads back: afterwards no
   * velocity component points away from the canvas along an axis it is outside of,
   * speeds are kept, and a node right of the canvas is nearer next frame. The bounce
   * as written breaks the first of these.
   */
  lemma BounceInward(n: Node, width: real, height: real)
    requires 0.0 <= width && 0.0 <= height
    ensures var r := MoveInward(n, width, height);
      && (r.x > width ==> r.vx <= 0.0) && (r.x < 0.0 ==> r.vx >= 0.0)
      && (r.y > height ==> r.vy <= 0.0) && (r.y < 0.0 ==> r.vy >= 0.0)
      && Abs(r.vx) == Abs(n.vx) && Abs(r.vy) == Abs(n.vy)
      && (r.x > width && n.vx != 0.0 ==> MoveInward(r, width, height).x < r.x)
    ensures var w := Move(Node(700.0, 100.0, -0.25, 0.0, 1.0), 500.0, 400.0);
      w.x > 500.0 && w.vx > 0.0
  {
  }
}
