/** The in-place tag sort of one run of boot drivers (CmpOrderGroup).

    A node with a smaller tag than its predecessor is reinserted *in front of* the first
    not-greater node met going back, and scanning resumes from the moved node. A move can
    therefore put a node in front of a strictly smaller one. What every iteration keeps is
    that the part already visited is sorted except, possibly, for the one adjacent pair that
    starts at the cursor. */
module TagSort {
  import opened IntrusiveList
  import opened DriverOrderSpec

  ghost predicate TagSorted(s: seq<Node>, lo: nat, hi: nat)
    requires hi <= |s|
  {
    forall i, j :: lo <= i < j < hi ==> s[i].value.tag <= s[j].value.tag
  }

  /** The nodes lo..k are in tag order, but for the pair (c, c + 1) when `dirty`. */
  ghost predicate SortedBut(s: seq<Node>, lo: nat, k: nat, c: nat, dirty: bool) {
    && lo <= c < k <= |s|
    && (dirty ==> c + 1 < k && s[c].value.tag > s[c + 1].value.tag)
    && (forall i, j :: lo <= i < j < k ==>
          (dirty && i == c && j == c + 1) || s[i].value.tag <= s[j].value.tag)
  }

  /** Takes the node after position `c` and links it in front of position `p`. */
  ghost function Move(s: seq<Node>, p: nat, c: nat): (r: seq<Node>)
    requires p <= c && c + 1 < |s|
    ensures |r| == |s|
  {
    s[..p] + [s[c + 1]] + s[p..c + 1] + s[c + 2..]
  }

  /** `p` is where the backward search from `c`, down to `lo`, stops for the node after `c`. */
  ghost predicate StopsAt(s: seq<Node>, lo: nat, p: nat, c: nat)
    requires c + 1 < |s|
  {
    && lo <= p <= c
    && (p == lo || s[p].value.tag <= s[c + 1].value.tag)
    && (forall q :: p < q <= c ==> s[q].value.tag > s[c + 1].value.tag)
  }

  lemma MovePermutes(s: seq<Node>, p: nat, c: nat)
    requires p <= c && c + 1 < |s|
    ensures Bag(Move(s, p, c)) == Bag(s)
  {
    assert s == s[..p] + s[p..c + 1] + [s[c + 1]] + s[c + 2..];
  }

  /** Unlinking and relinking is a move, and it stays inside lo..hi. */
  lemma ReinsertIsMove(s: seq<Node>, lo: nat, hi: nat, p: nat, c: nat)
    requires lo <= p <= c && c + 1 < hi <= |s|
    ensures var t := s[..c + 1] + s[c + 2..];
            t[..p] + [s[c + 1]] + t[p..] == Move(s, p, c)
    ensures var r := Move(s, p, c);
            && r[..lo] == s[..lo] && r[hi..] == s[hi..] && r[p] == s[c + 1]
            && r[lo] == (if p == lo then s[c + 1] else s[lo])
            && r[hi - 1] == (if c + 2 == hi then s[c] else s[hi - 1])
  {
    var t := s[..c + 1] + s[c + 2..];
    assert t[..p] == s[..p] && t[p..] == s[p..c + 1] + s[c + 2..];
  }

  /** One iteration that moves a node keeps the shape, and the cursor makes progress:
      either more of the run has been visited, or the misplaced pair moved towards the
      front, or there is no misplaced pair any more. */
  lemma MoveKeepsShape(s: seq<Node>, lo: nat, k: nat, c: nat, p: nat, dirty: bool)
    requires c + 1 < |s| && SortedBut(s, lo, k, c, dirty)
    requires s[c].value.tag > s[c + 1].value.tag
    requires StopsAt(s, lo, p, c)
    ensures dirty || k == c + 1
    ensures var r := Move(s, p, c);
            var dirty' := r[p].value.tag > r[p + 1].value.tag;
            && SortedBut(r, lo, if dirty then k else c + 2, p, dirty')
            && (dirty && dirty' ==> p < c)
  {
    var r := Move(s, p, c);
    var k' := if dirty then k else c + 2;
    forall i, j | lo <= i < j < k'
      ensures (i == p && j == p + 1) || r[i].value.tag <= r[j].value.tag
    {
      var i', j' := Came(p, c, i), Came(p, c, j);
      assert r[i] == s[i'];
      assert r[j] == s[j'];
    }
  }

  /** Where the node at position `i` was before a move. */
  ghost function Came(p: nat, c: nat, i: nat): (j: int) {
    if i < p then i else if i == p then c + 1 else if i <= c + 1 then i - 1 else i
  }

  /** The surprising part: a single move can leave a misplaced pair behind. */
  lemma MoveCanMisplace(a: Node, b: Node, c: Node)
    requires a.value.tag < b.value.tag < c.value.tag
    ensures StopsAt([a, c, b], 0, 0, 1)
    ensures Move([a, c, b], 0, 1) == [b, a, c]
    ensures TagSorted([a, c, b], 0, 2) && !TagSorted([b, a, c], 0, 2)
  {
    var s := [b, a, c];
    assert s[0].value.tag > s[1].value.tag;
  }

  /** A permutation of the whole that fixes both ends permutes the middle. */
  lemma MiddlePermutes(s: seq<Node>, t: seq<Node>, lo: nat, hi: nat)
    requires lo <= hi <= |s| == |t|
    requires Bag(s) == Bag(t) && s[..lo] == t[..lo] && s[hi..] == t[hi..]
    ensures Bag(s[lo..hi]) == Bag(t[lo..hi])
  {
    assert s == s[..lo] + s[lo..hi] + s[hi..];
    assert t == t[..lo] + t[lo..hi] + t[hi..];
    assert Bag(s[lo..hi]) == Bag(s) - Bag(s[..lo]) - Bag(s[hi..]);
    assert Bag(t[lo..hi]) == Bag(t) - Bag(t[..lo]) - Bag(t[hi..]);
  }

  /** What the outer loop keeps of the original list `old`. */
  ghost predicate Progress(s: seq<Node>, was: seq<Node>, lo: nat, hi: nat, k: nat, c: nat, dirty: bool) {
    && hi <= |s| == |was| && Bag(s) == Bag(was)
    && lo <= k <= hi && s[..lo] == was[..lo] && s[hi..] == was[hi..]
    && SortedBut(s, lo, k, c, dirty)
  }

  lemma MoveProgress(s: seq<Node>, was: seq<Node>, lo: nat, hi: nat, k: nat, c: nat, p: nat, dirty: bool)
    requires Progress(s, was, lo, hi, k, c, dirty) && c + 1 < hi
    requires s[c].value.tag > s[c + 1].value.tag && StopsAt(s, lo, p, c)
    ensures var r := Move(s, p, c);
            Progress(r, was, lo, hi, if dirty then k else c + 2, p, r[p].value.tag > r[p + 1].value.tag)
  {
    ReinsertIsMove(s, lo, hi, p, c);
    MovePermutes(s, p, c);
    MoveKeepsShape(s, lo, k, c, p, dirty);
  }

  lemma ScanProgress(s: seq<Node>, was: seq<Node>, lo: nat, hi: nat, k: nat, c: nat, dirty: bool)
    requires Progress(s, was, lo, hi, k, c, dirty) && c + 1 < hi
    requires s[c].value.tag <= s[c + 1].value.tag
    ensures !dirty
    ensures Progress(s, was, lo, hi, if k == c + 1 then c + 2 else k, c + 1, false)
  {
  }

  /** The run nodes[lo..hi], with `startNode` first and `endNode` last, is left in tag order,
      as a permutation of itself; no other node of the list moves. */
  method OrderGroup(list: List<Driver>, startNode: Node, endNode: Node, ghost lo: nat, ghost hi: nat)
    requires list.Valid()
    requires lo < hi <= |list.nodes|
    requires list.nodes[lo] == startNode && list.nodes[hi - 1] == endNode
    modifies list, list.repr
    ensures list.Valid() && list.repr == old(list.repr)
    ensures |list.nodes| == |old(list.nodes)|
    ensures list.nodes[..lo] == old(list.nodes)[..lo]
    ensures list.nodes[hi..] == old(list.nodes)[hi..]
    ensures Bag(list.nodes[lo..hi]) == Bag(old(list.nodes)[lo..hi])
    ensures TagSorted(list.nodes, lo, hi)
  {
    if startNode == endNode {
      return;
    }
    ghost var c: nat, k: nat, dirty := lo, lo + 1, false;
    var start, end, current, more := startNode, endNode, startNode, true;
    while more
      invariant list.Valid() && list.repr == old(list.repr)
      invariant Progress(list.nodes, old(list.nodes), lo, hi, k, c, dirty)
      invariant start == list.nodes[lo] && end == list.nodes[hi - 1] && current == list.nodes[c]
      invariant more <==> c + 1 < hi
      decreases hi - k, dirty, if dirty then c else hi - c, more
    {
      start, end, current, k, c, dirty := Advance(list, start, end, current, old(list.nodes), lo, hi, k, c, dirty);
      more := current != end;
    }
    MiddlePermutes(list.nodes, old(list.nodes), lo, hi);
  }

  /** One iteration of the outer loop. */
  method Advance(list: List<Driver>, start: Node, end: Node, previous: Node, ghost was: seq<Node>,
                 ghost lo: nat, ghost hi: nat, ghost k: nat, ghost c: nat, ghost dirty: bool)
    returns (start': Node, end': Node, current: Node, ghost k': nat, ghost c': nat, ghost dirty': bool)
    requires list.Valid() && Progress(list.nodes, was, lo, hi, k, c, dirty) && c + 1 < hi
    requires start == list.nodes[lo] && end == list.nodes[hi - 1] && previous == list.nodes[c]
    modifies list, list.repr
    ensures list.Valid() && list.repr == old(list.repr)
    ensures Progress(list.nodes, was, lo, hi, k', c', dirty') && c' < hi
    ensures start' == list.nodes[lo] && end' == list.nodes[hi - 1] && current == list.nodes[c']
    ensures k < k' || (k == k' && dirty && (!dirty' || c' < c)) || (k == k' && !dirty && !dirty' && c < c')
  {
    start', end' := start, end;
    assert Joined(list.head, list.nodes, c + 1);
    current := previous.flink;
    if previous.value.tag > current.value.tag {
      ghost var s := list.nodes;
      start', end', c' := Reinsert(list, start, end, previous, current, lo, hi, c);
      MoveProgress(s, was, lo, hi, k, c, c', dirty);
      MoveKeepsShape(s, lo, k, c, c', dirty);
      k', dirty' := if dirty then k else c + 2, list.nodes[c'].value.tag > list.nodes[c' + 1].value.tag;
    } else {
      ScanProgress(list.nodes, was, lo, hi, k, c, dirty);
      k', c', dirty' := if k == c + 1 then c + 2 else k, c + 1, false;
    }
  }

  /** The backward search, on the list without the node that is being moved. */
  method FindSpot(list: List<Driver>, start: Node, previous: Node, current: Node,
                  ghost s: seq<Node>, ghost lo: nat, ghost c: nat)
    returns (spot: Node, ghost p: nat)
    requires list.Valid() && lo <= c && c + 1 < |s|
    requires list.nodes == s[..c + 1] + s[c + 2..]
    requires start == s[lo] && previous == s[c] && current == s[c + 1]
    ensures StopsAt(s, lo, p, c) && spot == s[p] == list.nodes[p]
    ensures spot == start <==> p == lo
  {
    spot, p := previous, c;
    while spot.value.tag > current.value.tag && spot != start
      invariant lo <= p <= c && spot == list.nodes[p] == s[p]
      invariant forall q :: p < q <= c ==> s[q].value.tag > current.value.tag
      decreases p
    {
      assert Joined(list.head, list.nodes, p);
      spot := spot.blink;
      p := p - 1;
    }
    assert start == list.nodes[lo];
  }

  /** The body of the outer loop when the next node has a smaller tag. */
  method Reinsert(list: List<Driver>, start: Node, end: Node, previous: Node, current: Node,
                  ghost lo: nat, ghost hi: nat, ghost c: nat)
    returns (start': Node, end': Node, ghost p: nat)
    requires list.Valid() && lo <= c && c + 1 < hi <= |list.nodes|
    requires start == list.nodes[lo] && end == list.nodes[hi - 1]
    requires previous == list.nodes[c] && current == list.nodes[c + 1]
    modifies list, list.repr
    ensures list.Valid() && list.repr == old(list.repr)
    ensures StopsAt(old(list.nodes), lo, p, c) && list.nodes == Move(old(list.nodes), p, c)
    ensures start' == list.nodes[lo] && end' == list.nodes[hi - 1] && current == list.nodes[p]
  {
    ghost var s := list.nodes;
    start', end' := start, end;
    assert Joined(list.head, list.nodes, c + 1);
    if current == end {
      end' := current.blink;
    }
    assert end' == if c + 2 == hi then s[c] else s[hi - 1];
    list.Remove(current, c + 1);
    var spot;
    spot, p := FindSpot(list, start, previous, current, s, lo, c);
    ReinsertIsMove(s, lo, hi, p, c);
    list.InsertBefore(spot, current, p);
    if spot == start {
      start' := current;
    }
  }
}
