/** Boot driver ordering: the backward scan of the service group order list, the regrouping
    of the driver list, and the tag sort of every run of drivers of one group. */
module DriverOrder {
  import opened Collections
  import opened IntrusiveList
  import opened DriverOrderSpec
  import opened TagSort

  // ------------------------------------------------------------- the order list

  /** The strings of a REG_MULTI_SZ value, each followed by a NUL. */
  ghost function Encode(groups: seq<string>): (r: string) {
    if groups == [] then ""
    else Encode(groups[..|groups| - 1]) + groups[|groups| - 1] + [NUL]
  }

  ghost predicate ProperNames(groups: seq<string>) {
    forall i :: 0 <= i < |groups| ==> groups[i] != "" && NUL !in groups[i]
  }

  /** `data` lists `groups`, with or without the list's own terminator. */
  ghost predicate WellFormed(data: string, groups: seq<string>) {
    ProperNames(groups) && (data == Encode(groups) || data == Encode(groups) + [NUL])
  }

  lemma {:induction false} EncodePrefix(groups: seq<string>, m: nat)
    requires m <= |groups|
    ensures Encode(groups[..m]) <= Encode(groups)
    decreases |groups| - m
  {
    if m == |groups| {
      assert groups[..m] == groups;
    } else {
      EncodePrefix(groups, m + 1);
      assert groups[..m + 1][..m] == groups[..m];
    }
  }

  /** The text of the m-th name sits between the encodings of m - 1 and of m names. */
  lemma NameAt(groups: seq<string>, data: string, m: nat)
    requires 0 < m <= |groups| && WellFormed(data, groups)
    ensures var lo := |Encode(groups[..m - 1])|;
            var hi := |Encode(groups[..m])|;
            && hi == lo + |groups[m - 1]| + 1 && lo + 1 < hi <= |data|
            && data[lo..hi - 1] == groups[m - 1] && data[hi - 1] == NUL
            && (lo > 0 ==> data[lo - 1] == NUL)
            && (forall i :: lo <= i < hi - 1 ==> data[i] != NUL)
  {
    EncodePrefix(groups, m);
    EncodePrefix(groups, m - 1);
    var pre, full := Encode(groups[..m - 1]), Encode(groups[..m]);
    assert groups[..m][..m - 1] == groups[..m - 1];
    assert full == pre + groups[m - 1] + [NUL];
    assert full <= data && pre <= data;
    assert data[..|full|] == full;
    assert data[|pre|..|full| - 1] == full[|pre|..|full| - 1] == groups[m - 1];
    forall i | |pre| <= i < |full| - 1
      ensures data[i] != NUL
    {
      assert data[i] == groups[m - 1][i - |pre|];
    }
    if pre != "" {
      assert groups[..m - 1] != [];
      assert pre[|pre| - 1] == NUL;
    }
  }

  /** The character at `i`; `outside` is whatever precedes the buffer in memory. */
  function Peek(data: string, outside: char, i: int): (c: char)
    requires -1 <= i < |data|
  {
    if i == -1 then outside else data[i]
  }

  /** start..end is the last string that ends at or before the NUL at `from`: it starts
      behind the previous NUL, and a NUL directly in front of `from` ends it earlier. */
  ghost predicate Scanned(data: string, from: nat, start: nat, end: nat)
    requires 0 < from < |data|
  {
    && start < from && start < end <= from && data[end] == NUL
    && (start == 0 || data[start - 1] == NUL)
    && (forall i :: start <= i < from - 1 ==> data[i] != NUL)
    && end == if start < from - 1 && data[from - 1] == NUL then from - 1 else from
  }

  /** The do-while scan for one string, going down from `from`. */
  method ScanGroup(data: string, outside: char, from: nat) returns (start: nat, end: nat)
    requires 0 < from < |data| && data[from] == NUL
    ensures Scanned(data, from, start, end)
  {
    start, end := from, from;
    while true
      invariant 0 < start <= from && start <= end <= from && data[end] == NUL
      invariant start < from ==> data[start - 1] != NUL
      invariant forall i :: start - 1 <= i < from - 1 ==> data[i] != NUL
      invariant end == if start < from - 1 && data[from - 1] == NUL then from - 1 else from
      decreases start
    {
      if data[start] == NUL {
        end := start;
      }
      start := start - 1;
      if !(Peek(data, outside, start - 1) != NUL && start != 0) {
        break;
      }
    }
  }

  // ------------------------------------------------------------- regrouping

  /** The sweep for one group name: CmpDoSort's inner loop. */
  method SweepGroup(list: List<Driver>, up: char -> char, name: string)
    requires list.Valid()
    modifies list, list.repr
    ensures list.Valid() && list.repr == old(list.repr)
    ensures list.nodes == Sweep(up, name, old(list.nodes))
  {
    ghost var s, j := list.nodes, 0;
    assert Joined(list.head, list.nodes, 0);
    var next := list.head.flink;
    assert Swept(up, name, s, 0) == s;
    while next != list.head
      invariant list.Valid() && list.repr == old(list.repr)
      invariant 0 <= j <= |s| == |list.nodes|
      invariant list.nodes == Swept(up, name, s, j)
      invariant next == list.At(j + 1)
      decreases |s| - j
    {
      SweepOne(up, name, s, j);
      next := SweepNode(list, up, name, next, j);
      j := j + 1;
    }
    assert s[..j] == s && Swept(up, name, s, j) == Sweep(up, name, s);
  }

  /** One node of the sweep: a match is relinked at the head; the walk goes on behind it. */
  method SweepNode(list: List<Driver>, up: char -> char, name: string, node: Node, ghost j: nat)
    returns (next: Node)
    requires list.Valid() && j < |list.nodes| && list.nodes[j] == node
    modifies list, list.repr
    ensures list.Valid() && list.repr == old(list.repr)
    ensures list.nodes == ToFrontIf(Matches(up, name, node.value), old(list.nodes), j)
    ensures next == list.At(j + 2)
  {
    assert Joined(list.head, list.nodes, j + 1);
    next := node.flink;
    if node.value.group.Named? && SameName(up, name, node.value.group.name) {
      list.Remove(node, j);
      list.InsertHead(node);
    }
  }

  ghost function ToFrontIf(take: bool, s: seq<Node>, j: nat): (r: seq<Node>)
    requires j < |s|
    ensures |r| == |s|
  {
    if take then [s[j]] + (s[..j] + s[j + 1..]) else s
  }

  /** The list when the sweep has passed the first `j` nodes of `s`. */
  ghost function Swept(up: char -> char, name: string, s: seq<Node>, j: nat): (r: seq<Node>)
    requires j <= |s|
  {
    Sweep(up, name, s[..j]) + s[j..]
  }

  lemma SweepOne(up: char -> char, name: string, s: seq<Node>, j: nat)
    requires j < |s|
    ensures |Swept(up, name, s, j)| == |s| && Swept(up, name, s, j)[j] == s[j]
    ensures Swept(up, name, s, j + 1) == ToFrontIf(Matches(up, name, s[j].value), Swept(up, name, s, j), j)
  {
    SweepPermutes(up, name, s[..j]);
    var yes, no, x := Selected(up, name, true, s[..j]), Selected(up, name, false, s[..j]), s[j];
    assert s[..j + 1][..j] == s[..j];
    assert s[j..] == [x] + s[j + 1..];
    ReversedAppend(yes, x);
    Shuffle(Reversed(yes), no, x, s[j + 1..]);
  }

  lemma Shuffle(a: seq<Node>, b: seq<Node>, x: Node, t: seq<Node>)
    ensures var cur := a + b + ([x] + t);
            && cur[|a + b|] == x
            && ToFrontIf(true, cur, |a + b|) == [x] + a + b + t
            && ToFrontIf(false, cur, |a + b|) == a + (b + [x]) + t
  {
  }

  lemma ReversedAppend(s: seq<Node>, x: Node)
    ensures Reversed(s + [x]) == [x] + Reversed(s)
  {
  }

  lemma SweepPermutes(up: char -> char, name: string, s: seq<Node>)
    ensures |Sweep(up, name, s)| == |s| && Bag(Sweep(up, name, s)) == Bag(s)
  {
    SelectedSplits(up, name, s);
    ReversedBag(Selected(up, name, true, s));
    assert |Bag(Selected(up, name, true, s)) + Bag(Selected(up, name, false, s))| == |Bag(s)|;
  }

  /** CmpDoSort on the buffer `data`, whose last NUL is at the end of the list.
      Whatever the buffer holds, the list is permuted; when it is a well-formed list of
      `groups`, the sweeps run over exactly those groups, last one first. */
  method DoSort(list: List<Driver>, up: char -> char, data: string, outside: char, ghost groups: seq<string>)
    requires list.Valid()
    requires data != "" && data[|data| - 1] == NUL
    modifies list, list.repr
    ensures list.Valid() && list.repr == old(list.repr)
    ensures Bag(list.nodes) == Bag(old(list.nodes))
    ensures WellFormed(data, groups) ==> list.nodes == Regroup(up, groups, old(list.nodes))
  {
    ghost var m: nat := |groups|;
    var current: int := |data| - 1;
    ScanBegins(up, groups, data, list.nodes);
    while current > 0
      invariant list.Valid() && list.repr == old(list.repr)
      invariant -1 <= current < |data| && (current >= 0 ==> data[current] == NUL)
      invariant Bag(list.nodes) == Bag(old(list.nodes))
      invariant m <= |groups|
      invariant WellFormed(data, groups) ==> SweptTo(up, groups, data, m, current, old(list.nodes), list.nodes)
      decreases current
    {
      current, m := SweepBack(list, up, data, outside, current, groups, m, old(list.nodes));
    }
    if WellFormed(data, groups) {
      ScanIsComplete(groups, data, m, current);
    }
  }

  /** One iteration: the string that ends at `current`, and the sweep for it. */
  method SweepBack(list: List<Driver>, up: char -> char, data: string, outside: char, current: nat,
                   ghost groups: seq<string>, ghost m: nat, ghost was: seq<Node>)
    returns (current': int, ghost m': nat)
    requires list.Valid() && m <= |groups|
    requires 0 < current < |data| && data[current] == NUL
    requires WellFormed(data, groups) ==> SweptTo(up, groups, data, m, current, was, list.nodes)
    modifies list, list.repr
    ensures list.Valid() && list.repr == old(list.repr)
    ensures -1 <= current' < current && (current' >= 0 ==> data[current'] == NUL) && m' <= |groups|
    ensures Bag(list.nodes) == Bag(old(list.nodes))
    ensures WellFormed(data, groups) ==> SweptTo(up, groups, data, m', current', was, list.nodes)
  {
    hide SweptTo, WellFormed, Sweep, Bag, Regroup, AtName, Encode;
    m' := m;
    var start, end := ScanGroup(data, outside, current);
    var name := data[start..end];
    SweepPermutes(up, name, list.nodes);
    if WellFormed(data, groups) {
      SweepNext(up, groups, data, m, current, start, end, was, list.nodes);
      m' := m - 1;
    }
    SweepGroup(list, up, name);
    current' := start as int - 1;
  }

  /** With m names still to come, the list has been swept for all later ones. */
  ghost predicate SweptTo(up: char -> char, groups: seq<string>, data: string, m: nat, current: int,
                          was: seq<Node>, s: seq<Node>)
    requires m <= |groups|
  {
    AtName(groups, data, m, current) && s == Regroup(up, groups[m..], was)
  }

  lemma ScanBegins(up: char -> char, groups: seq<string>, data: string, s: seq<Node>)
    ensures WellFormed(data, groups) ==> SweptTo(up, groups, data, |groups|, |data| - 1, s, s)
  {
    assert groups[..|groups|] == groups && groups[|groups|..] == [];
  }

  lemma SweepNext(up: char -> char, groups: seq<string>, data: string, m: nat, current: nat, start: nat, end: nat,
                  was: seq<Node>, s: seq<Node>)
    requires m <= |groups| && WellFormed(data, groups) && SweptTo(up, groups, data, m, current, was, s)
    requires 0 < current < |data| && Scanned(data, current, start, end)
    ensures m > 0
    ensures SweptTo(up, groups, data, m - 1, start - 1, was, Sweep(up, data[start..end], s))
  {
    ScanFindsName(groups, data, m, current, start, end);
    assert groups[m - 1..][1..] == groups[m..];
  }

  /** The scan ends only when every name has been swept. */
  lemma ScanIsComplete(groups: seq<string>, data: string, m: nat, current: int)
    requires m <= |groups| && WellFormed(data, groups) && AtName(groups, data, m, current)
    requires current <= 0
    ensures m == 0 && groups[m..] == groups
  {
  }

  /** Where the scan stands when m names remain: on the NUL of the m-th name, or, before the
      first step, possibly on the terminator of the whole list. */
  ghost predicate AtName(groups: seq<string>, data: string, m: nat, current: int)
    requires m <= |groups|
  {
    || current == |Encode(groups[..m])| - 1
    || (m == |groups| && current == |Encode(groups)| == |data| - 1)
  }

  /** The scan isolates the m-th name, whatever value is read just before the buffer. */
  lemma ScanFindsName(groups: seq<string>, data: string, m: nat, current: nat, start: nat, end: nat)
    requires m <= |groups| && WellFormed(data, groups) && AtName(groups, data, m, current)
    requires 0 < current < |data|
    requires Scanned(data, current, start, end)
    ensures m > 0 && data[start..end] == groups[m - 1]
    ensures AtName(groups, data, m - 1, start - 1)
  {
    assert groups[..|groups|] == groups && groups[..0] == [];
    NameAt(groups, data, m);
    var lo := |Encode(groups[..m - 1])|;
    var hi := |Encode(groups[..m])|;
    assert current == hi - 1 || current == hi;
    assert start == lo;
  }

  /** The registry value CmpSortDriverList reads: absent, of some other type, or a
      REG_MULTI_SZ of wide characters. */
  datatype OrderValue = Absent | OtherType | MultiSz(data: string)

  // ------------------------------------------------------------- the length as a USHORT

  /** Where CmpDoSort begins: the byte length, less the terminator, is cut to 16 bits. */
  function Begin(n: nat): (p: nat)
    requires n > 0
    ensures p < n && (n <= 0x8000 ==> p == n - 1)
  {
    (n - 1) % 0x8000
  }

  /** The NUL at which the first string found from `p` on down ends. */
  function FirstEnd(data: string, p: nat): (e: nat)
    requires p < |data|
    ensures e <= p
  {
    if p > 0 && data[p] != NUL then p - 1 else p
  }

  /** No NUL is seen on the way to the beginning of the first string. */
  predicate Trips(data: string, p: nat)
    requires p < |data|
  {
    p > 0 && data[p] != NUL && !(p >= 2 && data[p - 1] == NUL && data[p - 2] != NUL)
  }

  /** The first scan of CmpDoSort, which may begin in the middle of a string. It ends where a scan
      from the NUL of FirstEnd does, or without having seen a NUL. */
  method ScanFirst(data: string, outside: char, from: nat) returns (start: nat, end: int)
    requires 0 < from < |data|
    ensures end == -1 <==> Trips(data, from)
    ensures !Trips(data, from) ==> 0 <= end && 0 < FirstEnd(data, from) && Scanned(data, FirstEnd(data, from), start, end)
  {
    start, end := from, -1;
    while true
      invariant 0 < start <= from && -1 <= end <= from
      invariant start < from ==> data[start - 1] != NUL
      invariant forall i :: start - 1 <= i < from - 1 ==> data[i] != NUL
      invariant end == if start == from then -1 else if start < from - 1 && data[from - 1] == NUL then from - 1
                       else if data[from] == NUL then from else -1
      decreases start
    {
      if data[start] == NUL {
        end := start;
      }
      start := start - 1;
      if !(Peek(data, outside, start - 1) != NUL && start != 0) {
        break;
      }
    }
  }

  /** The number of names whose text and NUL lie within the first `length` characters. */
  ghost function Listed(groups: seq<string>, length: nat): (m: nat)
    ensures m <= |groups|
  {
    if groups == [] || |Encode(groups)| <= length then |groups| else Listed(groups[..|groups| - 1], length)
  }

  lemma CutBehind(groups: seq<string>, data: string, e: nat)
    requires WellFormed(data, groups) && e < |data| && |Encode(groups)| <= e + 1
    ensures WellFormed(data[..e + 1], groups)
  {
    assert data[..e + 1] == data || data[..e + 1] == Encode(groups);
  }

  /** A NUL before the last one lies in the encoding of the names before the last. */
  lemma CutBefore(groups: seq<string>, data: string, e: nat) returns (rest: seq<string>)
    requires WellFormed(data, groups) && groups != [] && e < |data| && data[e] == NUL && |Encode(groups)| > e + 1
    ensures rest == groups[..|groups| - 1] && e < |Encode(rest)| && WellFormed(Encode(rest), rest)
    ensures Encode(rest)[e] == NUL && Encode(rest)[..e + 1] == data[..e + 1]
  {
    hide Encode;
    rest := groups[..|groups| - 1];
    assert groups[..|groups|] == groups;
    NameAt(groups, data, |groups|);
    EncodePrefix(groups, |groups| - 1);
    assert Encode(rest) <= data && e < |Encode(rest)|;
  }

  /** A well-formed list cut at a NUL is a well-formed list of the names before it. */
  lemma {:induction false} CutIsWellFormed(groups: seq<string>, data: string, e: nat)
    requires WellFormed(data, groups) && e < |data| && data[e] == NUL
    ensures WellFormed(data[..e + 1], groups[..Listed(groups, e + 1)])
  {
    hide WellFormed, Encode;
    if groups == [] || |Encode(groups)| <= e + 1 {
      assert groups[..|groups|] == groups;
      EmptyEncodes();
      CutBehind(groups, data, e);
    } else {
      var rest := CutBefore(groups, data, e);
      CutIsWellFormed(rest, Encode(rest), e);
      assert rest[..Listed(rest, e + 1)] == groups[..Listed(rest, e + 1)];
    }
  }

  lemma EmptyEncodes()
    ensures Encode([]) == ""
  {
  }

  /** No name fits in one character. */
  lemma {:induction false} NoneInOne(groups: seq<string>)
    requires ProperNames(groups)
    ensures Listed(groups, 1) == 0
  {
    if groups == [] {
    } else {
      NoneInOne(groups[..|groups| - 1]);
    }
  }

  /** All names count, and nothing is tripped, on lists of up to 32768 characters. */
  lemma ShortListIsWhole(groups: seq<string>, data: string)
    requires WellFormed(data, groups) && 0 < |data| <= 0x8000
    ensures var p := Begin(|data|); !Trips(data, p) && Listed(groups, FirstEnd(data, p) + 1) == |groups|
  {
    assert data[|data| - 1] == NUL;
  }

  /** A well-formed list that trips the assertion: one name of 40000 letters. */
  lemma LongNameTrips()
    ensures var name := seq(40000, i => 'a'); WellFormed(name + [NUL], [name]) && Trips(name + [NUL], Begin(40001))
  {
    var name: string := seq(40000, i => 'a');
    assert [name][..0] == [];
    assert Encode([name]) == name + [NUL];
    assert Begin(40001) == 7232;
  }

  datatype Outcome = Refused | Asserts | Sorted

  /** CmpSortDriverList, from the registry value on. A longer list than a USHORT can tell the length
      of is sorted by a part of it from the front, or trips the assertion in CmpDoSort. */
  method SortDriverList(list: List<Driver>, up: char -> char, value: OrderValue, outside: char,
                        ghost groups: seq<string>)
    returns (r: Outcome)
    requires list.Valid()
    modifies list, list.repr
    ensures list.Valid() && list.repr == old(list.repr)
    ensures r != Refused <==> value.MultiSz? && value.data != "" && value.data[|value.data| - 1] == NUL
    ensures r != Refused ==> (r == Asserts <==> Trips(value.data, Begin(|value.data|)))
    ensures r != Sorted ==> list.nodes == old(list.nodes)
    ensures Bag(list.nodes) == Bag(old(list.nodes))
    ensures r == Sorted && WellFormed(value.data, groups) ==>
              list.nodes == Regroup(up, groups[..Listed(groups, FirstEnd(value.data, Begin(|value.data|)) + 1)], old(list.nodes))
  {
    hide WellFormed, Encode, Regroup, Listed, Bag;
    if !value.MultiSz? || |value.data| < 1 || value.data[|value.data| - 1] != NUL {
      return Refused;
    }
    var p := Begin(|value.data|);
    if p == 0 {
      if WellFormed(value.data, groups) {
        NothingListed(up, groups, value.data, list.nodes);
      }
      return Sorted;
    }
    var start, end := ScanFirst(value.data, outside, p);
    if end == -1 {
      return Asserts;
    }
    var e := FirstEnd(value.data, p);
    if WellFormed(value.data, groups) {
      CutIsWellFormed(groups, value.data, e);
    }
    DoSort(list, up, value.data[..e + 1], outside, groups[..Listed(groups, e + 1)]);
    r := Sorted;
  }

  lemma NothingListed(up: char -> char, groups: seq<string>, data: string, s: seq<Node>)
    requires WellFormed(data, groups)
    ensures Regroup(up, groups[..Listed(groups, 1)], s) == s
  {
    NoneInOne(groups);
  }

  // ------------------------------------------------------------- tag order per run

  /** Neighbours of one group are in tag order, so every maximal run of one group is. */
  ghost predicate RunsTagged(up: char -> char, s: seq<Node>) {
    forall i {:trigger s[i]} :: 0 < i < |s| && SameGroup(up, s[i - 1].value, s[i].value) ==>
      s[i - 1].value.tag <= s[i].value.tag
  }

  ghost predicate SameGroupsAs(up: char -> char, s: seq<Node>, t: seq<Node>) {
    |s| == |t| && forall i :: 0 <= i < |s| ==> SameGroup(up, s[i].value, t[i].value)
  }

  /** `a` starts a run: its group differs from that of the node before it. */
  ghost predicate RunStart(up: char -> char, s: seq<Node>, a: nat) {
    a == 0 || a == |s| || (a < |s| && !SameGroup(up, s[a - 1].value, s[a].value))
  }

  ghost predicate OneGroup(up: char -> char, s: seq<Node>, a: nat, b: nat)
    requires a < b <= |s|
  {
    forall i :: a <= i < b ==> SameGroup(up, s[a].value, s[i].value)
  }

  /** So a run as a whole is in tag order, not only its neighbours. */
  lemma {:induction false} RunsAreSorted(up: char -> char, s: seq<Node>, a: nat, b: nat)
    requires a < b <= |s| && RunsTagged(up, s) && OneGroup(up, s, a, b)
    ensures TagSorted(s, a, b)
    decreases b - a
  {
    if a + 1 == b {
    } else {
      assert SameGroup(up, s[a].value, s[a + 1].value);
      RunsAreSorted(up, s, a + 1, b);
    }
  }

  /** The run a..b of `s`, all of one group, has been rearranged into tag order in `t`. */
  ghost predicate RunSortedFrom(up: char -> char, s: seq<Node>, t: seq<Node>, a: nat, b: nat) {
    && a < b <= |s| == |t|
    && t[..a] == s[..a] && t[b..] == s[b..] && Bag(t[a..b]) == Bag(s[a..b]) && TagSorted(t, a, b)
    && OneGroup(up, s, a, b)
  }

  lemma RunKeepsGroups(up: char -> char, s: seq<Node>, t: seq<Node>, a: nat, b: nat)
    requires RunSortedFrom(up, s, t, a, b)
    ensures SameGroupsAs(up, t, s)
  {
    hide TagSorted, Fold, GroupText;
    forall i | 0 <= i < |s|
      ensures SameGroup(up, t[i].value, s[i].value)
    {
      if i < a {
        assert t[i] == t[..a][i] == s[..a][i];
      } else if i < b {
        assert t[a..b][i - a] in Bag(t[a..b]);
        assert t[i] in s[a..b];
        var j :| a <= j < b && s[j] == t[i];
      } else {
        assert t[i] == t[b..][i - b] == s[b..][i - b];
      }
    }
  }

  lemma StartStays(up: char -> char, s: seq<Node>, t: seq<Node>, a: nat)
    requires SameGroupsAs(up, t, s) && RunStart(up, s, a)
    ensures RunStart(up, t, a)
  {
    if 0 < a < |s| {
      assert SameGroup(up, t[a - 1].value, s[a - 1].value) && SameGroup(up, t[a].value, s[a].value);
    }
  }

  lemma RunBorder(up: char -> char, s: seq<Node>, t: seq<Node>, a: nat, b: nat)
    requires RunSortedFrom(up, s, t, a, b) && SameGroupsAs(up, t, s)
    requires RunStart(up, s, a) && RunStart(up, s, b) && RunsTagged(up, s[..a])
    ensures RunsTagged(up, t[..b]) && RunStart(up, t, b)
  {
    StartStays(up, s, t, a);
    StartStays(up, s, t, b);
    forall i | 0 < i < b && SameGroup(up, t[i - 1].value, t[i].value)
      ensures t[i - 1].value.tag <= t[i].value.tag
    {
      if i < a {
        assert t[..a][i - 1] == s[..a][i - 1] && t[..a][i] == s[..a][i];
      }
    }
  }

  lemma RunPermutes(up: char -> char, s: seq<Node>, t: seq<Node>, a: nat, b: nat)
    requires RunSortedFrom(up, s, t, a, b)
    ensures Bag(t) == Bag(s)
  {
    assert s == s[..a] + s[a..b] + s[b..];
    assert t == t[..a] + t[a..b] + t[b..];
  }

  /** Sorting one run of a single group by tag moves the border of the finished part. */
  lemma RunDone(up: char -> char, was: seq<Node>, s: seq<Node>, t: seq<Node>, a: nat, b: nat)
    requires Resolved(up, was, s, a) && RunSortedFrom(up, s, t, a, b) && RunStart(up, s, b)
    ensures Resolved(up, was, t, b)
  {
    RunKeepsGroups(up, s, t, a, b);
    RunBorder(up, s, t, a, b);
    RunPermutes(up, s, t, a, b);
  }

  /** The first `a` nodes, a whole number of runs, are done; nothing has left its run. */
  ghost predicate Resolved(up: char -> char, was: seq<Node>, s: seq<Node>, a: nat) {
    && Bag(s) == Bag(was) && SameGroupsAs(up, s, was)
    && a <= |s| && RunsTagged(up, s[..a]) && RunStart(up, s, a)
  }

  /** CmpResolveDriverDependencies: tag order within each run, and no driver leaves its run. */
  method ResolveDriverDependencies(list: List<Driver>, up: char -> char)
    requires list.Valid()
    modifies list, list.repr
    ensures list.Valid() && list.repr == old(list.repr)
    ensures Bag(list.nodes) == Bag(old(list.nodes))
    ensures SameGroupsAs(up, list.nodes, old(list.nodes))
    ensures RunsTagged(up, list.nodes)
  {
    ghost var a: nat := 0;
    assert Joined(list.head, list.nodes, 0);
    var next := list.head.flink;
    while next != list.head
      invariant list.Valid() && list.repr == old(list.repr)
      invariant Resolved(up, old(list.nodes), list.nodes, a) && next == list.At(a + 1)
      decreases |list.nodes| - a
    {
      next, a := ResolveRun(list, up, next, a, old(list.nodes));
    }
    assert list.nodes[..a] == list.nodes;
  }

  /** One run: find its last node, sort it, go on behind it. */
  method ResolveRun(list: List<Driver>, up: char -> char, startNode: Node, ghost a: nat, ghost was: seq<Node>)
    returns (next: Node, ghost b: nat)
    requires list.Valid() && a < |list.nodes| && list.nodes[a] == startNode
    requires Resolved(up, was, list.nodes, a)
    modifies list, list.repr
    ensures list.Valid() && list.repr == old(list.repr)
    ensures a < b <= |list.nodes| == |old(list.nodes)| && next == list.At(b + 1)
    ensures Resolved(up, was, list.nodes, b)
  {
    ghost var s := list.nodes;
    var endNode;
    endNode, next, b := FindRun(list, up, startNode, a);
    OrderGroup(list, startNode, endNode, a, b);
    RunDone(up, was, s, list.nodes, a, b);
    assert b < |s| ==> list.nodes[b..][0] == s[b..][0];
  }

  /** The do-while that extends a run as long as the group stays the same. */
  method FindRun(list: List<Driver>, up: char -> char, startNode: Node, ghost a: nat)
    returns (endNode: Node, next: Node, ghost b: nat)
    requires list.Valid() && a < |list.nodes| && list.nodes[a] == startNode
    ensures a < b <= |list.nodes| && endNode == list.nodes[b - 1] && next == list.At(b + 1)
    ensures OneGroup(up, list.nodes, a, b) && RunStart(up, list.nodes, b)
  {
    next, b := startNode, a;
    while true
      invariant a <= b < |list.nodes| && next == list.nodes[b]
      invariant OneGroup(up, list.nodes, a, b + 1)
      decreases |list.nodes| - b
    {
      endNode := next;
      assert Joined(list.head, list.nodes, b + 1);
      next := next.flink;
      b := b + 1;
      if next == list.head {
        break;
      }
      if !SameName(up, GroupText(startNode.value), GroupText(next.value)) {
        break;
      }
    }
  }

  // ------------------------------------------------------------- the whole ordering

  lemma SameGroupsSameRanks(up: char -> char, groups: seq<string>, a: Driver, b: Driver)
    requires ProperNames(groups) && SameGroup(up, a, b)
    ensures Rank(up, groups, a) == Rank(up, groups, b)
  {
  }

  /** The tag sort keeps the order of the groups. */
  method ResolveRegrouped(list: List<Driver>, up: char -> char, ghost groups: seq<string>, ghost was: seq<Node>)
    requires list.Valid() && ProperNames(groups) && list.nodes == Regroup(up, groups, was) && Bag(list.nodes) == Bag(was)
    modifies list, list.repr
    ensures list.Valid() && Bag(list.nodes) == Bag(was)
    ensures RankOrdered(up, groups, list.nodes) && RunsTagged(up, list.nodes)
  {
    hide Regroup, Bag, RankOrdered, RunsTagged, SameGroupsAs, ProperNames;
    RegroupSorts(up, groups, was);
    ghost var s := list.nodes;
    ResolveDriverDependencies(list, up);
    RanksStay(up, groups, s, list.nodes);
  }

  /** The final order: a permutation of the drivers, by first listed position of their group
      with unlisted groups last, and by tag within each maximal run of one group. Of a list of more
      than 32768 characters a part counts, or the assertion is tripped. */
  method OrderBootDrivers(list: List<Driver>, up: char -> char, data: string, outside: char,
                          ghost groups: seq<string>)
    returns (r: Outcome, ghost m: nat)
    requires list.Valid()
    requires WellFormed(data, groups) && data != ""
    modifies list, list.repr
    ensures list.Valid()
    ensures Bag(list.nodes) == Bag(old(list.nodes)) && m <= |groups|
    ensures r == Asserts <==> Trips(data, Begin(|data|))
    ensures r == Asserts ==> list.nodes == old(list.nodes)
    ensures r != Asserts ==> r == Sorted && RankOrdered(up, groups[..m], list.nodes) && RunsTagged(up, list.nodes)
    ensures m == Listed(groups, FirstEnd(data, Begin(|data|)) + 1)
    ensures |data| <= 0x8000 ==> r == Sorted && groups[..m] == groups
  {
    hide WellFormed, Regroup, Bag, Listed, Trips, FirstEnd, Begin, RankOrdered, RunsTagged, ProperNames;
    Terminated(groups, data);
    if |data| <= 0x8000 {
      ShortListIsWhole(groups, data);
    }
    m := Listed(groups, FirstEnd(data, Begin(|data|)) + 1);
    r := SortDriverList(list, up, MultiSz(data), outside, groups);
    if r == Asserts {
      return;
    }
    PartIsProper(groups, data, m);
    ResolveRegrouped(list, up, groups[..m], old(list.nodes));
  }

  lemma PartIsProper(groups: seq<string>, data: string, m: nat)
    requires WellFormed(data, groups) && m <= |groups|
    ensures ProperNames(groups[..m])
  {
  }

  lemma RanksStay(up: char -> char, groups: seq<string>, s: seq<Node>, t: seq<Node>)
    requires ProperNames(groups) && RankOrdered(up, groups, s) && SameGroupsAs(up, t, s)
    ensures RankOrdered(up, groups, t)
  {
    forall i | 0 <= i < |s|
      ensures Rank(up, groups, t[i].value) == Rank(up, groups, s[i].value)
    {
      SameGroupsSameRanks(up, groups, t[i].value, s[i].value);
    }
  }

  lemma Terminated(groups: seq<string>, data: string)
    requires WellFormed(data, groups) && data != ""
    ensures data[|data| - 1] == NUL
  {
  }
}
