/** What the boot driver ordering computes, on the plain sequence of list nodes:
    regrouping by the service group order list, and the tag sort's move. */
module DriverOrderSpec {
  import opened Collections
  import opened IntrusiveList

  type ULong = n: nat | n < 0x1_0000_0000

  /** `Group.Buffer == NULL` is NoGroup. */
  datatype Group = NoGroup | Named(name: string)

  datatype Driver = Driver(group: Group, tag: ULong)

  type Node = Entry<Driver>

  const NUL: char := '\0'

  /** `RtlEqualUnicodeString(.., TRUE)` for an upcase table `up`. */
  function Fold(up: char -> char, s: string): (r: string) {
    seq(|s|, i requires 0 <= i < |s| => up(s[i]))
  }

  predicate SameName(up: char -> char, a: string, b: string) {
    Fold(up, a) == Fold(up, b)
  }

  /** The group string that CmpResolveDriverDependencies compares: a missing group has length 0. */
  function GroupText(d: Driver): (s: string) {
    match d.group
    case NoGroup => ""
    case Named(s) => s
  }

  predicate SameGroup(up: char -> char, a: Driver, b: Driver) {
    SameName(up, GroupText(a), GroupText(b))
  }

  predicate Matches(up: char -> char, name: string, d: Driver) {
    d.group.Named? && SameName(up, name, d.group.name)
  }

  ghost function Bag(s: seq<Node>): (m: multiset<Node>) {
    multiset(s)
  }

  // ---------------------------------------------------------------- regrouping

  /** The nodes of `s` that match `name` (or, with `want` false, that do not), in order. */
  ghost function Selected(up: char -> char, name: string, want: bool, s: seq<Node>): (r: seq<Node>)
  {
    if s == [] then []
    else
      var n := |s| - 1;
      var rest := Selected(up, name, want, s[..n]);
      if Matches(up, name, s[n].value) == want then rest + [s[n]] else rest
  }

  /** Every selected node was in the list and matches as asked. */
  lemma {:induction false} SelectedAll(up: char -> char, name: string, want: bool, s: seq<Node>)
    ensures forall x :: x in Selected(up, name, want, s) ==> x in s && Matches(up, name, x.value) == want
  {
    if s == [] {
    } else {
      SelectedAll(up, name, want, s[..|s| - 1]);
    }
  }

  /** One sweep of the list for one group: its drivers go to the front, each in turn. */
  ghost function Sweep(up: char -> char, name: string, s: seq<Node>): (r: seq<Node>) {
    Reversed(Selected(up, name, true, s)) + Selected(up, name, false, s)
  }

  /** The sweeps for the groups of the order list, last group first. */
  ghost function Regroup(up: char -> char, groups: seq<string>, s: seq<Node>): (r: seq<Node>) {
    if groups == [] then s else Sweep(up, groups[0], Regroup(up, groups[1..], s))
  }

  /** First position of the driver's group in the order list; unlisted groups come last. */
  ghost function Rank(up: char -> char, groups: seq<string>, d: Driver): (r: nat)
    ensures r <= |groups|
  {
    if groups == [] || Matches(up, groups[0], d) then 0 else 1 + Rank(up, groups[1..], d)
  }

  lemma {:induction false} RankIsFirstMatch(up: char -> char, groups: seq<string>, d: Driver)
    ensures var r := Rank(up, groups, d);
            && (r < |groups| ==> Matches(up, groups[r], d))
            && (forall i :: 0 <= i < r ==> !Matches(up, groups[i], d))
  {
    if groups == [] || Matches(up, groups[0], d) {
    } else {
      RankIsFirstMatch(up, groups[1..], d);
      forall i | 0 < i < Rank(up, groups, d)
        ensures !Matches(up, groups[i], d)
      {
        assert groups[i] == groups[1..][i - 1];
      }
    }
  }

  ghost predicate RankOrdered(up: char -> char, groups: seq<string>, s: seq<Node>) {
    forall i, j :: 0 <= i < j < |s| ==> Rank(up, groups, s[i].value) <= Rank(up, groups, s[j].value)
  }

  /** The drivers whose group the order list does not name, in list order. */
  ghost function Unlisted(up: char -> char, groups: seq<string>, s: seq<Node>): (r: seq<Node>) {
    if s == [] then []
    else
      var n := |s| - 1;
      Unlisted(up, groups, s[..n])
      + (if Rank(up, groups, s[n].value) == |groups| then [s[n]] else [])
  }

  lemma {:induction false} SelectedSplits(up: char -> char, name: string, s: seq<Node>)
    ensures multiset(Selected(up, name, true, s)) + multiset(Selected(up, name, false, s)) == multiset(s)
  {
    if s == [] {
    } else {
      var n := |s| - 1;
      assert s == s[..n] + [s[n]];
      SelectedSplits(up, name, s[..n]);
    }
  }

  lemma AppendKeepsOrder(up: char -> char, groups: seq<string>, s: seq<Node>, x: Node)
    requires RankOrdered(up, groups, s)
    requires forall y :: y in s ==> Rank(up, groups, y.value) <= Rank(up, groups, x.value)
    ensures RankOrdered(up, groups, s + [x])
  {
  }

  /** Selecting keeps the order of whatever it keeps. */
  lemma {:induction false} SelectedKeepsOrder(up: char -> char, name: string, groups: seq<string>, s: seq<Node>)
    requires RankOrdered(up, groups, s)
    ensures RankOrdered(up, groups, Selected(up, name, false, s))
  {
    if s == [] {
    } else {
      var n := |s| - 1;
      SelectedKeepsOrder(up, name, groups, s[..n]);
      SelectedAll(up, name, false, s[..n]);
      AppendKeepsOrder(up, groups, Selected(up, name, false, s[..n]), s[n]);
    }
  }

  lemma {:induction false} UnlistedConcat(up: char -> char, groups: seq<string>, a: seq<Node>, b: seq<Node>)
    ensures Unlisted(up, groups, a + b) == Unlisted(up, groups, a) + Unlisted(up, groups, b)
  {
    if b == [] {
      assert a + b == a;
    } else {
      var n := |b| - 1;
      assert (a + b)[..|a + b| - 1] == a + b[..n];
      UnlistedConcat(up, groups, a, b[..n]);
    }
  }

  lemma {:induction false} NoneUnlisted(up: char -> char, groups: seq<string>, s: seq<Node>)
    requires forall x :: x in s ==> Rank(up, groups, x.value) < |groups|
    ensures Unlisted(up, groups, s) == []
  {
    if s == [] {
    } else {
      var n := |s| - 1;
      forall x | x in s[..n]
        ensures x in s
      {
      }
      NoneUnlisted(up, groups, s[..n]);
    }
  }

  lemma {:induction false} SelectedUnlisted(up: char -> char, groups: seq<string>, s: seq<Node>)
    requires groups != []
    ensures Unlisted(up, groups, Selected(up, groups[0], false, s)) == Unlisted(up, groups, s)
  {
    if s == [] {
    } else {
      var n := |s| - 1;
      var rest := Selected(up, groups[0], false, s[..n]);
      SelectedUnlisted(up, groups, s[..n]);
      if Matches(up, groups[0], s[n].value) {
      } else {
        assert (rest + [s[n]])[..|rest|] == rest;
      }
    }
  }

  lemma FrontIsFirst(up: char -> char, groups: seq<string>, r: seq<Node>)
    requires groups != []
    ensures var yes := Selected(up, groups[0], true, r);
            && Bag(Reversed(yes)) == Bag(yes)
            && forall x :: x in Reversed(yes) ==> Rank(up, groups, x.value) == 0
  {
    hide Selected;
    var yes := Selected(up, groups[0], true, r);
    ReversedBag(yes);
    SelectedAll(up, groups[0], true, r);
    forall x | x in Reversed(yes)
      ensures Rank(up, groups, x.value) == 0
    {
      assert x in multiset(Reversed(yes));
    }
  }

  /** One sweep on top of a list regrouped for the later groups. */
  lemma SweepSorts(up: char -> char, groups: seq<string>, r: seq<Node>)
    requires groups != [] && RankOrdered(up, groups[1..], r)
    ensures Bag(Sweep(up, groups[0], r)) == Bag(r)
    ensures RankOrdered(up, groups, Sweep(up, groups[0], r))
  {
    SelectedSplits(up, groups[0], r);
    SelectedKeepsOrder(up, groups[0], groups[1..], r);
    SelectedAll(up, groups[0], false, r);
    FrontIsFirst(up, groups, r);
  }

  lemma SweepKeepsUnlisted(up: char -> char, groups: seq<string>, r: seq<Node>)
    requires groups != []
    ensures Unlisted(up, groups, Sweep(up, groups[0], r)) == Unlisted(up, groups, r)
  {
    var front := Reversed(Selected(up, groups[0], true, r));
    var back := Selected(up, groups[0], false, r);
    FrontIsFirst(up, groups, r);
    NoneUnlisted(up, groups, front);
    UnlistedConcat(up, groups, front, back);
    SelectedUnlisted(up, groups, r);
  }

  /** Regrouping is a permutation, orders the drivers by the first listed position of their
      group, and keeps the drivers of unlisted groups in their original relative order. */
  lemma {:induction false} RegroupSorts(up: char -> char, groups: seq<string>, s: seq<Node>)
    ensures Bag(Regroup(up, groups, s)) == Bag(s)
    ensures RankOrdered(up, groups, Regroup(up, groups, s))
    ensures Unlisted(up, groups, Regroup(up, groups, s)) == Unlisted(up, groups, s)
  {
    if groups == [] {
    } else {
      var r := Regroup(up, groups[1..], s);
      RegroupSorts(up, groups[1..], s);
      SweepSorts(up, groups, r);
      SweepKeepsUnlisted(up, groups, r);
      UnlistedByTail(up, groups, r);
      UnlistedByTail(up, groups, s);
    }
  }

  /** Dropping the first listed group from view: its drivers are the difference. */
  lemma {:induction false} UnlistedByTail(up: char -> char, groups: seq<string>, s: seq<Node>)
    requires groups != []
    ensures Unlisted(up, groups, s) == Selected(up, groups[0], false, Unlisted(up, groups[1..], s))
  {
    if s == [] {
    } else {
      var n := |s| - 1;
      UnlistedByTail(up, groups, s[..n]);
      var rest := Unlisted(up, groups[1..], s[..n]);
      assert rest + [] == rest && (rest + [s[n]])[..|rest|] == rest;
    }
  }
}
