/** The address interleaver (rloop/utils.py, `_interleave_addrinfos`), which orders the addresses that a client tries to
    connect to as section 4 of RFC 8305 recommends. */
module Interleave {
  import opened Prelude

  datatype Addr = Addr(family: int, endpoint: nat)

  datatype Result = Ok(reordered: seq<Addr>) | IndexError

  /** The families of the first `n` addresses, in the order in which they first appear. */
  function FamiliesOf(addrs: seq<Addr>, n: nat): seq<int>
    requires n <= |addrs|
  {
    if n == 0 then []
    else
      var before := FamiliesOf(addrs, n - 1);
      if addrs[n-1].family in before then before else before + [addrs[n-1].family]
  }

  function Own(a: Addr, f: int): seq<Addr> {
    if a.family == f then [a] else []
  }

  /** Those of the first `n` addresses that are of one family, in order. */
  function GroupOf(addrs: seq<Addr>, n: nat, f: int): seq<Addr>
    requires n <= |addrs|
  {
    if n == 0 then [] else GroupOf(addrs, n - 1, f) + Own(addrs[n-1], f)
  }

  function Families(addrs: seq<Addr>): seq<int> {
    FamiliesOf(addrs, |addrs|)
  }

  function Group(addrs: seq<Addr>, f: int): seq<Addr> {
    GroupOf(addrs, |addrs|, f)
  }

  function Groups(addrs: seq<Addr>): (groups: seq<seq<Addr>>)
    ensures |groups| == |Families(addrs)|
    ensures forall i :: 0 <= i < |groups| ==> groups[i] == Group(addrs, Families(addrs)[i])
  {
    var families := Families(addrs);
    seq(|families|, i requires 0 <= i < |families| => Group(addrs, families[i]))
  }

  // ----- one round after another -----

  function Pick(list: seq<Addr>, r: nat): (one: seq<Addr>)
    ensures |one| == if r < |list| then 1 else 0
  {
    if r < |list| then [list[r]] else []
  }

  /** Round `r` of the first `m` lists: the next address of each list that still has any. */
  function RoundOf(lists: seq<seq<Addr>>, m: nat, r: nat): seq<Addr>
    requires m <= |lists|
  {
    if m == 0 then [] else RoundOf(lists, m - 1, r) + Pick(lists[m-1], r)
  }

  function Rounds(lists: seq<seq<Addr>>, n: nat): seq<Addr> {
    if n == 0 then [] else Rounds(lists, n - 1) + RoundOf(lists, |lists|, n - 1)
  }

  function Longest(lists: seq<seq<Addr>>, m: nat): (n: nat)
    requires m <= |lists|
    ensures forall i :: 0 <= i < m ==> |lists[i]| <= n
  {
    if m == 0 then 0
    else
      var n := Longest(lists, m - 1);
      if |lists[m-1]| > n then |lists[m-1]| else n
  }

  function RoundRobin(lists: seq<seq<Addr>>): seq<Addr> {
    Rounds(lists, Longest(lists, |lists|))
  }

  lemma {:induction false} FirstFamily(addrs: seq<Addr>, n: nat)
    requires 0 < n <= |addrs|
    ensures FamiliesOf(addrs, n) != [] && FamiliesOf(addrs, n)[0] == addrs[0].family
  {
    if n > 1 {
      FirstFamily(addrs, n - 1);
    }
  }

  /** How many addresses of the first family are taken out before the rounds. */
  function HeadStart(addrs: seq<Addr>, count: int): nat
    requires addrs != []
  {
    FirstFamily(addrs, |addrs|);
    if count > 1 then Min(count - 1, |Groups(addrs)[0]|) else 0
  }

  /** The lists that the rounds go through. */
  function Remaining(addrs: seq<Addr>, count: int): (rest: seq<seq<Addr>>)
    requires addrs != []
    ensures |rest| == |Families(addrs)| > 0
  {
    FirstFamily(addrs, |addrs|);
    Groups(addrs)[0 := Groups(addrs)[0][HeadStart(addrs, count)..]]
  }

  /** What the call returns on a non-empty list: the head start of the first family, then round robin. */
  function Reordered(addrs: seq<Addr>, count: int): seq<Addr>
    requires addrs != []
  {
    FirstFamily(addrs, |addrs|);
    Groups(addrs)[0][..HeadStart(addrs, count)] + RoundRobin(Remaining(addrs, count))
  }

  // ----- the program -----

  /** `zip_longest` and the filter of its `None`s. */
  method Zip(lists: seq<seq<Addr>>) returns (zipped: seq<Addr>)
    ensures zipped == RoundRobin(lists)
  {
    zipped := [];
    for r := 0 to Longest(lists, |lists|)
      invariant zipped == Rounds(lists, r)
    {
      var round: seq<Addr> := [];
      for i := 0 to |lists|
        invariant round == RoundOf(lists, i, r)
      {
        if r < |lists[i]| {
          round := round + [lists[i][r]];
        }
      }
      zipped := zipped + round;
    }
  }

  /** The addresses by family: an ordered dictionary of lists. */
  method ByFamily(addrs: seq<Addr>) returns (lists: seq<seq<Addr>>)
    ensures lists == Groups(addrs)
  {
    var order: seq<int>, byFamily: map<int, seq<Addr>> := [], map[];
    for k := 0 to |addrs|
      invariant order == FamiliesOf(addrs, k) && Filed(byFamily, addrs, k)
    {
      var family := addrs[k].family;
      FiledNext(byFamily, addrs, k);
      if family !in byFamily {
        byFamily := byFamily[family := []];
        order := order + [family];
      }
      byFamily := byFamily[family := byFamily[family] + [addrs[k]]];
    }
    lists := seq(|order|, i requires 0 <= i < |order| => if order[i] in byFamily then byFamily[order[i]] else []);
  }

  /** The dictionary holds the first `k` addresses. */
  ghost predicate Filed(byFamily: map<int, seq<Addr>>, addrs: seq<Addr>, k: nat)
    requires k <= |addrs|
  {
    && (forall f :: f in byFamily <==> f in FamiliesOf(addrs, k))
    && (forall f :: f in byFamily ==> byFamily[f] == GroupOf(addrs, k, f))
  }

  lemma {:induction false} FiledNext(byFamily: map<int, seq<Addr>>, addrs: seq<Addr>, k: nat)
    requires k < |addrs| && Filed(byFamily, addrs, k)
    ensures var family := addrs[k].family;
            var list := if family in byFamily then byFamily[family] else [];
            Filed(byFamily[family := list + [addrs[k]]], addrs, k + 1)
  {
    var family := addrs[k].family;
    var next := byFamily[family := (if family in byFamily then byFamily[family] else []) + [addrs[k]]];
    if family !in byFamily {
      MissingFamily(addrs, k, family);
    }
    forall f | f in next
      ensures next[f] == GroupOf(addrs, k + 1, f)
    {
      assert GroupOf(addrs, k + 1, f) == GroupOf(addrs, k, f) + Own(addrs[k], f);
    }
  }

  /** An empty list gives an empty one, unless a head start is asked for: its first family is missing. */
  method InterleaveAddrinfos(addrs: seq<Addr>, firstFamilyCount: int) returns (r: Result)
    ensures addrs == [] ==> r == if firstFamilyCount > 1 then IndexError else Ok([])
    ensures addrs != [] ==> r == Ok(Reordered(addrs, firstFamilyCount))
  {
    var lists := ByFamily(addrs);
    if addrs != [] {
      FirstFamily(addrs, |addrs|);
    }
    var reordered: seq<Addr> := [];
    if firstFamilyCount > 1 {
      if lists == [] {
        return IndexError;
      }
      var k := Min(firstFamilyCount - 1, |lists[0]|);
      reordered := lists[0][..k];
      lists := lists[0 := lists[0][k..]];
    }
    assert addrs != [] ==> lists == Remaining(addrs, firstFamilyCount);
    var zipped := Zip(lists);
    return Ok(reordered + zipped);
  }

  // ----- where the rounds put an address -----

  /** How many of the first `m` lists reach round `r`. */
  function Reaching(lists: seq<seq<Addr>>, m: nat, r: nat): nat
    requires m <= |lists|
  {
    if m == 0 then 0 else Reaching(lists, m - 1, r) + (if |lists[m-1]| > r then 1 else 0)
  }

  /** How many addresses the rounds before `r` take. */
  function TakenBefore(lists: seq<seq<Addr>>, r: nat): nat {
    if r == 0 then 0 else TakenBefore(lists, r - 1) + Reaching(lists, |lists|, r - 1)
  }

  predicate Stands(s: seq<Addr>, at: nat, a: Addr) {
    at < |s| && s[at] == a
  }

  lemma StandsBefore(s: seq<Addr>, t: seq<Addr>, at: nat, a: Addr)
    requires Stands(s, at, a)
    ensures Stands(s + t, at, a)
  {
  }

  lemma StandsBehind(s: seq<Addr>, t: seq<Addr>, at: nat, a: Addr)
    requires Stands(t, at, a)
    ensures Stands(s + t, |s| + at, a)
  {
  }

  lemma {:induction false} RoundLength(lists: seq<seq<Addr>>, m: nat, r: nat)
    requires m <= |lists|
    ensures |RoundOf(lists, m, r)| == Reaching(lists, m, r)
  {
    if m > 0 {
      RoundLength(lists, m - 1, r);
    }
  }

  lemma {:induction false} RoundAt(lists: seq<seq<Addr>>, m: nat, i: nat, r: nat)
    requires i < m <= |lists| && r < |lists[i]|
    ensures Stands(RoundOf(lists, m, r), Reaching(lists, i, r), lists[i][r])
  {
    var before, one := RoundOf(lists, m - 1, r), Pick(lists[m-1], r);
    if i < m - 1 {
      RoundAt(lists, m - 1, i, r);
      StandsBefore(before, one, Reaching(lists, i, r), lists[i][r]);
    } else {
      RoundLength(lists, i, r);
      StandsBehind(before, one, 0, lists[i][r]);
    }
  }

  lemma {:induction false} RoundsLength(lists: seq<seq<Addr>>, n: nat)
    ensures |Rounds(lists, n)| == TakenBefore(lists, n)
  {
    if n > 0 {
      var before, round := Rounds(lists, n - 1), RoundOf(lists, |lists|, n - 1);
      RoundsLength(lists, n - 1);
      RoundLength(lists, |lists|, n - 1);
      assert |before + round| == |before| + |round|;
    }
  }

  lemma {:induction false} RoundsAt(lists: seq<seq<Addr>>, n: nat, i: nat, r: nat)
    requires i < |lists| && r < |lists[i]| && r < n
    ensures Stands(Rounds(lists, n), TakenBefore(lists, r) + Reaching(lists, i, r), lists[i][r])
  {
    var before, round := Rounds(lists, n - 1), RoundOf(lists, |lists|, n - 1);
    if r == n - 1 {
      RoundsLength(lists, r);
      RoundAt(lists, |lists|, i, r);
      StandsBehind(before, round, Reaching(lists, i, r), lists[i][r]);
    } else {
      RoundsAt(lists, n - 1, i, r);
      StandsBefore(before, round, TakenBefore(lists, r) + Reaching(lists, i, r), lists[i][r]);
    }
  }

  /** One address per round from each list that still has any, the lists in order: address `r` of list `i` comes after
      the earlier rounds and after the lists ahead of it that reach round `r`. */
  lemma {:induction false} RoundRobinAt(lists: seq<seq<Addr>>, i: nat, r: nat)
    requires i < |lists| && r < |lists[i]|
    ensures Stands(RoundRobin(lists), TakenBefore(lists, r) + Reaching(lists, i, r), lists[i][r])
  {
    RoundsAt(lists, Longest(lists, |lists|), i, r);
  }

  // ----- families -----

  lemma {:induction false} GroupPrefix(a: seq<Addr>, b: seq<Addr>, n: nat, f: int)
    requires n <= |a|
    ensures GroupOf(a + b, n, f) == GroupOf(a, n, f)
  {
    if n > 0 {
      GroupPrefix(a, b, n - 1, f);
    }
  }

  lemma {:induction false} GroupOfConcat(a: seq<Addr>, b: seq<Addr>, n: nat, f: int)
    requires n <= |b|
    ensures GroupOf(a + b, |a| + n, f) == Group(a, f) + GroupOf(b, n, f)
  {
    if n == 0 {
      GroupPrefix(a, b, |a|, f);
    } else {
      GroupOfConcat(a, b, n - 1, f);
      assert (a + b)[|a| + n - 1] == b[n - 1];
    }
  }

  lemma {:induction false} GroupConcat(a: seq<Addr>, b: seq<Addr>, f: int)
    ensures Group(a + b, f) == Group(a, f) + Group(b, f)
  {
    GroupOfConcat(a, b, |b|, f);
  }

  predicate AllOf(addrs: seq<Addr>, f: int) {
    forall i :: 0 <= i < |addrs| ==> addrs[i].family == f
  }

  lemma {:induction false} GroupOfOwn(addrs: seq<Addr>, n: nat, f: int, g: int)
    requires AllOf(addrs, f) && n <= |addrs|
    ensures GroupOf(addrs, n, g) == if f == g then addrs[..n] else []
  {
    if n > 0 {
      GroupOfOwn(addrs, n - 1, f, g);
    }
  }

  lemma {:induction false} GroupIsOwn(addrs: seq<Addr>, n: nat, f: int)
    requires n <= |addrs|
    ensures AllOf(GroupOf(addrs, n, f), f)
  {
    if n > 0 {
      GroupIsOwn(addrs, n - 1, f);
    }
  }

  lemma {:induction false} PickOfFamily(list: seq<Addr>, r: nat, f: int, g: int)
    requires AllOf(list, f)
    ensures Group(Pick(list, r), g) == if f == g then Pick(list, r) else []
  {
    var one := Pick(list, r);
    GroupOfOwn(one, |one|, f, g);
  }

  /** No family twice, and no address without its family. */
  predicate Distinct(families: seq<int>) {
    forall i, j :: 0 <= i < j < |families| ==> families[i] != families[j]
  }

  lemma {:induction false} FamiliesDistinct(addrs: seq<Addr>, n: nat)
    requires n <= |addrs|
    ensures Distinct(FamiliesOf(addrs, n))
  {
    if n > 0 {
      FamiliesDistinct(addrs, n - 1);
    }
  }

  lemma {:induction false} MissingFamily(addrs: seq<Addr>, n: nat, f: int)
    requires n <= |addrs| && f !in FamiliesOf(addrs, n)
    ensures GroupOf(addrs, n, f) == []
  {
    if n > 0 {
      MissingFamily(addrs, n - 1, f);
    }
  }

  /** The one list among the first `m` that holds family `f`, if any. */
  function ListOf(lists: seq<seq<Addr>>, families: seq<int>, m: nat, f: int): seq<Addr>
    requires m <= |lists| == |families|
  {
    if m == 0 then [] else if families[m-1] == f then lists[m-1] else ListOf(lists, families, m - 1, f)
  }

  lemma {:induction false} ListOfIndex(lists: seq<seq<Addr>>, families: seq<int>, m: nat, i: nat)
    requires i < m <= |lists| == |families| && Distinct(families)
    ensures ListOf(lists, families, m, families[i]) == lists[i]
  {
    if i < m - 1 {
      ListOfIndex(lists, families, m - 1, i);
    }
  }

  lemma {:induction false} ListOfMissing(lists: seq<seq<Addr>>, families: seq<int>, m: nat, f: int)
    requires m <= |lists| == |families| && forall i :: 0 <= i < m ==> families[i] != f
    ensures ListOf(lists, families, m, f) == []
  {
    if m > 0 {
      ListOfMissing(lists, families, m - 1, f);
    }
  }

  predicate ByFamilies(lists: seq<seq<Addr>>, families: seq<int>) {
    |lists| == |families| && Distinct(families) && forall i :: 0 <= i < |lists| ==> AllOf(lists[i], families[i])
  }

  lemma {:induction false} RoundOfFamily(lists: seq<seq<Addr>>, families: seq<int>, m: nat, r: nat, f: int)
    requires ByFamilies(lists, families) && m <= |lists|
    ensures Group(RoundOf(lists, m, r), f) == Pick(ListOf(lists, families, m, f), r)
  {
    if m > 0 {
      RoundOfFamily(lists, families, m - 1, r, f);
      assert AllOf(lists[m-1], families[m-1]);
      OneListAt(lists, families, m, f);
      GroupAfterPick(RoundOf(lists, m - 1, r), lists[m-1], r, families[m-1], f, ListOf(lists, families, m - 1, f));
    }
  }

  lemma {:induction false} OneListAt(lists: seq<seq<Addr>>, families: seq<int>, m: nat, f: int)
    requires 0 < m <= |lists| == |families| && Distinct(families)
    ensures families[m-1] == f ==> ListOf(lists, families, m - 1, f) == []
    ensures ListOf(lists, families, m, f) == if families[m-1] == f then lists[m-1] else ListOf(lists, families, m - 1, f)
  {
    if families[m-1] == f {
      ListOfMissing(lists, families, m - 1, f);
    }
  }

  lemma {:induction false} GroupAfterPick(before: seq<Addr>, list: seq<Addr>, r: nat, f: int, g: int, earlier: seq<Addr>)
    requires AllOf(list, f) && Group(before, g) == Pick(earlier, r) && (f == g ==> earlier == [])
    ensures Group(before + Pick(list, r), g) == Pick(if f == g then list else earlier, r)
  {
    GroupConcat(before, Pick(list, r), g);
    PickOfFamily(list, r, f, g);
    assert Group(before, g) + [] == Group(before, g) && [] + Pick(list, r) == Pick(list, r);
  }

  lemma TakeOneMore(s: seq<Addr>, r: nat)
    ensures s[..Min(r, |s|)] + Pick(s, r) == s[..Min(r + 1, |s|)]
  {
  }

  /** The rounds give back each list in order. */
  lemma {:induction false} RoundsOfFamily(lists: seq<seq<Addr>>, families: seq<int>, n: nat, f: int)
    requires ByFamilies(lists, families)
    ensures var list := ListOf(lists, families, |lists|, f); Group(Rounds(lists, n), f) == list[..Min(n, |list|)]
  {
    if n > 0 {
      RoundsOfFamily(lists, families, n - 1, f);
      RoundOfFamily(lists, families, |lists|, n - 1, f);
      GroupConcat(Rounds(lists, n - 1), RoundOf(lists, |lists|, n - 1), f);
      TakeOneMore(ListOf(lists, families, |lists|, f), n - 1);
    }
  }

  lemma {:induction false} ListOfBounded(lists: seq<seq<Addr>>, families: seq<int>, m: nat, f: int)
    requires m <= |lists| == |families|
    ensures |ListOf(lists, families, m, f)| <= Longest(lists, m)
  {
    if m > 0 {
      ListOfBounded(lists, families, m - 1, f);
    }
  }

  lemma {:induction false} RoundRobinOfFamily(lists: seq<seq<Addr>>, families: seq<int>, f: int)
    requires ByFamilies(lists, families)
    ensures Group(RoundRobin(lists), f) == ListOf(lists, families, |lists|, f)
  {
    RoundsOfFamily(lists, families, Longest(lists, |lists|), f);
    ListOfBounded(lists, families, |lists|, f);
  }

  lemma {:induction false} RemainingByFamilies(addrs: seq<Addr>, count: int)
    requires addrs != []
    ensures ByFamilies(Groups(addrs), Families(addrs)) && ByFamilies(Remaining(addrs, count), Families(addrs))
  {
    FamiliesDistinct(addrs, |addrs|);
    forall i | 0 <= i < |Groups(addrs)|
      ensures AllOf(Groups(addrs)[i], Families(addrs)[i])
    {
      GroupIsOwn(addrs, |addrs|, Families(addrs)[i]);
    }
    var rest, k := Remaining(addrs, count), HeadStart(addrs, count);
    forall i | 0 <= i < |rest|
      ensures AllOf(rest[i], Families(addrs)[i])
    {
      assert i == 0 ==> rest[0] == Groups(addrs)[0][k..];
      assert i > 0 ==> rest[i] == Groups(addrs)[i];
    }
  }

  // ----- the promises -----

  lemma SplitAt(s: seq<Addr>, k: nat)
    requires k <= |s|
    ensures s[..k] + s[k..] == s
  {
  }

  /** What is left of each family after the head start. */
  lemma {:induction false} RemainingOfFamily(addrs: seq<Addr>, count: int, f: int)
    requires addrs != []
    ensures var rest := ListOf(Remaining(addrs, count), Families(addrs), |Families(addrs)|, f);
            rest == if f == addrs[0].family then Group(addrs, f)[Min(HeadStart(addrs, count), |Group(addrs, f)|)..] else Group(addrs, f)
  {
    var families, rest := Families(addrs), Remaining(addrs, count);
    FirstFamily(addrs, |addrs|);
    FamiliesDistinct(addrs, |addrs|);
    if f in families {
      var i :| 0 <= i < |families| && families[i] == f;
      ListOfIndex(rest, families, |families|, i);
    } else {
      MissingFamily(addrs, |addrs|, f);
      ListOfMissing(rest, families, |families|, f);
    }
  }

  /** Every family comes out whole and in its own order. */
  lemma {:induction false} FamilyOrderIsKept(addrs: seq<Addr>, count: int, f: int)
    requires addrs != []
    ensures Group(Reordered(addrs, count), f) == Group(addrs, f)
  {
    FirstFamily(addrs, |addrs|);
    var head, rest := Groups(addrs)[0][..HeadStart(addrs, count)], Remaining(addrs, count);
    GroupConcat(head, RoundRobin(rest), f);
    HeadOfFamily(addrs, count, f);
    RestOfFamily(addrs, count, f);
    SplitAt(Groups(addrs)[0], HeadStart(addrs, count));
  }

  lemma {:induction false} HeadOfFamily(addrs: seq<Addr>, count: int, f: int)
    requires addrs != []
    ensures |Groups(addrs)| > 0 && HeadStart(addrs, count) <= |Groups(addrs)[0]|
    ensures var head := Groups(addrs)[0][..HeadStart(addrs, count)];
            Group(head, f) == if f == addrs[0].family then head else []
  {
    FirstFamily(addrs, |addrs|);
    var head := Groups(addrs)[0][..HeadStart(addrs, count)];
    GroupIsOwn(addrs, |addrs|, addrs[0].family);
    GroupOfOwn(head, |head|, addrs[0].family, f);
  }

  lemma {:induction false} RestOfFamily(addrs: seq<Addr>, count: int, f: int)
    requires addrs != []
    ensures Group(RoundRobin(Remaining(addrs, count)), f)
         == if f == addrs[0].family then Group(addrs, f)[Min(HeadStart(addrs, count), |Group(addrs, f)|)..] else Group(addrs, f)
  {
    RemainingByFamilies(addrs, count);
    RoundRobinOfFamily(Remaining(addrs, count), Families(addrs), f);
    RemainingOfFamily(addrs, count, f);
  }

  lemma CountsAdd(s: seq<Addr>, t: seq<Addr>, a: Addr)
    ensures multiset(s + t)[a] == multiset(s)[a] + multiset(t)[a]
  {
  }

  lemma {:induction false} GroupCounts(addrs: seq<Addr>, a: Addr)
    ensures multiset(addrs)[a] == multiset(Group(addrs, a.family))[a]
  {
    if addrs != [] {
      var init, last := addrs[..|addrs|-1], addrs[|addrs|-1];
      GroupCounts(init, a);
      GroupAppend(init, last, a.family);
      CountsAdd(init, [last], a);
      CountsAdd(Group(init, a.family), Own(last, a.family), a);
      assert addrs == init + [last];
    }
  }

  lemma {:induction false} GroupAppend(init: seq<Addr>, last: Addr, f: int)
    ensures Group(init + [last], f) == Group(init, f) + Own(last, f)
  {
    GroupPrefix(init, [last], |init|, f);
  }

  /** The output is a permutation of the input. */
  lemma {:induction false} InterleavingPermutes(addrs: seq<Addr>, count: int)
    requires addrs != []
    ensures multiset(Reordered(addrs, count)) == multiset(addrs)
  {
    var out := Reordered(addrs, count);
    forall a: Addr
      ensures multiset(out)[a] == multiset(addrs)[a]
    {
      GroupCounts(addrs, a);
      GroupCounts(out, a);
      FamilyOrderIsKept(addrs, count, a.family);
    }
  }

  lemma JoinsOn(first: seq<Addr>, k: nat, rest: seq<Addr>)
    requires k <= |first| && (k < |first| ==> Stands(rest, 0, first[k]))
    ensures first[..Min(k + 1, |first|)] <= first[..k] + rest
  {
  }

  /** It starts with as many addresses of the first family as were asked for, at least one, or with all of them. */
  lemma {:induction false} StartsWithFirstFamily(addrs: seq<Addr>, count: int)
    requires addrs != []
    ensures var first := Group(addrs, addrs[0].family);
            first[..Min(if count < 1 then 1 else count, |first|)] <= Reordered(addrs, count)
  {
    FirstFamily(addrs, |addrs|);
    var first, k, rest := Groups(addrs)[0], HeadStart(addrs, count), Remaining(addrs, count);
    assert first == Group(addrs, addrs[0].family);
    if k < |first| {
      RoundRobinAt(rest, 0, 0);
    }
    JoinsOn(first, k, RoundRobin(rest));
  }

  /** After the head start the families take turns: address `r` of what is left of family `i` stands where the rounds say. */
  lemma {:induction false} FamiliesTakeTurns(addrs: seq<Addr>, count: int, i: nat, r: nat)
    requires addrs != [] && i < |Families(addrs)| && r < |Remaining(addrs, count)[i]|
    ensures var rest := Remaining(addrs, count);
            Stands(Reordered(addrs, count), HeadStart(addrs, count) + (TakenBefore(rest, r) + Reaching(rest, i, r)), rest[i][r])
  {
    FirstFamily(addrs, |addrs|);
    var rest := Remaining(addrs, count);
    RoundRobinAt(rest, i, r);
    StandsBehind(Groups(addrs)[0][..HeadStart(addrs, count)], RoundRobin(rest), TakenBefore(rest, r) + Reaching(rest, i, r), rest[i][r]);
  }

  lemma {:induction false} PresentFamily(addrs: seq<Addr>, n: nat, f: int)
    requires n <= |addrs| && f in FamiliesOf(addrs, n)
    ensures GroupOf(addrs, n, f) != []
  {
    if addrs[n-1].family != f {
      PresentFamily(addrs, n - 1, f);
    }
  }

  /** The second family has its first turn right after the head start: behind as many addresses of the first family as
      were asked for, at least one, or behind all of them. */
  lemma {:induction false} SecondFamilyComesNext(addrs: seq<Addr>, count: int)
    requires addrs != [] && |Families(addrs)| > 1
    ensures var first, second := Group(addrs, addrs[0].family), Group(addrs, Families(addrs)[1]);
            && second != []
            && Stands(Reordered(addrs, count), Min(if count < 1 then 1 else count, |first|), second[0])
  {
    FirstFamily(addrs, |addrs|);
    var rest := Remaining(addrs, count);
    PresentFamily(addrs, |addrs|, addrs[0].family);
    PresentFamily(addrs, |addrs|, Families(addrs)[1]);
    assert rest[1] == Groups(addrs)[1];
    assert |rest[0]| == |Groups(addrs)[0]| - HeadStart(addrs, count);
    FamiliesTakeTurns(addrs, count, 1, 0);
    assert Reaching(rest, 1, 0) == if |rest[0]| > 0 then 1 else 0;
  }
}
