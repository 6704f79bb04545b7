// std::set<std::pair<Timestamp, Timer*>> as a strictly sorted sequence.
module OrderedEntries {
  datatype Entry = Entry(when: int, addr: nat)

  predicate Less(a: Entry, b: Entry) {
    a.when < b.when || (a.when == b.when && a.addr < b.addr)
  }

  predicate Sorted(s: seq<Entry>) {
    forall i, j :: 0 <= i < j < |s| ==> Less(s[i], s[j])
  }

  lemma SortedTail(s: seq<Entry>)
    requires Sorted(s) && s != []
    ensures Sorted(s[1..])
    ensures forall x :: x in s[1..] ==> Less(s[0], x)
    ensures forall x :: x in s <==> x == s[0] || x in s[1..]
  {
    assert forall i :: 1 <= i < |s| ==> s[i] == s[1..][i - 1];
    assert s == [s[0]] + s[1..];
  }

  lemma ConsSorted(x: Entry, s: seq<Entry>)
    requires Sorted(s) && forall y :: y in s ==> Less(x, y)
    ensures Sorted([x] + s)
  {
    assert forall i :: 1 <= i < |[x] + s| ==> ([x] + s)[i] == s[i - 1] && s[i - 1] in s;
  }

  // std::set::lower_bound: the position of the first element not below e.
  function LowerBound(s: seq<Entry>, e: Entry): (k: nat)
    requires Sorted(s)
    ensures k <= |s|
    ensures forall i :: 0 <= i < k ==> Less(s[i], e)
    ensures forall i :: k <= i < |s| ==> !Less(s[i], e)
  {
    if s == [] then 0
    else if !Less(s[0], e) then
      assert forall i :: 0 < i < |s| ==> Less(s[0], s[i]);
      0
    else
      SortedTail(s);
      assert forall i :: 1 <= i < |s| ==> s[i] == s[1..][i - 1];
      LowerBound(s[1..], e) + 1
  }

  // std::set::insert of an absent element.
  function Insert(s: seq<Entry>, e: Entry): (r: seq<Entry>)
    requires Sorted(s) && e !in s
    ensures Sorted(r) && |r| == |s| + 1
    ensures forall x :: x in r <==> x == e || x in s
    ensures r[0] == if s == [] || Less(e, s[0]) then e else s[0]
  {
    if s == [] then [e]
    else if Less(e, s[0]) then
      SortedTail(s);
      ConsSorted(e, s);
      [e] + s
    else
      SortedTail(s);
      var t := Insert(s[1..], e);
      ConsSorted(s[0], t);
      [s[0]] + t
  }

  // std::set::erase of a present element.
  function Erase(s: seq<Entry>, e: Entry): (r: seq<Entry>)
    requires Sorted(s) && e in s
    ensures Sorted(r) && |r| == |s| - 1
    ensures forall x :: x in r <==> x != e && x in s
    ensures r != [] ==> !Less(r[0], s[0])
  {
    SortedTail(s);
    if s[0] == e then
      assert forall x :: x in s[1..] ==> x != e;
      s[1..]
    else
      var t := Erase(s[1..], e);
      ConsSorted(s[0], t);
      [s[0]] + t
  }

  lemma SplitSorted(s: seq<Entry>, k: nat)
    requires Sorted(s) && k <= |s|
    ensures Sorted(s[..k]) && Sorted(s[k..])
    ensures forall x :: x in s <==> x in s[..k] || x in s[k..]
    ensures forall x, y :: x in s[..k] && y in s[k..] ==> Less(x, y)
  {
    assert s == s[..k] + s[k..];
    assert forall i :: k <= i < |s| ==> s[i] == s[k..][i - k];
  }
}
