/** Merging of knowledge edges, first inside each builder and then over the whole index. */
module EdgeMerge {

  type Id = nat
  type Ref = nat

  datatype EdgeValue = EdgeValue(id: Id, payload: string, evidence: seq<Ref>)

  // ------------------------------------------------------- distinct, in order

  /** Adds the items of s that are not there yet, in order. */
  function AddAll<T(==)>(d: seq<T>, s: seq<T>): seq<T> {
    if s == [] then d
    else
      var before := AddAll(d, s[..|s| - 1]);
      if s[|s| - 1] in before then before else before + [s[|s| - 1]]
  }

  /** list(dict.fromkeys(s)): the first occurrences of s. */
  function Distinct<T(==)>(s: seq<T>): seq<T> {
    AddAll([], s)
  }

  lemma {:induction false} AddAllMembers<T>(d: seq<T>, s: seq<T>)
    ensures forall x :: x in AddAll(d, s) <==> x in d || x in s
    ensures d <= AddAll(d, s)
  {
    if s != [] {
      var rest, last := s[..|s| - 1], s[|s| - 1];
      AddAllMembers(d, rest);
      assert forall x :: x in s <==> x in rest || x == last;
    }
  }

  lemma {:induction false} AddAllAppend<T>(d: seq<T>, s: seq<T>, t: seq<T>)
    ensures AddAll(d, s + t) == AddAll(AddAll(d, s), t)
  {
    if t == [] {
      assert s + t == s;
    } else {
      var rest := t[..|t| - 1];
      assert (s + t)[..|s + t| - 1] == s + rest;
      AddAllAppend(d, s, rest);
    }
  }

  lemma AddOne<T>(d: seq<T>, s: seq<T>, x: T)
    ensures AddAll(d, s + [x]) == if x in AddAll(d, s) then AddAll(d, s) else AddAll(d, s) + [x]
  {
    assert (s + [x])[..|s|] == s && (s + [x])[|s|] == x;
  }

  /** Adding only the first occurrences of s is adding s. */
  lemma {:induction false} AddDistinct<T>(d: seq<T>, s: seq<T>)
    ensures AddAll(d, Distinct(s)) == AddAll(d, s)
  {
    if s != [] {
      var rest, last := s[..|s| - 1], s[|s| - 1];
      assert s == rest + [last];
      AddDistinct(d, rest);
      AddAllMembers([], rest);
      AddAllMembers(d, rest);
      AddOne([], rest, last);
      AddOne(d, rest, last);
      if last !in Distinct(rest) {
        AddOne(d, Distinct(rest), last);
      }
    }
  }

  /** Adding what is already there changes nothing. */
  lemma {:induction false} AddKnown<T>(d: seq<T>, s: seq<T>)
    requires forall x :: x in s ==> x in d
    ensures AddAll(d, s) == d
  {
    if s != [] {
      AddKnown(d, s[..|s| - 1]);
    }
  }

  /** Evidence may be made distinct early or late. */
  lemma DistinctAssociates(a: seq<Ref>, b: seq<Ref>, c: seq<Ref>)
    ensures Distinct(a + Distinct(b + c)) == Distinct(Distinct(a + b) + c)
  {
    AddAllAppend([], a, Distinct(b + c));
    AddDistinct(Distinct(a), b + c);
    AddAllAppend(Distinct(a), b, c);
    AddAllAppend([], a, b);
    AddAllAppend([], Distinct(a + b), c);
    AddDistinct([], a + b);
  }

  // ------------------------------------------------------------------- merging

  function IndexOf(merged: seq<EdgeValue>, id: Id): (i: int)
    ensures -1 <= i < |merged|
    ensures i >= 0 ==> merged[i].id == id
    ensures i < 0 ==> forall k :: 0 <= k < |merged| ==> merged[k].id != id
  {
    if merged == [] then -1
    else if merged[|merged| - 1].id == id then |merged| - 1
    else IndexOf(merged[..|merged| - 1], id)
  }

  function Join(x: EdgeValue, y: EdgeValue): EdgeValue {
    x.(evidence := Distinct(x.evidence + y.evidence))
  }

  /** One iteration: a known id collects evidence in its first place, a new one is appended. */
  function Absorb(merged: seq<EdgeValue>, item: EdgeValue): (after: seq<EdgeValue>)
    ensures |merged| <= |after|
  {
    var i := IndexOf(merged, item.id);
    if i >= 0 then merged[i := Join(merged[i], item)] else merged + [item]
  }

  function AbsorbAll(merged: seq<EdgeValue>, items: seq<EdgeValue>): seq<EdgeValue> {
    if items == [] then merged
    else Absorb(AbsorbAll(merged, items[..|items| - 1]), items[|items| - 1])
  }

  function Merge(items: seq<EdgeValue>): seq<EdgeValue> {
    AbsorbAll([], items)
  }

  ghost predicate DistinctIds(items: seq<EdgeValue>) {
    forall i, j :: 0 <= i < j < |items| ==> items[i].id != items[j].id
  }

  function Ids(items: seq<EdgeValue>): seq<Id> {
    seq(|items|, i requires 0 <= i < |items| => items[i].id)
  }

  lemma IndexUnique(merged: seq<EdgeValue>, i: nat)
    requires DistinctIds(merged) && i < |merged|
    ensures IndexOf(merged, merged[i].id) == i
  {
  }

  lemma {:induction false} AbsorbAllAppend(merged: seq<EdgeValue>, a: seq<EdgeValue>, b: seq<EdgeValue>)
    ensures AbsorbAll(merged, a + b) == AbsorbAll(AbsorbAll(merged, a), b)
  {
    if b == [] {
      assert a + b == a;
    } else {
      assert (a + b)[..|a + b| - 1] == a + b[..|b| - 1];
      AbsorbAllAppend(merged, a, b[..|b| - 1]);
    }
  }

  /** Ids come out once each, in the order of first appearance. */
  lemma {:induction false} AbsorbAllIds(merged: seq<EdgeValue>, items: seq<EdgeValue>)
    requires DistinctIds(merged)
    ensures DistinctIds(AbsorbAll(merged, items))
    ensures Ids(AbsorbAll(merged, items)) == AddAll(Ids(merged), Ids(items))
  {
    if items != [] {
      var rest, last := items[..|items| - 1], items[|items| - 1];
      AbsorbAllIds(merged, rest);
      assert Ids(items)[..|items| - 1] == Ids(rest);
      var before := AbsorbAll(merged, rest);
      var i := IndexOf(before, last.id);
      if i >= 0 {
        assert Ids(before)[i] == last.id;
        assert Ids(Absorb(before, last)) == Ids(before);
      } else {
        assert last.id !in Ids(before);
        assert Ids(Absorb(before, last)) == Ids(before) + [last.id];
      }
    }
  }

  /** Edges with distinct ids are left as they are. */
  lemma {:induction false} MergeDistinct(items: seq<EdgeValue>)
    requires DistinctIds(items)
    ensures Merge(items) == items
  {
    if items != [] {
      MergeDistinct(items[..|items| - 1]);
      assert items == items[..|items| - 1] + [items[|items| - 1]];
    }
  }

  lemma AbsorbKnown(merged: seq<EdgeValue>, x: EdgeValue, i: nat)
    requires DistinctIds(merged) && i < |merged| && merged[i].id == x.id
    ensures Absorb(merged, x) == merged[i := Join(merged[i], x)]
  {
    IndexUnique(merged, i);
  }

  lemma AbsorbNew(merged: seq<EdgeValue>, x: EdgeValue)
    requires forall k :: 0 <= k < |merged| ==> merged[k].id != x.id
    ensures Absorb(merged, x) == merged + [x]
  {
  }

  lemma CommuteKnown(merged: seq<EdgeValue>, x: EdgeValue, p: EdgeValue, i: nat, j: nat)
    requires DistinctIds(merged) && i < |merged| && j < |merged| && i != j
    requires merged[i].id == x.id && merged[j].id == p.id
    ensures Absorb(Absorb(merged, x), p) == Absorb(Absorb(merged, p), x)
  {
    var ax, ap := merged[i := Join(merged[i], x)], merged[j := Join(merged[j], p)];
    AbsorbKnown(merged, x, i);
    AbsorbKnown(merged, p, j);
    assert forall k :: 0 <= k < |merged| ==> ax[k].id == merged[k].id && ap[k].id == merged[k].id;
    AbsorbKnown(ax, p, j);
    AbsorbKnown(ap, x, i);
    assert ax[j := Join(merged[j], p)] == ap[i := Join(merged[i], x)];
  }

  lemma CommuteNew(merged: seq<EdgeValue>, x: EdgeValue, p: EdgeValue, i: nat)
    requires DistinctIds(merged) && i < |merged| && merged[i].id == x.id && x.id != p.id
    requires forall k :: 0 <= k < |merged| ==> merged[k].id != p.id
    ensures Absorb(Absorb(merged, x), p) == Absorb(Absorb(merged, p), x)
  {
    var ax, ap := merged[i := Join(merged[i], x)], merged + [p];
    AbsorbKnown(merged, x, i);
    AbsorbNew(merged, p);
    assert forall k :: 0 <= k < |merged| ==> ax[k].id == merged[k].id && ap[k].id == merged[k].id;
    AbsorbNew(ax, p);
    AbsorbKnown(ap, x, i);
    assert ax + [p] == ap[i := Join(merged[i], x)];
  }

  /** Absorbing two edges of different ids, the first of them known, in either order. */
  lemma AbsorbCommutes(merged: seq<EdgeValue>, x: EdgeValue, p: EdgeValue)
    requires DistinctIds(merged) && IndexOf(merged, x.id) >= 0 && p.id != x.id
    ensures Absorb(Absorb(merged, x), p) == Absorb(Absorb(merged, p), x)
  {
    var j := IndexOf(merged, p.id);
    if j >= 0 {
      CommuteKnown(merged, x, p, IndexOf(merged, x.id), j);
    } else {
      CommuteNew(merged, x, p, IndexOf(merged, x.id));
    }
  }

  /** Absorbing an edge and then another of its id is absorbing their join. */
  lemma AbsorbJoin(merged: seq<EdgeValue>, e: EdgeValue, x: EdgeValue)
    requires DistinctIds(merged) && e.id == x.id
    ensures Absorb(merged, Join(e, x)) == Absorb(Absorb(merged, e), x)
  {
    var i := IndexOf(merged, e.id);
    var after := Absorb(merged, e);
    if i >= 0 {
      DistinctAssociates(merged[i].evidence, e.evidence, x.evidence);
      assert DistinctIds(after);
      IndexUnique(after, i);
    } else {
      assert DistinctIds(after);
      IndexUnique(after, |merged|);
    }
  }

  /** Joining x into one of the items to absorb is absorbing x at the end. */
  lemma {:induction false} JoinLate(merged: seq<EdgeValue>, items: seq<EdgeValue>, i: nat, x: EdgeValue)
    requires DistinctIds(merged) && DistinctIds(items) && i < |items| && items[i].id == x.id
    ensures AbsorbAll(merged, items[i := Join(items[i], x)]) == Absorb(AbsorbAll(merged, items), x)
  {
    var rest, last := items[..|items| - 1], items[|items| - 1];
    AbsorbAllIds(merged, rest);
    var changed := items[i := Join(items[i], x)];
    if i == |items| - 1 {
      assert changed[..|items| - 1] == rest;
      AbsorbJoin(AbsorbAll(merged, rest), last, x);
    } else {
      assert changed[..|items| - 1] == rest[i := Join(rest[i], x)];
      JoinLate(merged, rest, i, x);
      AddAllMembers(Ids(merged), Ids(rest));
      assert Ids(rest)[i] == x.id;
      KnownIndex(AbsorbAll(merged, rest), x.id);
      AbsorbCommutes(AbsorbAll(merged, rest), x, last);
    }
  }

  lemma KnownIndex(merged: seq<EdgeValue>, id: Id)
    requires id in Ids(merged)
    ensures IndexOf(merged, id) >= 0
  {
    var k :| 0 <= k < |merged| && Ids(merged)[k] == id;
    assert merged[k].id == id;
  }

  /** Absorbing a list merged beforehand is absorbing the list. */
  lemma {:induction false} AbsorbMerged(merged: seq<EdgeValue>, items: seq<EdgeValue>)
    requires DistinctIds(merged)
    ensures AbsorbAll(merged, Merge(items)) == AbsorbAll(merged, items)
  {
    if items != [] {
      var rest, last := items[..|items| - 1], items[|items| - 1];
      AbsorbMerged(merged, rest);
      AbsorbAllIds([], rest);
      var i := IndexOf(Merge(rest), last.id);
      if i >= 0 {
        JoinLate(merged, Merge(rest), i, last);
      } else {
        AbsorbAllAppend(merged, Merge(rest), [last]);
        assert [last][..0] == [];
        assert AbsorbAll(AbsorbAll(merged, Merge(rest)), [last]) == Absorb(AbsorbAll(merged, Merge(rest)), last);
      }
    }
  }

  /** Layered merging loses nothing: merging each part and then the parts together gives
      the same edges, in the same order with the same evidence, as merging all at once. */
  lemma MergeIsHomomorphism(a: seq<EdgeValue>, b: seq<EdgeValue>)
    ensures Merge(Merge(a) + Merge(b)) == Merge(a + b)
  {
    AbsorbAllIds([], a);
    MergeDistinct(Merge(a));
    AbsorbAllAppend([], Merge(a), Merge(b));
    AbsorbMerged(Merge(a), b);
    AbsorbAllAppend([], a, b);
  }

  /** All layers of the index at once. */
  function Concat(parts: seq<seq<EdgeValue>>): seq<EdgeValue> {
    if parts == [] then [] else Concat(parts[..|parts| - 1]) + parts[|parts| - 1]
  }

  function MergeEach(parts: seq<seq<EdgeValue>>): seq<seq<EdgeValue>> {
    seq(|parts|, i requires 0 <= i < |parts| => Merge(parts[i]))
  }

  lemma {:induction false} LayeredMerge(parts: seq<seq<EdgeValue>>)
    ensures Merge(Concat(MergeEach(parts))) == Merge(Concat(parts))
  {
    if parts != [] {
      var rest, last := parts[..|parts| - 1], parts[|parts| - 1];
      assert MergeEach(parts)[..|parts| - 1] == MergeEach(rest);
      LayeredMerge(rest);
      var each := Concat(MergeEach(rest));
      MergeIsHomomorphism(each, Merge(last));
      MergeIsHomomorphism(Concat(rest), last);
      AbsorbAllIds([], last);
      MergeDistinct(Merge(last));
    }
  }

  /** The evidence of an id over a list. */
  predicate Carries(items: seq<EdgeValue>, id: Id, ref: Ref) {
    exists k :: 0 <= k < |items| && items[k].id == id && ref in items[k].evidence
  }

  /** Merging keeps each reference with its edge and invents none. */
  lemma {:induction false} EvidenceConserved(items: seq<EdgeValue>, id: Id, ref: Ref)
    ensures Carries(Merge(items), id, ref) <==> Carries(items, id, ref)
  {
    if items != [] {
      var rest, last := items[..|items| - 1], items[|items| - 1];
      EvidenceConserved(rest, id, ref);
      AbsorbEvidence(Merge(rest), last, id, ref);
      if Carries(items, id, ref) {
        var k :| 0 <= k < |items| && items[k].id == id && ref in items[k].evidence;
        assert k < |rest| ==> rest[k] == items[k];
      }
      if Carries(rest, id, ref) {
        var k :| 0 <= k < |rest| && rest[k].id == id && ref in rest[k].evidence;
        assert items[k] == rest[k];
      }
    }
  }

  lemma AbsorbEvidence(merged: seq<EdgeValue>, x: EdgeValue, id: Id, ref: Ref)
    ensures Carries(Absorb(merged, x), id, ref) <==> Carries(merged, id, ref) || (x.id == id && ref in x.evidence)
  {
    var i, after := IndexOf(merged, x.id), Absorb(merged, x);
    if i >= 0 {
      AddAllMembers([], merged[i].evidence + x.evidence);
      forall k | 0 <= k < |merged| && merged[k].id == id && ref in merged[k].evidence
        ensures after[k].id == id && ref in after[k].evidence
      {
      }
      assert x.id == id && ref in x.evidence ==> after[i].id == id && ref in after[i].evidence;
      if Carries(after, id, ref) {
        var k :| 0 <= k < |after| && after[k].id == id && ref in after[k].evidence;
        assert k != i ==> after[k] == merged[k];
      }
    } else {
      forall k | 0 <= k < |merged| && merged[k].id == id && ref in merged[k].evidence
        ensures after[k].id == id && ref in after[k].evidence
      {
      }
      assert after[|merged|] == x;
      if Carries(after, id, ref) {
        var k :| 0 <= k < |after| && after[k].id == id && ref in after[k].evidence;
        assert k < |merged| ==> after[k] == merged[k];
      }
    }
  }

  // ------------------------------------------------------------ edges in memory

  class KnowledgeEdge {
    const id: Id
    const payload: string
    var evidence: seq<Ref>

    constructor (id: Id, payload: string, evidence: seq<Ref>)
      ensures this.id == id && this.payload == payload && this.evidence == evidence
    {
      this.id, this.payload, this.evidence := id, payload, evidence;
    }

    ghost function Value(): EdgeValue
      reads this
    {
      EdgeValue(id, payload, evidence)
    }
  }

  ghost function Values(items: seq<KnowledgeEdge>): (values: seq<EdgeValue>)
    reads items
    ensures |values| == |items| && forall i :: 0 <= i < |items| ==> values[i] == items[i].Value()
  {
    seq(|items|, i requires 0 <= i < |items| reads items => items[i].Value())
  }

  method Find(merged: seq<KnowledgeEdge>, id: Id) returns (i: int)
    ensures i == IndexOf(Values(merged), id)
  {
    i := |merged| - 1;
    assert Values(merged)[..|merged|] == Values(merged);
    while i >= 0 && merged[i].id != id
      invariant -1 <= i < |merged|
      invariant IndexOf(Values(merged), id) == IndexOf(Values(merged)[..i + 1], id)
    {
      assert Values(merged)[..i + 1][..i] == Values(merged)[..i];
      i := i - 1;
    }
    assert i >= 0 ==> Values(merged)[..i + 1][i].id == id;
  }

  /** Joins an item into the edge kept for its id. The item may be that edge itself, met
      again with the evidence it has collected since. */
  method CollectEvidence(merged: seq<KnowledgeEdge>, i: nat, item: KnowledgeEdge, ghost was: EdgeValue)
    requires i < |merged| && DistinctIds(Values(merged)) && merged[i].id == item.id == was.id
    requires item in merged ==> forall ref :: ref in was.evidence ==> ref in item.evidence
    requires item !in merged ==> item.evidence == was.evidence
    modifies merged[i]
    ensures Values(merged) == old(Values(merged))[i := Join(old(merged[i].Value()), was)]
    ensures forall ref :: ref in old(merged[i].evidence) || ref in was.evidence ==> ref in merged[i].evidence
  {
    var current := merged[i];
    ghost var values, kept := Values(merged), current.evidence;
    forall j | 0 <= j < |merged| && j != i ensures merged[j] != current && merged[j] != item {
      assert values[j].id != values[i].id;
    }
    if item in merged {
      SameEvidence(kept, was.evidence);
    }
    AddAllMembers([], kept + was.evidence);
    current.evidence := Distinct(current.evidence + item.evidence);
    assert Values(merged)[i] == Join(values[i], was);
  }

  lemma NotKept(merged: seq<KnowledgeEdge>, item: KnowledgeEdge)
    requires IndexOf(Values(merged), item.id) < 0
    ensures item !in merged
  {
    forall j | 0 <= j < |merged| ensures merged[j] != item {
      assert Values(merged)[j].id != item.id;
    }
  }

  lemma MergeNext(was: seq<EdgeValue>, k: nat)
    requires k < |was|
    ensures Merge(was[..k + 1]) == Absorb(Merge(was[..k]), was[k]) && DistinctIds(Merge(was[..k]))
  {
    assert was[..k + 1][..k] == was[..k] && was[..k + 1][k] == was[k];
    AbsorbAllIds([], was[..k]);
  }

  /** The merge updates the first edge of each id in place. The list may name an edge
      object more than once, so the updated edge can be met again as a later item. */
  method MergeEdges(items: seq<KnowledgeEdge>) returns (merged: seq<KnowledgeEdge>)
    modifies items
    ensures Values(merged) == Merge(old(Values(items)))
    ensures forall e :: e in merged ==> e in items
    ensures forall e :: e in items && e !in merged ==> e.evidence == old(e.evidence)
  {
    merged := [];
    ghost var was := Values(items);
    for k := 0 to |items|
      invariant forall e :: e in merged ==> e in items
      invariant Values(merged) == Merge(was[..k])
      invariant forall e :: e in items && e !in merged ==> e.evidence == old(e.evidence)
      invariant forall e, ref :: e in merged && ref in old(e.evidence) ==> ref in e.evidence
    {
      var item := items[k];
      MergeNext(was, k);
      var i := Find(merged, item.id);
      if i < 0 {
        NotKept(merged, item);
        assert Values(merged + [item]) == Values(merged) + [was[k]];
        merged := merged + [item];
      } else {
        assert merged[i] in merged && merged[i] in items;
        CollectEvidence(merged, i, item, was[k]);
      }
    }
    assert was[..|items|] == was;
  }

  lemma SameEvidence(kept: seq<Ref>, was: seq<Ref>)
    requires forall ref :: ref in was ==> ref in kept
    ensures Distinct(kept + kept) == Distinct(kept + was)
  {
    AddAllAppend([], kept, kept);
    AddAllAppend([], kept, was);
    AddAllMembers([], kept);
    AddKnown(Distinct(kept), kept);
    AddKnown(Distinct(kept), was);
  }
}
