/**
 The Yjs document, as far as saving it is concerned.

 Every client writes its own structs in clock order, and a struct never changes once
 written, so one global history fixes what a (client, clock) pair stands for.  A document
 holds a prefix of each client's history and a set of deleted positions.
 */
module YDocs {
  datatype Struct = Struct(content: string)

  type History = map<nat, seq<Struct>>
  type StateVector = map<nat, nat>

  datatype YDoc = YDoc(structs: map<nat, seq<Struct>>, deletes: set<(nat, nat)>)

  const EMPTY_DOC := YDoc(map[], {})

  /** The document holds, of every client it knows, a non-empty prefix of what that client wrote. */
  ghost predicate ValidIn(d: YDoc, h: History) {
    forall c :: c in d.structs ==> c in h && 0 < |d.structs[c]| && d.structs[c] <= h[c]
  }

  function Clock(d: YDoc, c: nat): nat {
    if c in d.structs then |d.structs[c]| else 0
  }

  /** `Y.encodeStateVector`: the next clock of every known client; deletions do not show. */
  function Vector(d: YDoc): StateVector {
    map c | c in d.structs :: |d.structs[c]|
  }

  /** `Y.applyUpdate`: per client the longer prefix, and the union of the deletions. */
  function Merge(a: YDoc, b: YDoc): YDoc {
    YDoc(map c | c in a.structs.Keys + b.structs.Keys ::
           if c !in a.structs || Clock(a, c) < Clock(b, c) then b.structs[c] else a.structs[c],
         a.deletes + b.deletes)
  }

  /** Every struct of `a` is in `b`. */
  ghost predicate Below(a: YDoc, b: YDoc) {
    forall c :: c in a.structs ==> c in b.structs && a.structs[c] <= b.structs[c]
  }

  /** Every struct and every deletion of `a` is in `b`. */
  ghost predicate Within(a: YDoc, b: YDoc) {
    Below(a, b) && a.deletes <= b.deletes
  }

  ghost predicate SameStructs(a: YDoc, b: YDoc) {
    a.structs == b.structs
  }

  /** The struct a client wrote at a clock is held by the document. */
  ghost predicate Holds(d: YDoc, c: nat, clock: nat) {
    clock < Clock(d, c)
  }

  lemma BelowTransitive(a: YDoc, b: YDoc, c: YDoc)
    requires Below(a, b) && Below(b, c)
    ensures Below(a, c)
  {
  }

  lemma WithinTransitive(a: YDoc, b: YDoc, c: YDoc)
    requires Within(a, b) && Within(b, c)
    ensures Within(a, c)
  {
    BelowTransitive(a, b, c);
  }

  lemma BelowAntisymmetric(a: YDoc, b: YDoc)
    requires Below(a, b) && Below(b, a)
    ensures SameStructs(a, b)
  {
    forall k | k in a.structs ensures a.structs[k] == b.structs[k] {
      assert k in b.structs;
    }
  }

  /** Two documents of one history hold the same structs exactly when their state vectors agree. */
  lemma VectorDeterminesStructs(h: History, a: YDoc, b: YDoc)
    requires ValidIn(a, h) && ValidIn(b, h)
    ensures Vector(a) == Vector(b) <==> SameStructs(a, b)
  {
    if Vector(a) == Vector(b) {
      assert a.structs.Keys == Vector(a).Keys == Vector(b).Keys == b.structs.Keys;
      forall c | c in a.structs ensures a.structs[c] == b.structs[c] {
        assert Vector(a)[c] == Vector(b)[c];
        assert a.structs[c] == h[c][..|a.structs[c]|] == b.structs[c];
      }
    }
  }

  /** Holding fewer structs is the same as being clock-wise smaller. */
  lemma BelowIffClocks(h: History, a: YDoc, b: YDoc)
    requires ValidIn(a, h) && ValidIn(b, h)
    ensures Below(a, b) <==> forall c :: Clock(a, c) <= Clock(b, c)
  {
    if forall c :: Clock(a, c) <= Clock(b, c) {
      forall c | c in a.structs ensures c in b.structs && a.structs[c] <= b.structs[c] {
        assert Clock(a, c) <= Clock(b, c);
      }
    }
  }

  /** Merging stays within the history and is above both documents... */
  lemma MergeIsAbove(h: History, a: YDoc, b: YDoc)
    requires ValidIn(a, h) && ValidIn(b, h)
    ensures ValidIn(Merge(a, b), h)
    ensures Within(a, Merge(a, b)) && Within(b, Merge(a, b))
  {
    forall c | c in a.structs ensures a.structs[c] <= Merge(a, b).structs[c] {}
    forall c | c in b.structs ensures b.structs[c] <= Merge(a, b).structs[c] {
      if c in a.structs && Clock(b, c) <= Clock(a, c) {
        assert b.structs[c] <= h[c] && a.structs[c] <= h[c];
      }
    }
  }

  /** ... and it is the least such document. */
  lemma MergeIsLeast(a: YDoc, b: YDoc, x: YDoc)
    requires Within(a, x) && Within(b, x)
    ensures Within(Merge(a, b), x)
  {
  }

  lemma MergeCommutes(h: History, a: YDoc, b: YDoc)
    requires ValidIn(a, h) && ValidIn(b, h)
    ensures Merge(a, b) == Merge(b, a)
  {
    MergeIsAbove(h, a, b);
    MergeIsAbove(h, b, a);
    MergeIsLeast(a, b, Merge(b, a));
    MergeIsLeast(b, a, Merge(a, b));
    BelowAntisymmetric(Merge(a, b), Merge(b, a));
    assert Merge(a, b).deletes == Merge(b, a).deletes;
  }

  lemma MergeTakesLargerClock(a: YDoc, b: YDoc, c: nat)
    ensures Clock(Merge(a, b), c) == if Clock(a, c) < Clock(b, c) then Clock(b, c) else Clock(a, c)
  {
  }

  lemma SameClocksSameStructs(h: History, a: YDoc, b: YDoc)
    requires ValidIn(a, h) && ValidIn(b, h)
    requires forall c :: Clock(a, c) == Clock(b, c)
    ensures SameStructs(a, b)
  {
    BelowIffClocks(h, a, b);
    BelowIffClocks(h, b, a);
    BelowAntisymmetric(a, b);
  }

  lemma MergeAssociates(h: History, a: YDoc, b: YDoc, c: YDoc)
    requires ValidIn(a, h) && ValidIn(b, h) && ValidIn(c, h)
    ensures Merge(Merge(a, b), c) == Merge(a, Merge(b, c))
  {
    var ab, bc := Merge(a, b), Merge(b, c);
    MergeIsAbove(h, a, b);
    MergeIsAbove(h, b, c);
    MergeIsAbove(h, ab, c);
    MergeIsAbove(h, a, bc);
    forall k ensures Clock(Merge(ab, c), k) == Clock(Merge(a, bc), k) {
      MergeTakesLargerClock(a, b, k);
      MergeTakesLargerClock(b, c, k);
      MergeTakesLargerClock(ab, c, k);
      MergeTakesLargerClock(a, bc, k);
    }
    SameClocksSameStructs(h, Merge(ab, c), Merge(a, bc));
    assert Merge(ab, c).deletes == Merge(a, bc).deletes;
  }

  /** An update without new structs changes at most the deletions, and the converse. */
  lemma MergeOfKnownStructs(h: History, a: YDoc, b: YDoc)
    requires ValidIn(a, h) && ValidIn(b, h)
    ensures Below(b, a) <==> SameStructs(Merge(a, b), a)
    ensures Vector(Merge(a, b)) == Vector(a) <==> Below(b, a)
  {
    MergeIsAbove(h, a, b);
    if Below(b, a) {
      MergeAddsNothing(a, b);
    }
    VectorDeterminesStructs(h, Merge(a, b), a);
  }

  lemma MergeAddsNothing(a: YDoc, b: YDoc)
    requires Below(b, a)
    ensures SameStructs(Merge(a, b), a) && Vector(Merge(a, b)) == Vector(a)
  {
    assert Merge(a, b).structs == a.structs;
  }

  /** A merge that brings a new struct shows in the state vector. */
  lemma GrowthShowsInVector(h: History, old_: YDoc, a: YDoc, b: YDoc)
    requires ValidIn(old_, h) && ValidIn(a, h) && ValidIn(b, h)
    requires Below(old_, a) && Below(a, b) && !SameStructs(a, b)
    ensures Vector(old_) != Vector(b)
  {
    if Vector(old_) == Vector(b) {
      VectorDeterminesStructs(h, old_, b);
      BelowAntisymmetric(a, b);
    }
  }

  /** An edit that only deletes leaves the state vector, and so the skip test, unchanged. */
  lemma DeletionInvisible(d: YDoc, gone: set<(nat, nat)>)
    requires !(gone <= d.deletes)
    ensures Vector(Merge(d, YDoc(map[], gone))) == Vector(d)
    ensures Merge(d, YDoc(map[], gone)) != d
  {
  }
}
