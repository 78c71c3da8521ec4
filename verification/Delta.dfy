/** Change lists of incremental archives and their composition. */
module Delta {
  import opened Names
  import opened Ordering

  datatype DeltaKind = Added | Modified | Deleted

  datatype ChangeSet = ChangeSet(added: seq<string>, modified: seq<string>, deleted: seq<string>)

  type Deltas = map<string, DeltaKind>

  function ComposeDelta(current: DeltaKind, next: DeltaKind): Option<DeltaKind>
  {
    match current
    case Added => if next == Deleted then None else Some(Added)
    case Modified => if next == Deleted then Some(Deleted) else Some(Modified)
    case Deleted => if next == Deleted then Some(Deleted) else Some(Modified)
  }

  /** The net change of one path over two steps, where a step may leave the path alone. */
  function Net(a: Option<DeltaKind>, b: Option<DeltaKind>): Option<DeltaKind>
  {
    if a.None? then b else if b.None? then a else ComposeDelta(a.value, b.value)
  }

  function At(deltas: Deltas, p: string): Option<DeltaKind>
  {
    if p in deltas then Some(deltas[p]) else None
  }

  function Put(deltas: Deltas, p: string, kind: Option<DeltaKind>): Deltas
  {
    if kind.Some? then deltas[p := kind.value] else deltas - {p}
  }

  function Record1(deltas: Deltas, p: string, next: DeltaKind): Deltas
  {
    Put(deltas, p, Net(At(deltas, p), Some(next)))
  }

  function RecordAll(deltas: Deltas, paths: seq<string>, next: DeltaKind): Deltas
  {
    if paths == [] then deltas
    else Record1(RecordAll(deltas, paths[..|paths| - 1], next), paths[|paths| - 1], next)
  }

  function RecordChanges(deltas: Deltas, c: ChangeSet): Deltas
  {
    RecordAll(RecordAll(RecordAll(deltas, c.deleted, Deleted), c.added, Added), c.modified, Modified)
  }

  method ApplyDelta(deltas: Deltas, path: string, next: DeltaKind) returns (result: Deltas)
    ensures result == Record1(deltas, path, next)
  {
    if path !in deltas {
      return deltas[path := next];
    }
    var composed := ComposeDelta(deltas[path], next);
    if composed.Some? {
      result := deltas[path := composed.value];
    } else {
      result := deltas - {path};
    }
  }

  method ApplyDeltas(deltas: Deltas, paths: seq<string>, next: DeltaKind) returns (result: Deltas)
    ensures result == RecordAll(deltas, paths, next)
  {
    result := deltas;
    for i := 0 to |paths|
      invariant result == RecordAll(deltas, paths[..i], next)
    {
      assert paths[..i + 1][..i] == paths[..i];
      result := ApplyDelta(result, paths[i], next);
    }
    assert paths[..|paths|] == paths;
  }

  method ApplyRecordDelta(deltas: Deltas, c: ChangeSet) returns (result: Deltas)
    ensures result == RecordChanges(deltas, c)
  {
    result := ApplyDeltas(deltas, c.deleted, Deleted);
    result := ApplyDeltas(result, c.added, Added);
    result := ApplyDeltas(result, c.modified, Modified);
  }

  function Paths(deltas: Deltas, kind: DeltaKind): set<string>
  {
    set p | p in deltas && deltas[p] == kind
  }

  function Lists(deltas: Deltas): ChangeSet
  {
    ChangeSet(Listing(Paths(deltas, Added)), Listing(Paths(deltas, Modified)), Listing(Paths(deltas, Deleted)))
  }

  method BuildDeltaLists(deltas: Deltas) returns (c: ChangeSet)
    ensures c == Lists(deltas)
  {
    var paths := Listing(deltas.Keys);
    ghost var isAdded, isModified, isDeleted := HasKind(deltas, Added), HasKind(deltas, Modified), HasKind(deltas, Deleted);
    var added, modified, deleted := [], [], [];
    for i := 0 to |paths|
      invariant added == Kept(paths[..i], isAdded)
      invariant modified == Kept(paths[..i], isModified)
      invariant deleted == Kept(paths[..i], isDeleted)
    {
      ListingMember(deltas.Keys, i);
      KeptStep(paths, i, isAdded);
      KeptStep(paths, i, isModified);
      KeptStep(paths, i, isDeleted);
      match deltas[paths[i]]
      case Added => added := added + [paths[i]];
      case Modified => modified := modified + [paths[i]];
      case Deleted => deleted := deleted + [paths[i]];
    }
    assert paths[..|paths|] == paths;
    KeptListing(deltas.Keys, isAdded, Paths(deltas, Added));
    KeptListing(deltas.Keys, isModified, Paths(deltas, Modified));
    KeptListing(deltas.Keys, isDeleted, Paths(deltas, Deleted));
    c := ChangeSet(added, modified, deleted);
  }

  function HasKind(deltas: Deltas, kind: DeltaKind): string -> bool
  {
    p => p in deltas && deltas[p] == kind
  }

  /** Composition as the merge performs it: fold both records, then split into three lists. */
  function Compose(first: ChangeSet, second: ChangeSet): ChangeSet
  {
    Lists(RecordChanges(RecordChanges(map[], first), second))
  }

  // ---- what the lists say about one path ----

  ghost predicate WellListed(c: ChangeSet)
  {
    && Increasing(c.added) && Increasing(c.modified) && Increasing(c.deleted)
    && Elems(c.added) !! Elems(c.modified) && Elems(c.added) !! Elems(c.deleted)
    && Elems(c.modified) !! Elems(c.deleted)
  }

  function KindAt(c: ChangeSet, p: string): Option<DeltaKind>
  {
    if p in c.deleted then Some(Deleted) else if p in c.added then Some(Added)
    else if p in c.modified then Some(Modified) else None
  }

  lemma {:induction false} RecordAllAt(deltas: Deltas, paths: seq<string>, next: DeltaKind, p: string)
    requires Increasing(paths)
    ensures At(RecordAll(deltas, paths, next), p)
         == if p in paths then Net(At(deltas, p), Some(next)) else At(deltas, p)
  {
    if paths != [] {
      var front, last := paths[..|paths| - 1], paths[|paths| - 1];
      assert paths == front + [last];
      RecordAllAt(deltas, front, next, p);
      IncreasingDistinct(paths);
    }
  }

  /** The fold over a record's three lists is pointwise composition. */
  lemma RecordChangesAt(deltas: Deltas, c: ChangeSet, p: string)
    requires WellListed(c)
    ensures At(RecordChanges(deltas, c), p) == Net(At(deltas, p), KindAt(c, p))
  {
    var d1 := RecordAll(deltas, c.deleted, Deleted);
    var d2 := RecordAll(d1, c.added, Added);
    RecordAllAt(deltas, c.deleted, Deleted, p);
    RecordAllAt(d1, c.added, Added, p);
    RecordAllAt(d2, c.modified, Modified, p);
    assert p in c.added ==> p in Elems(c.added);
    assert p in c.modified ==> p in Elems(c.modified);
    assert p in c.deleted ==> p in Elems(c.deleted);
  }

  lemma ListsAt(deltas: Deltas, p: string)
    ensures WellListed(Lists(deltas))
    ensures KindAt(Lists(deltas), p) == At(deltas, p)
  {
    var c := Lists(deltas);
    assert p in c.added <==> p in Elems(c.added);
    assert p in c.modified <==> p in Elems(c.modified);
    assert p in c.deleted <==> p in Elems(c.deleted);
  }

  lemma ComposeAt(first: ChangeSet, second: ChangeSet, p: string)
    requires WellListed(first) && WellListed(second)
    ensures WellListed(Compose(first, second))
    ensures KindAt(Compose(first, second), p) == Net(KindAt(first, p), KindAt(second, p))
  {
    RecordChangesAt(map[], first, p);
    RecordChangesAt(RecordChanges(map[], first), second, p);
    ListsAt(RecordChanges(RecordChanges(map[], first), second), p);
  }

  // ---- presence: when a record fits the files it is applied to ----

  ghost predicate Consistent(c: ChangeSet, present: set<string>)
  {
    && Elems(c.added) !! present
    && Elems(c.modified) <= present
    && Elems(c.deleted) <= present
  }

  function After(c: ChangeSet, present: set<string>): set<string>
  {
    present - Elems(c.deleted) + Elems(c.added) + Elems(c.modified)
  }

  lemma KindMembership(c: ChangeSet, p: string)
    requires WellListed(c)
    ensures p in Elems(c.added) <==> KindAt(c, p) == Some(Added)
    ensures p in Elems(c.modified) <==> KindAt(c, p) == Some(Modified)
    ensures p in Elems(c.deleted) <==> KindAt(c, p) == Some(Deleted)
  {
    assert p in c.added <==> p in Elems(c.added);
    assert p in c.modified <==> p in Elems(c.modified);
    assert p in c.deleted <==> p in Elems(c.deleted);
  }

  lemma ComposeMembership(a: ChangeSet, b: ChangeSet, p: string)
    requires WellListed(a) && WellListed(b)
    ensures var c := Compose(a, b);
      && WellListed(c)
      && (p in Elems(c.added) <==> Net(KindAt(a, p), KindAt(b, p)) == Some(Added))
      && (p in Elems(c.modified) <==> Net(KindAt(a, p), KindAt(b, p)) == Some(Modified))
      && (p in Elems(c.deleted) <==> Net(KindAt(a, p), KindAt(b, p)) == Some(Deleted))
  {
    ComposeAt(a, b, p);
    KindMembership(Compose(a, b), p);
  }

  /** Composing two records that fit in sequence gives one disjoint record that fits the base
      and has the same effect on the set of files. */
  lemma ComposeCorrect(a: ChangeSet, b: ChangeSet, present: set<string>)
    requires WellListed(a) && WellListed(b)
    requires Consistent(a, present) && Consistent(b, After(a, present))
    ensures WellListed(Compose(a, b))
    ensures Consistent(Compose(a, b), present)
    ensures After(Compose(a, b), present) == After(b, After(a, present))
  {
    var c := Compose(a, b);
    ComposeAt(a, b, "");
    forall p
      ensures p in Elems(c.added) ==> p !in present
      ensures p in Elems(c.modified) || p in Elems(c.deleted) ==> p in present
      ensures p in After(c, present) <==> p in After(b, After(a, present))
    {
      ComposeMembership(a, b, p);
      KindMembership(a, p);
      KindMembership(b, p);
    }
  }

  // ---- grouping ----

  /** Exactly when three changes of one path may not be regrouped: an addition is deleted and the
      path is then treated as present, or a path already present is added and then deleted. */
  lemma NetAssociative(a: Option<DeltaKind>, b: Option<DeltaKind>, c: Option<DeltaKind>)
    ensures Net(Net(a, b), c) == Net(a, Net(b, c))
       <==> !(|| (a == Some(Added) && b == Some(Deleted) && (c == Some(Modified) || c == Some(Deleted)))
              || ((a == Some(Added) || a == Some(Modified)) && b == Some(Added) && c == Some(Deleted)))
  {}

  lemma SameKindsSameLists(a: ChangeSet, b: ChangeSet)
    requires WellListed(a) && WellListed(b)
    requires forall p :: KindAt(a, p) == KindAt(b, p)
    ensures a == b
  {
    forall p
      ensures p in Elems(a.added) <==> p in Elems(b.added)
      ensures p in Elems(a.modified) <==> p in Elems(b.modified)
      ensures p in Elems(a.deleted) <==> p in Elems(b.deleted)
    {
      KindMembership(a, p);
      KindMembership(b, p);
    }
    assert Elems(a.added) == Elems(b.added);
    ListingUnique(a.added, b.added);
    assert Elems(a.modified) == Elems(b.modified);
    ListingUnique(a.modified, b.modified);
    assert Elems(a.deleted) == Elems(b.deleted);
    ListingUnique(a.deleted, b.deleted);
  }

  /** Three records that fit in sequence compose to the same lists under either grouping. */
  lemma ComposeAssociative(a: ChangeSet, b: ChangeSet, c: ChangeSet, present: set<string>)
    requires WellListed(a) && WellListed(b) && WellListed(c)
    requires Consistent(a, present) && Consistent(b, After(a, present))
    requires Consistent(c, After(b, After(a, present)))
    ensures Compose(Compose(a, b), c) == Compose(a, Compose(b, c))
  {
    ComposeAt(a, b, "");
    ComposeAt(b, c, "");
    ComposeAt(Compose(a, b), c, "");
    ComposeAt(a, Compose(b, c), "");
    forall p
      ensures KindAt(Compose(Compose(a, b), c), p) == KindAt(Compose(a, Compose(b, c)), p)
    {
      ComposeAt(a, b, p);
      ComposeAt(Compose(a, b), c, p);
      ComposeAt(b, c, p);
      ComposeAt(a, Compose(b, c), p);
      KindMembership(a, p);
      KindMembership(b, p);
      KindMembership(c, p);
      NetAssociative(KindAt(a, p), KindAt(b, p), KindAt(c, p));
    }
    SameKindsSameLists(Compose(Compose(a, b), c), Compose(a, Compose(b, c)));
  }
}
