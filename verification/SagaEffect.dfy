/**
  What a run leaves, up to the identifiers of what it created: two stores look
  alike when renaming identifiers that are new takes one to the other.
*/
module SagaEffect {
  import opened CellAddress
  import opened Saga

  // One identifier for another, and back.
  datatype Renaming = Renaming(to: Id -> Id, back: Id -> Id)

  ghost predicate RenamesAt(lo: Id, r: Renaming, i: Id) {
    r.back(r.to(i)) == i && r.to(r.back(i)) == i && (i < lo ==> r.to(i) == i && r.back(i) == i)
  }

  // Identifiers below lo keep their names.
  ghost predicate Renames(lo: Id, r: Renaming) { forall i: Id :: RenamesAt(lo, r, i) }

  lemma NewStaysNew(lo: Id, r: Renaming, i: Id)
    requires Renames(lo, r) && i >= lo
    ensures r.to(i) >= lo && r.back(i) >= lo
  {
    assert RenamesAt(lo, r, i) && RenamesAt(lo, r, r.to(i)) && RenamesAt(lo, r, r.back(i));
  }

  function Moved(r: Renaming, item: Object): Object { item.(sheet := r.to(item.sheet)) }

  function MovedCell(r: Renaming, c: Cell): Cell { c.(sheet := r.to(c.sheet)) }

  ghost predicate SheetAlike(r: Renaming, a: Store, b: Store, i: Id) {
    (i in a.sheets <==> r.to(i) in b.sheets) && (i in a.sheets ==> b.sheets[r.to(i)] == a.sheets[i])
  }

  ghost predicate ObjectAlike(r: Renaming, a: Store, b: Store, i: Id) {
    (i in a.objects <==> r.to(i) in b.objects) && (i in a.objects ==> SameObject(b.objects[r.to(i)], Moved(r, a.objects[i])))
  }

  ghost predicate CellAlike(lo: Id, r: Renaming, a: Store, b: Store, c: Cell) {
    c.sheet < lo || c.sheet in a.sheets ==> b.Get(MovedCell(r, c)) == a.Get(c)
  }

  // The same workbook but for identifiers from lo on and for counters.
  ghost predicate Alike(lo: Id, r: Renaming, a: Store, b: Store) {
    && Renames(lo, r)
    && (forall i: Id :: SheetAlike(r, a, b, i))
    && (forall i: Id :: ObjectAlike(r, a, b, i))
    && (forall c: Cell :: CellAlike(lo, r, a, b, c))
  }

  ghost predicate SameEffect(lo: Id, a: Store, b: Store) { exists r :: Alike(lo, r, a, b) }

  // -------- looking alike is an equivalence --------

  function Unnamed(): Renaming { Renaming(i => i, i => i) }

  function Reversed(r: Renaming): Renaming { Renaming(r.back, r.to) }

  function Through(r: Renaming, q: Renaming): Renaming { Renaming(i => q.to(r.to(i)), i => r.back(q.back(i))) }

  lemma EffectSymmetric(lo: Id, a: Store, b: Store)
    requires SameEffect(lo, a, b)
    ensures SameEffect(lo, b, a)
  {
    hide SheetAlike, ObjectAlike, CellAlike, RenamesAt, Reversed;
    var r :| Alike(lo, r, a, b);
    var v := Reversed(r);
    forall i: Id ensures RenamesAt(lo, v, i) && SheetAlike(v, b, a, i) && ObjectAlike(v, b, a, i) {
      ReversedAt(lo, r, a, b, i);
    }
    forall c: Cell ensures CellAlike(lo, v, b, a, c) { ReversedCell(lo, r, a, b, c); }
    assert Alike(lo, v, b, a);
  }

  lemma ReversedAt(lo: Id, r: Renaming, a: Store, b: Store, j: Id)
    requires Alike(lo, r, a, b)
    ensures RenamesAt(lo, Reversed(r), j) && SheetAlike(Reversed(r), b, a, j) && ObjectAlike(Reversed(r), b, a, j)
  {
    var i := r.back(j);
    assert RenamesAt(lo, r, j) && SheetAlike(r, a, b, i) && ObjectAlike(r, a, b, i);
    if j in b.objects { assert RenamesAt(lo, r, a.objects[i].sheet); }
  }

  lemma ReversedCell(lo: Id, r: Renaming, a: Store, b: Store, c: Cell)
    requires Alike(lo, r, a, b)
    ensures CellAlike(lo, Reversed(r), b, a, c)
  {
    hide Store.Get;
    var e := MovedCell(Reversed(r), c);
    assert RenamesAt(lo, r, c.sheet) && CellAlike(lo, r, a, b, e) && SheetAlike(r, a, b, e.sheet) && MovedCell(r, e) == c;
  }

  lemma EffectTransitive(lo: Id, a: Store, b: Store, c: Store)
    requires SameEffect(lo, a, b) && SameEffect(lo, b, c)
    ensures SameEffect(lo, a, c)
  {
    hide SheetAlike, ObjectAlike, CellAlike, RenamesAt, Through;
    var r :| Alike(lo, r, a, b);
    var q :| Alike(lo, q, b, c);
    var t := Through(r, q);
    forall i: Id ensures RenamesAt(lo, t, i) && SheetAlike(t, a, c, i) && ObjectAlike(t, a, c, i) {
      ThroughAt(lo, r, q, a, b, c, i);
    }
    forall e: Cell ensures CellAlike(lo, t, a, c, e) { ThroughCell(lo, r, q, a, b, c, e); }
    assert Alike(lo, t, a, c);
  }

  lemma ThroughAt(lo: Id, r: Renaming, q: Renaming, a: Store, b: Store, c: Store, i: Id)
    requires Alike(lo, r, a, b) && Alike(lo, q, b, c)
    ensures var t := Through(r, q); RenamesAt(lo, t, i) && SheetAlike(t, a, c, i) && ObjectAlike(t, a, c, i)
  {
    hide RenamesAt, SheetAlike, ObjectAlike, Through, CellAlike;
    ThroughRenames(lo, r, q, i);
    ThroughSheet(r, q, a, b, c, i);
    ThroughObject(r, q, a, b, c, i);
  }

  lemma ThroughRenames(lo: Id, r: Renaming, q: Renaming, i: Id)
    requires RenamesAt(lo, r, i) && RenamesAt(lo, q, r.to(i)) && RenamesAt(lo, q, i) && RenamesAt(lo, r, q.back(i))
    ensures RenamesAt(lo, Through(r, q), i)
  {
  }

  lemma ThroughSheet(r: Renaming, q: Renaming, a: Store, b: Store, c: Store, i: Id)
    requires SheetAlike(r, a, b, i) && SheetAlike(q, b, c, r.to(i))
    ensures SheetAlike(Through(r, q), a, c, i)
  {
    hide Through;
    ThroughTo(r, q, i);
  }

  lemma ThroughObject(r: Renaming, q: Renaming, a: Store, b: Store, c: Store, i: Id)
    requires ObjectAlike(r, a, b, i) && ObjectAlike(q, b, c, r.to(i))
    ensures ObjectAlike(Through(r, q), a, c, i)
  {
    hide Through;
    ThroughTo(r, q, i);
    if i in a.objects { ThroughTo(r, q, a.objects[i].sheet); }
  }

  lemma ThroughTo(r: Renaming, q: Renaming, i: Id)
    ensures Through(r, q).to(i) == q.to(r.to(i))
  {
  }

  lemma ThroughCell(lo: Id, r: Renaming, q: Renaming, a: Store, b: Store, c: Store, e: Cell)
    requires Alike(lo, r, a, b) && Alike(lo, q, b, c)
    ensures CellAlike(lo, Through(r, q), a, c, e)
  {
    hide Store.Get;
    var f := MovedCell(r, e);
    assert RenamesAt(lo, r, e.sheet) && SheetAlike(r, a, b, e.sheet);
    assert CellAlike(lo, r, a, b, e) && CellAlike(lo, q, b, c, f) && MovedCell(q, f) == MovedCell(Through(r, q), e);
  }

  // Two stores with the same contents look alike.
  lemma SameLooksAlike(lo: Id, a: Store, b: Store)
    requires Same(a, b)
    ensures Alike(lo, Unnamed(), a, b) && SameEffect(lo, a, b)
  {
    hide Store.Get;
    var r := Unnamed();
    forall i: Id ensures ObjectAlike(r, a, b, i) { if i in a.objects { assert SameObject(a.objects[i], b.objects[i]); } }
    forall c: Cell ensures CellAlike(lo, r, a, b, c) { assert MovedCell(r, c) == c; }
    assert Alike(lo, r, a, b);
  }
}
