/**
  Where the items of an array literal stand: commas separate the items of a row and
  semicolons the rows.
*/
module ArrayLiterals {
  import opened CellAddress
  import opened FormulaSyntax
  import opened Grammar
  import opened Areas
  import opened Division

  // From starts[k] on item k is read up to ends[k]; the separators stand between the
  // items and the closing brace behind the last.
  ghost predicate Listed(src: Source, starts: seq<State>, items: seq<Node>, ends: seq<State>, seps: seq<Token>)
    requires src.Valid()
  {
    && |starts| == |items| == |ends| == |seps| + 1
    && (forall k :: 0 <= k < |items| ==> src.Ready(starts[k]) && src.Expression(0, starts[k]) == Done(items[k], ends[k]))
    && (forall k :: 0 <= k < |seps| ==> IsSeparator(seps[k]) && src.Tok(ends[k]) == seps[k] && starts[k + 1] == Advance(ends[k]))
    && src.Tok(ends[|seps|]).TClose?
  }

  // A semicolon stands behind every width-th item, and a comma behind the others.
  predicate RowsEnd(seps: seq<Token>, width: nat)
    requires width >= 1
  {
    forall k :: 0 <= k < |seps| ==> (seps[k].TSemicolon? <==> (k + 1) % width == 0)
  }

  lemma NothingAtClose(src: Source, s: State)
    requires src.Valid() && src.Ready(s) && src.Tok(s).TClose?
    ensures src.Expression(0, s).node.None?
  {
    hide Source.Operators;
    assert src.Prefix(s) == src.Primary(s) == Fail(Advance(s));
  }

  lemma ListedAt(src: Source, starts: seq<State>, items: seq<Node>, ends: seq<State>, seps: seq<Token>, k: nat)
    requires src.Valid() && Listed(src, starts, items, ends, seps) && k < |items|
    ensures |starts| == |items| == |ends| == |seps| + 1
    ensures src.Ready(starts[k]) && src.Ready(ends[k]) && src.Expression(0, starts[k]) == Done(items[k], ends[k])
    ensures Refs(items[k]) <= ends[k].deps && starts[k].deps <= ends[k].deps && !src.Tok(starts[k]).TClose?
    ensures if k == |seps| then src.Tok(ends[k]).TClose?
            else IsSeparator(seps[k]) && src.Tok(ends[k]) == seps[k] && src.Ready(starts[k + 1]) && starts[k + 1] == Advance(ends[k])
  {
    hide Source.Expression, Refs;
    if src.Tok(starts[k]).TClose? { NothingAtClose(src, starts[k]); }
  }

  ghost predicate AllKnown(rows: seq<seq<Node>>, deps: set<Cell>) { forall r :: r in rows ==> RefsAll(r) <= deps }

  // One step of the loop, item and separator.
  lemma RowsStep(src: Source, rows: seq<seq<Node>>, row: seq<Node>, s: State, item: Node, e: State)
    requires src.Valid() && src.Ready(s) && src.Ready(e) && RefsAll(row) <= s.deps && AllKnown(rows, s.deps)
    requires !src.Tok(s).TClose? && src.Expression(0, s) == Done(item, e)
    ensures RefsAll(row + [item]) <= e.deps && AllKnown(rows, e.deps) && AllKnown(rows + [row + [item]], e.deps) && RefsAll([]) <= e.deps
    ensures src.Tok(e).TComma? ==> src.Ready(Advance(e)) && src.ArrayRows(rows, row, s) == src.ArrayRows(rows, row + [item], Advance(e))
    ensures src.Tok(e).TSemicolon? ==> src.Ready(Advance(e)) && src.ArrayRows(rows, row, s) == src.ArrayRows(rows + [row + [item]], [], Advance(e))
    ensures src.Tok(e).TClose? ==> src.ArrayRows(rows, row, s) == src.ArrayEnd(rows + [row + [item]], Advance(e))
  {
    hide Source.Expression, Source.ArrayEnd, Refs;
    RefsAllAppend(row, item);
    RefsAllNone();
  }

  lemma {:induction false} FlattenAppend(rows: seq<seq<Node>>, row: seq<Node>)
    ensures Flatten(rows + [row]) == Flatten(rows) + row
  {
    if rows == [] {
      assert rows + [row] == [row] && [row][1..] == [];
    } else {
      assert (rows + [row])[1..] == rows[1..] + [row];
      FlattenAppend(rows[1..], row);
    }
  }

  // The loop has read k items: whole rows, and the start of the next.
  ghost predicate Read(items: seq<Node>, width: nat, rows: seq<seq<Node>>, row: seq<Node>, k: nat)
    requires width >= 1 && k <= |items|
  {
    && Flatten(rows) + row == items[..k] && (forall r :: r in rows ==> |r| == width)
    && |row| < width && k == |rows| * width + |row|
  }

  // One item more, and a new row when this one is full.
  lemma ReadMore(items: seq<Node>, width: nat, rows: seq<seq<Node>>, row: seq<Node>, k: nat)
    requires width >= 1 && k < |items| && Read(items, width, rows, row, k)
    ensures (k + 1) % width == 0 <==> |row| + 1 == width
    ensures if |row| + 1 == width then Read(items, width, rows + [row + [items[k]]], [], k + 1) else Read(items, width, rows, row + [items[k]], k + 1)
  {
    var more := row + [items[k]];
    assert items[..k + 1] == items[..k] + [items[k]];
    assert Flatten(rows) + more == items[..k + 1];
    RowIsFull(|rows|, |row|, width, k);
    if |more| == width {
      FlattenAppend(rows, more);
      OneRowMore(|rows|, width);
      assert Flatten(rows + [more]) + [] == items[..k + 1];
    }
  }

  lemma RowIsFull(rows: nat, read: nat, width: nat, k: nat)
    requires read < width && k == rows * width + read
    ensures (k + 1) % width == 0 <==> read + 1 == width
  {
    if read + 1 == width {
      OneRowMore(rows, width);
      RemainderOf(rows + 1, width, 0);
    } else {
      RemainderOf(rows, width, read + 1);
    }
  }

  // Nothing can be read beyond a whole number of rows.
  lemma LastIsFull(rows: nat, read: nat, width: nat, height: nat)
    requires read < width && rows * width + read + 1 == height * width
    ensures read + 1 == width && rows + 1 == height
  {
    if height <= rows { MoreRows(height, rows, width); }
    OneRowMore(rows, width);
    OneRowMore(rows + 1, width);
    if height >= rows + 2 { MoreRows(rows + 2, height, width); }
  }

  lemma {:induction false} RowsAreRead(src: Source, starts: seq<State>, items: seq<Node>, ends: seq<State>, seps: seq<Token>, height: nat, width: nat,
                                       rows: seq<seq<Node>>, row: seq<Node>, k: nat)
    requires src.Valid() && Listed(src, starts, items, ends, seps) && width >= 1 && RowsEnd(seps, width) && |items| == height * width
    requires k < |items| && Read(items, width, rows, row, k)
    requires src.Ready(starts[k]) && RefsAll(row) <= starts[k].deps && AllKnown(rows, starts[k].deps)
    ensures src.ArrayRows(rows, row, starts[k]).node == if |items| > 100000 then None else Some(ArrayLit(height, width, items))
    decreases |items| - k
  {
    hide Source.Expression, Listed, RefsAll, Source.ArrayRows, Source.ArrayEnd, AllKnown, Read;
    ListedAt(src, starts, items, ends, seps, k);
    RowsStep(src, rows, row, starts[k], items[k], ends[k]);
    ReadMore(items, width, rows, row, k);
    ReadIs(items, width, rows, row, k);
    var more := row + [items[k]];
    if k == |seps| {
      LastIsFull(|rows|, |row|, width, height);
      EndReads(src, items, height, width, rows + [more], Advance(ends[k]));
    } else if |more| == width {
      RowsAreRead(src, starts, items, ends, seps, height, width, rows + [more], [], k + 1);
    } else {
      RowsAreRead(src, starts, items, ends, seps, height, width, rows, more, k + 1);
    }
  }

  lemma ReadIs(items: seq<Node>, width: nat, rows: seq<seq<Node>>, row: seq<Node>, k: nat)
    requires width >= 1 && k <= |items| && Read(items, width, rows, row, k)
    ensures |row| < width && k == |rows| * width + |row|
  {
  }

  lemma EndReads(src: Source, items: seq<Node>, height: nat, width: nat, rows: seq<seq<Node>>, s: State)
    requires width >= 1 && |rows| == height >= 1 && Read(items, width, rows, [], |items|) && AllKnown(rows, s.deps)
    ensures src.ArrayEnd(rows, s).node == if |items| > 100000 then None else Some(ArrayLit(height, width, items))
  {
    hide RefsAll;
    assert rows[0] in rows && items[..|items|] == items && Flatten(rows) + [] == Flatten(rows);
  }

  // Where a semicolon stands behind every width-th item, the items are laid out in
  // order in rows of that width.
  lemma ArrayIsRead(src: Source, starts: seq<State>, items: seq<Node>, ends: seq<State>, seps: seq<Token>, height: nat, width: nat)
    requires src.Valid() && Listed(src, starts, items, ends, seps) && width >= 1 && RowsEnd(seps, width) && |items| == height * width
    ensures src.Ready(starts[0]) && RefsAll([]) <= starts[0].deps
    ensures src.ArrayRows([], [], starts[0]).node == if |items| > 100000 then None else Some(ArrayLit(height, width, items))
  {
    hide Source.Expression, RefsAll, Source.ArrayRows, Listed;
    assert |items| == |seps| + 1 by { ListedLength(src, starts, items, ends, seps); }
    ListedAt(src, starts, items, ends, seps, 0);
    RefsAllNone();
    assert Flatten([]) + [] == items[..0];
    RowsAreRead(src, starts, items, ends, seps, height, width, [], [], 0);
  }

  lemma ListedLength(src: Source, starts: seq<State>, items: seq<Node>, ends: seq<State>, seps: seq<Token>)
    requires src.Valid() && Listed(src, starts, items, ends, seps)
    ensures |items| == |seps| + 1
  {
  }
}
