/**
  What stands where in the tables of GROUPBY and PIVOTBY: lines in the order of their
  labels, said without the comparison, and cells with the function of exactly the
  values of their rows.
*/
module TableLayout {
  import opened CellAddress
  import opened GroupBy

  // -------- the order of labels --------

  // Numbers by size and before everything else, the rest as texts; of several labels
  // the first that differs decides.

  // b goes on where a ends, or has the greater character where they part.
  ghost predicate TextBefore(a: string, b: string) { exists k: nat :: PartAt(a, b, k) }

  predicate PartAt(a: string, b: string, k: nat) {
    && k <= |a| && k < |b| && (forall i :: 0 <= i < k ==> a[i] == b[i])
    && (k == |a| || a[k] < b[k])
  }

  lemma {:induction false} TextMeans(a: string, b: string)
    ensures CompareText(a, b) < 0 <==> TextBefore(a, b)
  {
    if b == "" {
      forall k: nat ensures !PartAt(a, b, k) {}
    } else if a == "" {
      assert PartAt(a, b, 0);
    } else if a[0] < b[0] {
      assert PartAt(a, b, 0);
    } else if a[0] > b[0] {
      forall k: nat ensures !PartAt(a, b, k) {}
    } else {
      TextMeans(a[1..], b[1..]);
      if k: nat :| PartAt(a[1..], b[1..], k) {
        forall i | 0 <= i < k + 1 ensures a[i] == b[i] { if i > 0 { assert a[i] == a[1..][i - 1] && b[i] == b[1..][i - 1]; } }
        assert PartAt(a, b, k + 1);
      }
      if k: nat :| PartAt(a, b, k) {
        assert k > 0;
        assert PartAt(a[1..], b[1..], k - 1);
      }
    }
  }

  ghost predicate LabelBefore(rd: Reading, a: Value, b: Value) {
    match (rd.number(a), rd.number(b))
    case (Some(x), Some(y)) => x < y
    case (Some(_), None) => true
    case (None, Some(_)) => false
    case (None, None) => TextBefore(rd.text(a), rd.text(b))
  }

  lemma LabelMeans(rd: Reading, a: Value, b: Value)
    ensures CompareLabel(rd, a, b) < 0 <==> LabelBefore(rd, a, b)
    ensures CompareLabel(rd, a, b) > 0 <==> LabelBefore(rd, b, a)
  {
    hide CompareText, TextBefore;
    TextMeans(rd.text(a), rd.text(b));
    TextMeans(rd.text(b), rd.text(a));
    TextSign(rd.text(a), rd.text(b));
  }

  // The first label that differs.
  ghost predicate LabelsBefore(rd: Reading, a: seq<Value>, b: seq<Value>) { exists k: nat :: DifferAt(rd, a, b, k) }

  ghost predicate DifferAt(rd: Reading, a: seq<Value>, b: seq<Value>, k: nat) {
    && k < |a| && k < |b| && LabelBefore(rd, a[k], b[k])
    && forall i :: 0 <= i < k ==> !LabelBefore(rd, a[i], b[i]) && !LabelBefore(rd, b[i], a[i])
  }

  lemma {:induction false} LabelsMean(rd: Reading, a: seq<Value>, b: seq<Value>)
    requires |a| == |b|
    ensures CompareLabels(rd, a, b) < 0 <==> LabelsBefore(rd, a, b)
    decreases |a|
  {
    hide CompareLabel, LabelBefore;
    if a == [] {
      forall k: nat ensures !DifferAt(rd, a, b, k) {}
    } else {
      LabelMeans(rd, a[0], b[0]);
      LabelsMean(rd, a[1..], b[1..]);
      if LabelBefore(rd, a[0], b[0]) { assert DifferAt(rd, a, b, 0); }
      if k: nat :| DifferAt(rd, a[1..], b[1..], k) {
        if CompareLabel(rd, a[0], b[0]) == 0 {
          forall i | 0 <= i < k + 1 ensures !LabelBefore(rd, a[i], b[i]) && !LabelBefore(rd, b[i], a[i]) {
            if i > 0 { assert a[i] == a[1..][i - 1] && b[i] == b[1..][i - 1]; }
          }
          assert DifferAt(rd, a, b, k + 1);
        }
      }
      if k: nat :| DifferAt(rd, a, b, k) {
        if k > 0 {
          forall i | 0 <= i < k - 1 ensures !LabelBefore(rd, a[1..][i], b[1..][i]) && !LabelBefore(rd, b[1..][i], a[1..][i]) {
            assert a[1..][i] == a[i + 1] && b[1..][i] == b[i + 1];
          }
          assert DifferAt(rd, a[1..], b[1..], k - 1);
        }
      }
    }
  }

  // p stands before q: its labels come before, or after when the order is downwards,
  // or neither does and p appeared first.
  ghost predicate StandsBefore(rd: Reading, keys: seq<GroupKey>, order: int, p: nat, q: nat)
    requires p < |keys| && q < |keys|
  {
    var a, b := keys[p].labels, keys[q].labels;
    if order == 0 then p < q
    else if order > 0 then LabelsBefore(rd, a, b) || (!LabelsBefore(rd, b, a) && p < q)
    else LabelsBefore(rd, b, a) || (!LabelsBefore(rd, a, b) && p < q)
  }

  // What the sort of groups gives.
  lemma GroupsStand(rd: Reading, keys: seq<GroupKey>, columns: nat, order: int, positions: seq<nat>, i: nat, j: nat)
    requires EvenLabels(keys, columns) && Arranged(rd, keys, order, positions) && i < j < |positions|
    ensures StandsBefore(rd, keys, order, positions[i], positions[j])
  {
    hide CompareLabels, LabelsBefore;
    var a, b := keys[positions[i]].labels, keys[positions[j]].labels;
    assert Ahead(rd, keys, order, positions[i], positions[j]);
    LabelsMean(rd, a, b);
    LabelsMean(rd, b, a);
    LabelsChain(rd, a, b, a);
  }

  // No line of the table comes before one above it.
  lemma LinesAscend(rd: Reading, order: int, table: seq<seq<Value>>, depth: nat, columns: nat, n: nat, i: nat, j: nat)
    requires LinesSorted(rd, order, table, depth, columns, n) && i < j < n && order != 0
    requires |LineLabels(table, depth, columns, i)| == |LineLabels(table, depth, columns, j)|
    ensures var upper, lower := LineLabels(table, depth, columns, i), LineLabels(table, depth, columns, j);
            if order > 0 then !LabelsBefore(rd, lower, upper) else !LabelsBefore(rd, upper, lower)
  {
    hide CompareLabels, LabelsBefore, LineLabels;
    var upper, lower := LineLabels(table, depth, columns, i), LineLabels(table, depth, columns, j);
    LabelsMean(rd, upper, lower);
    LabelsMean(rd, lower, upper);
    LabelsChain(rd, upper, lower, upper);
  }

  // -------- what the cells hold --------

  // The values of some rows, in order.
  ghost predicate TakenFrom(slice: seq<Value>, values: seq<Value>, rows: seq<nat>) {
    |slice| == |rows| && forall k :: 0 <= k < |rows| ==> rows[k] < |values| && slice[k] == values[rows[k]]
  }

  lemma SliceTakes(values: seq<Value>, rows: seq<nat>)
    requires forall r :: r in rows ==> r < |values|
    ensures TakenFrom(Slice(values, rows), values, rows)
  {
    forall k | 0 <= k < |rows| ensures rows[k] < |values| { assert rows[k] in rows; }
  }

  // A cell of PIVOTBY is the function of the values of exactly the rows with its two
  // labels, from top to bottom, and empty where there are none.
  lemma PivotCell(table: seq<seq<Value>>, depth: nat, columns: nat, f: Aggregate, values: seq<Value>, c: Crossing, totals: bool, lo: nat, i: nat, j: nat)
    returns (rows: seq<nat>, slice: seq<Value>)
    requires IsPivot(table, depth, columns, f, values, c, totals) && c.rows == Range(lo, |values|) && i < |c.downNames| && j < |c.acrossNames|
    ensures Increasing(rows) && TakenFrom(slice, values, rows)
    ensures forall r :: r in rows <==> lo <= r < |values| && KeyAt(c.downKeys, r) == c.downNames[i] && KeyAt(c.acrossKeys, r) == c.acrossNames[j]
    ensures depth + i < |table| && columns + j < |table[depth + i]|
    ensures if rows == [] then table[depth + i][columns + j] == Empty else f(slice) == Some(table[depth + i][columns + j])
  {
    hide Pick, Range, Slice;
    var line := Pick(c.downKeys, c.rows, c.downNames[i]);
    rows := Pick(c.acrossKeys, line, c.acrossNames[j]);
    slice := Slice(values, rows);
    RangeHas(lo, |values|);
    PickHas(c.downKeys, c.rows, c.downNames[i]);
    PickHas(c.acrossKeys, line, c.acrossNames[j]);
    SliceTakes(values, rows);
    assert BodyLine(table[depth + i], table[depth + i][..columns], f, values, c, line, totals);
  }

  // The total of a line is the function of all rows of its label.
  lemma PivotTotal(table: seq<seq<Value>>, depth: nat, columns: nat, f: Aggregate, values: seq<Value>, c: Crossing, lo: nat, i: nat)
    returns (rows: seq<nat>, slice: seq<Value>)
    requires IsPivot(table, depth, columns, f, values, c, true) && c.rows == Range(lo, |values|) && i < |c.downNames|
    ensures Increasing(rows) && TakenFrom(slice, values, rows)
    ensures forall r :: r in rows <==> lo <= r < |values| && KeyAt(c.downKeys, r) == c.downNames[i]
    ensures depth + i < |table| && |table[depth + i]| > 0 && f(slice) == Some(table[depth + i][|table[depth + i]| - 1])
  {
    hide Pick, Range, Slice;
    rows := Pick(c.downKeys, c.rows, c.downNames[i]);
    slice := Slice(values, rows);
    RangeHas(lo, |values|);
    PickHas(c.downKeys, c.rows, c.downNames[i]);
    SliceTakes(values, rows);
    assert BodyLine(table[depth + i], table[depth + i][..columns], f, values, c, rows, true);
  }

  // A cell of GROUPBY is the function of its column's values in the group's rows.
  lemma GroupCell(table: seq<seq<Value>>, depth: nat, f: Aggregate, values: Grid, g: Gathered, order: seq<nat>, keys: seq<string>, lo: nat, columns: nat,
                  totals: bool, i: nat, j: nat) returns (rows: seq<nat>, slice: seq<Value>)
    requires values.Valid() && InRange(order, |g.keys|) && i < |order| && j < values.columns
    requires IsGrouped(table, depth, f, values, g, order, keys, Range(lo, |values.rows|), columns, totals)
    ensures Increasing(rows) && (forall r :: r in rows <==> lo <= r < |values.rows| && KeyAt(keys, r) == g.keys[order[i]].parts)
    ensures |slice| == |rows| && forall k :: 0 <= k < |rows| ==> rows[k] < |values.rows| && slice[k] == values.rows[rows[k]][j]
    ensures depth + i < |table| && |g.keys[order[i]].labels| + j < |table[depth + i]|
    ensures f(slice) == Some(table[depth + i][|g.keys[order[i]].labels| + j])
  {
    hide Pick, Range, Slice;
    var parts := g.keys[order[i]].parts;
    rows := Pick(keys, Range(lo, |values.rows|), parts);
    slice := Slice(Column(values, j), rows);
    RangeHas(lo, |values.rows|);
    PickHas(keys, Range(lo, |values.rows|), parts);
    SliceTakes(Column(values, j), rows);
    assert GroupLine(table[depth + i], g.keys[order[i]].labels, f, values, rows);
  }
}
