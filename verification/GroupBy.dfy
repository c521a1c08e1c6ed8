/**
  GROUPBY and PIVOTBY: rows gathered by their labels, crossed, and handed group
  by group to an aggregating function.
*/
module GroupBy {
  import opened CellAddress

  datatype Value = Empty | Text(text: string) | Truth(truth: bool) | Num(number: real)

  const TOTAL_LABEL := Text("총합계")

  // Cells of an argument, row by row.
  datatype Grid = Grid(rows: seq<seq<Value>>, columns: nat)
  {
    predicate Valid() { columns > 0 && forall i :: 0 <= i < |rows| ==> |rows[i]| == columns }
  }

  // How a row of labels becomes the text it is grouped by.
  type Keying = seq<Value> -> string

  function KeysOf(keying: Keying, fields: Grid): (keys: seq<string>)
    ensures |keys| == |fields.rows|
  {
    seq(|fields.rows|, i requires 0 <= i < |fields.rows| => keying(fields.rows[i]))
  }

  // -------- rows and buckets --------

  predicate Increasing(rows: seq<nat>) {
    forall i, j :: 0 <= i < j < |rows| ==> rows[i] < rows[j]
  }

  function Range(lo: nat, hi: nat): seq<nat> {
    if hi <= lo then [] else Range(lo, hi - 1) + [hi - 1]
  }

  lemma {:induction false} RangeHas(lo: nat, hi: nat)
    ensures Increasing(Range(lo, hi)) && forall r :: r in Range(lo, hi) <==> lo <= r < hi
  {
    if lo < hi {
      RangeHas(lo, hi - 1);
      RangeGrows(lo, hi - 1, Range(lo, hi - 1));
    }
  }

  lemma RangeGrows(lo: nat, hi: nat, front: seq<nat>)
    requires lo <= hi && Increasing(front) && forall r :: r in front <==> lo <= r < hi
    ensures Increasing(front + [hi]) && forall r :: r in front + [hi] <==> lo <= r < hi + 1
  {
    forall i, j | 0 <= i < j < |front| + 1
      ensures (front + [hi])[i] < (front + [hi])[j]
    {
      assert front[i] in front;
    }
  }

  function KeyAt(keys: seq<string>, r: nat): string { if r < |keys| then keys[r] else "" }

  function Only(r: nat, wanted: bool): seq<nat> { if wanted then [r] else [] }

  // The rows whose key is k, in order.
  function Pick(keys: seq<string>, rows: seq<nat>, k: string): seq<nat> {
    if rows == [] then []
    else
      var last := rows[|rows| - 1];
      Pick(keys, rows[..|rows| - 1], k) + Only(last, KeyAt(keys, last) == k)
  }

  lemma PickAppend(keys: seq<string>, rows: seq<nat>, r: nat, k: string)
    ensures Pick(keys, rows + [r], k) == Pick(keys, rows, k) + Only(r, KeyAt(keys, r) == k)
  {
    var all := rows + [r];
    assert all[..|all| - 1] == rows && all[|all| - 1] == r;
  }

  lemma {:induction false} PickHas(keys: seq<string>, rows: seq<nat>, k: string)
    ensures forall r :: r in Pick(keys, rows, k) <==> r in rows && KeyAt(keys, r) == k
    ensures Increasing(rows) ==> Increasing(Pick(keys, rows, k))
  {
    if rows != [] {
      var front, last := rows[..|rows| - 1], rows[|rows| - 1];
      PickHas(keys, front, k);
      assert rows == front + [last];
      var before := Pick(keys, front, k);
      assert forall i :: 0 <= i < |before| ==> before[i] in before;
    }
  }

  // Crossing rows and columns does not depend on which comes first.
  lemma {:induction false} PickCommutes(keys: seq<string>, others: seq<string>, rows: seq<nat>, k: string, o: string)
    ensures Pick(others, Pick(keys, rows, k), o) == Pick(keys, Pick(others, rows, o), k)
  {
    if rows != [] {
      var front, last := rows[..|rows| - 1], rows[|rows| - 1];
      PickCommutes(keys, others, front, k, o);
      PickOnly(others, Pick(keys, front, k), last, KeyAt(keys, last) == k, o);
      PickOnly(keys, Pick(others, front, o), last, KeyAt(others, last) == o, k);
    }
  }

  lemma PickOnly(keys: seq<string>, rows: seq<nat>, r: nat, wanted: bool, k: string)
    ensures Pick(keys, rows + Only(r, wanted), k) == Pick(keys, rows, k) + Only(r, wanted && KeyAt(keys, r) == k)
  {
    if wanted {
      PickAppend(keys, rows, r, k);
    } else {
      assert rows + [] == rows && Pick(keys, rows, k) + [] == Pick(keys, rows, k);
    }
  }

  // Every row lies in exactly one crossing, once.
  lemma OneBucketEach(downKeys: seq<string>, acrossKeys: seq<string>, lo: nat, hi: nat, r: nat, d: string, a: string)
    requires lo <= r < hi
    ensures var bucket := Pick(acrossKeys, Pick(downKeys, Range(lo, hi), d), a);
            && (r in bucket <==> d == KeyAt(downKeys, r) && a == KeyAt(acrossKeys, r))
            && Increasing(bucket)
  {
    RangeHas(lo, hi);
    PickHas(downKeys, Range(lo, hi), d);
    PickHas(acrossKeys, Pick(downKeys, Range(lo, hi), d), a);
  }

  // -------- gathering --------

  datatype GroupKey = GroupKey(parts: string, labels: seq<Value>)

  datatype Gathered = Gathered(keys: seq<GroupKey>, index: map<string, nat>, rows: seq<seq<nat>>)
  {
    predicate Indexed() {
      && |keys| == |rows|
      && (forall k :: k in index ==> index[k] < |keys| && keys[index[k]].parts == k)
      && (forall p :: 0 <= p < |keys| ==> keys[p].parts in index && index[keys[p].parts] == p)
    }
  }

  // The group's rows are all the rows with its key, and the first names it.
  predicate GroupIs(group: seq<nat>, key: GroupKey, keys: seq<string>, fields: Grid, lo: nat, hi: nat) {
    && group == Pick(keys, Range(lo, hi), key.parts)
    && group != [] && group[0] < |fields.rows| && key.labels == fields.rows[group[0]]
  }

  // The groups are the keys that occur, in the order of first appearance.
  ghost predicate Gathers(g: Gathered, keys: seq<string>, fields: Grid, lo: nat, hi: nat) {
    && g.Indexed()
    && (forall r :: lo <= r < hi ==> KeyAt(keys, r) in g.index)
    && (forall p :: 0 <= p < |g.keys| ==> GroupIs(g.rows[p], g.keys[p], keys, fields, lo, hi))
    && (forall p, q :: 0 <= p < q < |g.keys| ==> g.rows[p][0] < g.rows[q][0])
  }

  method GatherGroups(keying: Keying, fields: Grid, lo: nat, hi: nat) returns (g: Gathered)
    requires lo <= hi <= |fields.rows|
    ensures Gathers(g, KeysOf(keying, fields), fields, lo, hi)
  {
    hide Gathers, KeysOf, Range, Pick;
    ghost var keys := KeysOf(keying, fields);
    g := Gathered([], map[], []);
    NoGroups(keys, fields, lo);
    for row := lo to hi
      invariant Gathers(g, keys, fields, lo, row) && g.Indexed()
    {
      var key := GroupKey(keying(fields.rows[row]), fields.rows[row]);
      ghost var before := g;
      if key.parts !in g.index {
        g := Gathered(g.keys + [key], g.index[key.parts := |g.keys|], g.rows + [[]]);
      }
      var position := g.index[key.parts];
      g := g.(rows := g.rows[position := g.rows[position] + [row]]);
      assert [] + [row] == [row];
      assert key.parts !in before.index ==> (before.rows + [[]])[|before.rows| := [row]] == before.rows + [[row]];
      assert g == Added(before, key, row);
      KeyIs(keying, fields, row);
      GatherStep(before, keys, fields, lo, row);
    }
  }

  lemma KeyIs(keying: Keying, fields: Grid, row: nat)
    requires row < |fields.rows|
    ensures KeyAt(KeysOf(keying, fields), row) == keying(fields.rows[row])
  {
  }

  lemma NoGroups(keys: seq<string>, fields: Grid, lo: nat)
    ensures Gathers(Gathered([], map[], []), keys, fields, lo, lo)
  {
  }

  // The groups with one more row.
  function Added(g: Gathered, key: GroupKey, row: nat): Gathered
    requires g.Indexed()
  {
    if key.parts in g.index then
      var p := g.index[key.parts];
      g.(rows := g.rows[p := g.rows[p] + [row]])
    else Gathered(g.keys + [key], g.index[key.parts := |g.keys|], g.rows + [[row]])
  }

  lemma GatherStep(g: Gathered, keys: seq<string>, fields: Grid, lo: nat, row: nat)
    requires lo <= row < |fields.rows| && Gathers(g, keys, fields, lo, row) && g.Indexed()
    ensures var h := Added(g, GroupKey(KeyAt(keys, row), fields.rows[row]), row);
            h.Indexed() && Gathers(h, keys, fields, lo, row + 1)
  {
    hide Range, Pick, GroupIs;
    var key := GroupKey(KeyAt(keys, row), fields.rows[row]);
    var h := Added(g, key, row);
    forall p | 0 <= p < |h.keys|
      ensures GroupIs(h.rows[p], h.keys[p], keys, fields, lo, row + 1)
      ensures p < |g.keys| ==> h.rows[p] != [] && g.rows[p] != [] && h.rows[p][0] == g.rows[p][0] && g.rows[p][0] < row
      ensures p == |g.keys| ==> h.rows[p] == [row]
    {
      if p < |g.keys| {
        GroupGrows(g.rows[p], g.keys[p], keys, fields, lo, row);
      } else {
        NewGroup(g, key, keys, fields, lo, row);
      }
    }
  }

  lemma GroupGrows(group: seq<nat>, key: GroupKey, keys: seq<string>, fields: Grid, lo: nat, row: nat)
    requires lo <= row && GroupIs(group, key, keys, fields, lo, row)
    ensures group != [] && group[0] < row
    ensures GroupIs(group + Only(row, KeyAt(keys, row) == key.parts), key, keys, fields, lo, row + 1)
    ensures KeyAt(keys, row) != key.parts ==> group + Only(row, false) == group
  {
    PickAppend(keys, Range(lo, row), row, key.parts);
    RangeHas(lo, row);
    PickHas(keys, Range(lo, row), key.parts);
    assert group[0] in group;
  }

  lemma NewGroup(g: Gathered, key: GroupKey, keys: seq<string>, fields: Grid, lo: nat, row: nat)
    requires lo <= row < |fields.rows| && Gathers(g, keys, fields, lo, row) && key.parts !in g.index
    requires key == GroupKey(KeyAt(keys, row), fields.rows[row])
    ensures GroupIs([row], key, keys, fields, lo, row + 1)
  {
    PickAppend(keys, Range(lo, row), row, key.parts);
    RangeHas(lo, row);
    var before := Pick(keys, Range(lo, row), key.parts);
    PickHas(keys, Range(lo, row), key.parts);
    HeadIn(before);
  }

  lemma HeadIn(rows: seq<nat>)
    ensures rows != [] ==> rows[0] in rows
  {
  }

  // -------- adding up --------

  function At(values: seq<real>, r: nat): real { if r < |values| then values[r] else 0.0 }

  function Total(values: seq<real>, rows: seq<nat>): real {
    if rows == [] then 0.0 else Total(values, rows[..|rows| - 1]) + At(values, rows[|rows| - 1])
  }

  // The totals of the named groups, added up.
  function TotalOfGroups(values: seq<real>, keys: seq<string>, rows: seq<nat>, names: seq<string>): real {
    if names == [] then 0.0
    else
      TotalOfGroups(values, keys, rows, names[..|names| - 1]) + Total(values, Pick(keys, rows, names[|names| - 1]))
  }

  predicate Distinct(names: seq<string>) {
    forall i, j :: 0 <= i < j < |names| ==> names[i] != names[j]
  }

  lemma TotalOnly(values: seq<real>, rows: seq<nat>, r: nat, wanted: bool)
    ensures Total(values, rows + Only(r, wanted)) == Total(values, rows) + if wanted then At(values, r) else 0.0
  {
    if wanted {
      assert (rows + [r])[..|rows|] == rows;
    } else {
      assert rows + [] == rows;
    }
  }

  lemma {:induction false} GroupsAfterRow(values: seq<real>, keys: seq<string>, rows: seq<nat>, r: nat, names: seq<string>)
    requires Distinct(names)
    ensures TotalOfGroups(values, keys, rows + [r], names)
         == TotalOfGroups(values, keys, rows, names) + if KeyAt(keys, r) in names then At(values, r) else 0.0
    decreases |names|
  {
    hide Pick, Total, Only, KeyAt, At;
    if names != [] {
      var front, last := names[..|names| - 1], names[|names| - 1];
      GroupsAfterRow(values, keys, rows, r, front);
      PickAppend(keys, rows, r, last);
      TotalOnly(values, Pick(keys, rows, last), r, KeyAt(keys, r) == last);
      assert names == front + [last];
    }
  }

  // Groups with distinct names that cover every row add up to the rows, in
  // whatever order the groups stand.
  lemma {:induction false} GroupsConserve(values: seq<real>, keys: seq<string>, rows: seq<nat>, names: seq<string>)
    requires Distinct(names) && forall r :: r in rows ==> KeyAt(keys, r) in names
    ensures TotalOfGroups(values, keys, rows, names) == Total(values, rows)
  {
    if rows == [] {
      NothingToAdd(values, keys, names);
    } else {
      hide TotalOfGroups, KeyAt, Distinct;
      var front, last := rows[..|rows| - 1], rows[|rows| - 1];
      assert rows == front + [last];
      GroupsConserve(values, keys, front, names);
      GroupsAfterRow(values, keys, front, last, names);
      assert KeyAt(keys, last) in names;
    }
  }

  lemma {:induction false} NothingToAdd(values: seq<real>, keys: seq<string>, names: seq<string>)
    ensures TotalOfGroups(values, keys, [], names) == 0.0
  {
    if names != [] { NothingToAdd(values, keys, names[..|names| - 1]); }
  }

  // -------- order of groups --------

  // Any order of n positions.
  predicate IsOrder(order: seq<nat>, n: nat) {
    && |order| == n
    && (forall i :: 0 <= i < n ==> order[i] < n)
    && (forall i, j :: 0 <= i < j < n ==> order[i] != order[j])
  }

  function NamesIn(g: Gathered, order: seq<nat>): (names: seq<string>)
    requires forall i :: 0 <= i < |order| ==> order[i] < |g.keys|
    ensures |names| == |order| && forall i :: 0 <= i < |order| ==> names[i] == g.keys[order[i]].parts
  {
    seq(|order|, i requires 0 <= i < |order| => g.keys[order[i]].parts)
  }

  lemma OrderCovers(order: seq<nat>, n: nat, p: nat)
    requires IsOrder(order, n) && p < n
    ensures p in order
  {
    assert p in Below(n) && |Below(n) - {p}| == n - 1;
    if p !in order { TooMany(order, Below(n) - {p}); }
  }

  function Below(n: nat): (s: set<nat>)
    ensures |s| == n && forall x: nat :: x in s <==> x < n
  {
    if n == 0 then {} else Below(n - 1) + {n - 1}
  }

  // Positions that do not repeat need as many values.
  lemma {:induction false} TooMany(order: seq<nat>, values: set<nat>)
    requires forall i :: 0 <= i < |order| ==> order[i] in values
    requires forall i, j :: 0 <= i < j < |order| ==> order[i] != order[j]
    ensures |order| <= |values|
  {
    if order != [] {
      var last := order[|order| - 1];
      TooMany(order[..|order| - 1], values - {last});
    }
  }

  // Whatever the order, the names are distinct and every row has its group.
  lemma OrderedNames(g: Gathered, keys: seq<string>, fields: Grid, lo: nat, hi: nat, order: seq<nat>)
    requires Gathers(g, keys, fields, lo, hi) && IsOrder(order, |g.keys|)
    ensures Distinct(NamesIn(g, order)) && forall r :: lo <= r < hi ==> KeyAt(keys, r) in NamesIn(g, order)
  {
    var names := NamesIn(g, order);
    forall r | lo <= r < hi ensures KeyAt(keys, r) in names {
      var p := g.index[KeyAt(keys, r)];
      OrderCovers(order, |g.keys|, p);
      var i :| 0 <= i < |order| && order[i] == p;
      assert names[i] == KeyAt(keys, r);
    }
    forall i, j | 0 <= i < j < |names| ensures names[i] != names[j] {
      assert g.index[names[i]] == order[i] && g.index[names[j]] == order[j];
    }
  }

  // -------- comparing labels --------

  // Text order, character by character.
  function CompareText(a: string, b: string): int {
    if a == "" && b == "" then 0
    else if a == "" then -1
    else if b == "" then 1
    else if a[0] < b[0] then -1
    else if a[0] > b[0] then 1
    else CompareText(a[1..], b[1..])
  }

  // How a label reads as a number, if it does, and as text.
  datatype Reading = Reading(number: Value -> Option<real>, text: Value -> string)

  // Numbers by size, before everything else; the rest as text.
  function CompareLabel(rd: Reading, a: Value, b: Value): int {
    var x, y := rd.number(a), rd.number(b);
    if x.Some? && y.Some? then (if x.value < y.value then -1 else if x.value > y.value then 1 else 0)
    else if x.Some? != y.Some? then (if x.Some? then -1 else 1)
    else CompareText(rd.text(a), rd.text(b))
  }

  // Label by label; the first that differs decides.
  function CompareLabels(rd: Reading, a: seq<Value>, b: seq<Value>): int {
    if a == [] || b == [] then 0
    else
      var first := CompareLabel(rd, a[0], b[0]);
      if first != 0 then first else CompareLabels(rd, a[1..], b[1..])
  }

  method LessGroupLabels(rd: Reading, left: seq<Value>, right: seq<Value>) returns (less: bool)
    requires |left| == |right|
    ensures less <==> CompareLabels(rd, left, right) < 0
  {
    for i := 0 to |left|
      invariant CompareLabels(rd, left, right) == CompareLabels(rd, left[i..], right[i..])
    {
      assert left[i..][1..] == left[i + 1..] && right[i..][1..] == right[i + 1..];
      var order := CompareLabel(rd, left[i], right[i]);
      if order == -1 { return true; }
      if order == 1 { return false; }
      assert order == 0 by { SignOnly(rd, left[i], right[i]); }
    }
    less := false;
  }

  lemma SignOnly(rd: Reading, a: Value, b: Value)
    ensures CompareLabel(rd, a, b) in {-1, 0, 1}
  {
    TextSign(rd.text(a), rd.text(b));
  }

  lemma {:induction false} TextSign(a: string, b: string)
    ensures CompareText(a, b) in {-1, 0, 1} && CompareText(b, a) == -CompareText(a, b)
  {
    if a != "" && b != "" { TextSign(a[1..], b[1..]); }
  }

  // Signs that chain: at most, and strictly if one of the steps is strict.
  predicate Chains(ab: int, bc: int, ac: int) {
    ab <= 0 && bc <= 0 ==> ac <= 0 && (ab < 0 || bc < 0 ==> ac < 0)
  }

  lemma {:induction false} TextChains(a: string, b: string, c: string)
    ensures Chains(CompareText(a, b), CompareText(b, c), CompareText(a, c))
    decreases |a|
  {
    if a != "" && b != "" && c != "" { TextChains(a[1..], b[1..], c[1..]); }
  }

  // The order of group labels is one a sort can rely on, upwards and, being its
  // mirror image, downwards: opposite ways round it gives opposite answers, and
  // it chains.
  lemma {:induction false} LabelsChain(rd: Reading, a: seq<Value>, b: seq<Value>, c: seq<Value>)
    requires |a| == |b| == |c|
    ensures CompareLabels(rd, b, a) == -CompareLabels(rd, a, b)
    ensures Chains(CompareLabels(rd, a, b), CompareLabels(rd, b, c), CompareLabels(rd, a, c))
    decreases |a|
  {
    hide CompareText;
    if a != [] {
      LabelsChain(rd, a[1..], b[1..], c[1..]);
      OneLabelChains(rd, a[0], b[0], c[0]);
      OneLabelChains(rd, c[0], b[0], a[0]);
      OneLabelChains(rd, b[0], a[0], c[0]);
      OneLabelChains(rd, a[0], c[0], b[0]);
    }
  }

  lemma OneLabelChains(rd: Reading, a: Value, b: Value, c: Value)
    ensures CompareLabel(rd, b, a) == -CompareLabel(rd, a, b)
    ensures Chains(CompareLabel(rd, a, b), CompareLabel(rd, b, c), CompareLabel(rd, a, c))
  {
    hide CompareText;
    TextSign(rd.text(a), rd.text(b));
    TextChains(rd.text(a), rd.text(b), rd.text(c));
  }

  // How two label lists compare under a sort order: upwards, downwards, or not at
  // all.
  function CompareFor(rd: Reading, order: int, a: seq<Value>, b: seq<Value>): int {
    if order == 0 then 0 else if order < 0 then CompareLabels(rd, b, a) else CompareLabels(rd, a, b)
  }

  // Ties are broken by first appearance, which is what makes the sort stable.
  predicate Ahead(rd: Reading, keys: seq<GroupKey>, order: int, p: nat, q: nat)
    requires p < |keys| && q < |keys|
  {
    var sign := CompareFor(rd, order, keys[p].labels, keys[q].labels);
    sign < 0 || (sign == 0 && p < q)
  }

  ghost predicate Arranged(rd: Reading, keys: seq<GroupKey>, order: int, positions: seq<nat>) {
    && InRange(positions, |keys|)
    && forall i, j :: 0 <= i < j < |positions| ==> Ahead(rd, keys, order, positions[i], positions[j])
  }

  ghost predicate EvenLabels(keys: seq<GroupKey>, columns: nat) { forall p :: 0 <= p < |keys| ==> |keys[p].labels| == columns }

  lemma AheadChains(rd: Reading, keys: seq<GroupKey>, columns: nat, order: int, p: nat, q: nat, r: nat)
    requires EvenLabels(keys, columns) && p < |keys| && q < |keys| && r < |keys|
    ensures p != q ==> (Ahead(rd, keys, order, p, q) <==> !Ahead(rd, keys, order, q, p))
    ensures Ahead(rd, keys, order, p, q) && Ahead(rd, keys, order, q, r) ==> Ahead(rd, keys, order, p, r)
  {
    hide CompareLabels;
    LabelsChain(rd, keys[p].labels, keys[q].labels, keys[r].labels);
    LabelsChain(rd, keys[r].labels, keys[q].labels, keys[p].labels);
    LabelsChain(rd, keys[q].labels, keys[p].labels, keys[r].labels);
  }

  // There is only one way to stand in order, so every stable sort gives it.
  lemma {:induction false} ArrangedOnce(rd: Reading, keys: seq<GroupKey>, columns: nat, order: int, a: seq<nat>, b: seq<nat>, n: nat)
    requires EvenLabels(keys, columns) && IsOrder(a, |keys|) && IsOrder(b, |keys|) && n <= |keys|
    requires Arranged(rd, keys, order, a) && Arranged(rd, keys, order, b)
    ensures a[..n] == b[..n]
    decreases n
  {
    hide Ahead, EvenLabels;
    if n > 0 {
      var i := n - 1;
      ArrangedOnce(rd, keys, columns, order, a, b, i);
      if a[i] != b[i] {
        NextIsAhead(rd, keys, order, a, b, i);
        NextIsAhead(rd, keys, order, b, a, i);
        AheadChains(rd, keys, columns, order, a[i], b[i], b[i]);
        assert false;
      }
      assert a[..n] == a[..i] + [a[i]] && b[..n] == b[..i] + [b[i]];
    }
  }

  // Where two orders part, what stands next in one stands later in the other.
  lemma NextIsAhead(rd: Reading, keys: seq<GroupKey>, order: int, a: seq<nat>, b: seq<nat>, i: nat)
    requires IsOrder(a, |keys|) && IsOrder(b, |keys|) && Arranged(rd, keys, order, b)
    requires i < |keys| && a[..i] == b[..i] && a[i] != b[i]
    ensures Ahead(rd, keys, order, b[i], a[i])
  {
    hide Ahead;
    OrderCovers(b, |keys|, a[i]);
    var k :| 0 <= k < |b| && b[k] == a[i];
    assert forall m :: 0 <= m < i ==> a[..i][m] == b[..i][m];
  }

  // orderGroups: a stable sort by labels, or the groups as they appear.
  method OrderGroups(rd: Reading, keys: seq<GroupKey>, columns: nat, order: int) returns (positions: seq<nat>)
    requires EvenLabels(keys, columns)
    ensures IsOrder(positions, |keys|) && Arranged(rd, keys, order, positions)
  {
    if order == 0 { return seq(|keys|, i requires 0 <= i < |keys| => i); }
    hide Ahead;
    positions := [];
    for p := 0 to |keys|
      invariant IsOrder(positions, p) && Arranged(rd, keys, order, positions)
    {
      var j := p;
      while j > 0
        invariant 0 <= j <= p && forall k :: j <= k < p ==> Ahead(rd, keys, order, p, positions[k])
      {
        var less := Sooner(rd, keys, columns, order, p, positions[j - 1]);
        if !less { break; }
        j := j - 1;
      }
      if j > 0 { AllBefore(rd, keys, columns, order, positions, j, p); }
      Inserted(rd, keys, order, positions, j, p);
      positions := positions[..j] + [p] + positions[j..];
    }
  }

  // The comparison the sort is given; `q` appeared before `p`.
  method Sooner(rd: Reading, keys: seq<GroupKey>, columns: nat, order: int, p: nat, q: nat) returns (less: bool)
    requires EvenLabels(keys, columns) && q < p < |keys| && order != 0
    ensures less <==> Ahead(rd, keys, order, p, q)
    ensures !less <==> Ahead(rd, keys, order, q, p)
  {
    hide CompareLabels;
    var first, second := keys[p].labels, keys[q].labels;
    if order < 0 { first, second := second, first; }
    less := LessGroupLabels(rd, first, second);
    LabelsChain(rd, first, second, first);
  }

  lemma AllBefore(rd: Reading, keys: seq<GroupKey>, columns: nat, order: int, positions: seq<nat>, j: nat, p: nat)
    requires EvenLabels(keys, columns) && Arranged(rd, keys, order, positions) && p < |keys|
    requires 0 < j <= |positions| && Ahead(rd, keys, order, positions[j - 1], p)
    ensures forall k :: 0 <= k < j ==> Ahead(rd, keys, order, positions[k], p)
  {
    hide Ahead, EvenLabels;
    forall k | 0 <= k < j ensures Ahead(rd, keys, order, positions[k], p) {
      if k < j - 1 { AheadChains(rd, keys, columns, order, positions[k], positions[j - 1], p); }
    }
  }

  lemma Inserted(rd: Reading, keys: seq<GroupKey>, order: int, positions: seq<nat>, j: nat, p: nat)
    requires p < |keys| && IsOrder(positions, p) && Arranged(rd, keys, order, positions) && j <= p
    requires (forall k :: 0 <= k < j ==> Ahead(rd, keys, order, positions[k], p))
    requires (forall k :: j <= k < p ==> Ahead(rd, keys, order, p, positions[k]))
    ensures var t := positions[..j] + [p] + positions[j..];
            IsOrder(t, p + 1) && Arranged(rd, keys, order, t)
  {
    hide Ahead;
    var t := positions[..j] + [p] + positions[j..];
    assert forall k :: 0 <= k < |t| ==> t[k] == if k < j then positions[k] else if k == j then p else positions[k - 1];
  }

  // The labels at the front of a line below the headers.
  function LineLabels(table: seq<seq<Value>>, depth: nat, columns: nat, i: nat): seq<Value> {
    if depth + i < |table| && columns <= |table[depth + i]| then table[depth + i][..columns] else []
  }

  // Lines whose labels never step back under the sort order.
  ghost predicate LinesSorted(rd: Reading, order: int, table: seq<seq<Value>>, depth: nat, columns: nat, n: nat) {
    forall i, j :: 0 <= i < j < n ==>
                     CompareFor(rd, order, LineLabels(table, depth, columns, i), LineLabels(table, depth, columns, j)) <= 0
  }

  lemma SortedByLabels(rd: Reading, keys: seq<GroupKey>, order: int, positions: seq<nat>, table: seq<seq<Value>>, depth: nat, columns: nat)
    requires Arranged(rd, keys, order, positions)
    requires forall i :: 0 <= i < |positions| ==> LineLabels(table, depth, columns, i) == keys[positions[i]].labels
    ensures LinesSorted(rd, order, table, depth, columns, |positions|)
  {
    hide CompareFor, LineLabels;
    forall i, j | 0 <= i < j < |positions|
      ensures CompareFor(rd, order, LineLabels(table, depth, columns, i), LineLabels(table, depth, columns, j)) <= 0
    {
      assert Ahead(rd, keys, order, positions[i], positions[j]);
    }
  }

  // -------- aggregating --------

  // None stands for an error.
  type Aggregate = seq<Value> -> Option<Value>

  function ValueAt(values: seq<Value>, r: nat): Value { if r < |values| then values[r] else Empty }

  function Slice(values: seq<Value>, rows: seq<nat>): (slice: seq<Value>)
    ensures |slice| == |rows|
  {
    seq(|rows|, i requires 0 <= i < |rows| => ValueAt(values, rows[i]))
  }

  function Apply(f: Aggregate, values: seq<Value>, rows: seq<nat>): Option<Value> { f(Slice(values, rows)) }

  // A crossing without rows stays empty.
  function CellOf(f: Aggregate, values: seq<Value>, rows: seq<nat>): Option<Value> {
    if rows == [] then Some(Empty) else Apply(f, values, rows)
  }

  function Bucket(byAcross: map<nat, seq<nat>>, position: nat): seq<nat> {
    if position in byAcross then byAcross[position] else []
  }

  function Extra(totals: bool): nat { if totals then 1 else 0 }

  // One line of the table: labels, a cell per column group, and the total.
  ghost predicate LineIs(line: seq<Value>, labels: seq<Value>, f: Aggregate, values: seq<Value>, lists: seq<seq<nat>>,
                         rows: seq<nat>, totals: bool) {
    && |line| == |labels| + |lists| + Extra(totals)
    && line[..|labels|] == labels
    && (forall j :: 0 <= j < |lists| ==> CellOf(f, values, lists[j]) == Some(line[|labels| + j]))
    && (totals ==> Apply(f, values, rows) == Some(line[|line| - 1]))
  }

  function ListsOf(byAcross: map<nat, seq<nat>>, order: seq<nat>): (lists: seq<seq<nat>>)
    ensures |lists| == |order| && forall j :: 0 <= j < |order| ==> lists[j] == Bucket(byAcross, order[j])
  {
    seq(|order|, j requires 0 <= j < |order| => Bucket(byAcross, order[j]))
  }

  method Emit(f: Aggregate, values: seq<Value>, order: seq<nat>, byAcross: map<nat, seq<nat>>, labels: seq<Value>,
              everyRow: seq<nat>, totals: bool) returns (line: Option<seq<Value>>)
    ensures line.Some? ==> LineIs(line.value, labels, f, values, ListsOf(byAcross, order), everyRow, totals)
    ensures line.None? ==> (exists j :: 0 <= j < |order| && CellOf(f, values, Bucket(byAcross, order[j])).None?)
                           || (totals && Apply(f, values, everyRow).None?)
    ensures line.None? ==> Fails(f, values)
  {
    var out := labels;
    for j := 0 to |order|
      invariant |out| == |labels| + j && out[..|labels|] == labels
      invariant forall i :: 0 <= i < j ==> CellOf(f, values, Bucket(byAcross, order[i])) == Some(out[|labels| + i])
    {
      var cellRows := Bucket(byAcross, order[j]);
      if |cellRows| == 0 {
        out := out + [Empty];
      } else {
        var computed := Apply(f, values, cellRows);
        if computed.None? { return None; }
        out := out + [computed.value];
      }
    }
    if totals {
      var computed := Apply(f, values, everyRow);
      if computed.None? { return None; }
      out := out + [computed.value];
    }
    line := Some(out);
  }

  // Short lines are filled up with empty cells.
  method MatrixToArray(rows: seq<seq<Value>>, width: nat) returns (out: seq<seq<Value>>)
    ensures |out| == |rows|
    ensures forall i :: 0 <= i < |rows| ==> |out[i]| == width
    ensures forall i, j :: 0 <= i < |rows| && 0 <= j < width ==> out[i][j] == if j < |rows[i]| then rows[i][j] else Empty
    ensures (forall i :: 0 <= i < |rows| ==> |rows[i]| == width) ==> out == rows
  {
    out := [];
    for i := 0 to |rows|
      invariant |out| == i
      invariant forall k :: 0 <= k < i ==> |out[k]| == width
      invariant forall k, j :: 0 <= k < i && 0 <= j < width ==> out[k][j] == if j < |rows[k]| then rows[k][j] else Empty
    {
      var line := [];
      for column := 0 to width
        invariant |line| == column
        invariant forall j :: 0 <= j < column ==> line[j] == if j < |rows[i]| then rows[i][j] else Empty
      {
        line := line + [if column < |rows[i]| then rows[i][column] else Empty];
      }
      out := out + [line];
    }
    if forall i :: 0 <= i < |rows| ==> |rows[i]| == width {
      assert forall i :: 0 <= i < |rows| ==> out[i] == rows[i];
    }
  }

  // -------- PIVOTBY --------

  // Buckets by position of the row group and position of the column group.
  type Buckets = map<nat, map<nat, seq<nat>>>

  function Row(buckets: Buckets, down: nat): map<nat, seq<nat>> {
    if down in buckets then buckets[down] else map[]
  }

  ghost predicate BucketsAre(buckets: Buckets, down: Gathered, across: Gathered, downKeys: seq<string>, acrossKeys: seq<string>,
                             rows: seq<nat>) {
    forall d, a :: 0 <= d < |down.keys| && 0 <= a < |across.keys| ==>
                     Bucket(Row(buckets, d), a) == Pick(acrossKeys, Pick(downKeys, rows, down.keys[d].parts), across.keys[a].parts)
  }

  method FillBuckets(keying: Keying, rowFields: Grid, columnFields: Grid, down: Gathered, across: Gathered, lo: nat, hi: nat)
    returns (buckets: Buckets)
    requires lo <= hi <= |rowFields.rows| == |columnFields.rows|
    requires down.Indexed() && Gathers(down, KeysOf(keying, rowFields), rowFields, lo, hi)
    requires across.Indexed() && Gathers(across, KeysOf(keying, columnFields), columnFields, lo, hi)
    ensures BucketsAre(buckets, down, across, KeysOf(keying, rowFields), KeysOf(keying, columnFields), Range(lo, hi))
  {
    hide Gathers, KeysOf, Range, Pick, BucketsAre, GroupIs, Row, Bucket;
    ghost var downKeys, acrossKeys := KeysOf(keying, rowFields), KeysOf(keying, columnFields);
    buckets := map[];
    NoBuckets(down, across, downKeys, acrossKeys, lo);
    for row := lo to hi
      invariant BucketsAre(buckets, down, across, downKeys, acrossKeys, Range(lo, row))
    {
      KeyIs(keying, rowFields, row);
      KeyIs(keying, columnFields, row);
      Known(down, downKeys, rowFields, lo, hi, row);
      Known(across, acrossKeys, columnFields, lo, hi, row);
      var d := down.index[keying(rowFields.rows[row])];
      var a := across.index[keying(columnFields.rows[row])];
      var line := Row(buckets, d);
      BucketStep(buckets, down, across, downKeys, acrossKeys, lo, row);
      buckets := buckets[d := line[a := Bucket(line, a) + [row]]];
    }
  }

  lemma Known(g: Gathered, keys: seq<string>, fields: Grid, lo: nat, hi: nat, row: nat)
    requires Gathers(g, keys, fields, lo, hi) && lo <= row < hi
    ensures KeyAt(keys, row) in g.index && g.index[KeyAt(keys, row)] < |g.keys|
  {
  }

  lemma NoBuckets(down: Gathered, across: Gathered, downKeys: seq<string>, acrossKeys: seq<string>, lo: nat)
    ensures BucketsAre(map[], down, across, downKeys, acrossKeys, Range(lo, lo))
  {
  }

  lemma BucketStep(buckets: Buckets, down: Gathered, across: Gathered, downKeys: seq<string>, acrossKeys: seq<string>, lo: nat, row: nat)
    requires lo <= row && down.Indexed() && across.Indexed()
    requires KeyAt(downKeys, row) in down.index && KeyAt(acrossKeys, row) in across.index
    requires BucketsAre(buckets, down, across, downKeys, acrossKeys, Range(lo, row))
    ensures var d, a := down.index[KeyAt(downKeys, row)], across.index[KeyAt(acrossKeys, row)];
            var line := Row(buckets, d);
            BucketsAre(buckets[d := line[a := Bucket(line, a) + [row]]], down, across, downKeys, acrossKeys, Range(lo, row + 1))
  {
    hide Pick, Range;
    var d, a := down.index[KeyAt(downKeys, row)], across.index[KeyAt(acrossKeys, row)];
    var line := Row(buckets, d);
    var after := buckets[d := line[a := Bucket(line, a) + [row]]];
    RangeNext(lo, row);
    forall e, b | 0 <= e < |down.keys| && 0 <= b < |across.keys|
      ensures Bucket(Row(after, e), b)
           == Pick(acrossKeys, Pick(downKeys, Range(lo, row + 1), down.keys[e].parts), across.keys[b].parts)
    {
      var before := Bucket(Row(buckets, e), b);
      PickAppend(downKeys, Range(lo, row), row, down.keys[e].parts);
      PickOnly(acrossKeys, Pick(downKeys, Range(lo, row), down.keys[e].parts), row, KeyAt(downKeys, row) == down.keys[e].parts, across.keys[b].parts);
      assert before + [] == before;
      assert Bucket(Row(after, e), b) == before + Only(row, e == d && b == a);
    }
  }

  lemma RangeNext(lo: nat, row: nat)
    requires lo <= row
    ensures Range(lo, row + 1) == Range(lo, row) + [row]
  {
  }

  // The bottom line: all rows, and all rows of each column group.
  method FillAcross(keying: Keying, columnFields: Grid, across: Gathered, lo: nat, hi: nat)
    returns (byAcross: map<nat, seq<nat>>, everyRow: seq<nat>)
    requires lo <= hi <= |columnFields.rows| && across.Indexed() && Gathers(across, KeysOf(keying, columnFields), columnFields, lo, hi)
    ensures everyRow == Range(lo, hi) && AcrossAre(byAcross, across, KeysOf(keying, columnFields), Range(lo, hi))
  {
    hide Gathers, KeysOf, Range, Pick, GroupIs, AcrossAre, Bucket;
    ghost var keys := KeysOf(keying, columnFields);
    byAcross, everyRow := map[], [];
    EmptyAcross(lo, across, keys);
    for row := lo to hi
      invariant everyRow == Range(lo, row) && AcrossAre(byAcross, across, keys, Range(lo, row))
    {
      KeyIs(keying, columnFields, row);
      Known(across, keys, columnFields, lo, hi, row);
      RangeNext(lo, row);
      AcrossStep(byAcross, across, keys, Range(lo, row), row);
      var position := across.index[keying(columnFields.rows[row])];
      byAcross := byAcross[position := Bucket(byAcross, position) + [row]];
      everyRow := everyRow + [row];
    }
  }

  ghost predicate AcrossAre(byAcross: map<nat, seq<nat>>, across: Gathered, keys: seq<string>, rows: seq<nat>) {
    forall a :: 0 <= a < |across.keys| ==> Bucket(byAcross, a) == Pick(keys, rows, across.keys[a].parts)
  }

  lemma EmptyAcross(lo: nat, across: Gathered, keys: seq<string>)
    ensures Range(lo, lo) == [] && AcrossAre(map[], across, keys, Range(lo, lo))
  {
  }

  lemma AcrossStep(byAcross: map<nat, seq<nat>>, across: Gathered, keys: seq<string>, rows: seq<nat>, row: nat)
    requires across.Indexed() && KeyAt(keys, row) in across.index && AcrossAre(byAcross, across, keys, rows)
    ensures var position := across.index[KeyAt(keys, row)];
            AcrossAre(byAcross[position := Bucket(byAcross, position) + [row]], across, keys, rows + [row])
  {
    hide Pick;
    var position := across.index[KeyAt(keys, row)];
    var after := byAcross[position := Bucket(byAcross, position) + [row]];
    forall a | 0 <= a < |across.keys| ensures Bucket(after, a) == Pick(keys, rows + [row], across.keys[a].parts) {
      PickAppend(keys, rows, row, across.keys[a].parts);
      assert Bucket(byAcross, a) + [] == Bucket(byAcross, a);
    }
  }

  // What the rows of the result are computed from.
  datatype Crossing = Crossing(downKeys: seq<string>, acrossKeys: seq<string>, rows: seq<nat>,
                               downNames: seq<string>, acrossNames: seq<string>)

  function ListsFor(acrossKeys: seq<string>, rows: seq<nat>, names: seq<string>): (lists: seq<seq<nat>>)
    ensures |lists| == |names| && forall j :: 0 <= j < |names| ==> lists[j] == Pick(acrossKeys, rows, names[j])
  {
    seq(|names|, j requires 0 <= j < |names| => Pick(acrossKeys, rows, names[j]))
  }

  ghost predicate BodyLine(line: seq<Value>, labels: seq<Value>, f: Aggregate, values: seq<Value>, c: Crossing, rows: seq<nat>, totals: bool) {
    LineIs(line, labels, f, values, ListsFor(c.acrossKeys, rows, c.acrossNames), rows, totals)
  }

  // The table: header lines, one line per row group, and the bottom line.
  ghost predicate IsPivot(table: seq<seq<Value>>, depth: nat, columns: nat, f: Aggregate, values: seq<Value>, c: Crossing, totals: bool) {
    && |table| == depth + |c.downNames| + Extra(totals)
    && (forall i :: 0 <= i < |table| ==> |table[i]| == columns + |c.acrossNames| + Extra(totals))
    && (forall i :: 0 <= i < |c.downNames| ==>
                      BodyLine(table[depth + i], table[depth + i][..columns], f, values, c, Pick(c.downKeys, c.rows, c.downNames[i]), totals))
    && (totals ==>
          BodyLine(table[|table| - 1], table[|table| - 1][..columns], f, values, c, c.rows, totals)
          && table[|table| - 1][0] == TOTAL_LABEL)
  }

  // The j-th column is headed by label h of its group.
  predicate HeaderCell(line: seq<Value>, columns: nat, across: Gathered, position: nat, h: nat, j: nat) {
    && columns + j < |line| && position < |across.keys| && h < |across.keys[position].labels|
    && line[columns + j] == across.keys[position].labels[h]
  }

  // Names of the row groups before the columns start, names of the column groups
  // above them.
  ghost predicate Labelled(table: seq<seq<Value>>, depth: nat, columns: nat, down: Gathered, across: Gathered,
                           downOrder: seq<nat>, acrossOrder: seq<nat>, totals: bool)
  {
    && |table| == depth + |downOrder| + Extra(totals)
    && (forall i :: 0 <= i < |table| ==> |table[i]| == columns + |acrossOrder| + Extra(totals))
    && (forall i :: 0 <= i < |downOrder| ==>
                      downOrder[i] < |down.keys| && table[depth + i][..columns] == down.keys[downOrder[i]].labels)
    && (forall h, j :: 0 <= h < depth && 0 <= j < |acrossOrder| ==> HeaderCell(table[h], columns, across, acrossOrder[j], h, j))
  }

  datatype Options = Options(headers: bool, totalDepth: int, sortOrder: int)

  // Why there is no table: arguments of different height, no rows, or an error
  // from the function.
  datatype Result = Table(rows: seq<seq<Value>>) | BadShape | NoRows | Failed

  method HeaderLine(rowFields: Grid, across: Gathered, order: seq<nat>, depth: nat, last: bool, options: Options)
    returns (header: seq<Value>)
    requires rowFields.Valid() && (options.headers ==> |rowFields.rows| > 0) && (forall j :: 0 <= j < |order| ==> order[j] < |across.keys|)
    ensures |header| == rowFields.columns + |order| + Extra(options.totalDepth > 0)
    ensures forall j :: 0 <= j < |order| && depth < |across.keys[order[j]].labels| ==>
                          header[rowFields.columns + j] == across.keys[order[j]].labels[depth]
    ensures options.headers && last ==> header[..rowFields.columns] == rowFields.rows[0]
    ensures !(options.headers && last) ==> forall k :: 0 <= k < rowFields.columns ==> header[k] == Empty
    ensures options.totalDepth > 0 ==> header[|header| - 1] == if last then TOTAL_LABEL else Empty
  {
    header := [];
    for column := 0 to rowFields.columns
      invariant |header| == column
      invariant options.headers && last ==> header == rowFields.rows[0][..column]
      invariant !(options.headers && last) ==> forall k :: 0 <= k < column ==> header[k] == Empty
    {
      header := header + [if options.headers && last then rowFields.rows[0][column] else Empty];
    }
    for j := 0 to |order|
      invariant |header| == rowFields.columns + j
      invariant options.headers && last ==> header[..rowFields.columns] == rowFields.rows[0]
      invariant !(options.headers && last) ==> forall k :: 0 <= k < rowFields.columns ==> header[k] == Empty
      invariant forall i :: 0 <= i < j && depth < |across.keys[order[i]].labels| ==>
                              header[rowFields.columns + i] == across.keys[order[i]].labels[depth]
    {
      var labels := across.keys[order[j]].labels;
      header := header + [if depth < |labels| then labels[depth] else Empty];
    }
    if options.totalDepth > 0 {
      header := header + [if last then TOTAL_LABEL else Empty];
    }
  }

  lemma LabelsHaveColumns(g: Gathered, keys: seq<string>, fields: Grid, lo: nat, hi: nat)
    requires fields.Valid() && Gathers(g, keys, fields, lo, hi)
    ensures g.Indexed() && forall p :: 0 <= p < |g.keys| ==> |g.keys[p].labels| == fields.columns
  {
    forall p | 0 <= p < |g.keys| ensures |g.keys[p].labels| == fields.columns {
      assert GroupIs(g.rows[p], g.keys[p], keys, fields, lo, hi);
    }
  }

  predicate InRange(order: seq<nat>, n: nat) { forall i :: 0 <= i < |order| ==> order[i] < n }

  ghost predicate HeadersAre(lines: seq<seq<Value>>, across: Gathered, order: seq<nat>, columns: nat, totals: bool)
    requires InRange(order, |across.keys|)
  {
    && (forall h :: 0 <= h < |lines| ==> |lines[h]| == columns + |order| + Extra(totals))
    && (forall h, j :: 0 <= h < |lines| && 0 <= j < |order| ==> HeaderCell(lines[h], columns, across, order[j], h, j))
  }

  // The corners of a header line: the names of the row fields stand in the last one,
  // and so does the heading of the totals.
  ghost predicate CornersAre(line: seq<Value>, h: nat, depth: nat, columns: nat, names: Option<seq<Value>>, totals: bool) {
    && |line| >= columns + Extra(totals)
    && (if names.Some? && h == depth - 1 then line[..columns] == names.value else forall k :: 0 <= k < columns ==> line[k] == Empty)
    && (totals ==> line[|line| - 1] == if h == depth - 1 then TOTAL_LABEL else Empty)
  }

  // All of a table's corners, and the empty labels of its bottom line behind the first.
  ghost predicate Cornered(table: seq<seq<Value>>, depth: nat, columns: nat, names: Option<seq<Value>>, totals: bool) {
    && |table| >= depth + Extra(totals)
    && (forall h :: 0 <= h < depth ==> CornersAre(table[h], h, depth, columns, names, totals))
    && (totals ==> |table[|table| - 1]| >= columns && RestEmpty(table[|table| - 1], columns))
  }

  predicate RestEmpty(line: seq<Value>, columns: nat) { forall k :: 1 <= k < columns && k < |line| ==> line[k] == Empty }

  lemma CornersHold(headers: seq<seq<Value>>, body: seq<seq<Value>>, bottom: seq<seq<Value>>, columns: nat, names: Option<seq<Value>>, totals: bool)
    requires forall h :: 0 <= h < |headers| ==> CornersAre(headers[h], h, |headers|, columns, names, totals)
    requires if totals then |bottom| == 1 && |bottom[0]| >= columns && RestEmpty(bottom[0], columns) else bottom == []
    ensures Cornered(headers + body + bottom, |headers|, columns, names, totals)
  {
    hide CornersAre;
    var table := headers + body + bottom;
    assert forall h :: 0 <= h < |headers| ==> table[h] == headers[h];
    if totals { assert table[|table| - 1] == bottom[0]; }
  }

  // Only the first label of the bottom line is filled.
  lemma OnlyTotal(line: seq<Value>, columns: nat)
    requires columns > 0 && |line| >= columns && line[..columns] == TotalLabels(columns)
    ensures RestEmpty(line, columns)
  {
    forall k | 1 <= k < columns ensures line[k] == Empty { assert line[k] == line[..columns][k]; }
  }

  method Headers(rowFields: Grid, across: Gathered, order: seq<nat>, depth: nat, options: Options) returns (lines: seq<seq<Value>>)
    requires rowFields.Valid() && (options.headers ==> |rowFields.rows| > 0) && InRange(order, |across.keys|)
    requires forall p :: 0 <= p < |across.keys| ==> |across.keys[p].labels| == depth
    ensures |lines| == depth
    ensures HeadersAre(lines, across, order, rowFields.columns, options.totalDepth > 0)
    ensures forall h :: 0 <= h < depth ==>
                          CornersAre(lines[h], h, depth, rowFields.columns, if options.headers then Some(rowFields.rows[0]) else None, options.totalDepth > 0)
  {
    lines := [];
    for h := 0 to depth
      invariant |lines| == h
      invariant forall k :: 0 <= k < h ==>
                              CornersAre(lines[k], k, depth, rowFields.columns, if options.headers then Some(rowFields.rows[0]) else None, options.totalDepth > 0)
      invariant HeadersAre(lines, across, order, rowFields.columns, options.totalDepth > 0)
    {
      var header := HeaderLine(rowFields, across, order, h, h == depth - 1, options);
      lines := lines + [header];
    }
  }

  // Some call of the function failed.
  ghost predicate Fails(f: Aggregate, values: seq<Value>) { exists rows: seq<nat> :: Apply(f, values, rows).None? }

  method Body(f: Aggregate, values: seq<Value>, down: Gathered, downOrder: seq<nat>, acrossOrder: seq<nat>, buckets: Buckets, totals: bool)
    returns (lines: Option<seq<seq<Value>>>)
    requires |down.keys| == |down.rows| && InRange(downOrder, |down.keys|)
    ensures lines.None? ==> Fails(f, values)
    ensures lines.Some? ==>
              |lines.value| == |downOrder|
              && forall i :: 0 <= i < |downOrder| ==>
                               LineIs(lines.value[i], down.keys[downOrder[i]].labels, f, values, ListsOf(Row(buckets, downOrder[i]), acrossOrder),
                                      down.rows[downOrder[i]], totals)
  {
    hide LineIs, ListsOf, Row, Apply;
    var out := [];
    for i := 0 to |downOrder|
      invariant |out| == i
      invariant forall k :: 0 <= k < i ==>
                              LineIs(out[k], down.keys[downOrder[k]].labels, f, values, ListsOf(Row(buckets, downOrder[k]), acrossOrder),
                                     down.rows[downOrder[k]], totals)
    {
      var d := downOrder[i];
      var line := Emit(f, values, acrossOrder, Row(buckets, d), down.keys[d].labels, down.rows[d], totals);
      if line.None? { return None; }
      out := out + [line.value];
    }
    lines := Some(out);
  }

  // A row of buckets, put in the columns' order.
  lemma ListsMatch(byAcross: map<nat, seq<nat>>, across: Gathered, order: seq<nat>, keys: seq<string>, rows: seq<nat>)
    requires InRange(order, |across.keys|) && AcrossAre(byAcross, across, keys, rows)
    ensures ListsOf(byAcross, order) == ListsFor(keys, rows, NamesIn(across, order))
  {
    hide Pick, Bucket;
  }

  lemma BucketRow(buckets: Buckets, down: Gathered, across: Gathered, downKeys: seq<string>, acrossKeys: seq<string>, rows: seq<nat>, d: nat)
    requires d < |down.keys| && BucketsAre(buckets, down, across, downKeys, acrossKeys, rows)
    ensures AcrossAre(Row(buckets, d), across, acrossKeys, Pick(downKeys, rows, down.keys[d].parts))
  {
  }

  function TotalLabels(columns: nat): (labels: seq<Value>)
    requires columns > 0
    ensures |labels| == columns && labels[0] == TOTAL_LABEL && RestEmpty(labels, columns)
  {
    [TOTAL_LABEL] + seq(columns - 1, _ => Empty)
  }

  // Header lines over body lines over the bottom line.
  lemma Assembled(headers: seq<seq<Value>>, body: seq<seq<Value>>, bottom: seq<seq<Value>>, columns: nat, f: Aggregate, values: seq<Value>,
                  c: Crossing, labels: seq<seq<Value>>, totals: bool)
    requires |bottom| == Extra(totals) && |labels| == |body| == |c.downNames| && columns > 0
    requires forall h :: 0 <= h < |headers| ==> |headers[h]| == columns + |c.acrossNames| + Extra(totals)
    requires forall i :: 0 <= i < |body| ==> |labels[i]| == columns && BodyLine(body[i], labels[i], f, values, c, Pick(c.downKeys, c.rows, c.downNames[i]), totals)
    requires totals ==> BodyLine(bottom[0], TotalLabels(columns), f, values, c, c.rows, totals)
    ensures var table := headers + body + bottom;
            && IsPivot(table, |headers|, columns, f, values, c, totals)
            && (forall i :: 0 <= i < |table| ==> |table[i]| == columns + |c.acrossNames| + Extra(totals))
            && (forall h :: 0 <= h < |headers| ==> table[h] == headers[h])
            && (forall i :: 0 <= i < |body| ==> table[|headers| + i][..columns] == labels[i])
  {
    hide Pick, Apply, CellOf, ListsFor;
    var table := headers + body + bottom;
    assert forall i :: 0 <= i < |body| ==> table[|headers| + i] == body[i];
    if totals {
      assert table[|table| - 1] == bottom[0];
      assert bottom[0][..columns] == TotalLabels(columns);
      assert bottom[0][..columns][0] == TOTAL_LABEL;
    }
  }

  lemma PivotSorted(rd: Reading, order: int, table: seq<seq<Value>>, depth: nat, columns: nat, down: Gathered, across: Gathered,
                    downOrder: seq<nat>, acrossOrder: seq<nat>, totals: bool)
    requires Labelled(table, depth, columns, down, across, downOrder, acrossOrder, totals) && Arranged(rd, down.keys, order, downOrder)
    ensures LinesSorted(rd, order, table, depth, columns, |downOrder|)
  {
    hide HeaderCell;
    SortedByLabels(rd, down.keys, order, downOrder, table, depth, columns);
  }

  method PivotBy(keying: Keying, rd: Reading, rowFields: Grid, columnFields: Grid, values: seq<Value>, f: Aggregate, options: Options)
    returns (result: Result, ghost down: Gathered, ghost across: Gathered, ghost downOrder: seq<nat>, ghost acrossOrder: seq<nat>)
    requires rowFields.Valid() && columnFields.Valid()
    ensures result.BadShape? <==> |rowFields.rows| != |values| || |columnFields.rows| != |values|
    ensures result.NoRows? <==> !result.BadShape? && |values| <= Extra(options.headers)
    ensures result.Failed? ==> Fails(f, values)
    ensures result.Table? ==>
              var lo := Extra(options.headers);
              && Gathers(down, KeysOf(keying, rowFields), rowFields, lo, |values|)
              && Gathers(across, KeysOf(keying, columnFields), columnFields, lo, |values|)
              && IsOrder(downOrder, |down.keys|) && IsOrder(acrossOrder, |across.keys|)
              && Arranged(rd, down.keys, options.sortOrder, downOrder) && Arranged(rd, across.keys, options.sortOrder, acrossOrder)
              && LinesSorted(rd, options.sortOrder, result.rows, columnFields.columns, rowFields.columns, |downOrder|)
              && Labelled(result.rows, columnFields.columns, rowFields.columns, down, across, downOrder, acrossOrder, options.totalDepth > 0)
              && IsPivot(result.rows, columnFields.columns, rowFields.columns, f, values,
                         Crossing(KeysOf(keying, rowFields), KeysOf(keying, columnFields), Range(lo, |values|),
                                  NamesIn(down, downOrder), NamesIn(across, acrossOrder)), options.totalDepth > 0)
              && Cornered(result.rows, columnFields.columns, rowFields.columns, if options.headers then Some(rowFields.rows[0]) else None,
                          options.totalDepth > 0)
    ensures result.Table? && options.totalDepth > 0 && IsSum(f) && AllNumbers(values, Range(Extra(options.headers), |values|)) ==>
              Conserved(result.rows, columnFields.columns, rowFields.columns, |downOrder|, |acrossOrder|,
                        Total(Numbers(values), Range(Extra(options.headers), |values|)))
  {
    hide LineIs, Pick, Range, ListsOf, ListsFor, Row, BucketsAre, AcrossAre, Gathers, KeysOf, IsPivot, BodyLine, Apply, CellOf, Labelled, Fails,
      TotalLabels, LabelsIn, NamesIn, HeadersAre, Conserved, IsSum, AllNumbers, Covers, Arranged, LinesSorted, CornersAre, Cornered;
    down, across, downOrder, acrossOrder := Gathered([], map[], []), Gathered([], map[], []), [], [];
    if |rowFields.rows| != |values| || |columnFields.rows| != |values| { return BadShape, down, across, downOrder, acrossOrder; }
    var lo := Extra(options.headers);
    if |values| <= lo { return NoRows, down, across, downOrder, acrossOrder; }
    var totals, columns := options.totalDepth > 0, rowFields.columns;
    var downGroups := GatherGroups(keying, rowFields, lo, |values|);
    var acrossGroups := GatherGroups(keying, columnFields, lo, |values|);
    LabelsHaveColumns(downGroups, KeysOf(keying, rowFields), rowFields, lo, |values|);
    LabelsHaveColumns(acrossGroups, KeysOf(keying, columnFields), columnFields, lo, |values|);
    var downPositions := OrderGroups(rd, downGroups.keys, columns, options.sortOrder);
    var acrossPositions := OrderGroups(rd, acrossGroups.keys, columnFields.columns, options.sortOrder);
    down, across, downOrder, acrossOrder := downGroups, acrossGroups, downPositions, acrossPositions;
    var buckets := FillBuckets(keying, rowFields, columnFields, downGroups, acrossGroups, lo, |values|);
    var headers := Headers(rowFields, acrossGroups, acrossPositions, columnFields.columns, options);
    var body := Body(f, values, downGroups, downPositions, acrossPositions, buckets, totals);
    if body.None? { return Failed, down, across, downOrder, acrossOrder; }
    ghost var c := Crossing(KeysOf(keying, rowFields), KeysOf(keying, columnFields), Range(lo, |values|),
                            NamesIn(down, downOrder), NamesIn(across, acrossOrder));
    BodyMatches(body.value, f, values, down, across, downOrder, acrossOrder, buckets, rowFields, lo, |values|, c, totals);
    var bottom := [];
    if totals {
      var byAcross, everyRow := FillAcross(keying, columnFields, acrossGroups, lo, |values|);
      var line := Emit(f, values, acrossPositions, byAcross, TotalLabels(columns), everyRow, totals);
      if line.None? { return Failed, down, across, downOrder, acrossOrder; }
      BottomMatches(line.value, f, values, across, acrossOrder, byAcross, columns, c, totals);
      BottomLabels(line.value, columns, f, values, ListsOf(byAcross, acrossPositions), everyRow, totals);
      bottom := [line.value];
    }
    HeaderWidths(headers, across, acrossOrder, columns, totals);
    CornersHold(headers, body.value, bottom, columns, if options.headers then Some(rowFields.rows[0]) else None, totals);
    Assembled(headers, body.value, bottom, columns, f, values, c, LabelsIn(down, downOrder), totals);
    LabelledTable(headers, headers + body.value + bottom, columns, down, across, downOrder, acrossOrder, totals);
    var table := MatrixToArray(headers + body.value + bottom, columns + |acrossPositions| + Extra(totals));
    result := Table(table);
    PivotSorted(rd, options.sortOrder, table, columnFields.columns, columns, down, across, downOrder, acrossOrder, totals);
    PivotCovers(down, across, c, rowFields, columnFields, lo, |values|, downOrder, acrossOrder);
    if totals && IsSum(f) && AllNumbers(values, c.rows) {
      PivotConserves(table, columnFields.columns, columns, f, values, c);
    }
  }

  function LabelsIn(g: Gathered, order: seq<nat>): (labels: seq<seq<Value>>)
    requires InRange(order, |g.keys|)
    ensures |labels| == |order| && forall i :: 0 <= i < |order| ==> labels[i] == g.keys[order[i]].labels
  {
    seq(|order|, i requires 0 <= i < |order| => g.keys[order[i]].labels)
  }

  lemma HeaderWidths(lines: seq<seq<Value>>, across: Gathered, order: seq<nat>, columns: nat, totals: bool)
    requires InRange(order, |across.keys|) && HeadersAre(lines, across, order, columns, totals)
    ensures forall h :: 0 <= h < |lines| ==> |lines[h]| == columns + |order| + Extra(totals)
  {
  }

  lemma BottomLabels(line: seq<Value>, columns: nat, f: Aggregate, values: seq<Value>, lists: seq<seq<nat>>, rows: seq<nat>, totals: bool)
    requires columns > 0 && LineIs(line, TotalLabels(columns), f, values, lists, rows, totals)
    ensures |line| >= columns && RestEmpty(line, columns)
  {
    OnlyTotal(line, columns);
  }

  lemma BottomMatches(line: seq<Value>, f: Aggregate, values: seq<Value>, across: Gathered, order: seq<nat>, byAcross: map<nat, seq<nat>>,
                      columns: nat, c: Crossing, totals: bool)
    requires columns > 0 && InRange(order, |across.keys|) && c.acrossNames == NamesIn(across, order)
    requires LineIs(line, TotalLabels(columns), f, values, ListsOf(byAcross, order), c.rows, totals)
    requires AcrossAre(byAcross, across, c.acrossKeys, c.rows)
    ensures BodyLine(line, TotalLabels(columns), f, values, c, c.rows, totals)
  {
    hide LineIs, ListsOf, ListsFor;
    ListsMatch(byAcross, across, order, c.acrossKeys, c.rows);
  }

  lemma LabelledTable(headers: seq<seq<Value>>, table: seq<seq<Value>>, columns: nat, down: Gathered, across: Gathered,
                      downOrder: seq<nat>, acrossOrder: seq<nat>, totals: bool)
    requires InRange(downOrder, |down.keys|) && InRange(acrossOrder, |across.keys|)
    requires |table| == |headers| + |downOrder| + Extra(totals) && HeadersAre(headers, across, acrossOrder, columns, totals)
    requires forall i :: 0 <= i < |table| ==> |table[i]| == columns + |acrossOrder| + Extra(totals)
    requires forall h :: 0 <= h < |headers| ==> table[h] == headers[h]
    requires forall i :: 0 <= i < |downOrder| ==> table[|headers| + i][..columns] == LabelsIn(down, downOrder)[i]
    ensures Labelled(table, |headers|, columns, down, across, downOrder, acrossOrder, totals)
  {
    forall i | 0 <= i < |downOrder|
      ensures downOrder[i] < |down.keys| && table[|headers| + i][..columns] == down.keys[downOrder[i]].labels
    {
      assert table[|headers| + i][..columns] == LabelsIn(down, downOrder)[i];
    }
  }

  lemma BodyMatches(lines: seq<seq<Value>>, f: Aggregate, values: seq<Value>, down: Gathered, across: Gathered, downOrder: seq<nat>,
                    acrossOrder: seq<nat>, buckets: Buckets, fields: Grid, lo: nat, hi: nat, c: Crossing, totals: bool)
    requires down.Indexed() && InRange(downOrder, |down.keys|) && InRange(acrossOrder, |across.keys|) && |lines| == |downOrder|
    requires forall i :: 0 <= i < |downOrder| ==>
                           LineIs(lines[i], down.keys[downOrder[i]].labels, f, values, ListsOf(Row(buckets, downOrder[i]), acrossOrder),
                                  down.rows[downOrder[i]], totals)
    requires Gathers(down, c.downKeys, fields, lo, hi) && c.rows == Range(lo, hi)
    requires c.downNames == NamesIn(down, downOrder) && c.acrossNames == NamesIn(across, acrossOrder)
    requires BucketsAre(buckets, down, across, c.downKeys, c.acrossKeys, c.rows)
    ensures forall i :: 0 <= i < |lines| ==>
                          BodyLine(lines[i], LabelsIn(down, downOrder)[i], f, values, c, Pick(c.downKeys, c.rows, c.downNames[i]), totals)
  {
    hide LineIs, Pick, Range, ListsOf, ListsFor, Row, BucketsAre, AcrossAre;
    forall i | 0 <= i < |lines|
      ensures BodyLine(lines[i], LabelsIn(down, downOrder)[i], f, values, c, Pick(c.downKeys, c.rows, c.downNames[i]), totals)
    {
      var d := downOrder[i];
      BucketRow(buckets, down, across, c.downKeys, c.acrossKeys, c.rows, d);
      ListsMatch(Row(buckets, d), across, acrossOrder, c.acrossKeys, Pick(c.downKeys, c.rows, down.keys[d].parts));
      assert GroupIs(down.rows[d], down.keys[d], c.downKeys, fields, lo, hi);
    }
  }

  // -------- conservation for SUM --------

  function SumOf(values: seq<Value>): real {
    if values == [] then 0.0 else SumOf(values[..|values| - 1]) + Amount(values[|values| - 1])
  }

  // An empty cell counts for nothing.
  function Amount(v: Value): real { if v.Num? then v.number else 0.0 }

  // The function is SUM on numbers.
  ghost predicate IsSum(f: Aggregate) {
    forall values: seq<Value> :: (forall i :: 0 <= i < |values| ==> values[i].Num?) ==> f(values) == Some(Num(SumOf(values)))
  }

  function Numbers(values: seq<Value>): (numbers: seq<real>)
    ensures |numbers| == |values|
  {
    seq(|values|, i requires 0 <= i < |values| => Amount(values[i]))
  }

  ghost predicate AllNumbers(values: seq<Value>, rows: seq<nat>) {
    forall r :: r in rows ==> r < |values| && values[r].Num?
  }

  lemma {:induction false} SumIsTotal(values: seq<Value>, rows: seq<nat>)
    requires AllNumbers(values, rows)
    ensures SumOf(Slice(values, rows)) == Total(Numbers(values), rows)
  {
    if rows != [] {
      var front, last := rows[..|rows| - 1], rows[|rows| - 1];
      assert rows == front + [last];
      assert AllNumbers(values, front) by { assert forall r :: r in front ==> r in rows; }
      SumIsTotal(values, front);
      assert Slice(values, rows)[..|rows| - 1] == Slice(values, front);
    }
  }

  lemma SumCell(f: Aggregate, values: seq<Value>, rows: seq<nat>)
    requires IsSum(f) && AllNumbers(values, rows)
    ensures Apply(f, values, rows) == Some(Num(Total(Numbers(values), rows)))
    ensures CellOf(f, values, rows).Some? && Amount(CellOf(f, values, rows).value) == Total(Numbers(values), rows)
  {
    SumIsTotal(values, rows);
    var slice := Slice(values, rows);
    forall i | 0 <= i < |slice| ensures slice[i].Num? { assert rows[i] in rows; }
  }

  // n cells of a line from a column on, added up.
  function RowSum(line: seq<Value>, from: nat, n: nat): real
    requires from + n <= |line|
  {
    if n == 0 then 0.0 else RowSum(line, from, n - 1) + Amount(line[from + n - 1])
  }

  // A column of n lines from a line on, added up.
  function ColumnSum(table: seq<seq<Value>>, from: nat, n: nat, column: nat): real
    requires from + n <= |table| && forall i :: from <= i < from + n ==> column < |table[i]|
  {
    if n == 0 then 0.0 else ColumnSum(table, from, n - 1, column) + Amount(table[from + n - 1][column])
  }

  lemma {:induction false} LineAddsUp(line: seq<Value>, labels: seq<Value>, f: Aggregate, values: seq<Value>, c: Crossing, rows: seq<nat>,
                                      totals: bool, n: nat)
    requires IsSum(f) && AllNumbers(values, rows) && BodyLine(line, labels, f, values, c, rows, totals) && n <= |c.acrossNames|
    ensures |line| == |labels| + |c.acrossNames| + Extra(totals)
    ensures RowSum(line, |labels|, n) == TotalOfGroups(Numbers(values), c.acrossKeys, rows, c.acrossNames[..n])
  {
    hide IsSum, Total, Pick, CellOf, Apply;
    if n > 0 {
      LineAddsUp(line, labels, f, values, c, rows, totals, n - 1);
      assert c.acrossNames[..n][..n - 1] == c.acrossNames[..n - 1];
      var list := Pick(c.acrossKeys, rows, c.acrossNames[n - 1]);
      PickHas(c.acrossKeys, rows, c.acrossNames[n - 1]);
      SumCell(f, values, list);
      assert CellOf(f, values, ListsFor(c.acrossKeys, rows, c.acrossNames)[n - 1]) == Some(line[|labels| + (n - 1)]);
    }
  }

  // Cells of a line add up to the line's total and to its rows.
  lemma LineConserves(line: seq<Value>, labels: seq<Value>, f: Aggregate, values: seq<Value>, c: Crossing, rows: seq<nat>)
    requires IsSum(f) && AllNumbers(values, rows) && BodyLine(line, labels, f, values, c, rows, true)
    requires Distinct(c.acrossNames) && forall r :: r in rows ==> KeyAt(c.acrossKeys, r) in c.acrossNames
    ensures |line| == |labels| + |c.acrossNames| + 1
    ensures RowSum(line, |labels|, |c.acrossNames|) == Amount(line[|line| - 1]) == Total(Numbers(values), rows)
  {
    LineAddsUp(line, labels, f, values, c, rows, true, |c.acrossNames|);
    assert c.acrossNames[..|c.acrossNames|] == c.acrossNames;
    GroupsConserve(Numbers(values), c.acrossKeys, rows, c.acrossNames);
    SumCell(f, values, rows);
  }

  // The crossing covers its rows with distinct names both ways.
  ghost predicate Covers(c: Crossing) {
    && Distinct(c.downNames) && Distinct(c.acrossNames)
    && forall r :: r in c.rows ==> KeyAt(c.downKeys, r) in c.downNames && KeyAt(c.acrossKeys, r) in c.acrossNames
  }

  lemma {:induction false} ColumnAddsUp(table: seq<seq<Value>>, depth: nat, columns: nat, f: Aggregate, values: seq<Value>, c: Crossing,
                                        totals: bool, j: nat, n: nat)
    requires IsSum(f) && AllNumbers(values, c.rows) && IsPivot(table, depth, columns, f, values, c, totals)
    requires j < |c.acrossNames| && n <= |c.downNames|
    ensures depth + n <= |table| && forall i :: depth <= i < depth + n ==> columns + j < |table[i]|
    ensures ColumnSum(table, depth, n, columns + j)
         == TotalOfGroups(Numbers(values), c.downKeys, Pick(c.acrossKeys, c.rows, c.acrossNames[j]), c.downNames[..n])
  {
    hide IsSum, Total, Pick, CellOf, Apply;
    if n > 0 {
      ColumnAddsUp(table, depth, columns, f, values, c, totals, j, n - 1);
      assert c.downNames[..n][..n - 1] == c.downNames[..n - 1];
      var d, a := c.downNames[n - 1], c.acrossNames[j];
      var rows := Pick(c.downKeys, c.rows, d);
      var line := table[depth + (n - 1)];
      assert BodyLine(line, line[..columns], f, values, c, rows, totals);
      PickCommutes(c.downKeys, c.acrossKeys, c.rows, d, a);
      PickHas(c.downKeys, c.rows, d);
      PickHas(c.acrossKeys, rows, a);
      SumCell(f, values, Pick(c.acrossKeys, rows, a));
      assert CellOf(f, values, ListsFor(c.acrossKeys, rows, c.acrossNames)[j]) == Some(line[columns + j]);
    }
  }

  lemma {:induction false} TotalsAddUp(table: seq<seq<Value>>, depth: nat, columns: nat, f: Aggregate, values: seq<Value>, c: Crossing, n: nat)
    requires IsSum(f) && AllNumbers(values, c.rows) && IsPivot(table, depth, columns, f, values, c, true) && n <= |c.downNames|
    ensures var last := columns + |c.acrossNames|;
            && depth + n <= |table| && (forall i :: depth <= i < depth + n ==> last < |table[i]|)
            && ColumnSum(table, depth, n, last) == TotalOfGroups(Numbers(values), c.downKeys, c.rows, c.downNames[..n])
  {
    hide IsSum, Total, Pick, CellOf, Apply;
    if n > 0 {
      TotalsAddUp(table, depth, columns, f, values, c, n - 1);
      assert c.downNames[..n][..n - 1] == c.downNames[..n - 1];
      var rows := Pick(c.downKeys, c.rows, c.downNames[n - 1]);
      var line := table[depth + (n - 1)];
      assert BodyLine(line, line[..columns], f, values, c, rows, true);
      PickHas(c.downKeys, c.rows, c.downNames[n - 1]);
      SumCell(f, values, rows);
    }
  }

  // A body of n lines and m columns with its margins: every line adds up to its
  // total, every column to the bottom line, and both margins to the grand total.
  ghost predicate Conserved(table: seq<seq<Value>>, depth: nat, columns: nat, n: nat, m: nat, total: real) {
    var last, bottom := columns + m, depth + n;
    && |table| == bottom + 1 && (forall i :: 0 <= i < |table| ==> |table[i]| == last + 1)
    && (forall i :: depth <= i <= bottom ==> RowSum(table[i], columns, m) == Amount(table[i][last]))
    && (forall j :: columns <= j < last ==> ColumnSum(table, depth, n, j) == Amount(table[bottom][j]))
    && ColumnSum(table, depth, n, last) == Amount(table[bottom][last]) == total
  }

  // PIVOTBY with SUM: every line adds up to its total, every column to the
  // bottom line, and both margins to the plain sum of the rows, in whatever order
  // the groups were put.
  lemma PivotConserves(table: seq<seq<Value>>, depth: nat, columns: nat, f: Aggregate, values: seq<Value>, c: Crossing)
    requires IsSum(f) && AllNumbers(values, c.rows) && IsPivot(table, depth, columns, f, values, c, true) && Covers(c)
    ensures Conserved(table, depth, columns, |c.downNames|, |c.acrossNames|, Total(Numbers(values), c.rows))
  {
    hide IsSum, Total, Pick, CellOf, Apply, LineIs, Distinct;
    var last, bottom, n := columns + |c.acrossNames|, |table| - 1, |c.downNames|;
    var numbers := Numbers(values);
    forall i | depth <= i < bottom ensures RowSum(table[i], columns, |c.acrossNames|) == Amount(table[i][last]) {
      var rows := Pick(c.downKeys, c.rows, c.downNames[i - depth]);
      PickHas(c.downKeys, c.rows, c.downNames[i - depth]);
      assert BodyLine(table[depth + (i - depth)], table[depth + (i - depth)][..columns], f, values, c, rows, true);
      LineConserves(table[i], table[i][..columns], f, values, c, rows);
    }
    LineConserves(table[bottom], table[bottom][..columns], f, values, c, c.rows);
    assert c.downNames[..n] == c.downNames;
    forall j | columns <= j < last ensures ColumnSum(table, depth, n, j) == Amount(table[bottom][j]) {
      var a := c.acrossNames[j - columns];
      var rows := Pick(c.acrossKeys, c.rows, a);
      PickHas(c.acrossKeys, c.rows, a);
      ColumnAddsUp(table, depth, columns, f, values, c, true, j - columns, n);
      GroupsConserve(numbers, c.downKeys, rows, c.downNames);
      BottomCell(table[bottom], columns, f, values, c, j - columns);
    }
    TotalsAddUp(table, depth, columns, f, values, c, n);
    GroupsConserve(numbers, c.downKeys, c.rows, c.downNames);
  }

  lemma BottomCell(line: seq<Value>, columns: nat, f: Aggregate, values: seq<Value>, c: Crossing, j: nat)
    requires IsSum(f) && AllNumbers(values, c.rows) && j < |c.acrossNames| && columns <= |line|
    requires BodyLine(line, line[..columns], f, values, c, c.rows, true)
    ensures columns + j < |line| && Amount(line[columns + j]) == Total(Numbers(values), Pick(c.acrossKeys, c.rows, c.acrossNames[j]))
  {
    hide IsSum, Total, Pick, CellOf, Apply;
    var list := Pick(c.acrossKeys, c.rows, c.acrossNames[j]);
    PickHas(c.acrossKeys, c.rows, c.acrossNames[j]);
    SumCell(f, values, list);
    assert CellOf(f, values, ListsFor(c.acrossKeys, c.rows, c.acrossNames)[j]) == Some(line[columns + j]);
  }

  // What PIVOTBY gathers covers its rows, however the groups are sorted.
  lemma PivotCovers(down: Gathered, across: Gathered, c: Crossing, rowFields: Grid, columnFields: Grid, lo: nat, hi: nat,
                    downOrder: seq<nat>, acrossOrder: seq<nat>)
    requires Gathers(down, c.downKeys, rowFields, lo, hi) && IsOrder(downOrder, |down.keys|)
    requires Gathers(across, c.acrossKeys, columnFields, lo, hi) && IsOrder(acrossOrder, |across.keys|)
    requires c.rows == Range(lo, hi) && c.downNames == NamesIn(down, downOrder) && c.acrossNames == NamesIn(across, acrossOrder)
    ensures Covers(c)
  {
    OrderedNames(down, c.downKeys, rowFields, lo, hi, downOrder);
    OrderedNames(across, c.acrossKeys, columnFields, lo, hi, acrossOrder);
    RangeHas(lo, hi);
  }

  // -------- GROUPBY --------

  function Column(values: Grid, j: nat): (column: seq<Value>)
    requires values.Valid() && j < values.columns
    ensures |column| == |values.rows| && forall r :: 0 <= r < |column| ==> column[r] == values.rows[r][j]
  {
    seq(|values.rows|, r requires 0 <= r < |values.rows| => values.rows[r][j])
  }

  ghost predicate GroupLine(line: seq<Value>, labels: seq<Value>, f: Aggregate, values: Grid, rows: seq<nat>)
    requires values.Valid()
  {
    && |line| == |labels| + values.columns && line[..|labels|] == labels
    && forall j :: 0 <= j < values.columns ==> Apply(f, Column(values, j), rows) == Some(line[|labels| + j])
  }

  ghost predicate AnyFails(f: Aggregate, values: Grid)
    requires values.Valid()
  {
    exists j, rows: seq<nat> :: 0 <= j < values.columns && Apply(f, Column(values, j), rows).None?
  }

  method GroupCells(f: Aggregate, values: Grid, labels: seq<Value>, rows: seq<nat>) returns (line: Option<seq<Value>>)
    requires values.Valid()
    ensures line.Some? ==> GroupLine(line.value, labels, f, values, rows)
    ensures line.None? ==> AnyFails(f, values)
  {
    var out := labels;
    for column := 0 to values.columns
      invariant |out| == |labels| + column && out[..|labels|] == labels
      invariant forall j :: 0 <= j < column ==> Apply(f, Column(values, j), rows) == Some(out[|labels| + j])
    {
      var computed := Apply(f, Column(values, column), rows);
      if computed.None? { return None; }
      out := out + [computed.value];
    }
    line := Some(out);
  }

  ghost predicate IsGrouped(table: seq<seq<Value>>, depth: nat, f: Aggregate, values: Grid, g: Gathered, order: seq<nat>,
                            keys: seq<string>, rows: seq<nat>, columns: nat, totals: bool)
    requires values.Valid() && InRange(order, |g.keys|)
  {
    && |table| == depth + |order| + Extra(totals)
    && (forall i :: 0 <= i < |table| ==> |table[i]| == columns + values.columns)
    && (forall i :: 0 <= i < |order| ==>
                      GroupLine(table[depth + i], g.keys[order[i]].labels, f, values, Pick(keys, rows, g.keys[order[i]].parts)))
    && (totals ==> columns > 0 && GroupLine(table[|table| - 1], TotalLabels(columns), f, values, rows))
  }

  lemma GroupsSorted(rd: Reading, order: int, table: seq<seq<Value>>, depth: nat, f: Aggregate, values: Grid, g: Gathered,
                     positions: seq<nat>, keys: seq<string>, rows: seq<nat>, columns: nat, totals: bool)
    requires values.Valid() && Arranged(rd, g.keys, order, positions) && EvenLabels(g.keys, columns)
    requires IsGrouped(table, depth, f, values, g, positions, keys, rows, columns, totals)
    ensures LinesSorted(rd, order, table, depth, columns, |positions|)
  {
    hide Pick, Apply;
    forall i | 0 <= i < |positions|
      ensures LineLabels(table, depth, columns, i) == g.keys[positions[i]].labels
    {
      assert GroupLine(table[depth + i], g.keys[positions[i]].labels, f, values, Pick(keys, rows, g.keys[positions[i]].parts));
    }
    SortedByLabels(rd, g.keys, order, positions, table, depth, columns);
  }

  method GroupByRows(keying: Keying, rd: Reading, fields: Grid, values: Grid, f: Aggregate, options: Options)
    returns (result: Result, ghost groups: Gathered, ghost positions: seq<nat>)
    requires fields.Valid() && values.Valid()
    ensures result.BadShape? <==> |fields.rows| != |values.rows|
    ensures result.NoRows? <==> !result.BadShape? && |fields.rows| <= Extra(options.headers)
    ensures result.Failed? ==> AnyFails(f, values)
    ensures result.Table? ==>
              var lo := Extra(options.headers);
              && Gathers(groups, KeysOf(keying, fields), fields, lo, |fields.rows|) && IsOrder(positions, |groups.keys|)
              && Arranged(rd, groups.keys, options.sortOrder, positions)
              && LinesSorted(rd, options.sortOrder, result.rows, lo, fields.columns, |positions|)
              && IsGrouped(result.rows, lo, f, values, groups, positions, KeysOf(keying, fields), Range(lo, |fields.rows|), fields.columns,
                           options.totalDepth > 0)
              && (options.headers ==> result.rows[0] == fields.rows[0] + values.rows[0])
    ensures result.Table? && options.totalDepth > 0 && IsSum(f) ==>
              forall j :: 0 <= j < values.columns && AllNumbers(Column(values, j), Range(Extra(options.headers), |fields.rows|)) ==>
                            ColumnConserved(result.rows, Extra(options.headers), |positions|, fields.columns + j,
                                            Total(Numbers(Column(values, j)), Range(Extra(options.headers), |fields.rows|)))
  {
    hide Pick, Range, Gathers, KeysOf, Apply, GroupLine, AnyFails, TotalLabels, GroupIs, IsSum, AllNumbers, ColumnConserved, Total, Column, Arranged, LinesSorted;
    groups, positions := Gathered([], map[], []), [];
    if |fields.rows| != |values.rows| { return BadShape, groups, positions; }
    var lo, hi := Extra(options.headers), |fields.rows|;
    if hi <= lo { return NoRows, groups, positions; }
    var g := GatherGroups(keying, fields, lo, hi);
    ghost var keys := KeysOf(keying, fields);
    LabelsHaveColumns(g, keys, fields, lo, hi);
    var order := OrderGroups(rd, g.keys, fields.columns, options.sortOrder);
    groups, positions := g, order;
    var rows: seq<seq<Value>> := [];
    if options.headers { rows := [fields.rows[0] + values.rows[0]]; }
    for i := 0 to |order|
      invariant |rows| == lo + i
      invariant options.headers ==> rows[0] == fields.rows[0] + values.rows[0]
      invariant forall k :: 0 <= k < |rows| ==> |rows[k]| == fields.columns + values.columns
      invariant forall k :: 0 <= k < i ==>
                              GroupLine(rows[lo + k], g.keys[order[k]].labels, f, values, Pick(keys, Range(lo, hi), g.keys[order[k]].parts))
    {
      var p := order[i];
      GroupRows(g, keys, fields, lo, hi, p);
      var line := GroupCells(f, values, g.keys[p].labels, g.rows[p]);
      if line.None? { return Failed, groups, positions; }
      LineWidth(line.value, g.keys[p].labels, f, values, g.rows[p]);
      rows := rows + [line.value];
    }
    if options.totalDepth > 0 {
      var everyRow := EveryRow(lo, hi);
      var line := GroupCells(f, values, TotalLabels(fields.columns), everyRow);
      if line.None? { return Failed, groups, positions; }
      LineWidth(line.value, TotalLabels(fields.columns), f, values, everyRow);
      rows := rows + [line.value];
    }
    var table := MatrixToArray(rows, fields.columns + values.columns);
    result := Table(table);
    GroupsSorted(rd, options.sortOrder, table, lo, f, values, g, order, keys, Range(lo, hi), fields.columns, options.totalDepth > 0);
    if options.totalDepth > 0 && IsSum(f) {
      forall j | 0 <= j < values.columns && AllNumbers(Column(values, j), Range(lo, hi))
        ensures ColumnConserved(table, lo, |order|, fields.columns + j, Total(Numbers(Column(values, j)), Range(lo, hi)))
      {
        GroupByConserves(table, lo, f, values, g, order, keys, fields, lo, hi, j);
      }
    }
  }

  method EveryRow(lo: nat, hi: nat) returns (rows: seq<nat>)
    requires lo <= hi
    ensures rows == Range(lo, hi)
  {
    rows := [];
    for row := lo to hi
      invariant rows == Range(lo, row)
    {
      rows := rows + [row];
    }
  }

  lemma GroupRows(g: Gathered, keys: seq<string>, fields: Grid, lo: nat, hi: nat, p: nat)
    requires Gathers(g, keys, fields, lo, hi) && p < |g.keys|
    ensures |g.keys| == |g.rows| && g.rows[p] == Pick(keys, Range(lo, hi), g.keys[p].parts)
  {
    assert GroupIs(g.rows[p], g.keys[p], keys, fields, lo, hi);
  }

  lemma LineWidth(line: seq<Value>, labels: seq<Value>, f: Aggregate, values: Grid, rows: seq<nat>)
    requires values.Valid() && GroupLine(line, labels, f, values, rows)
    ensures |line| == |labels| + values.columns
  {
  }

  lemma {:induction false} GroupColumnAddsUp(table: seq<seq<Value>>, depth: nat, f: Aggregate, values: Grid, g: Gathered, order: seq<nat>,
                                             keys: seq<string>, rows: seq<nat>, columns: nat, totals: bool, j: nat, n: nat)
    requires values.Valid() && InRange(order, |g.keys|) && (forall p :: 0 <= p < |g.keys| ==> |g.keys[p].labels| == columns)
    requires IsGrouped(table, depth, f, values, g, order, keys, rows, columns, totals) && j < values.columns && n <= |order|
    requires IsSum(f) && AllNumbers(Column(values, j), rows)
    ensures depth + n <= |table| && forall i :: depth <= i < depth + n ==> columns + j < |table[i]|
    ensures ColumnSum(table, depth, n, columns + j) == TotalOfGroups(Numbers(Column(values, j)), keys, rows, NamesIn(g, order)[..n])
  {
    hide IsSum, Total, Pick, Apply, Column;
    if n > 0 {
      GroupColumnAddsUp(table, depth, f, values, g, order, keys, rows, columns, totals, j, n - 1);
      var names := NamesIn(g, order);
      assert names[..n][..n - 1] == names[..n - 1] && names[..n][n - 1] == g.keys[order[n - 1]].parts;
      var picked := Pick(keys, rows, names[n - 1]);
      PickHas(keys, rows, names[n - 1]);
      SumCell(f, Column(values, j), picked);
      assert GroupLine(table[depth + (n - 1)], g.keys[order[n - 1]].labels, f, values, picked);
    }
  }

  // n lines of a column add up to the line below them.
  ghost predicate ColumnConserved(table: seq<seq<Value>>, depth: nat, n: nat, column: nat, total: real) {
    && |table| == depth + n + 1 && (forall i :: 0 <= i < |table| ==> column < |table[i]|)
    && ColumnSum(table, depth, n, column) == Amount(table[depth + n][column]) == total
  }

  // GROUPBY with SUM: in every column of values the groups add up to the total
  // line and to the plain sum of the rows.
  lemma GroupByConserves(table: seq<seq<Value>>, depth: nat, f: Aggregate, values: Grid, g: Gathered, order: seq<nat>, keys: seq<string>,
                         fields: Grid, lo: nat, hi: nat, j: nat)
    requires values.Valid() && fields.Valid() && Gathers(g, keys, fields, lo, hi) && IsOrder(order, |g.keys|)
    requires IsGrouped(table, depth, f, values, g, order, keys, Range(lo, hi), fields.columns, true) && j < values.columns
    requires IsSum(f) && AllNumbers(Column(values, j), Range(lo, hi))
    ensures ColumnConserved(table, depth, |order|, fields.columns + j, Total(Numbers(Column(values, j)), Range(lo, hi)))
  {
    hide IsSum, Total, Pick, Apply, Column, Range, ColumnSum, TotalOfGroups, Distinct, Gathers, TotalLabels, NamesIn;
    LabelsHaveColumns(g, keys, fields, lo, hi);
    var rows, names := Range(lo, hi), NamesIn(g, order);
    GroupColumnAddsUp(table, depth, f, values, g, order, keys, rows, fields.columns, true, j, |order|);
    assert names[..|order|] == names;
    OrderedNames(g, keys, fields, lo, hi, order);
    RangeHas(lo, hi);
    GroupsConserve(Numbers(Column(values, j)), keys, rows, names);
    SumCell(f, Column(values, j), rows);
    assert GroupLine(table[|table| - 1], TotalLabels(fields.columns), f, values, rows);
  }
}
