/**
  How LET, LAMBDA and calls are read: every name with its own value and place, the
  arguments in the order they are written, an empty one left out.
*/
module Binders {
  import opened CellAddress
  import opened FormulaSyntax
  import opened Grammar

  // -------- arguments --------

  // From starts[k] on item k is read up to ends[k]; separators stand between the
  // items, and none behind the last.
  ghost predicate Listed(src: Source, starts: seq<State>, items: seq<Node>, ends: seq<State>)
    requires src.Valid()
  {
    && |starts| == |items| == |ends| > 0
    && (forall k :: 0 <= k < |items| ==> src.Ready(starts[k]) && src.Expression(0, starts[k]) == Done(items[k], ends[k]))
    && (forall k :: 0 <= k < |items| - 1 ==> IsSeparator(src.Tok(ends[k])) && starts[k + 1] == Advance(ends[k]))
    && !IsSeparator(src.Tok(ends[|items| - 1]))
  }

  lemma ListedAt(src: Source, starts: seq<State>, items: seq<Node>, ends: seq<State>, k: nat)
    requires src.Valid() && Listed(src, starts, items, ends) && k < |items|
    ensures |starts| == |items| == |ends|
    ensures src.Ready(starts[k]) && src.Ready(ends[k]) && src.Expression(0, starts[k]) == Done(items[k], ends[k])
    ensures Refs(items[k]) <= ends[k].deps && starts[k].deps <= ends[k].deps
    ensures if k == |items| - 1 then !IsSeparator(src.Tok(ends[k]))
            else IsSeparator(src.Tok(ends[k])) && src.Ready(starts[k + 1]) && starts[k + 1] == Advance(ends[k])
  {
    hide Source.Expression, Refs;
  }

  lemma OperandsStep(src: Source, done: seq<Node>, s: State, item: Node, e: State)
    requires src.Valid() && src.Ready(s) && src.Ready(e) && RefsAll(done) <= s.deps && src.Expression(0, s) == Done(item, e)
    ensures RefsAll(done + [item]) <= e.deps
    ensures IsSeparator(src.Tok(e)) ==> src.Ready(Advance(e)) && src.Operands(done, s) == src.Operands(done + [item], Advance(e))
    ensures !IsSeparator(src.Tok(e)) ==> src.Operands(done, s) == ParseList(Some(done + [item]), e)
  {
    hide Source.Expression, Refs;
    RefsAllAppend(done, item);
  }

  lemma {:induction false} OperandsFrom(src: Source, starts: seq<State>, items: seq<Node>, ends: seq<State>, k: nat)
    requires src.Valid() && Listed(src, starts, items, ends) && k < |items| && src.Ready(starts[k]) && RefsAll(items[..k]) <= starts[k].deps
    ensures src.Operands(items[..k], starts[k]) == ParseList(Some(items), ends[|items| - 1])
    decreases |items| - k
  {
    hide Source.Expression, Source.Operands, Refs, Listed;
    ListedAt(src, starts, items, ends, k);
    OperandsStep(src, items[..k], starts[k], items[k], ends[k]);
    assert items[..k] + [items[k]] == items[..k + 1];
    if k < |items| - 1 { OperandsFrom(src, starts, items, ends, k + 1); } else { assert items[..k + 1] == items; }
  }

  // A call of a LAMBDA or of a bound name on the spot has its arguments in order.
  lemma CallIsRead(src: Source, target: Node, s: State, starts: seq<State>, items: seq<Node>, ends: seq<State>)
    requires src.Valid() && src.Ready(s) && src.Tok(s).TLeft? && Refs(target) <= s.deps
    requires Listed(src, starts, items, ends) && starts[0] == Advance(s) && !src.Tok(starts[0]).TRight?
    requires src.Tok(ends[|items| - 1]).TRight?
    ensures src.Callable(target, s) == Done(Apply(target, items), Advance(ends[|items| - 1]))
  {
    hide Source.Expression, Source.Operands, Refs;
    RefsAllNone();
    assert items[..0] == [];
    OperandsFrom(src, starts, items, ends, 0);
  }

  // One slot of an ordinary call: an item up to a state, or nothing.
  datatype Slot = Filled(item: Node, end: State) | Left

  function ItemOf(slot: Slot): Node { if slot.Filled? then slot.item else Literal(Omitted) }

  function ItemsOf(slots: seq<Slot>): (items: seq<Node>)
    ensures |items| == |slots|
  {
    seq(|slots|, i requires 0 <= i < |slots| => ItemOf(slots[i]))
  }

  // Slot k begins at starts[k]; an empty one has its separator, or the closing
  // parenthesis, right there.
  ghost predicate Slotted(src: Source, starts: seq<State>, slots: seq<Slot>)
    requires src.Valid()
  {
    && |starts| == |slots| > 0 && (forall k :: 0 <= k < |slots| ==> src.Ready(starts[k]))
    && (forall k :: 0 <= k < |slots| && slots[k].Filled? ==>
                      !IsSeparator(src.Tok(starts[k])) && !src.Tok(starts[k]).TRight? && src.Expression(0, starts[k]) == Done(slots[k].item, slots[k].end))
    && (forall k :: 0 <= k < |slots| - 1 ==>
                      && src.Ready(Behind(starts[k], slots[k])) && IsSeparator(src.Tok(Behind(starts[k], slots[k])))
                      && starts[k + 1] == Advance(Behind(starts[k], slots[k])))
    && src.Ready(Behind(starts[|slots| - 1], slots[|slots| - 1])) && src.Tok(Behind(starts[|slots| - 1], slots[|slots| - 1])).TRight?
  }

  function Behind(start: State, slot: Slot): State { if slot.Filled? then slot.end else start }

  lemma SlotAt(src: Source, starts: seq<State>, slots: seq<Slot>, k: nat)
    requires src.Valid() && Slotted(src, starts, slots) && k < |slots|
    ensures |starts| == |slots| && src.Ready(starts[k])
    ensures slots[k].Filled? ==>
              && !IsSeparator(src.Tok(starts[k])) && !src.Tok(starts[k]).TRight? && src.Expression(0, starts[k]) == Done(slots[k].item, slots[k].end)
              && src.Ready(slots[k].end) && Refs(slots[k].item) <= slots[k].end.deps && starts[k].deps <= slots[k].end.deps
    ensures var b := Behind(starts[k], slots[k]);
            if k == |slots| - 1 then src.Ready(b) && src.Tok(b).TRight?
            else src.Ready(b) && IsSeparator(src.Tok(b)) && src.Ready(starts[k + 1]) && starts[k + 1] == Advance(b)
  {
    hide Source.Expression, Refs;
  }

  lemma ArgumentsStep(src: Source, done: seq<Node>, s: State, slot: Slot)
    requires src.Valid() && src.Ready(s) && RefsAll(done) <= s.deps
    requires slot.Filled? ==> !IsSeparator(src.Tok(s)) && !src.Tok(s).TRight? && src.Expression(0, s) == Done(slot.item, slot.end) && src.Ready(slot.end)
    requires IsSeparator(src.Tok(Behind(s, slot))) || src.Tok(Behind(s, slot)).TRight?
    ensures RefsAll(done + [ItemOf(slot)]) <= Behind(s, slot).deps
    ensures IsSeparator(src.Tok(Behind(s, slot))) ==>
              src.Ready(Advance(Behind(s, slot))) && src.Arguments(done, s) == src.Arguments(done + [ItemOf(slot)], Advance(Behind(s, slot)))
    ensures src.Tok(Behind(s, slot)).TRight? ==> src.Arguments(done, s) == ParseList(Some(done + [ItemOf(slot)]), Behind(s, slot))
  {
    hide Source.Expression, Refs;
    RefsAllAppend(done, ItemOf(slot));
    OmittedReadsNothing();
  }

  lemma OmittedReadsNothing()
    ensures Refs(Literal(Omitted)) == {}
  {
  }

  lemma {:induction false} ArgumentsFrom(src: Source, starts: seq<State>, slots: seq<Slot>, k: nat)
    requires src.Valid() && Slotted(src, starts, slots) && k < |slots| && src.Ready(starts[k]) && RefsAll(ItemsOf(slots)[..k]) <= starts[k].deps
    ensures src.Arguments(ItemsOf(slots)[..k], starts[k])
         == ParseList(Some(ItemsOf(slots)), Behind(starts[|slots| - 1], slots[|slots| - 1]))
    decreases |slots| - k
  {
    hide Source.Expression, Source.Arguments, Refs, Slotted;
    var items := ItemsOf(slots);
    SlotAt(src, starts, slots, k);
    ArgumentsStep(src, items[..k], starts[k], slots[k]);
    assert items[..k] + [ItemOf(slots[k])] == items[..k + 1];
    if k < |slots| - 1 { ArgumentsFrom(src, starts, slots, k + 1); } else { assert items[..k + 1] == items; }
  }

  // An ordinary call has its arguments in order, and an empty slot is an omission.
  lemma ArgumentsAreRead(src: Source, starts: seq<State>, slots: seq<Slot>)
    requires src.Valid() && Slotted(src, starts, slots)
    ensures src.Ready(starts[0]) && RefsAll([]) <= starts[0].deps
    ensures src.Arguments([], starts[0]) == ParseList(Some(ItemsOf(slots)), Behind(starts[|slots| - 1], slots[|slots| - 1]))
  {
    hide Source.Expression, Source.Arguments, Refs;
    RefsAllNone();
    assert ItemsOf(slots)[..0] == [];
    ArgumentsFrom(src, starts, slots, 0);
  }

  // -------- LET --------

  function Bind(s: State, name: string, frame: nat, index: nat): State { s.(binds := s.binds + [Binding(name, frame, index)]) }

  // `name, value,` pairs from starts[k] on: value k is read up to ends[k], with the
  // names before it in scope, and then its own name joins them under index k.
  ghost predicate Pairs(src: Source, frame: nat, starts: seq<State>, names: seq<string>, values: seq<Node>, ends: seq<State>)
    requires src.Valid()
  {
    && |starts| == |values| + 1 && |names| == |values| == |ends| > 0
    && (forall k :: 0 <= k < |values| ==>
                      && starts[k].pos + 2 < |src.tokens| && src.tokens[starts[k].pos] == TName(names[k]) && ParseCell(names[k]).None?
                      && IsSeparator(src.tokens[starts[k].pos + 1])
                      && src.Expression(0, Advance(Advance(starts[k]))) == Done(values[k], ends[k])
                      && IsSeparator(src.Tok(ends[k])) && starts[k + 1] == Advance(Bind(ends[k], names[k], frame, k)))
    && (forall k :: 0 < k < |values| ==> src.Ready(starts[k]) && src.StartsBindingName(starts[k]))
    && src.Ready(starts[|values|]) && !src.StartsBindingName(starts[|values|])
  }

  lemma PairAt(src: Source, frame: nat, starts: seq<State>, names: seq<string>, values: seq<Node>, ends: seq<State>, k: nat)
    requires src.Valid() && Pairs(src, frame, starts, names, values, ends) && k < |values|
    ensures |starts| == |values| + 1 && |names| == |values| == |ends| && src.Ready(starts[k]) && src.Ready(starts[k + 1])
    ensures src.LetBinding(frame, k, starts[k]) == Done(values[k], starts[k + 1])
    ensures Refs(values[k]) <= starts[k + 1].deps && starts[k].deps <= starts[k + 1].deps
    ensures src.StartsBindingName(starts[k + 1]) <==> k + 1 < |values|
  {
    hide Source.Expression, Refs;
  }

  lemma {:induction false} PairsAreRead(src: Source, frame: nat, starts: seq<State>, names: seq<string>, values: seq<Node>, ends: seq<State>, k: nat)
    requires src.Valid() && Pairs(src, frame, starts, names, values, ends) && k < |values| && src.Ready(starts[k]) && RefsAll(values[..k]) <= starts[k].deps
    ensures src.Ready(starts[|values|])
    ensures var body := src.Close(src.Expression(0, starts[|values|]));
            src.LetSteps(frame, values[..k], starts[k])
            == if body.node.None? then body else Done(Let(frame, values, body.node.value), body.st)
    decreases |values| - k
  {
    hide Source.Expression, Source.LetSteps, Refs, Pairs, Source.StartsBindingName;
    PairAt(src, frame, starts, names, values, ends, k);
    LetStep(src, frame, values[..k], starts[k], values[k], starts[k + 1]);
    assert values[..k] + [values[k]] == values[..k + 1];
    if k + 1 < |values| { PairsAreRead(src, frame, starts, names, values, ends, k + 1); } else { assert values[..k + 1] == values; }
  }

  lemma LetStep(src: Source, frame: nat, done: seq<Node>, s: State, value: Node, next: State)
    requires src.Valid() && src.Ready(s) && src.Ready(next) && RefsAll(done) <= s.deps
    requires src.LetBinding(frame, |done|, s) == Done(value, next)
    ensures RefsAll(done + [value]) <= next.deps
    ensures src.StartsBindingName(next) ==> src.LetSteps(frame, done, s) == src.LetSteps(frame, done + [value], next)
    ensures !src.StartsBindingName(next) ==>
              var body := src.Close(src.Expression(0, next));
              src.LetSteps(frame, done, s) == if body.node.None? then body else Done(Let(frame, done + [value], body.node.value), body.st)
  {
    hide Source.Expression, Source.LetBinding, Refs, Source.StartsBindingName;
    RefsAllAppend(done, value);
  }

  // LET(name, value, …, calculation) holds the values in order, the calculation last.
  lemma LetIsRead(src: Source, frame: nat, starts: seq<State>, names: seq<string>, values: seq<Node>, ends: seq<State>)
    requires src.Valid() && Pairs(src, frame, starts, names, values, ends)
    ensures src.Ready(starts[0]) && src.Ready(starts[|values|]) && RefsAll([]) <= starts[0].deps
    ensures var body := src.Close(src.Expression(0, starts[|values|]));
            src.LetSteps(frame, [], starts[0]) == if body.node.None? then body else Done(Let(frame, values, body.node.value), body.st)
  {
    hide Source.Expression, Source.LetSteps, Refs, Pairs, Source.StartsBindingName;
    RefsAllNone();
    assert |values| > 0 by { PairsCount(src, frame, starts, names, values, ends); }
    PairAt(src, frame, starts, names, values, ends, 0);
    assert values[..0] == [];
    PairsAreRead(src, frame, starts, names, values, ends, 0);
  }

  lemma PairsCount(src: Source, frame: nat, starts: seq<State>, names: seq<string>, values: seq<Node>, ends: seq<State>)
    requires src.Valid() && Pairs(src, frame, starts, names, values, ends)
    ensures |starts| == |values| + 1 && |values| > 0
  {
  }

  // -------- LAMBDA --------

  // The states after each parameter; parameter k joins the names under index k.
  ghost predicate Parameters(src: Source, frame: nat, starts: seq<State>, names: seq<string>)
    requires src.Valid()
  {
    && |starts| == |names| + 1
    && (forall k :: 0 <= k < |names| ==>
                      && src.Ready(starts[k]) && src.StartsBindingName(starts[k]) && src.Tok(starts[k]) == TName(names[k])
                      && starts[k + 1] == Bind(Advance(Advance(starts[k])), names[k], frame, k))
    && src.Ready(starts[|names|]) && !src.StartsBindingName(starts[|names|])
  }

  lemma {:induction false} ParametersFrom(src: Source, frame: nat, starts: seq<State>, names: seq<string>, k: nat)
    requires src.Valid() && Parameters(src, frame, starts, names) && k <= |names|
    ensures src.Ready(starts[k]) && src.Ready(starts[|names|])
    ensures var body := src.Close(src.Expression(0, starts[|names|]));
            src.LambdaParts(frame, k, starts[k])
            == if body.node.None? then body else Done(Lambda(frame, |names|, body.node.value), body.st)
    decreases |names| - k
  {
    hide Source.Expression;
    if k < |names| { ParametersFrom(src, frame, starts, names, k + 1); }
  }

  // LAMBDA(parameters…, body) takes as many arguments as it has parameters.
  lemma LambdaIsRead(src: Source, frame: nat, starts: seq<State>, names: seq<string>)
    requires src.Valid() && Parameters(src, frame, starts, names)
    ensures src.Ready(starts[0]) && src.Ready(starts[|names|])
    ensures var body := src.Close(src.Expression(0, starts[|names|]));
            src.LambdaParts(frame, 0, starts[0]) == if body.node.None? then body else Done(Lambda(frame, |names|, body.node.value), body.st)
  {
    hide Source.Expression, Source.LambdaParts, Parameters;
    ParametersFrom(src, frame, starts, names, 0);
  }

  // -------- by name --------

  // `name(…)` for an ordinary function is a call of it on what its slots hold, and
  // `name()` one on nothing.
  lemma FunctionIsRead(src: Source, name: string, s: State, starts: seq<State>, slots: seq<Slot>)
    requires src.Valid() && src.Ready(s) && src.Tok(s).TLeft? && Slotted(src, starts, slots) && starts[0] == Advance(s)
    requires name !in {"LET", "LAMBDA", "TRUE", "FALSE", "ROW", "COLUMN", "OFFSET", "INDIRECT"} && Lookup(s.binds, name).None?
    requires |slots| == 1 ==> slots[0].Filled?
    ensures src.Named(name, s) == Done(Call(name, ItemsOf(slots)), Advance(Behind(starts[|slots| - 1], slots[|slots| - 1])))
  {
    hide Source.Expression, Source.Arguments, Refs;
    ArgumentsAreRead(src, starts, slots);
    assert !src.Tok(starts[0]).TRight?;
  }

  lemma EmptyCallIsRead(src: Source, name: string, s: State)
    requires src.Valid() && src.Ready(s) && src.Tok(s).TLeft? && src.tokens[s.pos + 1].TRight?
    requires name !in {"LET", "LAMBDA", "TRUE", "FALSE", "ROW", "COLUMN", "OFFSET", "INDIRECT"} && Lookup(s.binds, name).None?
    ensures src.Named(name, s) == Done(Call(name, []), Advance(Advance(s)))
  {
    RefsAllNone();
  }

  // LET and LAMBDA get a frame of their own and leave the names in scope as they
  // found them.
  lemma LetByName(src: Source, s: State, starts: seq<State>, names: seq<string>, values: seq<Node>, ends: seq<State>)
    requires src.Valid() && src.Ready(s) && src.Tok(s).TLeft? && Pairs(src, s.unused, starts, names, values, ends)
    requires starts[0] == Advance(s).(unused := s.unused + 1)
    ensures src.Ready(starts[|values|])
    ensures var body := src.Close(src.Expression(0, starts[|values|]));
            && src.Named("LET", s).node == (if body.node.None? then None else Some(Let(s.unused, values, body.node.value)))
            && src.Named("LET", s).st.binds == s.binds
  {
    hide Source.Expression, Source.LetSteps, Source.Named, Refs, Pairs;
    LetIsRead(src, s.unused, starts, names, values, ends);
    NamedLet(src, s);
  }

  lemma NamedLet(src: Source, s: State)
    requires src.Valid() && src.Ready(s) && src.Tok(s).TLeft?
    ensures src.Ready(Advance(s)) && RefsAll([]) <= s.deps
    ensures src.Named("LET", s).node == src.LetSteps(s.unused, [], Advance(s).(unused := s.unused + 1)).node
  {
    hide Source.LetSteps;
    RefsAllNone();
  }

  lemma LambdaByName(src: Source, s: State, starts: seq<State>, names: seq<string>)
    requires src.Valid() && src.Ready(s) && src.Tok(s).TLeft? && Parameters(src, s.unused, starts, names)
    requires starts[0] == Advance(s).(unused := s.unused + 1)
    ensures src.Ready(starts[|names|])
    ensures var body := src.Close(src.Expression(0, starts[|names|]));
            body.node.Some? && !src.Tok(body.st).TLeft? ==>
              && src.Named("LAMBDA", s).node == Some(Lambda(s.unused, |names|, body.node.value))
              && src.Named("LAMBDA", s).st.binds == s.binds
  {
    hide Source.Expression, Source.LambdaParts, Source.Named, Refs, Parameters;
    LambdaIsRead(src, s.unused, starts, names);
    NamedLambda(src, s);
  }

  lemma NamedLambda(src: Source, s: State)
    requires src.Valid() && src.Ready(s) && src.Tok(s).TLeft?
    ensures src.Ready(Advance(s))
    ensures var p := src.LambdaParts(s.unused, 0, Advance(s).(unused := s.unused + 1));
            p.node.Some? && !src.Tok(p.st).TLeft? ==> src.Named("LAMBDA", s).node == p.node
  {
    hide Source.LambdaParts, Refs;
  }
}
