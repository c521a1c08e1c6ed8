/**
  Function names as a file spells them and as people see them: newer functions
  carry a prefix inside the file.  Both directions scan the formula the same way
  and change called names only.
*/
module ExcelNames {

  // Which characters beyond ASCII are letters or digits.
  type Alphabet = char -> bool

  type Rename = (string, bool) -> string

  predicate IsNameRune(wide: Alphabet, c: char) {
    || c == '.' || c == '_' || 'a' <= c <= 'z' || 'A' <= c <= 'Z' || '0' <= c <= '9'
    || (c as int >= 128 && wide(c))
  }

  predicate IsBlank(c: char) { c == ' ' || c == '\t' }

  // -------- where the piece at the front of a text ends --------

  // Behind an opening single quote: just after the next one.
  function SheetEnd(t: string): (n: nat)
    ensures n <= |t|
  {
    if t == "" then 0 else if t[0] == '\'' then 1 else 1 + SheetEnd(t[1..])
  }

  // Behind an opening double quote: a doubled quote does not close it.
  function StringEnd(t: string): (n: nat)
    ensures n <= |t|
  {
    if t == "" then 0
    else if t[0] != '"' then 1 + StringEnd(t[1..])
    else if |t| > 1 && t[1] == '"' then 2 + StringEnd(t[2..])
    else 1
  }

  function NameEnd(wide: Alphabet, t: string): (n: nat)
    ensures n <= |t|
    ensures forall i :: 0 <= i < n ==> IsNameRune(wide, t[i])
    ensures n < |t| ==> !IsNameRune(wide, t[n])
  {
    if t == "" || !IsNameRune(wide, t[0]) then 0 else 1 + NameEnd(wide, t[1..])
  }

  function PieceEnd(wide: Alphabet, t: string): (n: nat)
    requires t != ""
    ensures 0 < n <= |t|
  {
    if t[0] == '\'' then 1 + SheetEnd(t[1..])
    else if t[0] == '"' then 1 + StringEnd(t[1..])
    else if IsNameRune(wide, t[0]) then NameEnd(wide, t)
    else 1
  }

  function BlankEnd(t: string): (n: nat)
    ensures n <= |t|
    ensures forall i :: 0 <= i < n ==> IsBlank(t[i])
    ensures n < |t| ==> !IsBlank(t[n])
  {
    if t == "" || !IsBlank(t[0]) then 0 else 1 + BlankEnd(t[1..])
  }

  // A name is called when, blanks aside, an opening parenthesis follows.
  predicate IsCall(rest: string) {
    BlankEnd(rest) < |rest| && rest[BlankEnd(rest)] == '('
  }

  function Rewrite(wide: Alphabet, t: string, rename: Rename): string {
    if t == "" then ""
    else
      var n := PieceEnd(wide, t);
      (if IsNameRune(wide, t[0]) then rename(t[..n], IsCall(t[n..])) else t[..n]) + Rewrite(wide, t[n..], rename)
  }

  // -------- the scan --------

  method RewriteNames(wide: Alphabet, text: string, rename: Rename) returns (out: string)
    ensures out == Rewrite(wide, text, rename)
  {
    hide SheetEnd, StringEnd, NameEnd, BlankEnd, PieceEnd, Rewrite, IsNameRune, IsCall;
    out := "";
    var index := 0;
    while index < |text|
      invariant 0 <= index <= |text|
      invariant Rewrite(wide, text, rename) == out + Rewrite(wide, text[index..], rename)
    {
      var start := index;
      PieceAt(wide, text, start, rename);
      var piece;
      if text[index] == '\'' {
        index := SkipSheet(text, index + 1);
        piece := text[start..index];
      } else if text[index] == '"' {
        index := SkipString(text, index + 1);
        piece := text[start..index];
      } else if IsNameRune(wide, text[index]) {
        index := SkipName(wide, text, index);
        var called := CallFollows(text, index);
        piece := rename(text[start..index], called);
      } else {
        index := index + 1;
        piece := text[start..index];
      }
      assert Rewrite(wide, text[start..], rename) == piece + Rewrite(wide, text[index..], rename);
      Regroup(out, piece, Rewrite(wide, text[index..], rename));
      out := out + piece;
    }
    NothingLeft(wide, text, rename);
  }

  lemma PieceAt(wide: Alphabet, text: string, i: nat, rename: Rename)
    requires i < |text|
    ensures var n := if text[i] == '\'' then 1 + SheetEnd(text[i + 1..])
                     else if text[i] == '"' then 1 + StringEnd(text[i + 1..])
                     else if IsNameRune(wide, text[i]) then NameEnd(wide, text[i..])
                     else 1;
            && i + n <= |text|
            && (text[i] == '\'' || text[i] == '"' ==> !IsNameRune(wide, text[i]))
            && Rewrite(wide, text[i..], rename)
               == (if IsNameRune(wide, text[i]) then rename(text[i..i + n], IsCall(text[i + n..])) else text[i..i + n])
                  + Rewrite(wide, text[i + n..], rename)
  {
    hide SheetEnd, StringEnd, NameEnd, BlankEnd;
    var rest := text[i..];
    var n := PieceEnd(wide, rest);
    assert rest[1..] == text[i + 1..];
    assert rest[..n] == text[i..i + n] && rest[n..] == text[i + n..];
  }

  lemma Regroup(a: string, b: string, c: string)
    ensures a + (b + c) == (a + b) + c
  {
  }

  lemma NothingLeft(wide: Alphabet, text: string, rename: Rename)
    ensures Rewrite(wide, text[|text|..], rename) == ""
  {
  }

  method CallFollows(text: string, from: nat) returns (called: bool)
    requires from <= |text|
    ensures called <==> IsCall(text[from..])
  {
    var lookahead := SkipBlanks(text, from);
    called := lookahead < |text| && text[lookahead] == '(';
  }

  method SkipSheet(text: string, from: nat) returns (index: nat)
    requires from <= |text|
    ensures index == from + SheetEnd(text[from..]) <= |text|
  {
    index := from;
    while index < |text|
      invariant from <= index <= |text|
      invariant from + SheetEnd(text[from..]) == index + SheetEnd(text[index..])
    {
      index := index + 1;
      assert text[index - 1..][1..] == text[index..];
      if text[index - 1] == '\'' { return; }
    }
  }

  method SkipString(text: string, from: nat) returns (index: nat)
    requires from <= |text|
    ensures index == from + StringEnd(text[from..]) <= |text|
  {
    index := from;
    while index < |text|
      invariant from <= index <= |text|
      invariant from + StringEnd(text[from..]) == index + StringEnd(text[index..])
    {
      ghost var rest := text[index..];
      assert rest[1..] == text[index + 1..] && (|rest| > 1 ==> rest[2..] == text[index + 2..]);
      if text[index] == '"' {
        index := index + 1;
        if index < |text| && text[index] == '"' {
          index := index + 1;
          continue;
        }
        return;
      }
      index := index + 1;
    }
  }

  method SkipName(wide: Alphabet, text: string, from: nat) returns (index: nat)
    requires from <= |text|
    ensures index == from + NameEnd(wide, text[from..]) <= |text|
  {
    index := from;
    while index < |text| && IsNameRune(wide, text[index])
      invariant from <= index <= |text|
      invariant from + NameEnd(wide, text[from..]) == index + NameEnd(wide, text[index..])
    {
      assert text[index..][1..] == text[index + 1..];
      index := index + 1;
    }
  }

  method SkipBlanks(text: string, from: nat) returns (index: nat)
    requires from <= |text|
    ensures index == from + BlankEnd(text[from..]) <= |text|
  {
    index := from;
    while index < |text| && IsBlank(text[index])
      invariant from <= index <= |text|
      invariant from + BlankEnd(text[from..]) == index + BlankEnd(text[index..])
    {
      assert text[index..][1..] == text[index + 1..];
      index := index + 1;
    }
  }

  // -------- scanning a rewritten text again --------

  // Renaming gives a name again; only a called name may vanish.
  ghost predicate NamesToNames(wide: Alphabet, rename: Rename) {
    forall w: string, called: bool {:trigger rename(w, called)} ::
      w != "" && (forall i :: 0 <= i < |w| ==> IsNameRune(wide, w[i])) ==>
        (forall i :: 0 <= i < |rename(w, called)| ==> IsNameRune(wide, rename(w, called)[i]))
        && (!called ==> rename(w, called) != "")
  }

  predicate StartsName(wide: Alphabet, t: string) { t != "" && IsNameRune(wide, t[0]) }

  // What a rewritten text starts with.
  lemma RewrittenHead(wide: Alphabet, t: string, rename: Rename)
    requires NamesToNames(wide, rename)
    ensures var r := Rewrite(wide, t, rename);
            && (t == "" ==> r == "")
            && (t != "" && !StartsName(wide, t) ==> r != "" && r[0] == t[0])
            && (StartsName(wide, t) ==> r != "" && (StartsName(wide, r) || r[0] == '(' || IsBlank(r[0])))
  {
    hide NamesToNames, SheetEnd, StringEnd, NameEnd, IsCall;
    if t != "" && StartsName(wide, t) {
      var n := PieceEnd(wide, t);
      var word := rename(t[..n], IsCall(t[n..]));
      Renamed(wide, t[..n], IsCall(t[n..]), rename);
      if word == "" {
        assert Rewrite(wide, t, rename) == Rewrite(wide, t[n..], rename);
        VanishedHead(wide, t[n..], rename);
      }
    }
  }

  // Behind a name that vanished.
  lemma VanishedHead(wide: Alphabet, rest: string, rename: Rename)
    requires IsCall(rest) && !StartsName(wide, rest)
    ensures var r := Rewrite(wide, rest, rename); r != "" && (r[0] == '(' || IsBlank(r[0]))
  {
    hide SheetEnd, StringEnd, NameEnd;
    assert rest[0] == '(' || IsBlank(rest[0]);
    assert PieceEnd(wide, rest) == 1;
  }

  lemma {:induction false} SheetAgain(a: string, b: string)
    requires SheetEnd(a) == |a| && (b != "" ==> a != "" && a[|a| - 1] == '\'')
    ensures SheetEnd(a + b) == |a|
  {
    if a == "" {
    } else if a[0] == '\'' {
    } else {
      assert (a + b)[1..] == a[1..] + b;
      SheetAgain(a[1..], b);
    }
  }

  // A closed string stays closed where it was unless a quote now follows it.
  lemma {:induction false} StringAgain(a: string, b: string)
    requires StringEnd(a) == |a| && (b != "" ==> Closed(a) && b[0] != '"')
    ensures StringEnd(a + b) == |a|
  {
    if b == "" {
      assert a + b == a;
    } else if a[0] != '"' {
      assert (a + b)[1..] == a[1..] + b;
      StringAgain(a[1..], b);
    } else if |a| > 1 && a[1] == '"' {
      assert (a + b)[2..] == a[2..] + b;
      StringAgain(a[2..], b);
    } else {
      assert |a| == 1 && (a + b)[0] == '"';
    }
  }

  // The text ends with the quote that closes it.
  predicate Closed(a: string) {
    if a == "" then false
    else if a[0] != '"' then Closed(a[1..])
    else if |a| > 1 && a[1] == '"' then Closed(a[2..])
    else |a| == 1
  }

  lemma {:induction false} SheetTaken(t: string)
    ensures var n := SheetEnd(t);
            SheetEnd(t[..n]) == n && (n < |t| ==> n > 0 && t[n - 1] == '\'')
  {
    if t != "" && t[0] != '\'' {
      SheetTaken(t[1..]);
      var n := SheetEnd(t);
      assert t[..n][1..] == t[1..][..n - 1];
    }
  }

  lemma {:induction false} StringTaken(t: string)
    ensures var n := StringEnd(t);
            StringEnd(t[..n]) == n && (n < |t| ==> Closed(t[..n]) && t[n] != '"')
  {
    var n := StringEnd(t);
    if t == "" {
    } else if t[0] != '"' {
      assert n == 1 + StringEnd(t[1..]);
      StringTaken(t[1..]);
      FrontOfTail(t, 1, n);
    } else if |t| > 1 && t[1] == '"' {
      assert n == 2 + StringEnd(t[2..]);
      StringTaken(t[2..]);
      FrontOfTail(t, 2, n);
    }
  }

  lemma FrontOfTail(t: string, i: nat, n: nat)
    requires i <= n <= |t|
    ensures t[..n][i..] == t[i..][..n - i]
  {
  }

  lemma {:induction false} NameAgain(wide: Alphabet, a: string, b: string)
    requires (forall i :: 0 <= i < |a| ==> IsNameRune(wide, a[i])) && !StartsName(wide, b)
    ensures NameEnd(wide, a + b) == |a|
  {
    if a == "" {
      assert a + b == b;
    } else {
      assert (a + b)[1..] == a[1..] + b;
      NameAgain(wide, a[1..], b);
    }
  }

  // A piece in front of a rewritten rest is the same piece again.
  lemma PieceAgain(wide: Alphabet, t: string, tail: string)
    requires t != "" && !StartsName(wide, t)
    requires var n := PieceEnd(wide, t);
             (n == |t| ==> tail == "") && (tail != "" && n < |t| ==> (t[n] != '"' ==> tail[0] != '"'))
    ensures var n := PieceEnd(wide, t);
            PieceEnd(wide, t[..n] + tail) == n && (t[..n] + tail)[..n] == t[..n] && (t[..n] + tail)[n..] == tail
  {
    var n := PieceEnd(wide, t);
    var whole := t[..n] + tail;
    assert whole[1..] == t[1..][..n - 1] + tail;
    if t[0] == '\'' {
      SheetTaken(t[1..]);
      SheetAgain(t[1..][..n - 1], tail);
    } else if t[0] == '"' {
      StringTaken(t[1..]);
      StringAgain(t[1..][..n - 1], tail);
    }
  }

  // One piece of scanning the rewritten text.
  lemma RewriteAgain(wide: Alphabet, t: string, first: Rename, second: Rename)
    requires t != "" && NamesToNames(wide, first)
    ensures var n := PieceEnd(wide, t);
            var out, rest := Rewrite(wide, t, first), Rewrite(wide, t[n..], first);
            if !IsNameRune(wide, t[0]) then Rewrite(wide, out, second) == t[..n] + Rewrite(wide, rest, second)
            else
              var word := first(t[..n], IsCall(t[n..]));
              && (word == "" ==> out == rest)
              && (word != "" ==> Rewrite(wide, out, second) == second(word, IsCall(rest)) + Rewrite(wide, rest, second))
  {
    hide NamesToNames, IsCall;
    var n := PieceEnd(wide, t);
    var out, rest := Rewrite(wide, t, first), Rewrite(wide, t[n..], first);
    RewrittenHead(wide, t[n..], first);
    if !IsNameRune(wide, t[0]) {
      PieceAgain(wide, t, rest);
    } else {
      NameAgainFirst(wide, t, rest, first, second);
    }
  }

  lemma NameAgainFirst(wide: Alphabet, t: string, rest: string, first: Rename, second: Rename)
    requires t != "" && NamesToNames(wide, first) && IsNameRune(wide, t[0])
    requires rest == Rewrite(wide, t[PieceEnd(wide, t)..], first) && !StartsName(wide, rest)
    ensures var n := PieceEnd(wide, t);
            var word := first(t[..n], IsCall(t[n..]));
            var out := Rewrite(wide, t, first);
            && (word == "" ==> out == rest)
            && (word != "" ==> Rewrite(wide, out, second) == second(word, IsCall(rest)) + Rewrite(wide, rest, second))
  {
    hide NamesToNames, IsCall, SheetEnd, StringEnd, NameEnd;
    var n := PieceEnd(wide, t);
    var word := first(t[..n], IsCall(t[n..]));
    var out := word + rest;
    Renamed(wide, t[..n], IsCall(t[n..]), first);
    assert Rewrite(wide, t, first) == out;
    if word == "" {
      assert out == rest;
    } else {
      NameAgain(wide, word, rest);
      assert out[0] == word[0] && out[..|word|] == word && out[|word|..] == rest;
    }
  }

  // -------- which name is followed by what --------

  // The text after some blanks.
  function PastBlanks(t: string): string { t[BlankEnd(t)..] }

  lemma {:induction false} BlanksKept(wide: Alphabet, t: string, rename: Rename)
    requires NamesToNames(wide, rename)
    ensures var r := Rewrite(wide, t, rename);
            && BlankEnd(t) <= |r| && r[..BlankEnd(t)] == t[..BlankEnd(t)]
            && r[BlankEnd(t)..] == Rewrite(wide, PastBlanks(t), rename)
  {
    hide Rewrite, NamesToNames;
    var r, b := Rewrite(wide, t, rename), BlankEnd(t);
    if t != "" && IsBlank(t[0]) {
      BlankFirst(wide, t, rename);
      BlanksKept(wide, t[1..], rename);
      var rest := Rewrite(wide, t[1..], rename);
      assert t[b..] == t[1..][b - 1..] && r[b..] == rest[b - 1..];
      assert r[..b] == [t[0]] + rest[..b - 1] && t[..b] == [t[0]] + t[1..][..b - 1];
    } else {
      assert t[0..] == t && r[0..] == r;
    }
  }

  lemma BlankFirst(wide: Alphabet, t: string, rename: Rename)
    requires t != "" && IsBlank(t[0])
    ensures Rewrite(wide, t, rename) == [t[0]] + Rewrite(wide, t[1..], rename)
  {
    assert PieceEnd(wide, t) == 1 && t[..1] == [t[0]];
  }

  lemma {:induction false} BlanksThen(a: string, b: string)
    requires forall i :: 0 <= i < |a| ==> IsBlank(a[i])
    ensures BlankEnd(a + b) == |a| + BlankEnd(b) && IsCall(a + b) == IsCall(b)
  {
    if a == "" {
      assert a + b == b;
    } else {
      assert (a + b)[1..] == a[1..] + b;
      BlanksThen(a[1..], b);
    }
  }

  // The first name after some blanks is called and vanishes.
  predicate NextVanishes(wide: Alphabet, t: string, rename: Rename) {
    var next := PastBlanks(t);
    && StartsName(wide, next)
    && var n := PieceEnd(wide, next);
    IsCall(next[n..]) && rename(next[..n], true) == ""
  }

  // Rewriting makes a call of what was none exactly when a called name right
  // behind it vanishes.
  lemma CallAfter(wide: Alphabet, t: string, rename: Rename)
    requires NamesToNames(wide, rename)
    ensures IsCall(Rewrite(wide, t, rename)) <==> IsCall(t) || NextVanishes(wide, t, rename)
  {
    hide Rewrite, NamesToNames, PieceEnd, BlankEnd, IsNameRune;
    var b := BlankEnd(t);
    var next := PastBlanks(t);
    var after := Rewrite(wide, next, rename);
    BlanksKept(wide, t, rename);
    assert Rewrite(wide, t, rename) == t[..b] + after && t == t[..b] + next;
    BlanksThen(t[..b], after);
    BlanksThen(t[..b], next);
    FirstAfter(wide, next, rename);
  }

  lemma FirstAfter(wide: Alphabet, next: string, rename: Rename)
    requires NamesToNames(wide, rename) && (next != "" ==> !IsBlank(next[0]))
    ensures var after := Rewrite(wide, next, rename);
            IsCall(after) <==> IsCall(next) || (StartsName(wide, next)
                                                && var n := PieceEnd(wide, next);
                                                IsCall(next[n..]) && rename(next[..n], true) == "")
  {
    hide NamesToNames, SheetEnd, StringEnd, NameEnd, IsCall, Rewrite, PieceEnd;
    RewrittenHead(wide, next, rename);
    if StartsName(wide, next) {
      NameAfter(wide, next, rename);
    } else {
      FrontIsCall(next);
      FrontIsCall(Rewrite(wide, next, rename));
    }
  }

  lemma NameAfter(wide: Alphabet, next: string, rename: Rename)
    requires NamesToNames(wide, rename) && StartsName(wide, next)
    ensures !IsCall(next)
    ensures var n := PieceEnd(wide, next);
            IsCall(Rewrite(wide, next, rename)) <==> IsCall(next[n..]) && rename(next[..n], true) == ""
  {
    hide NamesToNames, SheetEnd, StringEnd, NameEnd, IsCall;
    var n := PieceEnd(wide, next);
    var after, called := Rewrite(wide, next, rename), IsCall(next[n..]);
    var word := rename(next[..n], called);
    Renamed(wide, next[..n], called, rename);
    FrontIsCall(next);
    if word == "" {
      CallKept(wide, next[n..], rename);
      assert after == Rewrite(wide, next[n..], rename);
    } else {
      assert after[0] == word[0] && IsNameRune(wide, word[0]);
      FrontIsCall(after);
    }
  }

  // Without blanks in front the first character decides.
  lemma FrontIsCall(t: string)
    ensures t == "" || !IsBlank(t[0]) ==> (IsCall(t) <==> t != "" && t[0] == '(')
  {
  }

  lemma Renamed(wide: Alphabet, w: string, called: bool, rename: Rename)
    requires NamesToNames(wide, rename) && w != "" && forall i :: 0 <= i < |w| ==> IsNameRune(wide, w[i])
    ensures forall i :: 0 <= i < |rename(w, called)| ==> IsNameRune(wide, rename(w, called)[i])
    ensures rename(w, called) == "" ==> called
  {
  }

  lemma CallKept(wide: Alphabet, t: string, rename: Rename)
    requires NamesToNames(wide, rename) && IsCall(t)
    ensures IsCall(Rewrite(wide, t, rename))
  {
    hide NamesToNames, Rewrite, PieceEnd;
    var b := BlankEnd(t);
    var r, next := Rewrite(wide, t, rename), PastBlanks(t);
    BlanksKept(wide, t, rename);
    assert r == t[..b] + Rewrite(wide, next, rename);
    BlanksThen(t[..b], Rewrite(wide, next, rename));
    RewrittenHead(wide, next, rename);
  }

  // Two renamings in turn are one, when the first makes nothing vanish.
  lemma {:induction false} RewriteTwice(wide: Alphabet, t: string, first: Rename, second: Rename, both: Rename)
    requires NamesToNames(wide, first)
    requires forall w, called :: w != "" ==> first(w, called) != "" && both(w, called) == second(first(w, called), called)
    ensures Rewrite(wide, Rewrite(wide, t, first), second) == Rewrite(wide, t, both)
    decreases |t|
  {
    hide IsNameRune, IsCall, PieceEnd, NamesToNames, BlankEnd;
    if t != "" {
      var n := PieceEnd(wide, t);
      RewriteAgain(wide, t, first, second);
      CallAfter(wide, t[n..], first);
      RewriteTwice(wide, t[n..], first, second, both);
    }
  }

  // -------- the names --------

  function UpperChar(c: char): char {
    if 'a' <= c <= 'z' then c - 32 as char else c
  }

  function Upper(s: string): (r: string)
    ensures |r| == |s|
  {
    seq(|s|, i requires 0 <= i < |s| => UpperChar(s[i]))
  }

  const WORKSHEET_MARK := "_XLFN._XLWS."
  const MODERN_MARK := "_XLFN."
  const BARE_MARK := "_XLWS."

  const MODERN: set<string> := {
    "STDEV.P", "STDEV.S", "VAR.P", "VAR.S", "MODE.SNGL", "RANK.EQ", "RANK.AVG", "PERCENTILE.INC", "PERCENTILE.EXC",
    "QUARTILE.INC", "QUARTILE.EXC", "COVARIANCE.P", "FORECAST.LINEAR", "IFS", "SWITCH", "IFNA", "TEXTJOIN", "CONCAT",
    "MAXIFS", "MINIFS", "XLOOKUP", "XMATCH", "UNIQUE", "SEQUENCE", "SORTBY", "LET", "LAMBDA", "ISOMITTED", "BYROW",
    "BYCOL", "MAP", "REDUCE", "SCAN", "TEXTBEFORE", "TEXTAFTER", "TEXTSPLIT", "VSTACK", "HSTACK", "TOROW", "TOCOL",
    "CHOOSEROWS", "CHOOSECOLS", "WRAPROWS", "WRAPCOLS", "EXPAND", "ISFORMULA", "DAYS", "ISOWEEKNUM", "UNICHAR",
    "UNICODE", "NUMBERVALUE", "PDURATION", "RRI"
  }

  const WORKSHEET: set<string> := {"FILTER", "SORT"}

  // How many characters of prefix a name carries; the longest is tried first.
  function Mark(word: string): (n: nat)
    ensures n <= |word|
  {
    var upper := Upper(word);
    if WORKSHEET_MARK <= upper then |WORKSHEET_MARK|
    else if MODERN_MARK <= upper then |MODERN_MARK|
    else if BARE_MARK <= upper then |BARE_MARK|
    else 0
  }

  function PlainName(word: string): string { word[Mark(word)..] }

  function ExcelName(word: string): string {
    if Mark(word) > 0 then word
    else if Upper(word) in MODERN then "_xlfn." + word
    else if Upper(word) in WORKSHEET then "_xlfn._xlws." + word
    else word
  }

  function Excel(word: string, called: bool): string { if called then ExcelName(word) else word }

  function Plain(word: string, called: bool): string { if called then PlainName(word) else word }

  function ForExcel(wide: Alphabet, t: string): string { Rewrite(wide, t, Excel) }

  function FromExcel(wide: Alphabet, t: string): string { Rewrite(wide, t, Plain) }

  lemma UpperAppend(a: string, b: string)
    ensures Upper(a + b) == Upper(a) + Upper(b)
  {
  }

  // The prefix put in front is the prefix found in front.
  lemma MarkOfExcelName(word: string)
    requires Mark(word) == 0
    ensures PlainName(ExcelName(word)) == word
    ensures ExcelName(word) != word ==> Mark(ExcelName(word)) > 0
  {
    hide Mark, Upper;
    if Upper(word) in MODERN {
      ModernMark(word);
    } else if Upper(word) in WORKSHEET {
      WorksheetMark(word);
    }
  }

  lemma ModernMark(word: string)
    requires Mark(word) == 0
    ensures Mark("_xlfn." + word) == 6 && ("_xlfn." + word)[6..] == word
  {
    var out, upper := "_xlfn." + word, Upper(word);
    UpperAppend("_xlfn.", word);
    assert Upper("_xlfn.") == MODERN_MARK;
    assert Upper(out) == MODERN_MARK + upper;
    assert WORKSHEET_MARK == MODERN_MARK + BARE_MARK;
    assert forall i :: 0 <= i < |upper| ==> Upper(out)[6 + i] == upper[i];
  }

  lemma WorksheetMark(word: string)
    ensures Mark("_xlfn._xlws." + word) == 12 && ("_xlfn._xlws." + word)[12..] == word
  {
    UpperAppend("_xlfn._xlws.", word);
    assert Upper("_xlfn._xlws.") == WORKSHEET_MARK;
    assert Upper("_xlfn._xlws." + word) == WORKSHEET_MARK + Upper(word);
  }

  lemma ExcelIsNaming(wide: Alphabet)
    ensures NamesToNames(wide, Excel)
  {
    forall w: string, called: bool
      | w != "" && (forall i :: 0 <= i < |w| ==> IsNameRune(wide, w[i]))
      ensures (forall i :: 0 <= i < |Excel(w, called)| ==> IsNameRune(wide, Excel(w, called)[i])) && Excel(w, called) != ""
    {
      assert forall i :: 0 <= i < 6 ==> IsNameRune(wide, "_xlfn."[i]);
      assert forall i :: 0 <= i < 12 ==> IsNameRune(wide, "_xlfn._xlws."[i]);
    }
  }

  lemma PlainIsNaming(wide: Alphabet)
    ensures NamesToNames(wide, Plain)
  {
  }

  // Spelling for the file twice is spelling once, for every formula.
  lemma ForExcelIdempotent(wide: Alphabet, t: string)
    ensures ForExcel(wide, ForExcel(wide, t)) == ForExcel(wide, t)
  {
    ExcelIsNaming(wide);
    forall w: string, called: bool | w != "" ensures Excel(w, called) != "" && Excel(Excel(w, called), called) == Excel(w, called) {
      if Mark(w) == 0 { MarkOfExcelName(w); }
    }
    RewriteTwice(wide, t, Excel, Excel, Excel);
  }

  // Some called name carries a prefix already.
  predicate CarriesMark(wide: Alphabet, t: string) {
    if t == "" then false
    else
      var n := PieceEnd(wide, t);
      (IsNameRune(wide, t[0]) && IsCall(t[n..]) && Mark(t[..n]) > 0) || CarriesMark(wide, t[n..])
  }

  function Both(word: string, called: bool): string { Plain(Excel(word, called), called) }

  // Reading back what was written gives the formula again if and only if no
  // called name in it carried a prefix; otherwise it comes back shorter.
  lemma RoundTrip(wide: Alphabet, t: string)
    ensures FromExcel(wide, ForExcel(wide, t)) == t <==> !CarriesMark(wide, t)
  {
    ExcelIsNaming(wide);
    RewriteTwice(wide, t, Excel, Plain, Both);
    BothLength(wide, t);
  }

  lemma {:induction false} BothLength(wide: Alphabet, t: string)
    ensures |Rewrite(wide, t, Both)| <= |t|
    ensures CarriesMark(wide, t) ==> |Rewrite(wide, t, Both)| < |t|
    ensures !CarriesMark(wide, t) ==> Rewrite(wide, t, Both) == t
    decreases |t|
  {
    if t != "" {
      var n := PieceEnd(wide, t);
      BothLength(wide, t[n..]);
      assert t == t[..n] + t[n..];
      if IsNameRune(wide, t[0]) && Mark(t[..n]) == 0 { MarkOfExcelName(t[..n]); }
    }
  }

  // -------- what is left alone --------

  function Blanked(word: string, called: bool): string { if called then "" else word }

  // The text without its called names: quoted text, sheet names, plain names,
  // operators, in order.
  function Skeleton(wide: Alphabet, t: string): string { Rewrite(wide, t, Blanked) }

  lemma ForExcelKeepsRest(wide: Alphabet, t: string)
    ensures Skeleton(wide, ForExcel(wide, t)) == Skeleton(wide, t)
  {
    ExcelIsNaming(wide);
    RewriteTwice(wide, t, Excel, Blanked, Blanked);
  }

  // A plain name stands right before a called name that is nothing but a prefix.
  predicate Exposes(wide: Alphabet, t: string) {
    if t == "" then false
    else
      var n := PieceEnd(wide, t);
      (IsNameRune(wide, t[0]) && !IsCall(t[n..]) && NextVanishes(wide, t[n..], Plain)) || Exposes(wide, t[n..])
  }

  // Reading keeps everything but called names too, unless taking a bare prefix
  // away turns the plain name before it into a call.
  lemma FromExcelKeepsRest(wide: Alphabet, t: string)
    ensures Skeleton(wide, FromExcel(wide, t)) == Skeleton(wide, t) <==> !Exposes(wide, t)
  {
    FromExcelLength(wide, t);
  }

  lemma {:induction false} FromExcelLength(wide: Alphabet, t: string)
    ensures var r := Skeleton(wide, FromExcel(wide, t));
            && (Exposes(wide, t) ==> |r| < |Skeleton(wide, t)|)
            && (!Exposes(wide, t) ==> r == Skeleton(wide, t))
    decreases |t|
  {
    PlainIsNaming(wide);
    if t != "" {
      var n := PieceEnd(wide, t);
      RewriteAgain(wide, t, Plain, Blanked);
      CallAfter(wide, t[n..], Plain);
      FromExcelLength(wide, t[n..]);
    }
  }

  // Such a formula, in which the name before the bare prefix becomes a call.
  lemma BarePrefixExposes(wide: Alphabet)
    ensures Exposes(wide, "a _xlfn.(1)")
  {
    hide NameEnd, BlankEnd, IsCall, NextVanishes;
    var t := "a _xlfn.(1)";
    assert "a" + " _xlfn.(1)" == t && t[1..] == " _xlfn.(1)";
    NameAgain(wide, "a", " _xlfn.(1)");
    assert !IsCall(" _xlfn.(1)") && NextVanishes(wide, " _xlfn.(1)", Plain) by { BarePrefixVanishes(wide); }
  }

  lemma BarePrefixVanishes(wide: Alphabet)
    ensures !IsCall(" _xlfn.(1)") && NextVanishes(wide, " _xlfn.(1)", Plain)
  {
    hide NameEnd, BlankEnd, Mark, Upper, IsCall;
    var next := "_xlfn.(1)";
    assert " " + next == " _xlfn.(1)" && " _xlfn.(1)"[1..] == next;
    BlanksThen(" ", next);
    NoBlank(next);
    FrontIsCall(next);
    PrefixPiece(wide);
    BareMark();
  }

  lemma PrefixPiece(wide: Alphabet)
    ensures var next := "_xlfn.(1)";
            PieceEnd(wide, next) == 6 && next[..6] == "_xlfn." && IsCall(next[6..])
  {
    hide NameEnd, BlankEnd, IsCall;
    var next := "_xlfn.(1)";
    assert "_xlfn." + "(1)" == next && next[6..] == "(1)" && next[..6] == "_xlfn.";
    NameAgain(wide, "_xlfn.", "(1)");
    FrontIsCall("(1)");
  }

  lemma NoBlank(t: string)
    ensures t != "" && !IsBlank(t[0]) ==> BlankEnd(t) == 0
  {
  }

  lemma BareMark()
    ensures Mark("_xlfn.") == 6
  {
    assert Upper("_xlfn.") == MODERN_MARK;
  }
}
