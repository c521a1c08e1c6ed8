/**
  What writing a formula for a file and reading it back does to its text, piece by
  piece: called names, other names, quoted text, quoted sheet names and the rest.
*/
module ExcelWriting {
  import opened ExcelNames

  predicate IsName(wide: Alphabet, w: string) { w != "" && forall i :: 0 <= i < |w| ==> IsNameRune(wide, w[i]) }

  // An opening parenthesis, blanks allowed before it.
  predicate OpensCall(blanks: string, t: string) {
    (forall i :: 0 <= i < |blanks| ==> blanks[i] == ' ' || blanks[i] == '\t') && t != "" && t[0] == '('
  }

  predicate Unmarked(w: string) { !("_XLFN." <= Upper(w)) && !("_XLWS." <= Upper(w)) }

  lemma UnmarkedIs(w: string)
    ensures Unmarked(w) <==> Mark(w) == 0
  {
    if WORKSHEET_MARK <= Upper(w) { assert MODERN_MARK == WORKSHEET_MARK[..6] && Upper(w)[..6] == MODERN_MARK; }
  }

  // Case is ignored letter by letter.
  lemma UpperAt(w: string, i: nat)
    requires i < |w|
    ensures Upper(w)[i] == if 'a' <= w[i] <= 'z' then (w[i] as int - 'a' as int + 'A' as int) as char else w[i]
  {
  }

  // -------- one name at the front --------

  lemma NameInFront(wide: Alphabet, w: string, t: string, rename: Rename)
    requires IsName(wide, w) && (t == "" || !IsNameRune(wide, t[0]))
    ensures Rewrite(wide, w + t, rename) == rename(w, IsCall(t)) + Rewrite(wide, t, rename)
  {
    hide NameEnd, IsCall;
    NameAgain(wide, w, t);
    var all := w + t;
    assert all[..|w|] == w && all[|w|..] == t && all[0] == w[0];
  }

  lemma OpensIsCall(blanks: string, t: string)
    requires OpensCall(blanks, t)
    ensures IsCall(blanks + t) && !(blanks + t == "")
  {
    BlanksThen(blanks, t);
  }

  lemma NotInName(wide: Alphabet, blanks: string, t: string)
    requires OpensCall(blanks, t)
    ensures !IsNameRune(wide, (blanks + t)[0])
  {
  }

  // A called name gets its prefix: newer functions one, two of them another, the
  // rest and names that carry one already none.
  lemma CalledNameIsWritten(wide: Alphabet, w: string, blanks: string, t: string)
    requires IsName(wide, w) && OpensCall(blanks, t)
    ensures ForExcel(wide, w + (blanks + t))
         == (if Unmarked(w) && Upper(w) in MODERN then "_xlfn."
             else if Unmarked(w) && Upper(w) in {"FILTER", "SORT"} then "_xlfn._xlws." else "")
            + w + ForExcel(wide, blanks + t)
  {
    hide IsCall, Mark, Upper;
    OpensIsCall(blanks, t);
    NotInName(wide, blanks, t);
    NameInFront(wide, w, blanks + t, Excel);
    UnmarkedIs(w);
    assert "" + w == w;
  }

  lemma XlookupIsWritten(wide: Alphabet, t: string)
    requires t != "" && t[0] == '('
    ensures ForExcel(wide, "XLOOKUP" + t) == "_xlfn.XLOOKUP" + ForExcel(wide, t)
  {
    hide Upper, ForExcel, Unmarked, IsName, OpensCall;
    Xlookup(wide, t);
    assert "" + t == t && "_xlfn." + "XLOOKUP" == "_xlfn.XLOOKUP";
    CalledNameIsWritten(wide, "XLOOKUP", "", t);
  }

  lemma Xlookup(wide: Alphabet, t: string)
    requires t != "" && t[0] == '('
    ensures IsName(wide, "XLOOKUP") && OpensCall("", t) && Upper("XLOOKUP") == "XLOOKUP" && Unmarked("XLOOKUP") && "XLOOKUP" in MODERN
  {
    hide MODERN;
    assert Upper("XLOOKUP") == "XLOOKUP" && "_XLFN."[0] == '_' && "_XLWS."[0] == '_' && "XLOOKUP"[0] == 'X';
    ListsXlookup();
  }

  lemma ListsXlookup()
    ensures "XLOOKUP" in MODERN
  {
  }

  // Reading takes the prefix away, in whatever case it is written.
  lemma CalledNameIsRead(wide: Alphabet, mark: string, w: string, blanks: string, t: string)
    requires IsName(wide, w) && Unmarked(w) && OpensCall(blanks, t)
    requires Upper(mark) in {"", "_XLFN.", "_XLFN._XLWS.", "_XLWS."}
    ensures FromExcel(wide, (mark + w) + (blanks + t)) == w + FromExcel(wide, blanks + t)
  {
    hide IsCall, Mark, Upper;
    OpensIsCall(blanks, t);
    NotInName(wide, blanks, t);
    MarkIsName(wide, mark);
    NameInFront(wide, mark + w, blanks + t, Plain);
    MarkOf(mark, w);
    assert (mark + w)[|mark|..] == w;
  }

  lemma MarkIsName(wide: Alphabet, mark: string)
    requires Upper(mark) in {"", "_XLFN.", "_XLFN._XLWS.", "_XLWS."}
    ensures forall i :: 0 <= i < |mark| ==> IsNameRune(wide, mark[i])
  {
    forall i | 0 <= i < |mark| ensures IsNameRune(wide, mark[i]) {
      assert IsNameRune(wide, Upper(mark)[i]) by {
        assert forall k :: 0 <= k < 12 ==> IsNameRune(wide, "_XLFN._XLWS."[k]);
        assert forall k :: 0 <= k < 6 ==> IsNameRune(wide, "_XLFN."[k]) && IsNameRune(wide, "_XLWS."[k]);
      }
      assert Upper(mark)[i] == UpperChar(mark[i]);
    }
  }

  lemma WorksheetTail(rest: string)
    ensures WORKSHEET_MARK <= MODERN_MARK + rest ==> BARE_MARK <= rest
  {
    var all := MODERN_MARK + rest;
    if WORKSHEET_MARK <= all {
      assert forall i :: 0 <= i < 6 ==> BARE_MARK[i] == WORKSHEET_MARK[6 + i] == all[6 + i] == rest[i];
    }
  }

  lemma MarkOf(mark: string, w: string)
    requires Upper(mark) in {"", "_XLFN.", "_XLFN._XLWS.", "_XLWS."} && Unmarked(w)
    ensures Mark(mark + w) == |mark|
  {
    hide Upper;
    UpperAppend(mark, w);
    var upper, rest := Upper(mark + w), Upper(w);
    assert upper == Upper(mark) + rest && |Upper(mark)| == |mark|;
    if Upper(mark) == "" {
      assert upper == rest;
      UnmarkedIs(w);
      assert mark == "" && mark + w == w;
    } else if Upper(mark) == "_XLFN." {
      assert upper[6..] == rest;
      WorksheetTail(rest);
      assert MODERN_MARK <= upper;
    } else if Upper(mark) == "_XLFN._XLWS." {
      assert WORKSHEET_MARK <= upper;
    } else {
      assert upper[0..2] == "_X" && upper[..6] == BARE_MARK;
      assert upper[3] == 'W' && WORKSHEET_MARK[3] == 'F' && MODERN_MARK[3] == 'F';
    }
  }

  // A name that is not called stays as it is, in both directions.
  lemma OtherNameStays(wide: Alphabet, w: string, t: string)
    requires IsName(wide, w) && (t == "" || !IsNameRune(wide, t[0])) && !IsCall(t)
    ensures ForExcel(wide, w + t) == w + ForExcel(wide, t) && FromExcel(wide, w + t) == w + FromExcel(wide, t)
  {
    NameInFront(wide, w, t, Excel);
    NameInFront(wide, w, t, Plain);
  }

  // -------- the other pieces --------

  // A text in writing: its quotes are doubled.
  function Doubled(s: string): string {
    if s == "" then "" else (if s[0] == '"' then "\"\"" else [s[0]]) + Doubled(s[1..])
  }

  lemma {:induction false} DoubledEnds(s: string, t: string)
    requires t == "" || t[0] != '"'
    ensures StringEnd(Doubled(s) + (['"'] + t)) == |Doubled(s)| + 1
  {
    var all := Doubled(s) + (['"'] + t);
    if s == "" {
      assert all == ['"'] + t;
    } else {
      DoubledEnds(s[1..], t);
      var rest := Doubled(s[1..]) + (['"'] + t);
      if s[0] == '"' {
        assert Doubled(s) == "\"\"" + Doubled(s[1..]) && all[2..] == rest && all[0] == '"' && all[1] == '"';
      } else {
        assert Doubled(s) == [s[0]] + Doubled(s[1..]) && all[1..] == rest && all[0] == s[0];
      }
    }
  }

  // Quoted text stays as it is, whatever it says.
  lemma QuotedTextStays(wide: Alphabet, s: string, t: string, rename: Rename)
    requires t == "" || t[0] != '"'
    ensures var quoted := ['"'] + Doubled(s) + ['"']; Rewrite(wide, quoted + t, rename) == quoted + Rewrite(wide, t, rename)
  {
    hide Rewrite, StringEnd, SheetEnd, NameEnd, IsCall, Doubled, IsNameRune;
    var inside := Doubled(s);
    var quoted := ['"'] + inside + ['"'];
    var all := quoted + t;
    DoubledEnds(s, t);
    assert all[1..] == inside + (['"'] + t);
    PieceAt(wide, all, 0, rename);
    assert all[0..] == all && all[0..|quoted|] == quoted && all[|quoted|..] == t;
  }

  lemma {:induction false} SheetNameEnds(s: string, t: string)
    requires forall i :: 0 <= i < |s| ==> s[i] != '\''
    ensures SheetEnd(s + (['\''] + t)) == |s| + 1
  {
    var all := s + (['\''] + t);
    if s == "" {
      assert all == ['\''] + t;
    } else {
      assert all[1..] == s[1..] + (['\''] + t) && all[0] == s[0];
      SheetNameEnds(s[1..], t);
    }
  }

  // So does a quoted sheet name.
  lemma SheetNameStays(wide: Alphabet, s: string, t: string, rename: Rename)
    requires forall i :: 0 <= i < |s| ==> s[i] != '\''
    ensures var quoted := ['\''] + s + ['\'']; Rewrite(wide, quoted + t, rename) == quoted + Rewrite(wide, t, rename)
  {
    hide Rewrite, StringEnd, SheetEnd, NameEnd, IsCall, IsNameRune;
    var quoted := ['\''] + s + ['\''];
    var all := quoted + t;
    SheetNameEnds(s, t);
    assert all[1..] == s + (['\''] + t);
    PieceAt(wide, all, 0, rename);
    assert all[0..] == all && all[0..|quoted|] == quoted && all[|quoted|..] == t;
  }

  // And every other character.
  lemma OtherCharStays(wide: Alphabet, c: char, t: string, rename: Rename)
    requires !IsNameRune(wide, c) && c != '"' && c != '\''
    ensures Rewrite(wide, [c] + t, rename) == [c] + Rewrite(wide, t, rename)
  {
    var all := [c] + t;
    assert all[..1] == [c] && all[1..] == t;
  }
}
