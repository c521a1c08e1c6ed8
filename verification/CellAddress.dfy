/**
  A1-style addresses: how a column number and a row number become text and how
  an identifier is recognised as a cell or as a bare column.
*/
module CellAddress {

  const MAX_ROWS := 1048576
  const MAX_COLUMNS := 16384

  datatype Option<+T> = None | Some(value: T)

  predicate IsLetter(c: char) { 'A' <= c <= 'Z' }

  predicate IsDigit(c: char) { '0' <= c <= '9' }

  predicate AllLetters(s: string) { forall i :: 0 <= i < |s| ==> IsLetter(s[i]) }

  predicate AllDigits(s: string) { forall i :: 0 <= i < |s| ==> IsDigit(s[i]) }

  // Bijective base 26: A=1 .. Z=26, AA=27.
  function ColumnLetters(column: nat): (s: string)
    ensures AllLetters(s)
    ensures column > 0 ==> s != ""
    ensures ColumnNumber(s) == column
  {
    if column == 0 then ""
    else ColumnLetters((column - 1) / 26) + ['A' + ((column - 1) % 26) as char]
  }

  function ColumnNumber(s: string): nat
    requires AllLetters(s)
  {
    if s == "" then 0
    else ColumnNumber(s[..|s| - 1]) * 26 + ((s[|s| - 1] - 'A') as int + 1)
  }

  function RowDigits(row: nat): (s: string)
    ensures AllDigits(s) && s != ""
    ensures RowNumber(s) == row
  {
    if row < 10 then ['0' + row as char]
    else RowDigits(row / 10) + ['0' + (row % 10) as char]
  }

  function RowNumber(s: string): nat
    requires AllDigits(s)
  {
    if s == "" then 0
    else RowNumber(s[..|s| - 1]) * 10 + (s[|s| - 1] - '0') as int
  }

  function AddressText(row: nat, column: nat): string {
    ColumnLetters(column) + RowDigits(row)
  }

  // How many leading characters are letters.
  function LetterCount(s: string): (n: nat)
    ensures n <= |s| && AllLetters(s[..n])
    ensures n < |s| ==> !IsLetter(s[n])
  {
    if s == "" || !IsLetter(s[0]) then 0
    else
      var n := 1 + LetterCount(s[1..]);
      assert forall i :: 0 < i < n ==> s[i] == s[1..][i - 1];
      n
  }

  // The position an identifier names when it is a cell reference.
  function ParseCell(name: string): (p: Option<(int, int)>)
    ensures p.Some? ==> 1 <= p.value.0 <= MAX_ROWS && 1 <= p.value.1 <= MAX_COLUMNS
  {
    var n := LetterCount(name);
    if n == 0 || n == |name| || !AllDigits(name[n..]) then None
    else
      var column, row := ColumnNumber(name[..n]), RowNumber(name[n..]);
      if 1 <= column <= MAX_COLUMNS && 1 <= row <= MAX_ROWS then Some((row, column)) else None
  }

  // The column an identifier names when it is the column half of A:A.
  function ParseColumn(name: string): (p: Option<int>)
    ensures p.Some? ==> 1 <= p.value <= MAX_COLUMNS
    ensures p.Some? ==> ParseCell(name).None?
  {
    if name == "" || |name| > 3 || !AllLetters(name) then None
    else
      var column := ColumnNumber(name);
      if 1 <= column <= MAX_COLUMNS then Some(column) else None
  }

  lemma LetterCountOf(letters: string, rest: string)
    requires AllLetters(letters) && (rest == "" || !IsLetter(rest[0]))
    ensures LetterCount(letters + rest) == |letters|
  {
    if letters == "" {
      assert letters + rest == rest;
    } else {
      assert (letters + rest)[1..] == letters[1..] + rest;
      LetterCountOf(letters[1..], rest);
    }
  }

  // Reading back a written address gives the position it was written from.
  lemma AddressRoundTrip(row: nat, column: nat)
    requires 1 <= row <= MAX_ROWS && 1 <= column <= MAX_COLUMNS
    ensures ParseCell(AddressText(row, column)) == Some((row, column))
  {
    var letters, digits := ColumnLetters(column), RowDigits(row);
    LetterCountOf(letters, digits);
    assert (letters + digits)[..|letters|] == letters;
    assert (letters + digits)[|letters|..] == digits;
  }

  // Distinct positions never share an address, so a cell key names one cell.
  lemma AddressInjective(row: nat, column: nat, row': nat, column': nat)
    requires 1 <= row <= MAX_ROWS && 1 <= column <= MAX_COLUMNS
    requires 1 <= row' <= MAX_ROWS && 1 <= column' <= MAX_COLUMNS
    requires AddressText(row, column) == AddressText(row', column')
    ensures row == row' && column == column'
  {
    AddressRoundTrip(row, column);
    AddressRoundTrip(row', column');
  }

  method Address(row: int, column: int) returns (text: string)
    ensures row < 1 || column < 1 ==> text == ""
    ensures row >= 1 && column >= 1 ==> text == AddressText(row, column)
  {
    if row < 1 || column < 1 { return ""; }
    var letters, rest := "", column;
    while rest > 0
      invariant 0 <= rest
      invariant ColumnLetters(rest) + letters == ColumnLetters(column)
    {
      var digit := ['A' + ((rest - 1) % 26) as char];
      ghost var front := ColumnLetters((rest - 1) / 26);
      assert (front + digit) + letters == front + (digit + letters);
      letters := digit + letters;
      rest := (rest - 1) / 26;
    }
    text := letters + RowDigits(row);
  }

  method IsReference(name: string) returns (found: bool)
    ensures found == ParseCell(name).Some?
  {
    var index, column := 0, 0;
    while index < |name| && IsLetter(name[index])
      invariant 0 <= index <= |name| && AllLetters(name[..index])
      invariant column == ColumnNumber(name[..index])
    {
      assert name[..index + 1][..index] == name[..index];
      column := column * 26 + ((name[index] - 'A') as int + 1);
      index := index + 1;
    }
    LetterCountOf(name[..index], name[index..]);
    assert name == name[..index] + name[index..];
    if index == 0 || index == |name| || column > MAX_COLUMNS { return false; }
    if !AllDigits(name[index..]) { return false; }
    var row := RowNumber(name[index..]);
    LeadingLetterColumn(name[..index]);
    found := 0 < row <= MAX_ROWS;
  }

  lemma LeadingLetterColumn(s: string)
    requires AllLetters(s) && s != ""
    ensures ColumnNumber(s) >= 1
  {
  }
}
