/** Spreadsheet column names (web/leads/export.go): A to Z, then AA, AB and so on. */
module ColumnNames {

  function Letter(digit: nat): (c: char)
    requires digit < 26
    ensures 'A' <= c <= 'Z'
  {
    'A' + digit as char
  }

  function Name(i: int): (name: string)
    decreases i + 1
  {
    if i < 0 then "" else Name(i / 26 - 1) + [Letter(i % 26)]
  }

  predicate IsName(s: string) {
    forall k :: 0 <= k < |s| ==> 'A' <= s[k] <= 'Z'
  }

  /** The 0-based index a name stands for, -1 for the empty one. */
  function Index(s: string): (i: int)
    requires IsName(s)
    ensures i >= -1 && (i == -1 <==> s == "")
  {
    if s == "" then -1
    else (Index(s[..|s| - 1]) + 1) * 26 + (s[|s| - 1] as int - 'A' as int)
  }

  method ColumnName(index: int) returns (name: string)
    ensures name == Name(index)
    ensures index < 0 ==> name == ""
  {
    name := "";
    var i := index;
    while i >= 0
      invariant i >= -1 || i == index
      invariant Name(i) + name == Name(index)
      decreases i + 1
    {
      ghost var rest := Name(i / 26 - 1);
      assert rest + ([Letter(i % 26)] + name) == (rest + [Letter(i % 26)]) + name;
      name := [Letter(i % 26)] + name;
      i := i / 26 - 1;
    }
  }

  lemma {:induction false} NameReadsBack(i: int)
    requires i >= -1
    ensures IsName(Name(i)) && Index(Name(i)) == i
    decreases i + 1
  {
    if i >= 0 {
      NameReadsBack(i / 26 - 1);
      var name := Name(i);
      assert name[..|name| - 1] == Name(i / 26 - 1);
      assert name[|name| - 1] as int - 'A' as int == i % 26;
    }
  }

  lemma NameSplits(front: int, digit: nat)
    requires front >= -1 && digit < 26
    ensures Name((front + 1) * 26 + digit) == Name(front) + [Letter(digit)]
  {
    var i := (front + 1) * 26 + digit;
    assert i / 26 == front + 1 && i % 26 == digit;
  }

  lemma {:induction false} EveryNameIsReached(s: string)
    requires IsName(s)
    ensures Name(Index(s)) == s
  {
    if s != "" {
      var front, digit := s[..|s| - 1], s[|s| - 1] as int - 'A' as int;
      EveryNameIsReached(front);
      NameSplits(Index(front), digit);
      assert s == front + [s[|s| - 1]];
    }
  }

  /** No two columns share a name. */
  lemma NamesNeverCollide(i: nat, j: nat)
    ensures Name(i) == Name(j) <==> i == j
  {
    NameReadsBack(i);
    NameReadsBack(j);
  }
}
