/** Reference-pattern tables: dictionaries from patterns "L-n" (a prefix
    letter, a dash and a number) to file names, written one table per
    letter and merged with `{**T1, **T2, ...}`. */
module PatternTables {
  import opened Wrappers
  import opened Text
  import PyDict

  /** A string-to-string dictionary literal. */
  type Table = PyDict.Dict<string, string>

  /** One per-letter table: its letter, the number its patterns start at,
      and its entries. */
  datatype Block = Block(letter: char, first: nat, table: Table)

  /** The entries of the blocks one after the other. */
  function Concat(blocks: seq<Block>): (t: Table)
    ensures |t| == Size(blocks)
  {
    if blocks == [] then [] else blocks[0].table + Concat(blocks[1..])
  }

  /** The number of entries of all the blocks. */
  function Size(blocks: seq<Block>): nat {
    if blocks == [] then 0 else |blocks[0].table| + Size(blocks[1..])
  }

  // ---------------------------------------------------- the numbering

  /** The pattern "L-n". */
  function PatternName(letter: char, n: nat): (p: string)
    ensures |p| >= 3 && p[0] == letter && p[1] == '-'
  {
    [letter] + "-" + NatToString(n)
  }

  /** `pattern.split('-')` of "L-n" is the letter, then the number. */
  lemma PatternNameSplit(letter: char, n: nat)
    requires letter != '-'
    ensures Split(PatternName(letter, n), '-') == [[letter], NatToString(n)]
  {
    DigitsExclude(NatToString(n), '-');
    SplitHead([letter], '-', NatToString(n));
    assert Split(NatToString(n), '-') == [NatToString(n)];
  }

  /** Two patterns are the same only with the same letter and number. */
  lemma PatternNameInjective(l1: char, n1: nat, l2: char, n2: nat)
    requires PatternName(l1, n1) == PatternName(l2, n2)
    ensures l1 == l2 && n1 == n2
  {
    assert PatternName(l1, n1)[2..] == NatToString(n1);
    assert PatternName(l2, n2)[2..] == NatToString(n2);
    NatToStringInjective(n1, n2);
  }

  /** The keys of `t` are "L-first", "L-(first+1)", ... in order, with no gap. */
  predicate Numbered(t: Table, letter: char, first: nat) {
    forall i :: 0 <= i < |t| ==> t[i].0 == PatternName(letter, first + i)
  }

  /** "L-n" for a number of one or two digits, character by character. */
  function ShortName(letter: char, n: nat): string
    requires n < 100
  {
    if n < 10 then [letter, '-', DigitChar(n)] else [letter, '-', DigitChar(n / 10), DigitChar(n % 10)]
  }

  lemma ShortNameIsPatternName(letter: char, n: nat)
    requires n < 100
    ensures ShortName(letter, n) == PatternName(letter, n)
  {
    if n < 10 {
      assert NatToString(n) == [DigitChar(n)];
    } else {
      assert NatToString(n) == [DigitChar(n / 10), DigitChar(n % 10)];
    }
  }

  /** A table whose keys spell "L-first", "L-(first+1)", ... below 100 is
      numbered: each key is checked as a few characters, not as a number
      rendered by `NatToString`. */
  lemma NumberedByChars(t: Table, letter: char, first: nat)
    requires first + |t| <= 100
    requires forall i :: 0 <= i < |t| ==> t[i].0 == ShortName(letter, first + i)
    ensures Numbered(t, letter, first)
  {
    forall i | 0 <= i < |t| ensures t[i].0 == PatternName(letter, first + i) {
      ShortNameIsPatternName(letter, first + i);
    }
  }

  /** The patterns of block `b` are those of its letter from its first number
      on, as many as it has entries. */
  predicate InBlock(b: Block, l: char, n: nat) {
    b.letter == l && b.first <= n < b.first + |b.table|
  }

  /** Every block is numbered without gaps and no two blocks share a letter. */
  predicate WellNumbered(blocks: seq<Block>) {
    (forall i :: 0 <= i < |blocks| ==> Numbered(blocks[i].table, blocks[i].letter, blocks[i].first)) &&
    (forall i, j :: 0 <= i < j < |blocks| ==> blocks[i].letter != blocks[j].letter)
  }

  lemma WellNumberedTail(blocks: seq<Block>)
    requires WellNumbered(blocks) && blocks != []
    ensures WellNumbered(blocks[1..])
  {
    var rest := blocks[1..];
    forall i | 0 <= i < |rest| ensures Numbered(rest[i].table, rest[i].letter, rest[i].first) {
      assert rest[i] == blocks[i + 1];
    }
  }

  /** A numbered table holds exactly the patterns of its letter in its range. */
  lemma NumberedHasKey(t: Table, letter: char, first: nat, l: char, n: nat)
    requires Numbered(t, letter, first)
    ensures PyDict.HasKey(t, PatternName(l, n)) <==> l == letter && first <= n < first + |t|
  {
    if PyDict.HasKey(t, PatternName(l, n)) {
      var i :| 0 <= i < |t| && t[i].0 == PatternName(l, n);
      PatternNameInjective(letter, first + i, l, n);
    }
    if l == letter && first <= n < first + |t| {
      assert t[n - first].0 == PatternName(l, n);
    }
  }

  /** A numbered table has distinct keys. */
  lemma NumberedValid(t: Table, letter: char, first: nat)
    requires Numbered(t, letter, first)
    ensures PyDict.Valid(t)
  {
    forall i, j | 0 <= i < j < |t| ensures t[i].0 != t[j].0 {
      if t[i].0 == t[j].0 { PatternNameInjective(letter, first + i, letter, first + j); }
    }
  }

  /** The merged entries hold "L-n" exactly when the block of letter `L`
      covers `n`. */
  lemma {:induction false} ConcatHasKey(blocks: seq<Block>, l: char, n: nat)
    requires WellNumbered(blocks)
    ensures PyDict.HasKey(Concat(blocks), PatternName(l, n)) <==>
            exists i :: 0 <= i < |blocks| && InBlock(blocks[i], l, n)
  {
    if blocks != [] {
      var rest := blocks[1..];
      WellNumberedTail(blocks);
      ConcatHasKey(rest, l, n);
      PyDict.HasKeyAppend(blocks[0].table, Concat(rest), PatternName(l, n));
      NumberedHasKey(blocks[0].table, blocks[0].letter, blocks[0].first, l, n);
      if exists i :: 0 <= i < |rest| && InBlock(rest[i], l, n) {
        var i :| 0 <= i < |rest| && InBlock(rest[i], l, n);
        assert blocks[i + 1] == rest[i];
      }
      if exists i :: 0 <= i < |blocks| && InBlock(blocks[i], l, n) {
        var i :| 0 <= i < |blocks| && InBlock(blocks[i], l, n);
        if i > 0 { assert rest[i - 1] == blocks[i]; }
      }
    }
  }

  /** Blocks with distinct letters never share a key, so their entries put
      together have distinct keys. */
  lemma {:induction false} ConcatValid(blocks: seq<Block>)
    requires WellNumbered(blocks)
    ensures PyDict.Valid(Concat(blocks))
  {
    if blocks != [] {
      var rest := blocks[1..];
      var first := blocks[0];
      WellNumberedTail(blocks);
      ConcatValid(rest);
      NumberedValid(first.table, first.letter, first.first);
      forall b | 0 <= b < |rest| ensures rest[b].letter != first.letter { assert blocks[b + 1] == rest[b]; }
      forall i, j | 0 <= i < |first.table| && 0 <= j < |Concat(rest)|
        ensures first.table[i].0 != Concat(rest)[j].0
      {
        ConcatHasKey(rest, first.letter, first.first + i);
        assert !PyDict.HasKey(Concat(rest), PatternName(first.letter, first.first + i));
      }
      PyDict.ValidAppend(first.table, Concat(rest));
    }
  }

  /** Merging well-numbered blocks loses no entry and keeps their order. */
  lemma MergeOfWellNumbered(blocks: seq<Block>)
    requires WellNumbered(blocks)
    ensures PyDict.FromPairs(Concat(blocks)) == Concat(blocks)
    ensures PyDict.Valid(Concat(blocks))
  {
    ConcatValid(blocks);
    PyDict.FromPairsOfValid(Concat(blocks));
  }

  /** Every merged key is "L-n" for the letter of one of the blocks. */
  lemma {:induction false} ConcatKeyLetter(blocks: seq<Block>, i: nat) returns (b: nat, n: nat)
    requires WellNumbered(blocks) && i < |Concat(blocks)|
    ensures b < |blocks| && Concat(blocks)[i].0 == PatternName(blocks[b].letter, n)
  {
    if i < |blocks[0].table| {
      b, n := 0, blocks[0].first + i;
    } else {
      WellNumberedTail(blocks);
      var b', n' := ConcatKeyLetter(blocks[1..], i - |blocks[0].table|);
      b, n := b' + 1, n';
    }
  }

  /** Looking a pattern up in the merged entries reads it from its block. */
  lemma {:induction false} GetConcat(blocks: seq<Block>, b: nat, i: nat)
    requires WellNumbered(blocks) && b < |blocks| && i < |blocks[b].table|
    ensures PyDict.Get(Concat(blocks), blocks[b].table[i].0) == Some(blocks[b].table[i].1)
  {
    var key := blocks[b].table[i].0;
    var t0 := blocks[0].table;
    PyDict.GetAppend(t0, Concat(blocks[1..]), key);
    if b == 0 {
      NumberedValid(t0, blocks[0].letter, blocks[0].first);
      PyDict.GetValid(t0, i);
    } else {
      assert blocks[b].letter != blocks[0].letter;
      NumberedHasKey(t0, blocks[0].letter, blocks[0].first, blocks[b].letter, blocks[b].first + i);
      WellNumberedTail(blocks);
      assert blocks[1..][b - 1] == blocks[b];
      GetConcat(blocks[1..], b - 1, i);
    }
  }
}
