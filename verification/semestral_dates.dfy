/** The semi-annual dates found in balance keys: the search for
    `SEMESTRAL-(\d{4}-\d{2}-\d{2})` anywhere in a key, and the sorted,
    duplicate-free list of the dates it finds
    (auditoria/processors/excel/sumaria/fechas.py and, with the same code,
    auditoria/processors/excel/centralizadoras/fechas.py). */
module SemestralDates {
  import opened Wrappers
  import opened Text
  import PyDict
  import Lex

  const Prefix := "SEMESTRAL-"

  /** `\d{4}-\d{2}-\d{2}`: ten characters, digits with dashes at 4 and 7. */
  predicate IsDateShape(d: string) {
    |d| == 10 && d[4] == '-' && d[7] == '-' &&
    IsDigit(d[0]) && IsDigit(d[1]) && IsDigit(d[2]) && IsDigit(d[3]) &&
    IsDigit(d[5]) && IsDigit(d[6]) && IsDigit(d[8]) && IsDigit(d[9])
  }

  /** The pattern matches at position `i` of `k`. */
  predicate MatchesAt(k: string, i: nat) {
    i + 20 <= |k| && k[i..i + 10] == Prefix && IsDateShape(k[i + 10..i + 20])
  }

  /** The leftmost position from `i` on where the pattern matches. */
  function SearchFrom(k: string, i: nat): (r: Option<nat>)
    ensures r.Some? ==> i <= r.value && MatchesAt(k, r.value)
    ensures r.Some? ==> forall j :: i <= j < r.value ==> !MatchesAt(k, j)
    ensures r.None? ==> forall j :: i <= j ==> !MatchesAt(k, j)
    decreases |k| - i
  {
    if i + 20 > |k| then None
    else if MatchesAt(k, i) then Some(i)
    else SearchFrom(k, i + 1)
  }

  /** `patron_fecha.search(k)` and its group 1: the date after the leftmost
      "SEMESTRAL-" that is followed by a date. */
  function SearchDate(k: string): (r: Option<string>)
    ensures r.Some? ==> IsDateShape(r.value) && Contains(k, Prefix + r.value)
    ensures r.None? <==> forall j: nat :: !MatchesAt(k, j)
  {
    match SearchFrom(k, 0)
    case None => None
    case Some(p) =>
      assert k[p..p + 20] == Prefix + k[p + 10..p + 20];
      ContainsAt(k, Prefix + k[p + 10..p + 20], p);
      Some(k[p + 10..p + 20])
  }

  /** A key that starts with "SEMESTRAL-" and a date yields that date. */
  lemma SearchDateOfKey(d: string, rest: string)
    requires IsDateShape(d)
    ensures SearchDate(Prefix + d + rest) == Some(d)
  {
    var k := Prefix + d + rest;
    assert k[0..10] == Prefix && k[10..20] == d;
    assert MatchesAt(k, 0);
  }

  /** The dates found in `keys`, in key order, repeated as often as found:
      the insertions into the set `fechas`. */
  function Found(keys: seq<string>): (r: seq<string>)
    ensures forall f :: f in r <==> exists i :: 0 <= i < |keys| && SearchDate(keys[i]) == Some(f)
  {
    if keys == [] then []
    else
      var init := Found(keys[..|keys| - 1]);
      assert forall i :: 0 <= i < |keys| - 1 ==> keys[..|keys| - 1][i] == keys[i];
      match SearchDate(keys[|keys| - 1])
      case None => init
      case Some(f) => init + [f]
  }

  /** `sorted(fechas)` of the set of dates found in the keys of `balances`:
      strictly increasing, holding exactly the dates some key yields. */
  function Fechas(balances: PyDict.Dict<string, real>): (r: seq<string>)
    ensures Lex.StrictlySorted(r)
    ensures forall f :: f in r <==> exists k :: k in PyDict.Keys(balances) && SearchDate(k) == Some(f)
    ensures forall f :: f in r ==> IsDateShape(f)
  {
    var keys := PyDict.Keys(balances);
    var r := Lex.SortedSet(Found(keys));
    assert forall f :: f in r <==> exists k :: k in keys && SearchDate(k) == Some(f) by {
      forall f ensures f in r <==> exists k :: k in keys && SearchDate(k) == Some(f) {
        if exists k :: k in keys && SearchDate(k) == Some(f) {
          var k :| k in keys && SearchDate(k) == Some(f);
          var i :| 0 <= i < |keys| && keys[i] == k;
        }
      }
    }
    r
  }
}
