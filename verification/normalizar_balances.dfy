/** Removing the account-type suffix from balance keys
    (auditoria/processors/excel/sheet_processor/normalizar_balances.py). */
module NormalizarBalances {
  import opened Wrappers
  import opened Text
  import PyDict

  /** The suffix words of the pattern, upper-cased: C, NC, NT, CORRIENTE and
      NO CORRIENTE written with a space, a dash or nothing between. */
  const SuffixWords: set<string> :=
    {"C", "NC", "NT", "CORRIENTE", "NOCORRIENTE", "NO CORRIENTE", "NO-CORRIENTE"}

  /** `w` matches one of the suffix words, ignoring case. */
  predicate IsSuffixWord(w: string) { Upper(w) in SuffixWords }

  /** What may follow the '-' up to the end of the key: a suffix word, and
      `$` also accepts one final line break after it. */
  predicate IsSuffixTail(t: string) {
    IsSuffixWord(t) || (t != [] && t[|t| - 1] == '\n' && IsSuffixWord(t[..|t| - 1]))
  }

  /** The pattern matches with group 1 equal to `k[..i]`: a '-' at `i`, a
      suffix tail after it, and no line break before it (`.` does not match
      one). */
  predicate MatchesAt(k: string, i: nat) {
    i < |k| && k[i] == '-' && '\n' !in k[..i] && IsSuffixTail(k[i + 1..])
  }

  /** The lazy group `(.*?)` takes the shortest prefix that lets the rest
      match: the first matching position from `from` on. */
  function FirstMatch(k: string, from: nat): (r: Option<nat>)
    ensures r.Some? ==> from <= r.value < |k|
    decreases |k| - from
  {
    if from >= |k| then None
    else if MatchesAt(k, from) then Some(from)
    else FirstMatch(k, from + 1)
  }

  /** The position found matches and no earlier one from `from` on does;
      when none is found, no position from `from` on matches. */
  lemma {:induction false} FirstMatchEs(k: string, from: nat)
    ensures FirstMatch(k, from).Some? ==> MatchesAt(k, FirstMatch(k, from).value)
    ensures FirstMatch(k, from).Some? ==> forall j :: from <= j < FirstMatch(k, from).value ==> !MatchesAt(k, j)
    ensures FirstMatch(k, from).None? ==> forall j :: from <= j ==> !MatchesAt(k, j)
    decreases |k| - from
  {
    if from < |k| && !MatchesAt(k, from) {
      FirstMatchEs(k, from + 1);
    }
  }

  /** The key a balance is stored under after normalisation: group 1,
      stripped, when the pattern matches, else the key itself. */
  function NormalizeKey(k: string): (r: string)
    ensures (forall i :: !MatchesAt(k, i)) ==> r == k
    ensures (exists i :: MatchesAt(k, i)) ==> |r| < |k| && (r == [] || (!IsSpace(r[0]) && !IsSpace(r[|r| - 1])))
  {
    FirstMatchEs(k, 0);
    match FirstMatch(k, 0)
    case Some(i) => Strip(k[..i])
    case None => k
  }

  /** Each entry paired with its normalised key, in iteration order. */
  function NormalizedPairs(balances: PyDict.Dict<string, real>): (p: seq<(string, real)>)
    ensures |p| == |balances|
    ensures forall i :: 0 <= i < |p| ==> p[i] == (NormalizeKey(balances[i].0), balances[i].1)
  {
    seq(|balances|, i requires 0 <= i < |balances| => (NormalizeKey(balances[i].0), balances[i].1))
  }

  /** `normalizar_balances`: every value is carried over unchanged under its
      normalised key; when two keys normalise alike the later one wins, so
      the result is never larger than the input. */
  method Normalizar(balances: PyDict.Dict<string, real>) returns (r: PyDict.Dict<string, real>)
    ensures PyDict.Valid(r)
    ensures |r| <= |balances|
    ensures forall k :: PyDict.Get(r, k) == PyDict.LastValue(NormalizedPairs(balances), k)
    ensures PyDict.Keys(r) == PyDict.FirstOccurrences(PyDict.Keys(NormalizedPairs(balances)))
  {
    ghost var pairs := NormalizedPairs(balances);
    r := [];
    for i := 0 to |balances|
      invariant r == PyDict.FromPairs(pairs[..i])
    {
      var (clave, valor) := balances[i];
      assert pairs[..i + 1][..i] == pairs[..i];
      var m := FirstMatch(clave, 0);
      if m.Some? {
        r := PyDict.Put(r, Strip(clave[..m.value]), valor);
      } else {
        r := PyDict.Put(r, clave, valor);
      }
    }
    assert pairs[..|balances|] == pairs;
    forall k ensures PyDict.Get(r, k) == PyDict.LastValue(pairs, k) {
      PyDict.GetFromPairs(pairs, k);
    }
    PyDict.KeysInFirstOrder(pairs);
  }

  /** The only suffix word holding a '-' is NO-CORRIENTE, at position 2. */
  lemma DashInSuffixWord(t: string, p: nat)
    requires IsSuffixWord(t) && p < |t| && t[p] == '-'
    ensures p == 2 && Upper(t) == "NO-CORRIENTE"
  {
    var u := Upper(t);
    assert u[p] == '-';
    assert u in SuffixWords;
  }

  lemma SuffixWordHasNoNewline(w: string)
    requires IsSuffixWord(w)
    ensures w == [] || w[|w| - 1] != '\n'
  {
    if w != [] {
      assert Upper(w)[|w| - 1] == UpperChar(w[|w| - 1]);
      assert Upper(w) in SuffixWords;
      assert Upper(w)[|w| - 1] != '\n';
    }
  }

  /** A suffix tail that starts inside `base` can only be NO-CORRIENTE cut
      after a "-no" that ends `base`. */
  lemma EarlierTailEndsInNo(base: string, w: string, j: nat)
    requires j < |base| && base[j] == '-'
    ensures IsSuffixWord(base[j + 1..] + "-" + w) ==> |base| >= 3 && Upper(base[|base| - 3..]) == "-NO"
  {
    var t := base[j + 1..] + "-" + w;
    var p := |base| - j - 1;
    assert t[p] == '-';
    if IsSuffixWord(t) {
      DashInSuffixWord(t, p);
      assert t[..2] == base[j + 1..];
      UpperAppend(t[..2], t[2..]);
      assert base[|base| - 3..] == [base[j]] + t[..2];
      UpperAppend([base[j]], t[..2]);
    }
  }

  /** No '-' inside `base` starts a suffix tail of "base-w". */
  lemma NoEarlierTail(base: string, w: string, j: nat)
    requires IsSuffixWord(w)
    requires !(|base| >= 3 && Upper(base[|base| - 3..]) == "-NO")
    requires j < |base| && base[j] == '-'
    ensures !IsSuffixTail(base[j + 1..] + "-" + w)
  {
    var t := base[j + 1..] + "-" + w;
    EarlierTailEndsInNo(base, w, j);
    SuffixWordHasNoNewline(w);
    assert t[|t| - 1] == w[|w| - 1];
  }

  /** A key "base-SUFFIX" normalises to `base` stripped, for every suffix word
      in any case, provided `base` has no line break and does not itself end
      in "-no" (then "-NO-CORRIENTE" would be cut one field earlier). */
  lemma StripsSuffix(base: string, w: string)
    requires IsSuffixWord(w)
    requires '\n' !in base
    requires !(|base| >= 3 && Upper(base[|base| - 3..]) == "-NO")
    ensures NormalizeKey(base + "-" + w) == Strip(base)
  {
    var k := base + "-" + w;
    assert k[..|base|] == base && k[|base| + 1..] == w;
    assert MatchesAt(k, |base|);
    forall j | 0 <= j < |base| ensures !MatchesAt(k, j) {
      if k[j] == '-' {
        assert k[j + 1..] == base[j + 1..] + "-" + w;
        NoEarlierTail(base, w, j);
      }
    }
    FirstMatchEs(k, 0);
    var m := FirstMatch(k, 0);
    assert m.Some? && m.value == |base|;
  }

  /** A key without any '-' is copied unchanged. */
  lemma NoDashUnchanged(k: string)
    requires '-' !in k
    ensures NormalizeKey(k) == k
  {
  }

}
