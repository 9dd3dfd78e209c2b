/** Placeholder substitution in document text
    (auditoria/processors/shared/text_replacer.py). */
module TextReplacer {
  import opened Wrappers
  import opened Text
  import PyDict

  /** The values a replacement dictionary holds. */
  datatype Scalar = SNone | SBool(b: bool) | SInt(i: int) | SStr(s: string)

  /** Python `str(value)` */
  function Str(v: Scalar): string {
    match v
    case SNone => "None"
    case SBool(b) => if b then "True" else "False"
    case SInt(i) => IntToString(i)
    case SStr(s) => s
  }

  /** Python truthiness. */
  predicate Truthy(v: Scalar) {
    match v
    case SNone => false
    case SBool(b) => b
    case SInt(i) => i != 0
    case SStr(s) => s != []
  }

  /** A regular-expression rule: `{"pattern": ..., "reemplazar_por": ...}`. */
  datatype Rule = Rule(pattern: Option<string>, reemplazarPor: Option<string>)

  /** One direct replacement: the key is looked for ignoring case, but
      replaced case-sensitively by the stringified value. */
  function DirectStep(text: string, key: string, value: Scalar): string {
    if Contains(Lower(text), Lower(key)) then ReplaceAll(text, key, Str(value)) else text
  }

  /** The direct replacements, applied in dictionary order. */
  function DirectAll(text: string, replacements: PyDict.Dict<string, Scalar>): string
    decreases |replacements|
  {
    if replacements == [] then text
    else
      var last := replacements[|replacements| - 1];
      DirectStep(DirectAll(text, replacements[..|replacements| - 1]), last.0, last.1)
  }

  /** The value a rule substitutes, if the rule applies: its pattern is
      non-empty and its key has a truthy value in the replacements. */
  function RuleValue(rule: Rule, replacements: PyDict.Dict<string, Scalar>): (r: Option<string>)
    ensures rule.pattern.None? || rule.pattern == Some([]) ==> r.None?
    ensures rule.reemplazarPor.None? ==> r.None?
    ensures r.Some? ==> exists v :: PyDict.Get(replacements, rule.reemplazarPor.value) == Some(v) && Truthy(v) && r.value == Str(v)
  {
    if rule.pattern.None? || rule.pattern.value == [] || rule.reemplazarPor.None? then None
    else
      match PyDict.Get(replacements, rule.reemplazarPor.value)
      case Some(v) => if Truthy(v) then Some(Str(v)) else None
      case None => None
  }

  /** The rules, applied in order through `re.sub` (given as `sub`, called
      with the pattern, the replacement and the text). */
  function RulesAll(text: string, rules: seq<Rule>, replacements: PyDict.Dict<string, Scalar>,
                    sub: (string, string, string) -> string): string
    decreases |rules|
  {
    if rules == [] then text
    else
      var t := RulesAll(text, rules[..|rules| - 1], replacements, sub);
      var rule := rules[|rules| - 1];
      match RuleValue(rule, replacements)
      case Some(v) => sub(rule.pattern.value, v, t)
      case None => t
  }

  /** `replace_text(text, replacements, regex_patterns)` */
  method ReplaceText(text: string, replacements: PyDict.Dict<string, Scalar>, regexPatterns: Option<seq<Rule>>,
                     sub: (string, string, string) -> string) returns (r: string)
    ensures r == RulesAll(DirectAll(text, replacements), regexPatterns.GetOr([]), replacements, sub)
  {
    r := text;
    for i := 0 to |replacements|
      invariant r == DirectAll(text, replacements[..i])
    {
      assert replacements[..i + 1][..i] == replacements[..i];
      var (key, value) := replacements[i];
      if Contains(Lower(r), Lower(key)) {
        r := ReplaceAll(r, key, Str(value));
      }
    }
    assert replacements[..|replacements|] == replacements;
    ghost var direct := r;
    if regexPatterns.Some? && regexPatterns.value != [] {
      var rules := regexPatterns.value;
      for i := 0 to |rules|
        invariant r == RulesAll(direct, rules[..i], replacements, sub)
      {
        assert rules[..i + 1][..i] == rules[..i];
        var pattern := rules[i].pattern;
        var key := rules[i].reemplazarPor;
        var value := if key.Some? then PyDict.Get(replacements, key.value) else None;
        if pattern.Some? && pattern.value != [] && value.Some? && Truthy(value.value) {
          r := sub(pattern.value, Str(value.value), r);
        }
      }
      assert rules[..|rules|] == rules;
    }
  }

  /** With no key occurring in the text (ignoring case), the direct phase
      changes nothing; with no rules either, the text comes back as it was. */
  lemma {:induction false} NoKeyUnchanged(text: string, replacements: PyDict.Dict<string, Scalar>)
    requires forall i :: 0 <= i < |replacements| ==> !Contains(Lower(text), Lower(replacements[i].0))
    ensures DirectAll(text, replacements) == text
  {
    if replacements != [] {
      NoKeyUnchanged(text, replacements[..|replacements| - 1]);
    }
  }

  /** A key present only in another case is detected but not replaced: the
      step leaves the text as it was. */
  lemma OtherCaseOnly(text: string, key: string, value: Scalar)
    requires Contains(Lower(text), Lower(key)) && !Contains(text, key)
    ensures DirectStep(text, key, value) == text
  {
    ReplaceAbsent(text, key, Str(value));
  }

  /** A text that is exactly a non-empty key becomes that key's value. */
  lemma WholeKey(key: string, value: string)
    requires key != []
    ensures DirectStep(key, key, SStr(value)) == value
  {
    var k := Lower(key);
    assert k[..|k|] == k;
    assert Contains(k, k);
    assert key[..|key|] == key && key[|key|..] == [];
    assert ReplaceAll(key, key, value) == value + ReplaceAll([], key, value);
    assert value + [] == value;
  }

  /** The keys apply in order, so a later key rewrites what an earlier one
      inserted: with {a: b, b: c} the text "a" becomes "c", for any
      non-empty keys a and b. */
  lemma LaterKeyRewrites(a: string, b: string, c: string)
    requires a != [] && b != []
    ensures DirectAll(a, [(a, SStr(b)), (b, SStr(c))]) == c
  {
    var reps := [(a, SStr(b)), (b, SStr(c))];
    assert reps[..1] == [(a, SStr(b))];
    assert reps[..1][..0] == [];
    WholeKey(a, b);
    assert DirectAll(a, reps[..1]) == b;
    WholeKey(b, c);
    assert DirectAll(a, reps) == DirectStep(b, b, SStr(c));
  }

  /** A rule whose pattern is empty or whose key has no truthy value changes
      nothing. */
  lemma RuleSkipped(text: string, rules: seq<Rule>, replacements: PyDict.Dict<string, Scalar>,
                    sub: (string, string, string) -> string)
    requires rules != []
    requires RuleValue(rules[|rules| - 1], replacements).None?
    ensures RulesAll(text, rules, replacements, sub) == RulesAll(text, rules[..|rules| - 1], replacements, sub)
  {
  }

  /** Where a key occurs exactly, its stringified value appears in the result. */
  lemma {:induction false} InsertsStr(text: string, key: string, value: Scalar)
    requires key != [] && Contains(text, key)
    ensures Contains(DirectStep(text, key, value), Str(value))
  {
    var i := ContainsWitness(text, key);
    assert Lower(text)[i..i + |key|] == Lower(key);
    ContainsAt(Lower(text), Lower(key), i);
    ReplaceInserts(text, key, Str(value));
  }

  lemma {:induction false} ReplaceInserts(s: string, pat: string, rep: string)
    requires pat != [] && Contains(s, pat)
    ensures Contains(ReplaceAll(s, pat, rep), rep)
    decreases |s|
  {
    var w := ContainsWitness(s, pat);
    if s[..|pat|] == pat {
      ContainedInAppend(rep, ReplaceAll(s[|pat|..], pat, rep), rep) by {
        assert rep[0..|rep|] == rep;
        ContainsAt(rep, rep, 0);
      }
    } else {
      assert !StartsWith(s, pat);
      ReplaceInserts(s[1..], pat, rep);
      ContainedInAppend(ReplaceAll(s[1..], pat, rep), [s[0]], rep);
    }
  }
}
