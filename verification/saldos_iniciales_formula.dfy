/** Moving a template row's formula to another row
    (auditoria/processors/excel/initial_balance_tests/sheet_processing.py,
    `ajustar_formula_para_nueva_fila`): in a formula, every cell reference
    matching `([A-Z]+\$?)(\d+)` gets its row number shifted by the distance
    between the two rows. */
module SaldosInicialesFormula {
  import opened Text
  import opened Worksheet

  /** The number of ASCII digits `s` starts with. */
  function DigitCount(s: string): (n: nat)
    ensures n <= |s| && forall i :: 0 <= i < n ==> IsDigit(s[i])
    ensures n < |s| ==> !IsDigit(s[n])
  {
    if s != [] && IsDigit(s[0]) then 1 + DigitCount(s[1..]) else 0
  }

  /** Where the column part of a reference starting at `s[0]` ends: after
      its capital letters and the '$' right after them, when there is one. */
  function ColumnEnd(s: string): (q: nat)
    ensures q <= |s|
  {
    var n := LetterCount(s);
    if 0 < n < |s| && s[n] == '$' then n + 1 else n
  }

  /** `str(int(fila) + destino - origen)` */
  function FilaDesplazada(fila: string, origen: int, destino: int): string
    requires forall i :: 0 <= i < |fila| ==> IsDigit(fila[i])
  {
    IntToString(DigitsValue(fila) + (destino - origen))
  }

  /** One step of the scan over a non-empty `s`: the text it emits and how
      many characters it consumes. Capital letters, an optional '$' and
      digits form a reference; its digits become `str(int(digits) + destino - origen)`, or
      stay as they are when `absolutas` holds and the '$' is there. Any other
      first character is emitted as it is. */
  function Paso(s: string, origen: int, destino: int, absolutas: bool): (p: (string, nat))
    requires s != []
    ensures 0 < p.1 <= |s|
  {
    var n := LetterCount(s);
    var q := ColumnEnd(s);
    var m := DigitCount(s[q..]);
    if n == 0 || m == 0 then ([s[0]], 1)
    else
      var fila := s[q..q + m];
      (s[..q] + (if absolutas && q > n then fila else FilaDesplazada(fila, origen, destino)), q + m)
  }

  /** `patron_celda.sub(reemplazar_fila, s)` for a formula copied from row `origen` to row `destino`: the
      scan goes on right after each reference. */
  function Desplazar(s: string, origen: int, destino: int, absolutas: bool): string
    decreases |s|
  {
    if s == [] then []
    else
      var p := Paso(s, origen, destino, absolutas);
      p.0 + Desplazar(s[p.1..], origen, destino, absolutas)
  }

  /** `ajustar_formula_para_nueva_fila(formula, origen, destino)` as written:
      the guard meant for absolute rows tests the digits for a '$' they
      cannot hold, so every reference moves. */
  function AjustarFormula(formula: Value, origen: int, destino: int): (r: Value)
    ensures !(formula.Str? && StartsWith(formula.s, "=")) ==> r == formula
  {
    if formula.Str? && StartsWith(formula.s, "=") then Str(Desplazar(formula.s, origen, destino, false))
    else formula
  }

  /** The adjustment with the guard testing the column part, so that a row
      written after '$' stays where it is. */
  function AjustarFormulaCorregida(formula: Value, origen: int, destino: int): (r: Value)
    ensures !(formula.Str? && StartsWith(formula.s, "=")) ==> r == formula
  {
    if formula.Str? && StartsWith(formula.s, "=") then Str(Desplazar(formula.s, origen, destino, true))
    else formula
  }

  // ------------------------------------------------------------ references

  /** A character that cannot start a reference is copied and the scan goes
      on after it. */
  lemma {:induction false} OtroCaracter(c: char, s: string, origen: int, destino: int, absolutas: bool)
    requires !('A' <= c <= 'Z')
    ensures Desplazar([c] + s, origen, destino, absolutas) == [c] + Desplazar(s, origen, destino, absolutas)
  {
    assert ([c] + s)[1..] == s;
  }

  lemma {:induction false} LetterCountPrefix(letras: string, t: string)
    requires forall i :: 0 <= i < |letras| ==> 'A' <= letras[i] <= 'Z'
    requires t == [] || !('A' <= t[0] <= 'Z')
    ensures LetterCount(letras + t) == |letras|
  {
    if letras != [] {
      assert (letras + t)[1..] == letras[1..] + t;
      LetterCountPrefix(letras[1..], t);
    }
  }

  lemma {:induction false} DigitCountPrefix(digitos: string, t: string)
    requires forall i :: 0 <= i < |digitos| ==> IsDigit(digitos[i])
    requires t == [] || !IsDigit(t[0])
    ensures DigitCount(digitos + t) == |digitos|
  {
    if digitos != [] {
      assert (digitos + t)[1..] == digitos[1..] + t;
      DigitCountPrefix(digitos[1..], t);
    }
  }

  /** One reference: capital letters, a '$' when `fija`, the row `n`, then
      text that does not go on with a digit. The row becomes `n + destino - origen`, except
      that a '$' row stays when `absolutas` holds. */
  lemma {:induction false} Referencia(letras: string, fija: bool, n: nat, resto: string, origen: int, destino: int, absolutas: bool)
    requires letras != [] && forall i :: 0 <= i < |letras| ==> 'A' <= letras[i] <= 'Z'
    requires resto == [] || !IsDigit(resto[0])
    ensures var col := letras + (if fija then "$" else "");
      var nueva := if absolutas && fija then NatToString(n) else IntToString(n + (destino - origen));
      Desplazar(col + NatToString(n) + resto, origen, destino, absolutas) == col + nueva + Desplazar(resto, origen, destino, absolutas)
  {
    var col := letras + (if fija then "$" else "");
    var digitos := NatToString(n);
    var s := col + digitos + resto;
    var q := |col|;
    Columna(letras, fija, digitos + resto);
    assert s == col + (digitos + resto);
    Corte(col, digitos, resto);
    DigitCountPrefix(digitos, resto);
    NatToStringValue(n);
    assert Paso(s, origen, destino, absolutas).1 == q + |digitos|;
    assert FilaDesplazada(digitos, origen, destino) == IntToString(n + (destino - origen));
  }

  /** The column part of a reference ends after its letters and its '$'. */
  lemma {:induction false} Columna(letras: string, fija: bool, t: string)
    requires letras != [] && forall i :: 0 <= i < |letras| ==> 'A' <= letras[i] <= 'Z'
    requires t != [] && IsDigit(t[0])
    ensures var col := letras + (if fija then "$" else "");
      LetterCount(col + t) == |letras| && ColumnEnd(col + t) == |col|
  {
    if fija {
      assert letras + "$" + t == letras + (['$'] + t);
      LetterCountPrefix(letras, ['$'] + t);
    } else {
      assert letras + "" + t == letras + t;
      LetterCountPrefix(letras, t);
    }
  }

  lemma {:induction false} Junta(s: string, k: nat)
    requires k <= |s|
    ensures s[..k] + s[k..] == s
  {
  }

  lemma {:induction false} Corte(a: string, b: string, c: string)
    ensures var s := a + b + c;
      s[..|a|] == a && s[|a|..] == b + c && s[|a|..|a| + |b|] == b && s[|a| + |b|..] == c
  {
  }

  // ------------------------------------------------------- zero shift

  /** No run of digits after the first character starts with a '0' that
      another digit follows, as "A07" does: such a row reads back as 7 and
      would be written "A7". */
  ghost predicate FilasCanonicas(s: string) {
    forall h, i, j {:trigger s[h], s[i], s[j]} ::
      0 <= h && i == h + 1 && j == i + 1 && j < |s| && s[i] == '0' && IsDigit(s[j]) ==> IsDigit(s[h])
  }

  lemma {:induction false} DigitosPositivos(f: string)
    requires IsDigits(f) && f[0] != '0'
    ensures DigitsValue(f) > 0
    decreases |f|
  {
    if |f| > 1 {
      DigitosPositivos(f[..|f| - 1]);
    }
  }

  /** `str(int(f))` gives back a string of digits without a leading zero. */
  lemma {:induction false} DigitosCanonicos(f: string)
    requires IsDigits(f) && (|f| == 1 || f[0] != '0')
    ensures NatToString(DigitsValue(f)) == f
    decreases |f|
  {
    var c := f[|f| - 1];
    if |f| > 1 {
      var p := f[..|f| - 1];
      DigitosCanonicos(p);
      DigitosPositivos(p);
      var n := DigitsValue(f);
      assert n == 10 * DigitsValue(p) + DigitValue(c);
      assert n / 10 == DigitsValue(p) && n % 10 == DigitValue(c);
      assert f == p + [c];
    }
  }

  lemma {:induction false} SufijoCanonico(s: string, k: nat)
    requires FilasCanonicas(s) && k <= |s|
    ensures FilasCanonicas(s[k..])
  {
    var t := s[k..];
    forall h, i, j | 0 <= h && i == h + 1 && j == i + 1 && j < |t| && t[i] == '0' && IsDigit(t[j])
      ensures IsDigit(t[h])
    {
      assert s[k + h] == t[h] && s[k + i] == t[i] && s[k + j] == t[j];
    }
  }

  /** A step over a reference emits its column part and its new row. */
  lemma {:induction false} PasoEnReferencia(s: string, origen: int, destino: int, absolutas: bool)
    requires s != [] && LetterCount(s) > 0 && DigitCount(s[ColumnEnd(s)..]) > 0
    ensures var q := ColumnEnd(s);
      var m := DigitCount(s[q..]);
      var fila := s[q..q + m];
      (forall i :: 0 <= i < |fila| ==> IsDigit(fila[i])) &&
      Paso(s, origen, destino, absolutas) == (s[..q] + (if absolutas && q > LetterCount(s) then fila else FilaDesplazada(fila, origen, destino)), q + m)
  {
  }

  /** The row of a reference in a string without leading zeros reads back
      as the same digits. */
  lemma {:induction false} FilaCanonica(s: string, o: int, q: nat, m: nat)
    requires FilasCanonicas(s) && LetterCount(s) > 0 && q == ColumnEnd(s)
    requires 0 < m == DigitCount(s[q..])
    ensures FilaDesplazada(s[q..q + m], o, o) == s[q..q + m]
  {
    var fila := s[q..q + m];
    assert !IsDigit(s[q - 1]);
    if |fila| > 1 {
      assert s[q - 1] == s[q - 1] && fila[0] == s[q] && IsDigit(s[q + 1]);
    }
    DigitosCanonicos(fila);
  }

  /** A step anywhere else emits the first character. */
  lemma {:induction false} PasoOtro(s: string, origen: int, destino: int, absolutas: bool)
    requires s != [] && !(LetterCount(s) > 0 && DigitCount(s[ColumnEnd(s)..]) > 0)
    ensures Paso(s, origen, destino, absolutas) == ([s[0]], 1)
  {
  }

  /** With no shift, a step emits exactly what it consumes. */
  lemma {:induction false} PasoSinDesplazamiento(s: string, o: int, absolutas: bool)
    requires s != [] && FilasCanonicas(s)
    ensures Paso(s, o, o, absolutas).0 == s[..Paso(s, o, o, absolutas).1]
  {
    var q := ColumnEnd(s);
    if LetterCount(s) > 0 && DigitCount(s[q..]) > 0 {
      var m := DigitCount(s[q..]);
      FilaCanonica(s, o, q, m);
      ReferenciaSinDesplazamiento(s, o, absolutas, q, m);
    } else {
      PasoOtro(s, o, o, absolutas);
    }
  }

  /** A step over a reference whose row reads back unchanged emits what it
      consumes. */
  lemma {:induction false} ReferenciaSinDesplazamiento(s: string, o: int, absolutas: bool, q: nat, m: nat)
    requires s != [] && LetterCount(s) > 0 && q == ColumnEnd(s) && 0 < m == DigitCount(s[q..])
    requires FilaDesplazada(s[q..q + m], o, o) == s[q..q + m]
    ensures Paso(s, o, o, absolutas).0 == s[..Paso(s, o, o, absolutas).1]
  {
    PasoEnReferencia(s, o, o, absolutas);
    assert Paso(s, o, o, absolutas) == (s[..q] + s[q..q + m], q + m);
    Pegar(s, q, q + m);
  }

  lemma {:induction false} Pegar(s: string, i: nat, j: nat)
    requires i <= j <= |s|
    ensures s[..i] + s[i..j] == s[..j]
  {
  }

  /** Copying a formula onto its own row changes nothing, as long as no row
      number is written with a leading zero. */
  lemma {:induction false} SinDesplazamiento(s: string, o: int, absolutas: bool)
    requires FilasCanonicas(s)
    ensures Desplazar(s, o, o, absolutas) == s
    decreases |s|
  {
    if s != [] {
      var k := Paso(s, o, o, absolutas).1;
      PasoSinDesplazamiento(s, o, absolutas);
      SufijoCanonico(s, k);
      SinDesplazamiento(s[k..], o, absolutas);
      Junta(s, k);
    }
  }

  /** A template formula adjusted for its own row is the same formula. */
  lemma {:induction false} MismaFila(formula: Value, fila: int)
    requires formula.Str? ==> FilasCanonicas(formula.s)
    ensures AjustarFormula(formula, fila, fila) == formula
    ensures AjustarFormulaCorregida(formula, fila, fila) == formula
  {
    if formula.Str? {
      SinDesplazamiento(formula.s, fila, false);
      SinDesplazamiento(formula.s, fila, true);
    }
  }

  // ------------------------------------------------------- absolute rows

  /** A reference alone: the row `n` becomes its new row. */
  lemma {:induction false} SoloReferencia(letras: string, fija: bool, n: nat, origen: int, destino: int, absolutas: bool)
    requires letras != [] && forall i :: 0 <= i < |letras| ==> 'A' <= letras[i] <= 'Z'
    ensures var col := letras + (if fija then "$" else "");
      var nueva := if absolutas && fija then NatToString(n) else IntToString(n + (destino - origen));
      Desplazar(col + NatToString(n), origen, destino, absolutas) == col + nueva
  {
    var col := letras + (if fija then "$" else "");
    var digitos := NatToString(n);
    Referencia(letras, fija, n, "", origen, destino, absolutas);
    assert col + digitos + "" == col + digitos;
    assert Desplazar("", origen, destino, absolutas) == "";
  }

  /** A formula "=" and a reference: the row `n` becomes its new row. */
  lemma {:induction false} Formula(letras: string, fija: bool, col: string, n: nat, origen: int, destino: int, absolutas: bool)
    requires letras != [] && forall i :: 0 <= i < |letras| ==> 'A' <= letras[i] <= 'Z'
    requires col == letras + (if fija then "$" else "")
    ensures var nueva := if absolutas && fija then NatToString(n) else IntToString(n + (destino - origen));
      Desplazar("=" + (col + NatToString(n)), origen, destino, absolutas) == "=" + (col + nueva)
  {
    SoloReferencia(letras, fija, n, origen, destino, absolutas);
    OtroCaracter('=', col + NatToString(n), origen, destino, absolutas);
  }

  /** A text starting with '=' is a formula: its references are shifted. */
  lemma {:induction false} EsFormula(f: string, origen: int, destino: int)
    requires f != [] && f[0] == '='
    ensures AjustarFormula(Str(f), origen, destino) == Str(Desplazar(f, origen, destino, false))
    ensures AjustarFormulaCorregida(Str(f), origen, destino) == Str(Desplazar(f, origen, destino, true))
  {
    assert StartsWith(f, "=");
  }

  /** As written, a row held with '$', such as the 34 of "=A$34", moves with
      the formula: copied from row `n` to row `destino` it refers to row
      `destino`. */
  lemma {:induction false} AbsolutaComoEscrita(letras: string, n: nat, destino: nat)
    requires letras != [] && forall i :: 0 <= i < |letras| ==> 'A' <= letras[i] <= 'Z'
    ensures AjustarFormula(Str("=" + (letras + "$" + NatToString(n))), n, destino)
         == Str("=" + (letras + "$" + NatToString(destino)))
  {
    EsFormula("=" + (letras + "$" + NatToString(n)), n, destino);
    Formula(letras, true, letras + "$", n, n, destino, false);
    NuevaFila(n, destino);
  }

  lemma {:induction false} NuevaFila(n: nat, destino: nat)
    ensures IntToString(n + (destino - n)) == NatToString(destino)
  {
  }

  /** With the guard on the column part, a row held with '$' stays where it
      is wherever the formula is copied. */
  lemma {:induction false} AbsolutaCorregida(letras: string, n: nat, destino: nat)
    requires letras != [] && forall i :: 0 <= i < |letras| ==> 'A' <= letras[i] <= 'Z'
    ensures AjustarFormulaCorregida(Str("=" + (letras + "$" + NatToString(n))), n, destino)
         == Str("=" + (letras + "$" + NatToString(n)))
  {
    EsFormula("=" + (letras + "$" + NatToString(n)), n, destino);
    Formula(letras, true, letras + "$", n, n, destino, true);
  }

  /** With the guard on the column part, a row without '$' still follows the
      formula. */
  lemma {:induction false} RelativaCorregida(letras: string, n: nat, destino: nat)
    requires letras != [] && forall i :: 0 <= i < |letras| ==> 'A' <= letras[i] <= 'Z'
    ensures AjustarFormulaCorregida(Str("=" + (letras + NatToString(n))), n, destino)
         == Str("=" + (letras + NatToString(destino)))
  {
    EsFormula("=" + (letras + NatToString(n)), n, destino);
    assert letras + "" == letras;
    Formula(letras, false, letras, n, n, destino, true);
    NuevaFila(n, destino);
  }
}
