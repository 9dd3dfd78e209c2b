/** Calendar dates as the processors and the time-tracking rules use them:
    a (year, month, day) triple, the Gregorian month lengths, the order of
    `datetime` objects, and `datetime.strptime(text, "%Y-%m-%d")`. */
module Calendario {
  import opened Wrappers
  import opened Text

  datatype Fecha = Fecha(anio: int, mes: int, dia: int)

  predicate Bisiesto(anio: int) {
    anio % 4 == 0 && (anio % 100 != 0 || anio % 400 == 0)
  }

  /** `calendar.monthrange(anio, mes)[1]` */
  function DiasDelMes(anio: int, mes: int): (n: int)
    requires 1 <= mes <= 12
    ensures 28 <= n <= 31
  {
    if mes == 2 then (if Bisiesto(anio) then 29 else 28)
    else if mes == 4 || mes == 6 || mes == 9 || mes == 11 then 30
    else 31
  }

  /** A date `datetime` accepts: years 1 to 9999, a real month and day. */
  predicate Valida(f: Fecha) {
    1 <= f.anio <= 9999 && 1 <= f.mes <= 12 && 1 <= f.dia <= DiasDelMes(f.anio, f.mes)
  }

  /** `a > b` on dates: year, then month, then day. */
  predicate Posterior(a: Fecha, b: Fecha) {
    a.anio > b.anio || (a.anio == b.anio && (a.mes > b.mes || (a.mes == b.mes && a.dia > b.dia)))
  }

  /** Of two dates, exactly one is later, or they are equal. */
  lemma PosteriorTotal(a: Fecha, b: Fecha)
    ensures a == b || Posterior(a, b) || Posterior(b, a)
    ensures !(Posterior(a, b) && Posterior(b, a))
  {
  }

  // --------------------------------------------------------------- strptime

  /** `%Y`: exactly four ASCII digits. */
  function CampoAnio(s: string): Option<int> {
    if |s| == 4 && IsDigits(s) then Some(DigitsValue(s)) else None
  }

  /** `%m`: "10" to "12", "01" to "09", or "1" to "9". */
  function CampoMes(s: string): (r: Option<int>)
    ensures r.Some? ==> 1 <= r.value <= 12
  {
    if |s| == 1 && '1' <= s[0] <= '9' then Some(DigitValue(s[0]))
    else if |s| == 2 && s[0] == '1' && '0' <= s[1] <= '2' then Some(10 + DigitValue(s[1]))
    else if |s| == 2 && s[0] == '0' && '1' <= s[1] <= '9' then Some(DigitValue(s[1]))
    else None
  }

  /** `%d`: "30" or "31", "10" to "29", "01" to "09", "1" to "9", or a space
      and "1" to "9". */
  function CampoDia(s: string): (r: Option<int>)
    ensures r.Some? ==> 1 <= r.value <= 31
  {
    if |s| == 1 && '1' <= s[0] <= '9' then Some(DigitValue(s[0]))
    else if |s| == 2 && s[0] == '3' && '0' <= s[1] <= '1' then Some(30 + DigitValue(s[1]))
    else if |s| == 2 && '1' <= s[0] <= '2' && IsDigit(s[1]) then Some(10 * DigitValue(s[0]) + DigitValue(s[1]))
    else if |s| == 2 && (s[0] == '0' || s[0] == ' ') && '1' <= s[1] <= '9' then Some(DigitValue(s[1]))
    else None
  }

  /** `datetime.strptime(y + "-" + m + "-" + d, "%Y-%m-%d")` for fields
      without '-', None where it raises ValueError (a field that does not
      match, or a date that does not exist). */
  function Strptime(y: string, m: string, d: string): (r: Option<Fecha>)
    ensures r.Some? ==> Valida(r.value)
  {
    var a := CampoAnio(y);
    var me := CampoMes(m);
    var di := CampoDia(d);
    if a.None? || me.None? || di.None? then None
    else
      var f := Fecha(a.value, me.value, di.value);
      if Valida(f) then Some(f) else None
  }

  /** Two digits of `n`, zero-padded. */
  lemma DosDigitos(n: nat)
    requires 1 <= n <= 31
    ensures var s := TwoDigits(n); |s| == 2 && DigitsValue(s) == n
  {
    if n < 10 {
      var s := TwoDigits(n);
      assert s == ['0', DigitChar(n)];
      assert s[..1] == ['0'];
      assert DigitsValue(['0']) == 0 by {
        assert ['0'][..0] == [];
      }
    } else {
      assert NatToString(n) == NatToString(n / 10) + [DigitChar(n % 10)];
      assert NatToString(n / 10) == [DigitChar(n / 10)];
      NatToStringValue(n);
    }
  }

  /** Every valid date written "YYYY-MM-DD", zero-padded, is read back. */
  lemma StrptimeIso(f: Fecha)
    requires Valida(f) && f.anio >= 1000
    ensures Strptime(NatToString(f.anio), TwoDigits(f.mes), TwoDigits(f.dia)) == Some(f)
  {
    var y := NatToString(f.anio);
    NatToStringValue(f.anio);
    DigitosDeMil(f.anio);
    assert CampoAnio(y) == Some(f.anio);
    MesDosDigitos(f.mes);
    DiaDosDigitos(f.dia);
  }

  lemma MesDosDigitos(n: nat)
    requires 1 <= n <= 12
    ensures CampoMes(TwoDigits(n)) == Some(n)
  {
    DosDigitos(n);
    var m := TwoDigits(n);
    assert m[..1] == [m[0]];
    assert DigitsValue([m[0]]) == DigitValue(m[0]) by {
      assert [m[0]][..0] == [];
    }
  }

  lemma DiaDosDigitos(n: nat)
    requires 1 <= n <= 31
    ensures CampoDia(TwoDigits(n)) == Some(n)
  {
    DosDigitos(n);
    var d := TwoDigits(n);
    assert d[..1] == [d[0]];
    assert DigitsValue([d[0]]) == DigitValue(d[0]) by {
      assert [d[0]][..0] == [];
    }
  }

  /** A number from 1000 to 9999 has four digits. */
  lemma DigitosDeMil(n: nat)
    requires 1000 <= n <= 9999
    ensures |NatToString(n)| == 4
  {
    assert NatToString(n) == NatToString(n / 10) + [DigitChar(n % 10)];
    assert NatToString(n / 10) == NatToString(n / 100) + [DigitChar(n / 10 % 10)];
    assert NatToString(n / 100) == NatToString(n / 1000) + [DigitChar(n / 100 % 10)];
    assert |NatToString(n / 1000)| == 1;
  }
}
