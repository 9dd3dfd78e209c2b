/** The duration template filters (common/templatetags/filters.py): a
    `timedelta` is a whole number of seconds here, possibly negative. */
module Duraciones {
  import opened Wrappers
  import opened Text

  /** What reaches `format_duration`: a `timedelta`, or any other value,
      which the filter shows as its `str`. */
  datatype Valor = Delta(segundos: int) | OtroValor(texto: string)

  /** `int(a / b)` for a positive `b`: the quotient truncated toward zero. */
  function Truncar(a: int, b: int): (q: int)
    requires b > 0
    ensures a >= 0 ==> q == a / b
    ensures a < 0 ==> q == -((-a) / b)
  {
    if a >= 0 then a / b else -((-a) / b)
  }

  /** The successive `divmod`s by a day, an hour and a minute. */
  function Componentes(s: int): (r: (int, int, int, int))
    ensures r.0 * 86400 + r.1 * 3600 + r.2 * 60 + r.3 == s
    ensures 0 <= r.1 < 24 && 0 <= r.2 < 60 && 0 <= r.3 < 60
    ensures s >= 0 ==> r.0 >= 0
  {
    var dias := s / 86400;
    var resto := s % 86400;
    var horas := resto / 3600;
    var resto2 := resto % 3600;
    (dias, horas, resto2 / 60, resto2 % 60)
  }

  /** `f"{n} {unidad}{'s' if plural else ''}"` */
  function Parte(n: int, unidad: string, plural: bool): string {
    IntToString(n) + " " + unidad + (if plural then "s" else "")
  }

  /** `format_duration(duration, show_only)`; any mode other than the four
      units behaves as "all". */
  function FormatDuration(v: Valor, modo: string): string {
    match v
    case OtroValor(texto) => texto
    case Delta(s) =>
      var (dias, horas, minutos, segundos) := Componentes(s);
      if modo == "days" then Parte(dias, "día", dias != 1)
      else if modo == "hours" then Parte(Truncar(s, 3600), "hora", s != 3600)
      else if modo == "minutes" then Parte(Truncar(s, 60), "minuto", s != 60)
      else if modo == "seconds" then Parte(s, "segundo", s != 1)
      else
        var partes :=
          (if dias != 0 then [Parte(dias, "día", dias != 1)] else []) +
          (if horas != 0 && dias == 0 then [Parte(horas, "hora", horas != 1)] else []) +
          (if minutos != 0 && dias == 0 then [Parte(minutos, "minuto", minutos != 1)] else []) +
          (if segundos != 0 && dias == 0 then [Parte(segundos, "segundo", segundos != 1)] else []);
        if partes != [] then Join(partes, ", ") else "0 segundos"
  }

  /** `format_duration_day_number(duration)`: the first space-separated
      token of the "days" rendering. */
  function FormatDurationDayNumber(v: Valor): string {
    Split(FormatDuration(v, "days"), ' ')[0]
  }

  /** The largest magnitude of a `timedelta`'s day count. */
  const MaxDias := 999999999

  /** A number of seconds a `timedelta` can hold: its day count, the
      seconds divided by a day rounded down, lies in -999999999..999999999. */
  predicate EnRango(s: int) {
    -MaxDias <= s / 86400 <= MaxDias
  }

  /** The seconds in one `unidad`, for the four units the filter knows. */
  function SegundosPor(unidad: string): Option<int> {
    if unidad == "days" then Some(86400)
    else if unidad == "seconds" then Some(1)
    else if unidad == "minutes" then Some(60)
    else if unidad == "hours" then Some(3600)
    else None
  }

  /** `format_duration_field(duration, duration_type)`: the seconds of a
      `timedelta` of `n` units, `None` for any other unit, and `Err` for
      the OverflowError of a `timedelta` out of range. */
  function FormatDurationField(n: int, unidad: string): (r: Result<Option<int>, string>)
    ensures r == Ok(None) <==> unidad !in ["days", "seconds", "minutes", "hours"]
    ensures r.Ok? && r.value.Some? ==> EnRango(r.value.value)
    ensures r.Err? ==> r.error == "OverflowError"
  {
    var s := if unidad == "days" then Some(n * 86400)
             else if unidad == "seconds" then Some(n)
             else if unidad == "minutes" then Some(n * 60)
             else if unidad == "hours" then Some(n * 3600)
             else None;
    if s.None? then Ok(None)
    else if EnRango(s.value) then Ok(s)
    else Err("OverflowError")
  }

  /** A known unit gives `n` times its seconds, when that fits a
      `timedelta`, and the OverflowError when it does not. */
  lemma CampoEs(n: int, unidad: string)
    requires SegundosPor(unidad).Some?
    ensures var r := FormatDurationField(n, unidad);
            var s := n * SegundosPor(unidad).value;
            (EnRango(s) ==> r == Ok(Some(s))) && (!EnRango(s) ==> r == Err("OverflowError"))
  {
  }

  /** Whole days fit exactly when their count is within 999999999 either
      way; hours fit exactly when the days they make up, rounded down, do. */
  lemma {:induction false} DiasEnRango(n: int)
    ensures FormatDurationField(n, "days").Ok? <==> -MaxDias <= n <= MaxDias
    ensures FormatDurationField(n, "hours").Ok? <==> -MaxDias <= n / 24 <= MaxDias
  {
    assert n * 86400 / 86400 == n;
    assert n * 3600 / 86400 == n / 24 by {
      var q, r := n / 24, n % 24;
      assert n * 3600 == q * 86400 + r * 3600;
      assert 0 <= r * 3600 < 86400;
    }
  }

  // ------------------------------------------------------------ properties

  /** The four units agree: n days are 24n hours, 1440n minutes and 86400n
      seconds. */
  lemma UnidadesProporcionales(n: int)
    ensures FormatDurationField(n, "days") == FormatDurationField(24 * n, "hours")
                                           == FormatDurationField(1440 * n, "minutes")
                                           == FormatDurationField(86400 * n, "seconds")
  {
  }

  lemma DiasDeDias(n: int)
    ensures Componentes(n * 86400).0 == n
  {
    var r := Componentes(n * 86400);
    assert (n - r.0) * 86400 == r.1 * 3600 + r.2 * 60 + r.3;
  }

  lemma SinEspacio(i: int)
    ensures ' ' !in IntToString(i)
  {
    var r := IntToString(i);
    forall k | 0 <= k < |r| ensures r[k] != ' ' {
      if i < 0 && k > 0 {
        assert r[k] == NatToString(-i)[k - 1];
      }
    }
  }

  /** The day count shown for a whole number of days is that number: the
      day number of `format_duration_field(n, "days")` is `str(n)`, for
      every count a `timedelta` holds. */
  lemma DiasIdaYVuelta(n: int)
    requires -MaxDias <= n <= MaxDias
    ensures var r := FormatDurationField(n, "days");
            r.Ok? && r.value.Some? && FormatDurationDayNumber(Delta(r.value.value)) == IntToString(n)
  {
    DiasEnRango(n);
    DiasDeDias(n);
    var t := FormatDuration(Delta(n * 86400), "days");
    var resto := "día" + (if n != 1 then "s" else "");
    assert t == IntToString(n) + [' '] + resto;
    SinEspacio(n);
    SplitHead(IntToString(n), ' ', resto);
  }

  /** "days" mode: the plural "s" is there unless the count is exactly 1. */
  lemma DiasPlural(s: int)
    ensures EndsWith(FormatDuration(Delta(s), "days"), "días") <==> s / 86400 != 1
    ensures EndsWith(FormatDuration(Delta(s), "days"), "día") <==> s / 86400 == 1
  {
    var p := IntToString(s / 86400) + " ";
    var t := FormatDuration(Delta(s), "days");
    if s / 86400 != 1 {
      assert t == p + "días";
      assert t[|t| - 4..] == "días";
      assert t[|t| - 3..] == "ías";
    } else {
      assert t == p + "día";
      assert t[|t| - 3..] == "día";
      assert |t| < 4 || t[|t| - 4..] != "días" by {
        if |t| >= 4 {
          assert t[|t| - 1] == 'a';
        }
      }
    }
  }

  /** "all" mode with a non-zero day count shows the days alone, exactly as
      "days" mode does. */
  lemma TodoConDias(s: int, modo: string)
    requires modo !in ["days", "hours", "minutes", "seconds"]
    requires Componentes(s).0 != 0
    ensures FormatDuration(Delta(s), modo) == FormatDuration(Delta(s), "days")
  {
    var d := Componentes(s).0;
    assert Join([Parte(d, "día", d != 1)], ", ") == Parte(d, "día", d != 1);
  }

  /** "all" mode of a zero duration prints "0 segundos". */
  lemma TodoCero(modo: string)
    requires modo !in ["days", "hours", "minutes", "seconds"]
    ensures FormatDuration(Delta(0), modo) == "0 segundos"
  {
  }

  /** "all" mode under a day: the non-zero hours, minutes and seconds in
      that order, each only when present. */
  lemma TodoSinDias(s: int, modo: string)
    requires modo !in ["days", "hours", "minutes", "seconds"]
    requires 0 < s < 86400
    ensures var c := Componentes(s);
            FormatDuration(Delta(s), modo) ==
              Join((if c.1 != 0 then [Parte(c.1, "hora", c.1 != 1)] else []) +
                   (if c.2 != 0 then [Parte(c.2, "minuto", c.2 != 1)] else []) +
                   (if c.3 != 0 then [Parte(c.3, "segundo", c.3 != 1)] else []), ", ")
  {
    var c := Componentes(s);
    assert c.0 == 0;
    var partes :=
      (if c.1 != 0 then [Parte(c.1, "hora", c.1 != 1)] else []) +
      (if c.2 != 0 then [Parte(c.2, "minuto", c.2 != 1)] else []) +
      (if c.3 != 0 then [Parte(c.3, "segundo", c.3 != 1)] else []);
    assert partes != [] by {
      assert c.1 != 0 || c.2 != 0 || c.3 != 0;
    }
    var h: seq<string> := if c.1 != 0 then [Parte(c.1, "hora", c.1 != 1)] else [];
    var m: seq<string> := if c.2 != 0 then [Parte(c.2, "minuto", c.2 != 1)] else [];
    var x: seq<string> := if c.3 != 0 then [Parte(c.3, "segundo", c.3 != 1)] else [];
    assert [] + h + m + x == partes;
  }

  /** A value that is not a duration comes back as its string. */
  lemma OtroComoTexto(texto: string, modo: string)
    ensures FormatDuration(OtroValor(texto), modo) == texto
  {
  }
}
