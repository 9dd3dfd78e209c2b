/** Helpers of the audit views (auditoria/views/utils.py): the text
    normalisation used to compare names, and the folder tree of an audit's
    working papers rendered as nested HTML lists. */
module VistasUtil {
  import opened Text

  // ------------------------------------------------------ normalize_text

  /** `' '.join(text.lower().split())`, applied to the text once its
      accents are stripped (see README). */
  function NormalizeText(ascii: string): string {
    Join(SplitWs(Lower(ascii)), " ")
  }

  predicate SinMayusculas(s: string) {
    forall i :: 0 <= i < |s| ==> !IsUpperChar(s[i])
  }

  lemma LowerSinMayusculas(s: string)
    requires SinMayusculas(s)
    ensures Lower(s) == s
  {
  }

  /** The characters of the words are characters of the text. */
  lemma {:induction false} SplitWsChars(s: string)
    ensures forall i, c :: 0 <= i < |SplitWs(s)| && c in SplitWs(s)[i] ==> c in s
    decreases |s|
  {
    var t := TrimLeft(s);
    if t != [] {
      var n := WordLength(t);
      SplitWsChars(t[n..]);
      assert SplitWs(s) == [t[..n]] + SplitWs(t[n..]);
      forall i, c | 0 <= i < |SplitWs(s)| && c in SplitWs(s)[i] ensures c in s {
        if i == 0 {
          assert c in t;
        } else {
          assert SplitWs(s)[i] == SplitWs(t[n..])[i - 1];
          assert c in t[n..];
        }
      }
    }
  }

  /** The word of a string that starts with a word is that word. */
  lemma WordLengthOf(w: string, resto: string)
    requires NoSpace(w) && (resto == [] || IsSpace(resto[0]))
    ensures WordLength(w + resto) == |w|
    decreases |w|
  {
    if w != [] {
      assert (w + resto)[1..] == w[1..] + resto;
      WordLengthOf(w[1..], resto);
    }
  }

  lemma SplitWsSpace(s: string)
    ensures SplitWs(" " + s) == SplitWs(s)
  {
    assert (" " + s)[1..] == s;
    var t := TrimLeft(s);
    assert TrimLeft(" " + s) == t;
    if t != [] {
      var n := WordLength(t);
      assert SplitWs(" " + s) == [t[..n]] + SplitWs(t[n..]);
    }
  }

  /** A word followed by nothing or by whitespace is the first word. */
  lemma SplitWsCons(w: string, resto: string)
    requires w != [] && NoSpace(w) && (resto == [] || IsSpace(resto[0]))
    ensures SplitWs(w + resto) == [w] + SplitWs(resto)
  {
    var s := w + resto;
    assert TrimLeft(s) == s;
    WordLengthOf(w, resto);
    assert s[..|w|] == w;
    assert s[|w|..] == resto;
  }

  lemma Asociar(a: string, b: string, c: string)
    ensures a + b + c == a + (b + c)
  {
  }

  /** Splitting words joined by single spaces gives the words back. */
  lemma {:induction false} SplitWsJoin(ws: seq<string>)
    requires forall i :: 0 <= i < |ws| ==> ws[i] != [] && NoSpace(ws[i])
    ensures SplitWs(Join(ws, " ")) == ws
  {
    if |ws| == 1 {
      SplitWsUna(ws);
    } else if |ws| > 1 {
      SplitWsJoin(ws[1..]);
      SplitWsJoinPaso(ws);
    }
  }

  lemma SplitWsUna(ws: seq<string>)
    requires |ws| == 1 && ws[0] != [] && NoSpace(ws[0])
    ensures SplitWs(Join(ws, " ")) == ws
  {
    assert Join(ws, " ") == ws[0];
    SplitWsPalabra(ws[0]);
    assert [ws[0]] == ws;
  }

  /** A single word splits into itself. */
  lemma SplitWsPalabra(w: string)
    requires w != [] && NoSpace(w)
    ensures SplitWs(w) == [w]
  {
    SplitWsCons(w, []);
    assert w + [] == w;
    assert SplitWs([]) == [];
    assert [w] + [] == [w];
  }

  lemma SplitWsJoinPaso(ws: seq<string>)
    requires |ws| >= 2 && ws[0] != [] && NoSpace(ws[0])
    requires SplitWs(Join(ws[1..], " ")) == ws[1..]
    ensures SplitWs(Join(ws, " ")) == ws
  {
    var j := Join(ws[1..], " ");
    assert Join(ws, " ") == ws[0] + " " + j;
    SplitWsSep(ws[0], j, ws[1..]);
    assert [ws[0]] + ws[1..] == ws;
  }

  /** A word, a space and a text: the word, then the text's words. */
  lemma SplitWsSep(w: string, j: string, palabras: seq<string>)
    requires w != [] && NoSpace(w) && SplitWs(j) == palabras
    ensures SplitWs(w + " " + j) == [w] + palabras
  {
    Asociar(w, " ", j);
    SplitWsCons(w, " " + j);
    SplitWsSpace(j);
  }

  /** The result holds no upper-case letter. */
  lemma {:induction false} JoinSinMayusculas(ws: seq<string>)
    requires forall i :: 0 <= i < |ws| ==> SinMayusculas(ws[i])
    ensures SinMayusculas(Join(ws, " "))
  {
    if |ws| > 1 {
      JoinSinMayusculas(ws[1..]);
    }
  }

  /** The words of the result are the words of the lower-cased text. */
  lemma NormalizeTextPalabras(ascii: string)
    ensures SplitWs(NormalizeText(ascii)) == SplitWs(Lower(ascii))
  {
    SplitWsWords(Lower(ascii));
    SplitWsJoin(SplitWs(Lower(ascii)));
  }

  /** The result holds no upper-case letter. */
  lemma NormalizeTextMinusculas(ascii: string)
    ensures SinMayusculas(NormalizeText(ascii))
  {
    var l := Lower(ascii);
    var ws := SplitWs(l);
    SplitWsChars(l);
    forall i | 0 <= i < |ws| ensures SinMayusculas(ws[i]) {
      forall k | 0 <= k < |ws[i]| ensures !IsUpperChar(ws[i][k]) {
        assert ws[i][k] in ws[i];
        assert ws[i][k] in l;
        var j :| 0 <= j < |l| && l[j] == ws[i][k];
        assert l[j] == LowerChar(ascii[j]);
      }
    }
    JoinSinMayusculas(ws);
  }

  /** Normalising twice changes nothing more. */
  lemma NormalizeTextIdempotente(ascii: string)
    ensures NormalizeText(NormalizeText(ascii)) == NormalizeText(ascii)
  {
    var n := NormalizeText(ascii);
    NormalizeTextMinusculas(ascii);
    LowerSinMayusculas(n);
    NormalizeTextPalabras(ascii);
    assert SplitWs(Lower(n)) == SplitWs(Lower(ascii));
  }

  // -------------------------------------------------------- urllib quote

  /** Characters `urllib.parse.quote` leaves as they are (with its default
      `safe='/'`). */
  predicate Seguro(c: char) {
    ('A' <= c <= 'Z') || ('a' <= c <= 'z') || ('0' <= c <= '9') || c == '_' || c == '.' || c == '-' || c == '~' || c == '/'
  }

  /** The UTF-8 bytes of a character. */
  function Utf8(c: char): (r: seq<nat>)
    ensures 1 <= |r| <= 4 && forall i :: 0 <= i < |r| ==> r[i] < 256
  {
    var n := c as int;
    if n < 0x80 then [n]
    else if n < 0x800 then [0xC0 + n / 64, 0x80 + n % 64]
    else if n < 0x10000 then [0xE0 + n / 4096, 0x80 + n / 64 % 64, 0x80 + n % 64]
    else [0xF0 + n / 262144, 0x80 + n / 4096 % 64, 0x80 + n / 64 % 64, 0x80 + n % 64]
  }

  function HexDigito(d: nat): (c: char)
    requires d < 16
    ensures Seguro(c)
  {
    if d < 10 then ('0' as int + d) as char else ('A' as int + d - 10) as char
  }

  /** "%XX" for each byte. */
  function Escapar(bytes: seq<nat>): (r: string)
    requires forall i :: 0 <= i < |bytes| ==> bytes[i] < 256
    ensures forall c :: c in r ==> Seguro(c) || c == '%'
  {
    if bytes == [] then []
    else ['%', HexDigito(bytes[0] / 16), HexDigito(bytes[0] % 16)] + Escapar(bytes[1..])
  }

  /** `urllib.parse.quote(s)` */
  function Quote(s: string): string {
    if s == [] then []
    else (if Seguro(s[0]) then [s[0]] else Escapar(Utf8(s[0]))) + Quote(s[1..])
  }

  /** A quoted string holds only safe characters and '%': no space, quote
      or backslash reaches the HTML attribute or the URL. */
  lemma {:induction false} QuoteSeguro(s: string)
    ensures forall c :: c in Quote(s) ==> Seguro(c) || c == '%'
  {
    if s != [] {
      QuoteSeguro(s[1..]);
    }
  }

  /** A string of safe characters is quoted as itself. */
  lemma {:induction false} QuoteIdentidad(s: string)
    requires forall i :: 0 <= i < |s| ==> Seguro(s[i])
    ensures Quote(s) == s
  {
    if s != [] {
      QuoteIdentidad(s[1..]);
      assert s == [s[0]] + s[1..];
    }
  }

  // ------------------------------------------------------- folder tree

  /** What a name maps to in the structure: a folder (a dict), a file (a
      list), or any other value, which is not shown. */
  datatype Nodo = Carpeta(hijos: seq<(string, Nodo)>) | Archivo | OtroValor

  /** The pieces of the generated HTML, each standing for its fixed
      template text with the values shown filled in. */
  datatype Fragmento =
    | AbreLista
    | CierraLista
    | AbreCarpeta(id: string, nombre: string)
    | CierraCarpeta
    | Enlace(url: string, icono: string, alt: string, nombre: string)
    | Bloqueado(icono: string, alt: string, nombre: string)

  /** `os.path.join(ruta, nombre) if ruta else nombre` on POSIX. */
  function Unir(ruta: string, nombre: string): string {
    if ruta == [] then nombre
    else if StartsWith(nombre, "/") then nombre
    else if EndsWith(ruta, "/") then ruta + nombre
    else ruta + "/" + nombre
  }

  /** `f"folder_{urllib.parse.quote(path.replace('\\', '_'))}"` */
  function IdCarpeta(ruta: string): string {
    "folder_" + Quote(ReplaceAll(ruta, "\\", "_"))
  }

  const IconoWord: string := "/static/icons/microsoft-word-2013-logo.svg"
  const IconoExcel: string := "/static/icons/microsoft-excel-2013.svg"
  const IconoOtro: string := "📄"

  /** The icon and its alternative text, by the lower-cased extension. */
  function Icono(nombre: string): (string, string) {
    var n := Lower(nombre);
    if EndsWith(n, ".docx") then (IconoWord, "📝")
    else if EndsWith(n, ".xlsx") || EndsWith(n, ".xlsm") then (IconoExcel, "📊")
    else (IconoOtro, IconoOtro)
  }

  /** The icon does not depend on the case of the name. */
  lemma IconoSinMayusculas(nombre: string)
    ensures Icono(Lower(nombre)) == Icono(nombre)
  {
    LowerIdempotent(nombre);
  }

  /** Files under these folders are linked even for an unverified user. */
  predicate CarpetaAbierta(ruta: string) {
    ruta != [] && (Contains(ruta, "1 CAJA Y BANCOS") || Contains(ruta, "3 INVERSIONES")
                   || Contains(ruta, "2 AUDITORIA PROCESOS CONTABILIDAD"))
  }

  function UrlDescarga(audit: string, ruta: string, nombre: string): string {
    var carpeta := if ruta != [] then Quote(ReplaceAll(ruta, "\\", "/")) else "";
    "/auditoria/download/" + audit + "/" + carpeta + "/" + Quote(nombre)
  }

  function FragmentoArchivo(audit: string, ruta: string, nombre: string, verificado: bool): Fragmento {
    var (icono, alt) := Icono(nombre);
    if verificado || CarpetaAbierta(ruta) then Enlace(UrlDescarga(audit, ruta, nombre), icono, alt, nombre)
    else Bloqueado(icono, alt, nombre)
  }

  /** `generar_html_estructura(estructura, audit_id, current_path,
      user_verified)` */
  function Html(est: seq<(string, Nodo)>, audit: string, ruta: string, verificado: bool): seq<Fragmento>
    decreases Carpeta(est), 1
  {
    if est == [] then [] else [AbreLista] + Entradas(est, audit, ruta, verificado, |est|) + [CierraLista]
  }

  /** The loop over the first `n` entries. */
  function Entradas(est: seq<(string, Nodo)>, audit: string, ruta: string, verificado: bool, n: nat): seq<Fragmento>
    requires n <= |est|
    decreases Carpeta(est), 0, n
  {
    if n == 0 then [] else Entradas(est, audit, ruta, verificado, n - 1) + Entrada(est, audit, ruta, verificado, n - 1)
  }

  /** What one entry adds: a folder with its contents nested, a file, or
      nothing. */
  function Entrada(est: seq<(string, Nodo)>, audit: string, ruta: string, verificado: bool, i: nat): seq<Fragmento>
    requires i < |est|
    decreases Carpeta(est), 0, i
  {
    var (nombre, nodo) := est[i];
    match nodo
    case Carpeta(hijos) =>
      assert est[i] in est;
      var nueva := Unir(ruta, nombre);
      [AbreCarpeta(IdCarpeta(nueva), nombre)] + Html(hijos, audit, nueva, verificado) + [CierraCarpeta]
    case Archivo => [FragmentoArchivo(audit, ruta, nombre, verificado)]
    case OtroValor => []
  }

  /** The method as the source writes it: a loop appending to `html`, with
      a recursive call for each folder. */
  method GenerarHtmlEstructura(est: seq<(string, Nodo)>, audit: string, ruta: string, verificado: bool)
    returns (html: seq<Fragmento>)
    ensures html == Html(est, audit, ruta, verificado)
    decreases Carpeta(est)
  {
    if est == [] {
      return [];
    }
    html := [AbreLista];
    for i := 0 to |est|
      invariant html == [AbreLista] + Entradas(est, audit, ruta, verificado, i)
    {
      var (nombre, nodo) := est[i];
      var entrada: seq<Fragmento> := [];
      match nodo {
        case Carpeta(hijos) =>
          assert est[i] in est;
          var nueva := Unir(ruta, nombre);
          var dentro := GenerarHtmlEstructura(hijos, audit, nueva, verificado);
          entrada := [AbreCarpeta(IdCarpeta(nueva), nombre)] + dentro + [CierraCarpeta];
        case Archivo =>
          entrada := [FragmentoArchivo(audit, ruta, nombre, verificado)];
        case OtroValor =>
      }
      assert entrada == Entrada(est, audit, ruta, verificado, i);
      html := html + entrada;
    }
    html := html + [CierraLista];
  }

  // ------------------------------------------------------------ properties

  /** Files shown in a fragment list. */
  function ArchivosMostrados(h: seq<Fragmento>): nat {
    if h == [] then 0
    else ArchivosMostrados(h[..|h| - 1]) + (if h[|h| - 1].Enlace? || h[|h| - 1].Bloqueado? then 1 else 0)
  }

  lemma {:induction false} ArchivosConcat(a: seq<Fragmento>, b: seq<Fragmento>)
    ensures ArchivosMostrados(a + b) == ArchivosMostrados(a) + ArchivosMostrados(b)
    decreases |b|
  {
    if b == [] {
      assert a + b == a;
    } else {
      ArchivosConcat(a, b[..|b| - 1]);
      assert (a + b)[..|a + b| - 1] == a + b[..|b| - 1];
    }
  }

  lemma ArchivosUno(f: Fragmento)
    ensures ArchivosMostrados([f]) == if f.Enlace? || f.Bloqueado? then 1 else 0
  {
    assert [f][..0] == [];
  }

  /** Opening and closing fragments around a list add no file. */
  lemma ArchivosEnvuelto(abre: Fragmento, medio: seq<Fragmento>, cierra: Fragmento)
    requires !abre.Enlace? && !abre.Bloqueado? && !cierra.Enlace? && !cierra.Bloqueado?
    ensures ArchivosMostrados([abre] + medio + [cierra]) == ArchivosMostrados(medio)
  {
    ArchivosConcat([abre], medio);
    ArchivosConcat([abre] + medio, [cierra]);
    ArchivosUno(abre);
    ArchivosUno(cierra);
  }

  /** Files in a structure, at any depth. */
  function Hojas(est: seq<(string, Nodo)>): nat
    decreases Carpeta(est), 1
  {
    HojasHasta(est, |est|)
  }

  function HojasHasta(est: seq<(string, Nodo)>, n: nat): nat
    requires n <= |est|
    decreases Carpeta(est), 0, n
  {
    if n == 0 then 0 else HojasHasta(est, n - 1) + HojasEn(est, n - 1)
  }

  /** Files under one entry: those of a folder, one for a file. */
  function HojasEn(est: seq<(string, Nodo)>, i: nat): nat
    requires i < |est|
    decreases Carpeta(est), 0, i
  {
    match est[i].1
    case Carpeta(hijos) => (assert est[i] in est; Hojas(hijos))
    case Archivo => 1
    case OtroValor => 0
  }

  /** Every file of the tree is shown exactly once, linked or locked. */
  lemma {:induction false} ArchivosHtml(est: seq<(string, Nodo)>, audit: string, ruta: string, verificado: bool)
    ensures ArchivosMostrados(Html(est, audit, ruta, verificado)) == Hojas(est)
    decreases Carpeta(est), 1
  {
    if est != [] {
      ArchivosEntradas(est, audit, ruta, verificado, |est|);
      ArchivosEnvuelto(AbreLista, Entradas(est, audit, ruta, verificado, |est|), CierraLista);
    }
  }

  lemma {:induction false} ArchivosEntradas(est: seq<(string, Nodo)>, audit: string, ruta: string, verificado: bool, n: nat)
    requires n <= |est|
    ensures ArchivosMostrados(Entradas(est, audit, ruta, verificado, n)) == HojasHasta(est, n)
    decreases Carpeta(est), 0, n, 1
  {
    if n > 0 {
      ArchivosEntradas(est, audit, ruta, verificado, n - 1);
      ArchivosPaso(est, audit, ruta, verificado, n);
    }
  }

  /** One step of that induction: both counts grow by the files under the
      `n`-th entry. */
  lemma {:induction false} ArchivosPaso(est: seq<(string, Nodo)>, audit: string, ruta: string, verificado: bool, n: nat)
    requires 0 < n <= |est|
    ensures ArchivosMostrados(Entradas(est, audit, ruta, verificado, n)) ==
            ArchivosMostrados(Entradas(est, audit, ruta, verificado, n - 1)) + HojasEn(est, n - 1)
    ensures HojasHasta(est, n) == HojasHasta(est, n - 1) + HojasEn(est, n - 1)
    decreases Carpeta(est), 0, n, 0
  {
    var previas := Entradas(est, audit, ruta, verificado, n - 1);
    var ultima := Entrada(est, audit, ruta, verificado, n - 1);
    assert Entradas(est, audit, ruta, verificado, n) == previas + ultima;
    ArchivosConcat(previas, ultima);
    ArchivosEntrada(est, audit, ruta, verificado, n - 1);
  }

  lemma {:induction false} ArchivosEntrada(est: seq<(string, Nodo)>, audit: string, ruta: string, verificado: bool, i: nat)
    requires i < |est|
    ensures ArchivosMostrados(Entrada(est, audit, ruta, verificado, i)) == HojasEn(est, i)
    decreases Carpeta(est), 0, i
  {
    var (nombre, nodo) := est[i];
    match nodo {
      case Carpeta(hijos) =>
        assert est[i] in est;
        var nueva := Unir(ruta, nombre);
        ArchivosHtml(hijos, audit, nueva, verificado);
        ArchivosEnvuelto(AbreCarpeta(IdCarpeta(nueva), nombre), Html(hijos, audit, nueva, verificado), CierraCarpeta);
      case Archivo =>
        ArchivosUno(FragmentoArchivo(audit, ruta, nombre, verificado));
      case OtroValor =>
        assert Entrada(est, audit, ruta, verificado, i) == [];
    }
  }

  /** An empty structure renders as nothing; any other is one list. */
  lemma HtmlEnvuelto(est: seq<(string, Nodo)>, audit: string, ruta: string, verificado: bool)
    ensures var h := Html(est, audit, ruta, verificado);
            (h == [] <==> est == []) &&
            (est != [] ==> h[0] == AbreLista && h[|h| - 1] == CierraLista)
  {
  }

  /** A file is locked exactly when the user is not verified and it is
      outside the three open folders; either way it shows its name and the
      icon of its extension. */
  lemma ArchivoEs(audit: string, ruta: string, nombre: string, verificado: bool)
    ensures var f := FragmentoArchivo(audit, ruta, nombre, verificado);
            (f.Bloqueado? <==> !verificado && !CarpetaAbierta(ruta)) &&
            (f.Enlace? <==> verificado || CarpetaAbierta(ruta)) &&
            f.nombre == nombre && (f.icono, f.alt) == Icono(nombre)
  {
  }

  lemma Extremos(p: string, m: string, q: string)
    ensures StartsWith(p + m + q, p) && EndsWith(p + m + q, q)
  {
    assert (p + m + q)[..|p|] == p;
    assert (p + m + q)[|p + m + q| - |q|..] == q;
  }

  /** A download link points into the audit's download route and ends with
      the quoted file name. */
  lemma UrlDescargaEs(audit: string, ruta: string, nombre: string)
    ensures StartsWith(UrlDescarga(audit, ruta, nombre), "/auditoria/download/" + audit + "/")
    ensures EndsWith(UrlDescarga(audit, ruta, nombre), "/" + Quote(nombre))
  {
    var carpeta := if ruta != [] then Quote(ReplaceAll(ruta, "\\", "/")) else "";
    var p := "/auditoria/download/" + audit + "/";
    var q := "/" + Quote(nombre);
    assert UrlDescarga(audit, ruta, nombre) == p + carpeta + q;
    Extremos(p, carpeta, q);
  }

  /** A folder's id is "folder_" and its quoted path, made only of safe
      characters and '%'. */
  lemma IdCarpetaSegura(ruta: string)
    ensures StartsWith(IdCarpeta(ruta), "folder_")
    ensures forall c :: c in IdCarpeta(ruta) ==> Seguro(c) || c == '%'
  {
    var q := Quote(ReplaceAll(ruta, "\\", "_"));
    QuoteSeguro(ReplaceAll(ruta, "\\", "_"));
    assert IdCarpeta(ruta)[..7] == "folder_";
    forall c | c in IdCarpeta(ruta) ensures Seguro(c) || c == '%' {
      if c !in q {
        assert c in "folder_";
      }
    }
  }
}
