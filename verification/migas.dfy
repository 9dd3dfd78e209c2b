/** The navigation helpers of common/context_processors.py: the breadcrumb
    trail of a request path, and whether a named route is the active one. */
module Migas {
  import opened Text

  // ------------------------------------------------------------ strip("/")

  function QuitarIzquierda(s: string): (r: string)
    ensures r == [] || r[0] != '/'
    ensures |r| <= |s| && r == s[|s| - |r|..]
  {
    if s != [] && s[0] == '/' then QuitarIzquierda(s[1..]) else s
  }

  function QuitarDerecha(s: string): (r: string)
    ensures r == [] || r[|r| - 1] != '/'
    ensures |r| <= |s| && r == s[..|r|]
  {
    if s != [] && s[|s| - 1] == '/' then QuitarDerecha(s[..|s| - 1]) else s
  }

  /** `s.strip("/")` */
  function QuitarBarras(s: string): (r: string)
    ensures r == [] || (r[0] != '/' && r[|r| - 1] != '/')
  {
    QuitarDerecha(QuitarIzquierda(s))
  }

  /** One leading slash before a text with no slash at either end is
      stripped to that text. */
  lemma QuitarBarraInicial(s: string)
    requires s != [] && s[0] != '/' && s[|s| - 1] != '/'
    ensures QuitarBarras("/" + s) == s
  {
    assert ("/" + s)[1..] == s;
    assert QuitarIzquierda(s) == s;
  }

  // ----------------------------------------------------------- breadcrumbs

  /** Readable names of the known path segments. */
  const NombresRuta: map<string, string> := map[
    "resumen-tiempo" := "Resumen de Tiempo",
    "resumen-auditoria" := "Resumen de Auditoría",
    "horas-trabajadas" := "Horas Trabajadas",
    "papeles-trabajo" := "Papeles de Trabajo",
    "archivo_permanente" := "Archivo Permanente",
    "notificaciones" := "Notificaciones",
    "dashboard" := "Dashboard",
    "gestionar_auditores" := "Gestionar Auditores",
    "herramientas" := "Herramientas",
    "auditorias" := "Auditorías",
    "crear" := "Crear",
    "borrar" := "Borrar",
    "marcas-de-auditoria" := "Marcas de Auditoría",
    "tipos-de-monedas" := "Tipos de Moneda",
    "actividades" := "Actividades",
    "superadmin" := "Panel Administrativo",
    "users" := "Usuarios"
  ]

  /** The name shown for one segment: "Actualizar" for a number, the
      readable name of a known segment, else the segment capitalised. */
  function NombreParte(parte: string): string {
    if IsDigits(parte) then "Actualizar"
    else if parte in NombresRuta then NombresRuta[parte]
    else Capitalize(parte)
  }

  /** The URL after the first `k` segments: "/" and each segment followed
      by "/". */
  function Prefijo(partes: seq<string>, k: nat): string
    requires k <= |partes|
  {
    if k == 0 then "/" else Prefijo(partes, k - 1) + partes[k - 1] + "/"
  }

  /** The crumbs of the first `k` segments. */
  function Crumbs(partes: seq<string>, k: nat): (r: seq<(string, string)>)
    requires k <= |partes|
    ensures |r| == k
  {
    if k == 0 then [] else Crumbs(partes, k - 1) + [(NombreParte(partes[k - 1]), Prefijo(partes, k))]
  }

  /** The segments of a path: `path.strip("/").split("/")`. */
  function Segmentos(ruta: string): seq<string> {
    Split(QuitarBarras(ruta), '/')
  }

  /** `breadcrumbs_processor(req)["breadcrumbs"]`; `esSuperadmin` says that
      the request's user is authenticated with the "superadmin" role. */
  function Migas(ruta: string, esSuperadmin: bool): seq<(string, string)> {
    if QuitarBarras(ruta) == "superadmin/dashboard" then
      [("Inicio", "/"), ("Dashboard", "/superadmin/dashboard")]
    else if StartsWith(ruta, "/superadmin/users") && esSuperadmin then
      [("Inicio", "/"), ("Dashboard", "/superadmin/dashboard"), ("Usuarios", ruta)]
    else
      [("Inicio", "/")] + Crumbs(Segmentos(ruta), |Segmentos(ruta)|)
  }

  /** The processor as written: a loop extending the URL and the list. */
  method BreadcrumbsProcessor(ruta: string, esSuperadmin: bool) returns (migas: seq<(string, string)>)
    ensures migas == Migas(ruta, esSuperadmin)
  {
    migas := [("Inicio", "/")];
    if QuitarBarras(ruta) == "superadmin/dashboard" {
      return [("Inicio", "/"), ("Dashboard", "/superadmin/dashboard")];
    }
    if StartsWith(ruta, "/superadmin/users") && esSuperadmin {
      return [("Inicio", "/"), ("Dashboard", "/superadmin/dashboard"), ("Usuarios", ruta)];
    }
    var partes := Split(QuitarBarras(ruta), '/');
    var actual := "/";
    for i := 0 to |partes|
      invariant actual == Prefijo(partes, i)
      invariant migas == [("Inicio", "/")] + Crumbs(partes, i)
    {
      var nombre := NombreParte(partes[i]);
      actual := actual + partes[i] + "/";
      migas := migas + [(nombre, actual)];
    }
  }

  lemma {:induction false} CrumbEn(partes: seq<string>, n: nat, k: nat)
    requires k < n <= |partes|
    ensures Crumbs(partes, n)[k] == (NombreParte(partes[k]), Prefijo(partes, k + 1))
  {
    if k < n - 1 {
      CrumbEn(partes, n - 1, k);
    }
  }

  /** Outside the two superadmin cases there is one crumb per segment after
      ("Inicio", "/"), each URL being the previous one, the segment and
      "/". */
  lemma MigasGenerales(ruta: string, esSuperadmin: bool)
    requires QuitarBarras(ruta) != "superadmin/dashboard"
    requires !(StartsWith(ruta, "/superadmin/users") && esSuperadmin)
    ensures var m := Migas(ruta, esSuperadmin);
            var p := Segmentos(ruta);
            |m| == |p| + 1 && m[0] == ("Inicio", "/") &&
            forall k :: 0 <= k < |p| ==> m[k + 1] == (NombreParte(p[k]), m[k].1 + p[k] + "/")
  {
    var p := Segmentos(ruta);
    assert Migas(ruta, esSuperadmin) == [("Inicio", "/")] + Crumbs(p, |p|);
    TrailPasos(p);
  }

  /** The general trail of segments `p`, crumb by crumb. */
  lemma TrailPasos(p: seq<string>)
    ensures var m := [("Inicio", "/")] + Crumbs(p, |p|);
            |m| == |p| + 1 && m[0] == ("Inicio", "/") &&
            forall k :: 0 <= k < |p| ==> m[k + 1] == (NombreParte(p[k]), m[k].1 + p[k] + "/")
  {
    var m := [("Inicio", "/")] + Crumbs(p, |p|);
    forall k | 0 <= k < |p| ensures m[k + 1] == (NombreParte(p[k]), m[k].1 + p[k] + "/") {
      CrumbEn(p, |p|, k);
      if k > 0 {
        CrumbEn(p, |p|, k - 1);
      }
    }
  }

  /** Every trail starts at ("Inicio", "/"). */
  lemma MigasEmpiezanEnInicio(ruta: string, esSuperadmin: bool)
    ensures |Migas(ruta, esSuperadmin)| >= 1 && Migas(ruta, esSuperadmin)[0] == ("Inicio", "/")
  {
  }

  lemma {:induction false} PrefijoJoin(partes: seq<string>, k: nat)
    requires 1 <= k <= |partes|
    ensures Prefijo(partes, k) == "/" + Join(partes[..k], "/") + "/"
  {
    if k == 1 {
      assert Join(partes[..1], "/") == partes[0];
    } else {
      PrefijoJoin(partes, k - 1);
      var a := Join(partes[..k - 1], "/");
      assert partes[..k] == partes[..k - 1] + [partes[k - 1]];
      JoinSnoc(partes[..k - 1], partes[k - 1]);
    }
  }

  lemma {:induction false} JoinSnoc(ps: seq<string>, x: string)
    requires |ps| >= 1
    ensures Join(ps + [x], "/") == Join(ps, "/") + "/" + x
  {
    if |ps| == 1 {
      assert ps + [x] == [ps[0], x];
      Join2(ps[0], x, "/");
    } else {
      assert (ps + [x])[1..] == ps[1..] + [x];
      JoinSnoc(ps[1..], x);
    }
  }

  /** The last crumb of a general trail links to the whole stripped path,
      between slashes. */
  lemma UltimaMiga(ruta: string, esSuperadmin: bool)
    requires QuitarBarras(ruta) != "superadmin/dashboard"
    requires !(StartsWith(ruta, "/superadmin/users") && esSuperadmin)
    ensures var m := Migas(ruta, esSuperadmin);
            m[|m| - 1].1 == "/" + QuitarBarras(ruta) + "/"
  {
    var p := Segmentos(ruta);
    CrumbEn(p, |p|, |p| - 1);
    PrefijoJoin(p, |p|);
    assert p[..|p|] == p;
    JoinSplit(QuitarBarras(ruta), '/');
  }

  /** "/superadmin/dashboard" gives exactly Inicio and Dashboard. */
  lemma DashboardSuperadmin(esSuperadmin: bool)
    ensures Migas("/superadmin/dashboard", esSuperadmin) ==
            [("Inicio", "/"), ("Dashboard", "/superadmin/dashboard")]
  {
    var s := "superadmin/dashboard";
    assert "/superadmin/dashboard" == "/" + s;
    QuitarBarraInicial(s);
  }

  lemma NombreVacio()
    ensures NombreParte("") == ""
  {
    assert !IsDigits("");
    assert "" !in NombresRuta;
  }

  lemma SegmentosRaiz()
    ensures Segmentos("/") == [""]
  {
    assert QuitarIzquierda("/") == [];
  }

  lemma CrumbsUno(p: string)
    ensures Crumbs([p], 1) == [(NombreParte(p), "/" + p + "/")]
  {
    assert Prefijo([p], 1) == "/" + p + "/";
    assert Crumbs([p], 0) == [];
  }

  /** The root path gives a second crumb ("", "//"). */
  lemma MigasRaiz(esSuperadmin: bool)
    ensures Migas("/", esSuperadmin) == [("Inicio", "/"), ("", "//")]
  {
    SegmentosRaiz();
    NombreVacio();
    CrumbsUno("");
    assert "/" + "" + "/" == "//";
    assert QuitarBarras("/") != "superadmin/dashboard";
    assert !StartsWith("/", "/superadmin/users");
  }

  // -------------------------------------------------------- active route

  /** `get_is_active_route(route, req)`, with `url` standing for
      `reverse(route)`. */
  predicate RutaActiva(url: string, ruta: string) {
    QuitarBarras(url) == QuitarBarras(ruta) || (Contains(ruta, url) && url != "/") || url in Split(ruta, '/')
  }

  /** The function as written: two early tests, then a search over the
      path's segments. */
  method GetIsActiveRoute(url: string, ruta: string) returns (activa: bool)
    ensures activa == RutaActiva(url, ruta)
  {
    if QuitarBarras(url) == QuitarBarras(ruta) {
      return true;
    }
    if Contains(ruta, url) && url != "/" {
      return true;
    }
    // The source's test for an empty list of segments is left out: a split
    // has one field at least.
    var partes := Split(ruta, '/');
    for i := 0 to |partes|
      invariant forall j :: 0 <= j < i ==> partes[j] != url
    {
      if url == partes[i] {
        return true;
      }
    }
    return false;
  }

  lemma {:induction false} CampoContenido(s: string, sep: char, k: nat)
    requires k < |Split(s, sep)|
    ensures Contains(s, Split(s, sep)[k])
    decreases |s|
  {
    if sep !in s || k == 0 {
      CampoPrimero(s, sep);
    } else {
      CampoSiguiente(s, sep, k);
      CampoContenido(s[FirstIndex(s, sep) + 1..], sep, k - 1);
      CampoResto(s, sep, k);
    }
  }

  /** The first field is a prefix of the text. */
  lemma CampoPrimero(s: string, sep: char)
    ensures Contains(s, Split(s, sep)[0])
  {
    var j := if sep in s then FirstIndex(s, sep) else |s|;
    assert Split(s, sep)[0] == s[..j];
    assert s[0..j] == s[..j];
    ContainsAt(s, s[..j], 0);
  }

  /** Past the first separator, field `k` is field `k - 1` of the rest. */
  lemma CampoSiguiente(s: string, sep: char, k: nat)
    requires sep in s && 0 < k < |Split(s, sep)|
    ensures k - 1 < |Split(s[FirstIndex(s, sep) + 1..], sep)|
    ensures Split(s, sep)[k] == Split(s[FirstIndex(s, sep) + 1..], sep)[k - 1]
  {
  }

  /** A later field contained in the rest is contained in the text. */
  lemma CampoResto(s: string, sep: char, k: nat)
    requires sep in s && 0 < k < |Split(s, sep)|
    requires k - 1 < |Split(s[FirstIndex(s, sep) + 1..], sep)|
    requires Split(s, sep)[k] == Split(s[FirstIndex(s, sep) + 1..], sep)[k - 1]
    requires Contains(s[FirstIndex(s, sep) + 1..], Split(s[FirstIndex(s, sep) + 1..], sep)[k - 1])
    ensures Contains(s, Split(s, sep)[k])
  {
    var j := FirstIndex(s, sep) + 1;
    var t := Split(s, sep)[k];
    assert s[..j] + s[j..] == s;
    ContainedInAppend(s[j..], s[..j], t);
  }

  /** The segment search never decides anything: a route that equals a
      segment is contained in the path and is not "/", so the containment
      test has already answered. */
  lemma SegmentosRedundantes(url: string, ruta: string)
    ensures RutaActiva(url, ruta) <==> QuitarBarras(url) == QuitarBarras(ruta) || (Contains(ruta, url) && url != "/")
  {
    if url in Split(ruta, '/') {
      var k :| 0 <= k < |Split(ruta, '/')| && Split(ruta, '/')[k] == url;
      CampoContenido(ruta, '/', k);
      assert '/' !in url;
      assert url != "/" by {
        assert "/"[0] == '/';
      }
    }
  }

  /** The root route matches only a path made of slashes. */
  lemma RaizActiva(ruta: string)
    ensures RutaActiva("/", ruta) <==> QuitarBarras(ruta) == []
  {
    SegmentosRedundantes("/", ruta);
    RaizSinBarras();
  }

  lemma RaizSinBarras()
    ensures QuitarBarras("/") == []
  {
    assert QuitarIzquierda("/") == [];
  }
}
