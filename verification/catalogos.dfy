/** The two catalogue updates of the time-tracking services
    (tools/services.py): `update_audit_mark` and `update_currency_type`.
    Each table is the sequence of its rows; the row being edited is given by
    its position. Each `filter(...).exists()` query is a search of that
    sequence, which holds the edited row as it was before the update. */
module Catalogos {
  import opened Wrappers
  import opened TiemposModelos

  datatype ErrorCatalogo =
    | NullNameAuditMarkError
    | NullDescriptionAuditMarkError
    | NullImageAuditMarkError
    | AuditMarkWithThatNameAlredyExits
    | AuditMarkWithThatDescriptionAlredyExits
    | AuditMarkWithThatImageAlredyExits
    | InvalidCurrencyNameError
    | InvalidCurrencyCurrencyError
    | InvalidCountryError
    | InvalidCurrencyCodeError
    | CurrencyNameAlredyAssignedError
    | CurrencyCodeAlredyAssignedError
    | CurrencyCountryAlredyAssignedError

  // ------------------------------------------------------------ audit marks

  /** An `AuditMarks` row. */
  datatype Marca = Marca(nombre: string, descripcion: string, imagen: string)

  /** `AuditMarks.objects.filter(name=n).exists()`, and the same for the
      other two fields. */
  predicate HayNombre(filas: seq<Marca>, n: string) {
    exists j :: 0 <= j < |filas| && filas[j].nombre == n
  }

  predicate HayDescripcion(filas: seq<Marca>, d: string) {
    exists j :: 0 <= j < |filas| && filas[j].descripcion == d
  }

  predicate HayImagen(filas: seq<Marca>, m: string) {
    exists j :: 0 <= j < |filas| && filas[j].imagen == m
  }

  /** The checks of `update_audit_mark` on row `i`, in their order; on
      success the row as it is to be saved. A value is refused when another
      mark already uses it and the edited mark does not. */
  function ValidarMarca(filas: seq<Marca>, i: nat, nombre: Option<string>, descripcion: Option<string>,
                        imagen: Option<string>): Result<Marca, ErrorCatalogo>
    requires i < |filas|
  {
    if Vacio(nombre) then Err(NullNameAuditMarkError)
    else if Vacio(descripcion) then Err(NullDescriptionAuditMarkError)
    else if Vacio(imagen) then Err(NullImageAuditMarkError)
    else if HayNombre(filas, nombre.value) && filas[i].nombre != nombre.value then
      Err(AuditMarkWithThatNameAlredyExits)
    else if HayDescripcion(filas, descripcion.value) && filas[i].descripcion != descripcion.value then
      Err(AuditMarkWithThatDescriptionAlredyExits)
    else if HayImagen(filas, imagen.value) && filas[i].imagen != imagen.value then
      Err(AuditMarkWithThatImageAlredyExits)
    else Ok(Marca(nombre.value, descripcion.value, imagen.value))
  }

  /** No two marks share a name, a description or an image. The database
      does not enforce this; only the services keep it. */
  predicate MarcasUnicas(filas: seq<Marca>) {
    forall j, k :: 0 <= j < k < |filas| ==>
      filas[j].nombre != filas[k].nombre && filas[j].descripcion != filas[k].descripcion &&
      filas[j].imagen != filas[k].imagen
  }

  /** The `AuditMarks` table. */
  class TablaMarcas {
    var filas: seq<Marca>

    constructor(filas0: seq<Marca>)
      ensures filas == filas0
    {
      filas := filas0;
    }

    /** `update_audit_mark(filas[i], name, description, image)`: a refused
        update raises and writes nothing; an accepted one saves the three
        new values in row `i` and nowhere else. */
    method UpdateAuditMark(i: nat, nombre: Option<string>, descripcion: Option<string>, imagen: Option<string>)
      returns (error: Option<ErrorCatalogo>)
      requires i < |filas|
      modifies this
      ensures var v := ValidarMarca(old(filas), i, nombre, descripcion, imagen);
              error == (if v.Err? then Some(v.error) else None) &&
              filas == (if v.Err? then old(filas) else old(filas)[i := v.value])
    {
      if Vacio(nombre) {
        return Some(NullNameAuditMarkError);
      }
      if Vacio(descripcion) {
        return Some(NullDescriptionAuditMarkError);
      }
      if Vacio(imagen) {
        return Some(NullImageAuditMarkError);
      }
      if HayNombre(filas, nombre.value) && filas[i].nombre != nombre.value {
        return Some(AuditMarkWithThatNameAlredyExits);
      }
      if HayDescripcion(filas, descripcion.value) && filas[i].descripcion != descripcion.value {
        return Some(AuditMarkWithThatDescriptionAlredyExits);
      }
      if HayImagen(filas, imagen.value) && filas[i].imagen != imagen.value {
        return Some(AuditMarkWithThatImageAlredyExits);
      }
      var m := filas[i];
      m := m.(nombre := nombre.value);
      m := m.(descripcion := descripcion.value);
      m := m.(imagen := imagen.value);
      filas := filas[i := m];
      error := None;
    }
  }

  /** An update goes through exactly when the three values are given and
      each is either the edited mark's own or used by no mark at all. */
  lemma ValidarMarcaEs(filas: seq<Marca>, i: nat, nombre: Option<string>, descripcion: Option<string>,
                       imagen: Option<string>)
    requires i < |filas|
    ensures ValidarMarca(filas, i, nombre, descripcion, imagen).Ok? <==>
              !Vacio(nombre) && !Vacio(descripcion) && !Vacio(imagen) &&
              (nombre.value == filas[i].nombre || forall j :: 0 <= j < |filas| ==> filas[j].nombre != nombre.value) &&
              (descripcion.value == filas[i].descripcion || forall j :: 0 <= j < |filas| ==> filas[j].descripcion != descripcion.value) &&
              (imagen.value == filas[i].imagen || forall j :: 0 <= j < |filas| ==> filas[j].imagen != imagen.value)
  {
  }

  /** Saving a mark with its own values again is always accepted and
      changes nothing. */
  lemma MarcaSinCambios(filas: seq<Marca>, i: nat)
    requires i < |filas| && filas[i].nombre != "" && filas[i].descripcion != "" && filas[i].imagen != ""
    ensures var v := ValidarMarca(filas, i, Some(filas[i].nombre), Some(filas[i].descripcion), Some(filas[i].imagen));
            v.Ok? && filas[i := v.value] == filas
  {
  }

  /** An accepted update keeps every name, description and image unique. */
  lemma MarcasSiguenUnicas(filas: seq<Marca>, i: nat, nombre: Option<string>, descripcion: Option<string>,
                           imagen: Option<string>)
    requires i < |filas| && MarcasUnicas(filas)
    requires ValidarMarca(filas, i, nombre, descripcion, imagen).Ok?
    ensures MarcasUnicas(filas[i := ValidarMarca(filas, i, nombre, descripcion, imagen).value])
  {
    var m := ValidarMarca(filas, i, nombre, descripcion, imagen).value;
    var f := filas[i := m];
    forall j, k | 0 <= j < k < |f|
      ensures f[j].nombre != f[k].nombre && f[j].descripcion != f[k].descripcion && f[j].imagen != f[k].imagen
    {
      if j == i {
        assert f[k] == filas[k];
        assert filas[i].nombre != filas[k].nombre && filas[i].descripcion != filas[k].descripcion &&
               filas[i].imagen != filas[k].imagen;
      } else if k == i {
        assert f[j] == filas[j];
        assert filas[j].nombre != filas[i].nombre && filas[j].descripcion != filas[i].descripcion &&
               filas[j].imagen != filas[i].imagen;
      }
    }
  }

  // ------------------------------------------------------------ currency types

  /** A `CurrencyType` row; `pais` is the primary key of its country. */
  datatype Moneda = Moneda(nombre: string, moneda: string, codigo: string, pais: string)

  predicate HayNombreMoneda(filas: seq<Moneda>, n: string) {
    exists j :: 0 <= j < |filas| && filas[j].nombre == n
  }

  predicate HayCodigo(filas: seq<Moneda>, c: string) {
    exists j :: 0 <= j < |filas| && filas[j].codigo == c
  }

  predicate HayPais(filas: seq<Moneda>, p: string) {
    exists j :: 0 <= j < |filas| && filas[j].pais == p
  }

  /** The checks of `update_currency_type` on row `i`, in their order, with
      `paises` the keys of the existing countries: the name and code clashes
      are reported before the country is looked up, and a country that does
      not exist is an `InvalidCountryError`. */
  function ValidarMoneda(filas: seq<Moneda>, i: nat, paises: set<string>, nombre: Option<string>,
                         moneda: Option<string>, codigo: Option<string>, pais: Option<string>): Result<Moneda, ErrorCatalogo>
    requires i < |filas|
  {
    if Vacio(nombre) then Err(InvalidCurrencyNameError)
    else if Vacio(moneda) then Err(InvalidCurrencyCurrencyError)
    else if Vacio(pais) then Err(InvalidCountryError)
    else if Vacio(codigo) then Err(InvalidCurrencyCodeError)
    else if HayNombreMoneda(filas, nombre.value) && filas[i].nombre != nombre.value then
      Err(CurrencyNameAlredyAssignedError)
    else if HayCodigo(filas, codigo.value) && filas[i].codigo != codigo.value then
      Err(CurrencyCodeAlredyAssignedError)
    else if pais.value !in paises then Err(InvalidCountryError)
    else if HayPais(filas, pais.value) && filas[i].pais != pais.value then
      Err(CurrencyCountryAlredyAssignedError)
    else Ok(Moneda(nombre.value, moneda.value, codigo.value, pais.value))
  }

  /** No two currencies share a name, a code or a country. */
  predicate MonedasUnicas(filas: seq<Moneda>) {
    forall j, k :: 0 <= j < k < |filas| ==>
      filas[j].nombre != filas[k].nombre && filas[j].codigo != filas[k].codigo && filas[j].pais != filas[k].pais
  }

  /** The `CurrencyType` table and the keys of the `Country` table. */
  class TablaMonedas {
    var filas: seq<Moneda>
    const paises: set<string>

    constructor(filas0: seq<Moneda>, paises0: set<string>)
      ensures filas == filas0 && paises == paises0
    {
      filas, paises := filas0, paises0;
    }

    /** `update_currency_type(filas[i], name, currency, code, country_id)`:
        a refused update raises and writes nothing; an accepted one saves
        the four new values in row `i` and nowhere else. */
    method UpdateCurrencyType(i: nat, nombre: Option<string>, moneda: Option<string>, codigo: Option<string>,
                              pais: Option<string>)
      returns (error: Option<ErrorCatalogo>)
      requires i < |filas|
      modifies this
      ensures var v := ValidarMoneda(old(filas), i, paises, nombre, moneda, codigo, pais);
              error == (if v.Err? then Some(v.error) else None) &&
              filas == (if v.Err? then old(filas) else old(filas)[i := v.value])
    {
      if Vacio(nombre) {
        return Some(InvalidCurrencyNameError);
      }
      if Vacio(moneda) {
        return Some(InvalidCurrencyCurrencyError);
      }
      if Vacio(pais) {
        return Some(InvalidCountryError);
      }
      if Vacio(codigo) {
        return Some(InvalidCurrencyCodeError);
      }
      if HayNombreMoneda(filas, nombre.value) && filas[i].nombre != nombre.value {
        return Some(CurrencyNameAlredyAssignedError);
      }
      if HayCodigo(filas, codigo.value) && filas[i].codigo != codigo.value {
        return Some(CurrencyCodeAlredyAssignedError);
      }
      if pais.value !in paises {
        return Some(InvalidCountryError);
      }
      if HayPais(filas, pais.value) && filas[i].pais != pais.value {
        return Some(CurrencyCountryAlredyAssignedError);
      }
      var m := filas[i];
      if m.nombre != nombre.value {
        m := m.(nombre := nombre.value);
      }
      if m.moneda != moneda.value {
        m := m.(moneda := moneda.value);
      }
      if m.codigo != codigo.value {
        m := m.(codigo := codigo.value);
      }
      if m.pais != pais.value {
        m := m.(pais := pais.value);
      }
      filas := filas[i := m];
      error := None;
    }
  }

  /** An update goes through exactly when the four values are given, the
      country exists, and the name, code and country are each the edited
      currency's own or used by no currency at all. */
  lemma ValidarMonedaEs(filas: seq<Moneda>, i: nat, paises: set<string>, nombre: Option<string>,
                        moneda: Option<string>, codigo: Option<string>, pais: Option<string>)
    requires i < |filas|
    ensures ValidarMoneda(filas, i, paises, nombre, moneda, codigo, pais).Ok? <==>
              !Vacio(nombre) && !Vacio(moneda) && !Vacio(codigo) && !Vacio(pais) && pais.value in paises &&
              (nombre.value == filas[i].nombre || forall j :: 0 <= j < |filas| ==> filas[j].nombre != nombre.value) &&
              (codigo.value == filas[i].codigo || forall j :: 0 <= j < |filas| ==> filas[j].codigo != codigo.value) &&
              (pais.value == filas[i].pais || forall j :: 0 <= j < |filas| ==> filas[j].pais != pais.value)
  {
  }

  /** A name clash is reported even when the country does not exist: the
      country is looked up only after the name and code checks. */
  lemma NombreAntesQuePais(filas: seq<Moneda>, i: nat, j: nat, paises: set<string>, nombre: string,
                           moneda: string, codigo: string, pais: string)
    requires i < |filas| && j < |filas| && filas[j].nombre == nombre && filas[i].nombre != nombre
    requires nombre != "" && moneda != "" && codigo != "" && pais != "" && pais !in paises
    ensures ValidarMoneda(filas, i, paises, Some(nombre), Some(moneda), Some(codigo), Some(pais)) ==
              Err(CurrencyNameAlredyAssignedError)
  {
  }

  /** An accepted update keeps one currency per name, per code and per
      country, and only ever points a currency at an existing country. */
  lemma MonedasSiguenUnicas(filas: seq<Moneda>, i: nat, paises: set<string>, nombre: Option<string>,
                            moneda: Option<string>, codigo: Option<string>, pais: Option<string>)
    requires i < |filas| && MonedasUnicas(filas)
    requires ValidarMoneda(filas, i, paises, nombre, moneda, codigo, pais).Ok?
    ensures var f := filas[i := ValidarMoneda(filas, i, paises, nombre, moneda, codigo, pais).value];
            MonedasUnicas(f) && f[i].pais in paises
  {
    var m := ValidarMoneda(filas, i, paises, nombre, moneda, codigo, pais).value;
    var f := filas[i := m];
    forall j, k | 0 <= j < k < |f|
      ensures f[j].nombre != f[k].nombre && f[j].codigo != f[k].codigo && f[j].pais != f[k].pais
    {
      if j == i {
        assert f[k] == filas[k];
        assert filas[i].nombre != filas[k].nombre && filas[i].codigo != filas[k].codigo &&
               filas[i].pais != filas[k].pais;
      } else if k == i {
        assert f[j] == filas[j];
        assert filas[j].nombre != filas[i].nombre && filas[j].codigo != filas[i].codigo &&
               filas[j].pais != filas[i].pais;
      }
    }
  }
}
