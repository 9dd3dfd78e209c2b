/** Choosing the reference prefix and range for a Word document
    (auditoria/processors/word/table_processor/nomenclature_config.py). */
module Nomenclature {
  import opened Wrappers
  import opened Text
  import PyDict
  import AuditMappings
  import UrlsPrograms

  /** The values the nomenclature maps hold: strings, integers and nested
      dictionaries (kept in insertion order). */
  datatype PyVal = PStr(s: string) | PInt(i: int) | PDict(items: seq<(string, PyVal)>)

  /** `{"prefix": prefix, "max_range": maxRange}` */
  function ConfigVal(prefix: string, maxRange: int): PyVal {
    PDict([("prefix", PStr(prefix)), ("max_range", PInt(maxRange))])
  }

  /** Python truthiness. */
  predicate Truthy(v: PyVal) {
    match v
    case PStr(s) => s != []
    case PInt(i) => i != 0
    case PDict(items) => items != []
  }

  /** `FINANCIAL_NOMENCLATURE_MAP` (financial_audit_mappings.py lines 7-19) */
  const FinancialNomenclatureMap: PyDict.Dict<string, PyVal> := [
    ("1 programa.docx", ConfigVal("A", 18)),
    ("1 programa de auditoria cuentas por cobrar.docx", ConfigVal("B", 16)),
    ("1 programa de auditoria inversiones.docx", ConfigVal("C", 6)),
    ("1 programa de auditoria inventarios.docx", ConfigVal("D", 16)),
    ("1 programa de auditoria construcciones en proceso.docx", ConfigVal("E", 13)),
    ("1 programa de auditoria activos fijos.docx", ConfigVal("F", 13)),
    ("1 programa de activo intangible.docx", ConfigVal("G", 10)),
    ("1 programa de auditoria cuentas por pagar.docx", ConfigVal("H", 19)),
    ("1 programa de auditoria prestamos por pagar.docx", ConfigVal("I", 8)),
    ("1 programa de auditoria patrimonio.docx", ConfigVal("J", 8)),
    ("1 programa de auditoria estado resultados.docx", ConfigVal("R", 13))
  ]

  /** The areas under "6 AUDITORIA DE PROCESOS" in `INTERNAL_NOMENCLATURE_MAP`
      (internal_audit_mappings.py lines 8-85). */
  const InternalAreas: seq<(string, PyVal)> := [
    ("1 Operativo", PDict([
      ("1 Gesti\U{f3}n de Inventarios y Almacenes", PDict([
        ("4 Programa de Auditor\U{ed}a.docx", ConfigVal("B", 12))
      ]))
    ])),
    ("2 Comercial", PDict([
      ("4 Programa de Auditor\U{ed}a.docx", ConfigVal("D", 12))
    ])),
    ("3 Financiero", PDict([
      ("1 AUDITORIA PROCESOS TESORERIA", PDict([
        ("4 Programa de Auditor\U{ed}a.docx", ConfigVal("E", 12))
      ])),
      ("2 AUDITORIA PROCESOS CONTABILIDAD", PDict([
        ("4 Programa de Auditor\U{ed}a.docx", ConfigVal("F", 12))
      ])),
      ("3 AUDITORIA PROCESOS COMPRAS", PDict([
        ("4 Programa de Auditor\U{ed}a.docx", ConfigVal("H", 12))
      ]))
    ])),
    ("4 Recursos Humanos", PDict([
      ("4 Programa de Auditor\U{ed}a.docx", ConfigVal("K", 12))
    ])),
    ("5 Tecnolog\U{ed}a", PDict([
      ("4 Programa de Auditor\U{ed}a.docx", ConfigVal("L", 12))
    ])),
    ("6 Legal", PDict([
      ("4 Programa de Auditor\U{ed}a.docx", ConfigVal("M", 12))
    ])),
    ("7 Servicios P\U{fa}blicos", PDict([
      ("4 Programa de Auditor\U{ed}a.docx", ConfigVal("N", 12))
    ])),
    ("8 Obras P\U{fa}blicas", PDict([
      ("4 Programa de Auditor\U{ed}a.docx", ConfigVal("O", 12))
    ])),
    ("9 Gesti\U{f3}n de Ahorro", PDict([
      ("4 Programa de Auditor\U{ed}a.docx", ConfigVal("P", 12))
    ])),
    ("10 Gesti\U{f3}n de Cr\U{e9}ditos", PDict([
      ("4 Programa de Auditor\U{ed}a.docx", ConfigVal("Q", 12))
    ]))
  ]

  /** `INTERNAL_NOMENCLATURE_MAP` (internal_audit_mappings.py lines 7-86) */
  const InternalNomenclatureMap: PyDict.Dict<string, PyVal> := [("6 AUDITORIA DE PROCESOS", PDict(InternalAreas))]

  /** `INTERNAL_PATH_TO_PREFIX_MAP` (internal_audit_mappings.py lines 89-110) */
  const InternalPathToPrefixMap: PyDict.Dict<string, string> := [
    ("1 operativo/1 gesti\U{f3}n de inventarios", "B"),
    ("3 financiero/1 auditoria procesos tesoreria", "E"),
    ("3 financiero/2 auditoria procesos contabilidad", "F"),
    ("3 financiero/3 auditoria procesos compras", "H"),
    ("2 comercial", "D"),
    ("4 recursos humanos", "K"),
    ("5 tecnolog\U{ed}a", "L"),
    ("5 tecnologia", "L"),
    ("6 legal", "M"),
    ("7 servicios p\U{fa}blicos", "N"),
    ("7 servicios publicos", "N"),
    ("8 obras p\U{fa}blicas", "O"),
    ("8 obras publicas", "O"),
    ("9 gesti\U{f3}n de ahorro", "P"),
    ("9 gestion de ahorro", "P"),
    ("10 gesti\U{f3}n de cr\U{e9}ditos", "Q"),
    ("10 gestion de creditos", "Q")
  ]

  // ------------------------------------------------------------ the search

  /** `document_path.replace('\\', '/').lower()` */
  function NormalizePath(path: string): string {
    Lower(ReplaceAll(path, "\\", "/"))
  }

  /** `s.lower().replace('\U{ed}', 'i').replace('\U{e1}', 'a')` */
  function Clean(s: string): string {
    ReplaceAll(ReplaceAll(Lower(s), "\U{ed}", "i"), "\U{e1}", "a")
  }

  /** The loop over `INTERNAL_PATH_TO_PREFIX_MAP` (lines 40-44): the prefix
      of the first fragment occurring in the path. */
  function FindDirect(m: PyDict.Dict<string, string>, np: string): (r: Option<string>)
    ensures r.Some? ==> exists i :: 0 <= i < |m| && m[i].1 == r.value && Contains(np, m[i].0) &&
                          forall j :: 0 <= j < i ==> !Contains(np, m[j].0)
    ensures r.None? ==> forall i :: 0 <= i < |m| ==> !Contains(np, m[i].0)
  {
    if m == [] then None
    else if Contains(np, m[0].0) then Some(m[0].1)
    else
      var r := FindDirect(m[1..], np);
      assert forall j :: 1 <= j < |m| ==> m[j] == m[1..][j - 1];
      if r.Some? then
        var i :| 0 <= i < |m[1..]| && m[1..][i].1 == r.value && Contains(np, m[1..][i].0) &&
                 forall j :: 0 <= j < i ==> !Contains(np, m[1..][j].0);
        assert m[i + 1] == m[1..][i];
        r
      else r
  }

  /** A document loop (lines 59-64 and 67-72): the value of the first entry
      whose cleaned name occurs in the cleaned document name. */
  function FindDoc(docs: seq<(string, PyVal)>, docSearch: string): (r: Option<PyVal>)
    ensures r.Some? ==> exists i :: 0 <= i < |docs| && docs[i].1 == r.value && Contains(docSearch, Clean(docs[i].0)) &&
                          forall j :: 0 <= j < i ==> !Contains(docSearch, Clean(docs[j].0))
    ensures r.None? ==> forall i :: 0 <= i < |docs| ==> !Contains(docSearch, Clean(docs[i].0))
  {
    if docs == [] then None
    else if Contains(docSearch, Clean(docs[0].0)) then Some(docs[0].1)
    else
      var r := FindDoc(docs[1..], docSearch);
      assert forall j :: 1 <= j < |docs| ==> docs[j] == docs[1..][j - 1];
      if r.Some? then
        var i :| 0 <= i < |docs[1..]| && docs[1..][i].1 == r.value && Contains(docSearch, Clean(docs[1..][i].0)) &&
                 forall j :: 0 <= j < i ==> !Contains(docSearch, Clean(docs[1..][j].0));
        assert docs[i + 1] == docs[1..][i];
        r
      else r
  }

  /** The subarea loop (lines 55-64): each subarea named in the path has its
      documents searched; `.items()` of a value that is not a dictionary
      raises. */
  function SearchSubareas(subs: seq<(string, PyVal)>, np: string, docSearch: string): Result<Option<PyVal>, string>
  {
    if subs == [] then Ok(None)
    else if Contains(np, Lower(subs[0].0)) then
      match subs[0].1
      case PDict(docs) =>
        (match FindDoc(docs, docSearch)
         case Some(v) => Ok(Some(v))
         case None => SearchSubareas(subs[1..], np, docSearch))
      case _ => Err("AttributeError")
    else SearchSubareas(subs[1..], np, docSearch)
  }

  /** The area loop (lines 47-72): an area named in the path whose first
      value is a dictionary is searched by subarea, any other area by
      document; an area that is not a dictionary, or an empty one, raises. */
  function SearchAreas(areas: seq<(string, PyVal)>, np: string, docSearch: string): Result<Option<PyVal>, string>
  {
    if areas == [] then Ok(None)
    else if Contains(np, Lower(areas[0].0)) then
      match areas[0].1
      case PDict(items) =>
        if items == [] then Err("StopIteration")
        else if items[0].1.PDict? then
          match SearchSubareas(items, np, docSearch)
          case Ok(None) => SearchAreas(areas[1..], np, docSearch)
          case other => other
        else
          (match FindDoc(items, docSearch)
           case Some(v) => Ok(Some(v))
           case None => SearchAreas(areas[1..], np, docSearch))
      case _ => Err("AttributeError")
    else SearchAreas(areas[1..], np, docSearch)
  }

  /** The path rules apply: a non-empty path is given and the name, lower-cased,
      contains "programa de auditor". */
  predicate PathRulesApply(documentName: string, documentPath: Option<string>) {
    documentPath.Some? && documentPath.value != [] && Contains(Lower(documentName), "programa de auditor")
  }

  /** `FINANCIAL_NOMENCLATURE_MAP.get(document_name.lower())` */
  function FinancialConfig(documentName: string): Option<PyVal> {
    PyDict.Get(FinancialNomenclatureMap, Lower(documentName))
  }

  /** `get_nomenclature_config(document_name, document_path)`; `Err` stands
      for an exception. */
  function GetNomenclatureConfig(documentName: string, documentPath: Option<string>): (r: Result<Option<PyVal>, string>)
    ensures FinancialConfig(documentName).Some? && Truthy(FinancialConfig(documentName).value) ==>
              r == Ok(FinancialConfig(documentName))
    ensures FinancialConfig(documentName).None? && !PathRulesApply(documentName, documentPath) ==> r == Ok(None)
    ensures (FinancialConfig(documentName).None? && PathRulesApply(documentName, documentPath) &&
             !Contains(NormalizePath(documentPath.value), "6 auditoria de procesos")) ==> r == Ok(None)
    ensures (FinancialConfig(documentName).None? && PathRulesApply(documentName, documentPath) &&
             Contains(NormalizePath(documentPath.value), "6 auditoria de procesos") &&
             FindDirect(InternalPathToPrefixMap, NormalizePath(documentPath.value)).Some?) ==>
              r == Ok(Some(ConfigVal(FindDirect(InternalPathToPrefixMap, NormalizePath(documentPath.value)).value, 12)))
    ensures (!(FinancialConfig(documentName).Some? && Truthy(FinancialConfig(documentName).value)) &&
             PathRulesApply(documentName, documentPath) &&
             Contains(NormalizePath(documentPath.value), "6 auditoria de procesos") &&
             FindDirect(InternalPathToPrefixMap, NormalizePath(documentPath.value)).None?) ==>
              r == SearchAreas(InternalAreas, NormalizePath(documentPath.value), Clean(documentName))
  {
    var config := FinancialConfig(documentName);
    if config.Some? && Truthy(config.value) then Ok(config)
    else if PathRulesApply(documentName, documentPath) then
      var np := NormalizePath(documentPath.value);
      if Contains(np, "6 auditoria de procesos") then
        match FindDirect(InternalPathToPrefixMap, np)
        case Some(prefix) => Ok(Some(ConfigVal(prefix, 12)))
        case None =>
          var top: Option<PyVal> := PyDict.Get(InternalNomenclatureMap, "6 AUDITORIA DE PROCESOS");
          if top.None? then Err("KeyError")
          else if !top.value.PDict? then Err("AttributeError")
          else SearchAreas(top.value.items, np, Clean(documentName))
      else Ok(None)
    else Ok(None)
  }

  // ------------------------------------------------------------ the tables

  /** Every financial configuration is a non-empty dictionary, so a hit in
      the financial map is always returned. */
  lemma FinancialConfigsTruthy()
    ensures forall i :: 0 <= i < |FinancialNomenclatureMap| ==> Truthy(FinancialNomenclatureMap[i].1)
    ensures PyDict.Valid(FinancialNomenclatureMap)
  {
  }

  /** The financial documents are the program files of the pattern tables,
      lower-cased, and each `max_range` is the number of patterns of its
      prefix. */
  lemma FinancialRangesAreTableSizes()
    ensures |FinancialNomenclatureMap| == |AuditMappings.Blocks| == |UrlsPrograms.PrefixToProgram|
    ensures forall i :: 0 <= i < |FinancialNomenclatureMap| ==>
              FinancialNomenclatureMap[i].1 == ConfigVal([AuditMappings.Blocks[i].letter], |AuditMappings.Blocks[i].table|)
    ensures forall i :: 0 <= i < |FinancialNomenclatureMap| ==>
              UrlsPrograms.PrefixToProgram[i].0 == [AuditMappings.Blocks[i].letter]
  {
    AuditMappings.BlockSizes();
    var sizes := seq(|AuditMappings.Blocks|, i requires 0 <= i < |AuditMappings.Blocks| =>
                       (AuditMappings.Blocks[i].letter, |AuditMappings.Blocks[i].table|));
    forall i | 0 <= i < |FinancialNomenclatureMap|
      ensures FinancialNomenclatureMap[i].1 == ConfigVal([AuditMappings.Blocks[i].letter], |AuditMappings.Blocks[i].table|)
    {
      assert sizes[i] == (AuditMappings.Blocks[i].letter, |AuditMappings.Blocks[i].table|);
    }
  }

  /** A document whose lower-cased name is that of the program of a
      financial prefix is numbered with that prefix, whatever its path, up to
      the number of patterns the prefix has. */
  lemma ProgramDocumentConfig(i: nat, documentName: string, documentPath: Option<string>)
    requires i < |FinancialNomenclatureMap| && Lower(documentName) == FinancialNomenclatureMap[i].0
    ensures GetNomenclatureConfig(documentName, documentPath) ==
            Ok(Some(ConfigVal(UrlsPrograms.PrefixToProgram[i].0, |AuditMappings.Blocks[i].table|)))
  {
    FinancialConfigsTruthy();
    FinancialRangesAreTableSizes();
    PyDict.GetValid(FinancialNomenclatureMap, i);
  }

  /** Every prefix the path fragments give has an internal folder. */
  lemma DirectPrefixesHaveFolders()
    ensures forall i :: 0 <= i < |InternalPathToPrefixMap| ==>
              PyDict.HasKey(UrlsPrograms.InternalPrefixToFolder, InternalPathToPrefixMap[i].1)
  {
    forall i | 0 <= i < |InternalPathToPrefixMap|
      ensures PyDict.HasKey(UrlsPrograms.InternalPrefixToFolder, InternalPathToPrefixMap[i].1)
    {
      var j := [0, 2, 3, 4, 1, 5, 6, 6, 7, 8, 8, 9, 9, 10, 10, 11, 11][i];
      assert UrlsPrograms.InternalPrefixToFolder[j].0 == InternalPathToPrefixMap[i].1;
    }
  }

  // ----------------------------------------------------------- exceptions

  /** The shape the area search needs: every area is a non-empty dictionary
      and, when its first value is a dictionary, so are all its values. */
  predicate WellShaped(areas: seq<(string, PyVal)>) {
    forall i :: 0 <= i < |areas| ==>
      (areas[i].1.PDict? && areas[i].1.items != [] &&
       (areas[i].1.items[0].1.PDict? ==> forall j :: 0 <= j < |areas[i].1.items| ==> areas[i].1.items[j].1.PDict?))
  }

  lemma {:induction false} SubareasNeverRaise(subs: seq<(string, PyVal)>, np: string, docSearch: string)
    requires forall j :: 0 <= j < |subs| ==> subs[j].1.PDict?
    ensures SearchSubareas(subs, np, docSearch).Ok?
  {
    if subs != [] {
      assert forall j :: 0 <= j < |subs[1..]| ==> subs[1..][j] == subs[j + 1];
      SubareasNeverRaise(subs[1..], np, docSearch);
    }
  }

  lemma {:induction false} AreasNeverRaise(areas: seq<(string, PyVal)>, np: string, docSearch: string)
    requires WellShaped(areas)
    ensures SearchAreas(areas, np, docSearch).Ok?
  {
    if areas != [] {
      assert forall j :: 0 <= j < |areas[1..]| ==> areas[1..][j] == areas[j + 1];
      AreasNeverRaise(areas[1..], np, docSearch);
      var items := areas[0].1.items;
      if items[0].1.PDict? {
        SubareasNeverRaise(items, np, docSearch);
      }
    }
  }

  /** Area or subarea `name` is named in the normalised path. */
  predicate Nombrada(np: string, name: string) {
    Contains(np, Lower(name))
  }

  /** Subarea `s` gives nothing: it is not named in the path or its
      documents do not hold the document. */
  predicate SubareaSinDocumento(s: (string, PyVal), np: string, docSearch: string) {
    !Nombrada(np, s.0) || (s.1.PDict? && FindDoc(s.1.items, docSearch).None?)
  }

  /** Subarea `s` gives `v`. */
  predicate SubareaConDocumento(s: (string, PyVal), np: string, docSearch: string, v: PyVal) {
    Nombrada(np, s.0) && s.1.PDict? && FindDoc(s.1.items, docSearch) == Some(v)
  }

  /** Searching area `a` finds nothing: it is not named in the path, or none
      of the document lists searched in it holds the document. */
  predicate AreaSinDocumento(a: (string, PyVal), np: string, docSearch: string) {
    !Nombrada(np, a.0) ||
    (a.1.PDict? && a.1.items != [] &&
     var items := a.1.items;
     if items[0].1.PDict? then forall j :: 0 <= j < |items| ==> SubareaSinDocumento(items[j], np, docSearch)
     else FindDoc(items, docSearch).None?)
  }

  /** Searching area `a` gives `v`: it is named in the path, and `v` is what
      its first subarea that gives something gives, or what the search of
      its own documents gives. */
  predicate AreaConDocumento(a: (string, PyVal), np: string, docSearch: string, v: PyVal) {
    Nombrada(np, a.0) && a.1.PDict? && a.1.items != [] &&
    (var items := a.1.items;
     if items[0].1.PDict? then
       exists j :: 0 <= j < |items| && SubareaConDocumento(items[j], np, docSearch, v) &&
                   forall k :: 0 <= k < j ==> SubareaSinDocumento(items[k], np, docSearch)
     else FindDoc(items, docSearch) == Some(v))
  }

  lemma {:induction false} SubareasEs(subs: seq<(string, PyVal)>, np: string, docSearch: string)
    requires forall j :: 0 <= j < |subs| ==> subs[j].1.PDict?
    ensures var r := SearchSubareas(subs, np, docSearch);
            r.Ok? && (r.value.None? <==> forall j :: 0 <= j < |subs| ==> SubareaSinDocumento(subs[j], np, docSearch))
    ensures var r := SearchSubareas(subs, np, docSearch);
            r.Ok? && r.value.Some? ==>
              exists j :: 0 <= j < |subs| && SubareaConDocumento(subs[j], np, docSearch, r.value.value) &&
                          forall k :: 0 <= k < j ==> SubareaSinDocumento(subs[k], np, docSearch)
  {
    if subs != [] {
      var resto := subs[1..];
      assert forall j :: 0 <= j < |resto| ==> resto[j] == subs[j + 1];
      SubareasEs(resto, np, docSearch);
      var r := SearchSubareas(subs, np, docSearch);
      if SubareaSinDocumento(subs[0], np, docSearch) {
        assert r == SearchSubareas(resto, np, docSearch);
        if r.value.Some? {
          var j :| 0 <= j < |resto| && SubareaConDocumento(resto[j], np, docSearch, r.value.value) &&
                   forall k :: 0 <= k < j ==> SubareaSinDocumento(resto[k], np, docSearch);
          assert subs[j + 1] == resto[j];
        }
      } else {
        assert SubareaConDocumento(subs[0], np, docSearch, r.value.value);
      }
    }
  }

  /** The area search on well-shaped areas: it finds nothing exactly when
      every area misses, and what it finds is what the first area that does
      not miss gives. */
  lemma {:induction false} SearchAreasEs(areas: seq<(string, PyVal)>, np: string, docSearch: string)
    requires WellShaped(areas)
    ensures var r := SearchAreas(areas, np, docSearch);
            r.Ok? && (r.value.None? <==> forall i :: 0 <= i < |areas| ==> AreaSinDocumento(areas[i], np, docSearch))
    ensures var r := SearchAreas(areas, np, docSearch);
            r.Ok? && r.value.Some? ==>
              exists i :: 0 <= i < |areas| && AreaConDocumento(areas[i], np, docSearch, r.value.value) &&
                          forall k :: 0 <= k < i ==> AreaSinDocumento(areas[k], np, docSearch)
  {
    if areas != [] {
      var resto := areas[1..];
      assert forall j :: 0 <= j < |resto| ==> resto[j] == areas[j + 1];
      SearchAreasEs(resto, np, docSearch);
      var r := SearchAreas(areas, np, docSearch);
      var items := areas[0].1.items;
      if items[0].1.PDict? {
        SubareasEs(items, np, docSearch);
      }
      if AreaSinDocumento(areas[0], np, docSearch) {
        assert r == SearchAreas(resto, np, docSearch);
        if r.value.Some? {
          var i :| 0 <= i < |resto| && AreaConDocumento(resto[i], np, docSearch, r.value.value) &&
                   forall k :: 0 <= k < i ==> AreaSinDocumento(resto[k], np, docSearch);
          assert areas[i + 1] == resto[i];
        }
      } else {
        assert AreaConDocumento(areas[0], np, docSearch, r.value.value);
      }
    }
  }

  /** Every area is a dictionary whose first value is a dictionary: so the
      branch for areas holding documents directly (lines 65-72) never runs,
      and the internal map has the shape the search needs. */
  lemma InternalAreasNested()
    ensures forall i :: 0 <= i < |InternalAreas| ==> InternalAreas[i].1.PDict? && InternalAreas[i].1.items[0].1.PDict?
    ensures WellShaped(InternalAreas)
  {
  }

  /** With no financial hit and no direct path fragment, a programme
      document under "6 auditoria de procesos" gets the configuration of
      the first area of the internal map that holds it, found by the
      document search of that area's first named subarea holding it; when
      no area holds it, nothing. */
  lemma ConfigPorAreas(documentName: string, documentPath: Option<string>)
    requires !(FinancialConfig(documentName).Some? && Truthy(FinancialConfig(documentName).value))
    requires PathRulesApply(documentName, documentPath)
    requires Contains(NormalizePath(documentPath.value), "6 auditoria de procesos")
    requires FindDirect(InternalPathToPrefixMap, NormalizePath(documentPath.value)).None?
    ensures var r := GetNomenclatureConfig(documentName, documentPath);
            var np := NormalizePath(documentPath.value);
            r.Ok? &&
            (r.value.None? <==> forall i :: 0 <= i < |InternalAreas| ==> AreaSinDocumento(InternalAreas[i], np, Clean(documentName)))
    ensures var r := GetNomenclatureConfig(documentName, documentPath);
            var np := NormalizePath(documentPath.value);
            r.Ok? && r.value.Some? ==>
              exists i :: 0 <= i < |InternalAreas| && AreaConDocumento(InternalAreas[i], np, Clean(documentName), r.value.value) &&
                          forall k :: 0 <= k < i ==> AreaSinDocumento(InternalAreas[k], np, Clean(documentName))
  {
    InternalAreasNested();
    SearchAreasEs(InternalAreas, NormalizePath(documentPath.value), Clean(documentName));
  }

  /** For the actual maps, `get_nomenclature_config` never raises. */
  lemma NeverRaises(documentName: string, documentPath: Option<string>)
    ensures GetNomenclatureConfig(documentName, documentPath).Ok?
  {
    InternalAreasNested();
    forall np: string, ds: string ensures SearchAreas(InternalAreas, np, ds).Ok? {
      AreasNeverRaise(InternalAreas, np, ds);
    }
  }
}
