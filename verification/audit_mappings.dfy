/** The financial-audit reference tables: which folder each prefix letter
    names, and which file each pattern "L-n" names
    (auditoria/processors/shared/urls_programs/financial_audit_mappings.py). */
module AuditMappings {
  import opened Wrappers
  import opened Text
  import PyDict
  import opened PatternTables

  /** `PREFIX_TO_FOLDER` (lines 2-14) */
  const PrefixToFolder: Table := [
    ("A", "5 PRUEBAS SUSTANTIVAS/1 CAJA Y BANCOS"),
    ("B", "5 PRUEBAS SUSTANTIVAS/2 CUENTAS POR COBRAR"),
    ("C", "5 PRUEBAS SUSTANTIVAS/3 INVERSIONES"),
    ("D", "5 PRUEBAS SUSTANTIVAS/4 INVENTARIOS"),
    ("E", "5 PRUEBAS SUSTANTIVAS/5 CONSTRUCCIONES EN PROCESO"),
    ("F", "5 PRUEBAS SUSTANTIVAS/6 AUDITORIA ACTIVOS FIJOS"),
    ("G", "5 PRUEBAS SUSTANTIVAS/7 AUDITORIA ACTIVO INTANGIBLE"),
    ("H", "5 PRUEBAS SUSTANTIVAS/8 AUDITORIA CUENTAS POR PAGAR"),
    ("I", "5 PRUEBAS SUSTANTIVAS/9 AUDITORIA PASIVO LARGO PLAZO"),
    ("J", "5 PRUEBAS SUSTANTIVAS/10 AUDITORIA PATRIMONIO"),
    ("R", "5 PRUEBAS SUSTANTIVAS/11 AUDITORIA DE ESTADO RESULTADOS")
  ]

  /** `PATTERN_TO_FILE_A` (lines 17-37) */
  const PatternToFileA: Table := [
    ("A-1", "2 SUMARIA CAJAS Y BANCOS.xlsx"),
    ("A-2", "3 CONCILIACIONES BANCARIAS.xlsx"),
    ("A-3", "4 CONFIRMACION BANCARIA.docx"),
    ("A-4", "4.1 CONTROL DE CONFIRMACIONES.xlsx"),
    ("A-5", "5 ARQUEO DE CAJA.xlsx"),
    ("A-6", "6 ARQUEOS CAJA CHICA.docx"),
    ("A-7", "7 CORTE DE CHEQUES.xlsx"),
    ("A-8", "8 INTEGRACION INGRESOS.xlsx"),
    ("A-9", "9 PRUEBA DE INGRESOS.xlsx"),
    ("A-10", "10 INTEGRACION EGRESOS.xlsx"),
    ("A-11", "11 PRUEBA DE EGRESOS.xlsx"),
    ("A-12", "12 PRUEBA DE TRANSFERENCIAS.xlsx"),
    ("A-13", "13 REVISION AJUSTES CONTABLES.xlsx"),
    ("A-14", "14 PRUEBAS CIERRE CONTABLE.xlsx"),
    ("A-15", "15 PARTIDAS DE AJUSTES.docx"),
    ("A-16", "16 PARTIDAS DE RECLASIFICACION.docx"),
    ("A-17", "17 HALLAZGOS.docx"),
    ("A-18", "18 EVIDENCIAS DE HALLAZGOS.docx")
  ]

  /** `PATTERN_TO_FILE_B` (lines 40-57) */
  const PatternToFileB: Table := [
    ("B-1", "2 SUMARIA CUENTAS POR COBRAR.xlsx"),
    ("B-2", "3 INTEGRACION DE CLIENTES.xlsx"),
    ("B-3", "4 INTEGRACION DE DEUDORES.xlsx"),
    ("B-4", "5 CIRCULARIZACION DE CLIENTE.docx"),
    ("B-5", "5 CIRCULARIZACION DE CLIENTE.docx"),
    ("B-6", "6 CIRCULARIZACION.docx"),
    ("B-7", "7 ESTADISTICA DE CIRCULARIZACION.docx"),
    ("B-8", "8 INSPECCIONAR.xlsx"),
    ("B-9", "9 ANALISIS DE ANTIG\U{dc}EDAD DE SALDOS.xlsx"),
    ("B-10", "10 PRUEBA DE COBROS POSTERIORES.xlsx"),
    ("B-11", "11 ANALISIS DE CUENTAS INCOBRABLES.xlsx"),
    ("B-12", "12 CORTE DE FORMAS.xlsx"),
    ("B-13", "13 PARTIDAS DE AJUSTES.docx"),
    ("B-14", "14 PARTIDAS DE RECLASIFICACION.docx"),
    ("B-15", "15 HALLAZGOS.docx"),
    ("B-16", "16 EVIDENCIAS DE HALLAZGOS.docx")
  ]

  /** `PATTERN_TO_FILE_C` (lines 60-67) */
  const PatternToFileC: Table := [
    ("C-1", "2 SUMARIA INVERSIONES.xlsx"),
    ("C-2", "3 PRUEBA FISICA INVERSIONES.xlsx"),
    ("C-3", "4 PARTIDAS DE AJUSTES.docx"),
    ("C-4", "5 PARTIDAS DE RECLASIFICACION.docx"),
    ("C-5", "6 HALLAZGOS.docx"),
    ("C-6", "7 EVIDENCIAS DE HALLAZGOS.docx")
  ]

  /** `PATTERN_TO_FILE_D` (lines 70-87) */
  const PatternToFileD: Table := [
    ("D-1", "2 SUMARIA INVENTARIOS.xlsx"),
    ("D-2", "3 INTEGRACION DE INVENTARIOS.xlsx"),
    ("D-3", "4 INVENTARIOS EN TRANSITO.xlsx"),
    ("D-4", "5 INTEGRACION INVENTARIOS OBSOLETOS.xlsx"),
    ("D-5", "6 ANALITICA DE INVENTARIOS.xlsx"),
    ("D-6", "7 MEMORANDUM TOMA FISICA DE INVENTARIO.docx"),
    ("D-7", "8 INVENTARIO FISICO.xlsx"),
    ("D-8", "9 VALUACION DE INVENTARIOS.xlsx"),
    ("D-9", "10 Comparar costos con precios de mercado.xlsx"),
    ("D-10", "11 CONFIRMACION DE INVENTARIOS.docx"),
    ("D-11", "12 CORTE DE FORMAS.xlsx"),
    ("D-12", "13 PRUEBAS DE CIERRE.docx"),
    ("D-13", "14 PARTIDAS DE AJUSTES.docx"),
    ("D-14", "15 PARTIDAS DE RECLASIFICACION.docx"),
    ("D-15", "16 HALLAZGOS.docx"),
    ("D-16", "17 EVIDENCIAS DE HALLAZGOS.docx")
  ]

  /** `PATTERN_TO_FILE_E` (lines 90-104) */
  const PatternToFileE: Table := [
    ("E-1", "2 SUMARIA CONSTRUCCIONES EN PROCESO.xlsx"),
    ("E-2", "3 INTEGRACION DE OBRAS.xlsx"),
    ("E-3", "4 SOLICITUD DE CONFIRMACION OBRAS TERMINADAS.docx"),
    ("E-4", "5 REVISION DE PRESUPUESTO DE OBRAS.xlsx"),
    ("E-5", "6 CEDULA REVISION GUATECOMPRAS.xlsx"),
    ("E-6", "7 PRUEBA FISICA DE OBRAS.docx"),
    ("E-7", "8 PRUEBA DE COSTOS.xlsx"),
    ("E-8", "9 CONFIRMACION DE REGISTROS.xlsx"),
    ("E-9", "10 PARTIDAS DE CIERRE.docx"),
    ("E-10", "11 PARTIDAS DE AJUSTES.docx"),
    ("E-11", "12 PARTIDAS DE RECLASIFICACION.docx"),
    ("E-12", "13 HALLAZGOS.docx"),
    ("E-13", "14 EVIDENCIAS DE HALLAZGOS.docx")
  ]

  /** `PATTERN_TO_FILE_F` (lines 107-121) */
  const PatternToFileF: Table := [
    ("F-1", "2 SUMARIA ACTIVOS FIJOS.xlsx"),
    ("F-2", "3 INTEGRACION.xlsx"),
    ("F-3", "4 Revisi\U{f3}n de t\U{ed}tulos de propiedad, facturas y documentos legales.xlsx"),
    ("F-4", "5 INSPECCION FISICA.xlsx"),
    ("F-5", "6 PRUEBA DE ADICIONES.xlsx"),
    ("F-6", "7 PRUEBA DE BAJAS.xlsx"),
    ("F-7", "8 PRUEBA DE TRASLADOS.xlsx"),
    ("F-8", "9 METODOS USADOS.xlsx"),
    ("F-9", "10 DEPRECIACION.xlsx"),
    ("F-10", "11 PARTIDAS DE AJUSTES.docx"),
    ("F-11", "12 PARTIDAS DE RECLASIFICACION.docx"),
    ("F-12", "13 HALLAZGOS DE AUDITORIA.docx"),
    ("F-13", "14 EVIDENCIAS DE HALLAZGOS.docx")
  ]

  /** `PATTERN_TO_FILE_G` (lines 124-135) */
  const PatternToFileG: Table := [
    ("G-1", "2 SUMARIA ACTIVO INTANGIBLE.xlsx"),
    ("G-2", "3 INTEGRACION.xlsx"),
    ("G-3", "4 REVISION DE CONTRATOS.xlsx"),
    ("G-4", "5 SOLICITUD DE CONFIRMACION.docx"),
    ("G-5", "6 CONFIRMACION DE SEGUROS.docx"),
    ("G-6", "7 REVISI\U{d3}N DE SEGUROS PAGADOS.xlsx"),
    ("G-7", "8 PARTIDAS DE AJUSTES.docx"),
    ("G-8", "9 PARTIDAS DE RECLASIFICACION.docx"),
    ("G-9", "10 HALLAZGOS DE AUDITORIA.docx"),
    ("G-10", "11 EVIDENCIAS DE HALLAZGOS.docx")
  ]

  /** `PATTERN_TO_FILE_H` (lines 138-158) */
  const PatternToFileH: Table := [
    ("H-1", "2 SUMARIA CUENTAS POR PAGAR.xlsx"),
    ("H-2", "3 INTEGRACION.xlsx"),
    ("H-3", "4 INTEGRACION DE PROVEEDORES.xlsx"),
    ("H-4", "5 PROVEEDORES SELECCIONADOS PARA CONFIRMACION.docx"),
    ("H-5", "6 OFICIOS CONFIRMACIONES A PROVEEDORES.docx"),
    ("H-6", "7 CONFIRMACIONES DE PROVEEDORES.docx"),
    ("H-7", "8 ESTADISTICA DE PROVEEDORES.docx"),
    ("H-8", "9 CIRCULARIZACION DE PASIVOS.docx"),
    ("H-9", "10 CONFIRMACION DE ABOGADOS.docx"),
    ("H-10", "11 RESPUESTA CONFIRMACION DE ABOGADOS.docx"),
    ("H-11", "12 REVISION DE FACTURAS Y DOCUMENTOS DE RESPALDO.xlsx"),
    ("H-12", "13 INSPECCION FISICA PROVEEDORES.xlsx"),
    ("H-13", "14 PRUEBA DE PASIVOS OCULTOS.xlsx"),
    ("H-14", "15 Prueba de Pagos Posteriores.xlsx"),
    ("H-15", "16 Prueba de C\U{e1}lculo de Prestaciones Laborales.xlsx"),
    ("H-16", "17 PARTIDAS DE AJUSTES.docx"),
    ("H-17", "18 PARTIDAS DE RECLASIFICACION.docx"),
    ("H-18", "19 HALLAZGOS DE AUDITORIA.docx"),
    ("H-19", "20 EVIDENCIAS DE HALLAZGOS.docx")
  ]

  /** `PATTERN_TO_FILE_I` (lines 161-170) */
  const PatternToFileI: Table := [
    ("I-1", "2 SUMARIA PASIVO LARGO PLAZO.xlsx"),
    ("I-2", "3 ANALISIS DE PRESTAMOS.xlsx"),
    ("I-3", "4 OFICIO SOLICITUD CONFIRMACION PRESTAMOS.docx"),
    ("I-4", "5 CONFIRMACION DE PRESTAMOS.docx"),
    ("I-5", "6 PARTIDAS DE AJUSTES.docx"),
    ("I-6", "7 PARTIDAS DE RECLASIFICACION.docx"),
    ("I-7", "8 HALLAZGOS DE AUDITORIA.docx"),
    ("I-8", "9 EVIDENCIAS DE HALLAZGOS.docx")
  ]

  /** `PATTERN_TO_FILE_J` (lines 173-182) */
  const PatternToFileJ: Table := [
    ("J-1", "2 SUMARIA PATRIMONIO.xlsx"),
    ("J-2", "3 INTEGRACI\U{d3}N DEL PATRIMONIO.xlsx"),
    ("J-3", "4 INTEGRACI\U{d3}N DE DIVIDENDOS.xlsx"),
    ("J-4", "5 Revisi\U{f3}n de documentaci\U{f3}n de transacciones.xlsx"),
    ("J-5", "6 PARTIDAS DE AJUSTES.docx"),
    ("J-6", "7 PARTIDAS DE RECLASIFICACION.docx"),
    ("J-7", "8 HALLAZGOS DE AUDITORIA.docx"),
    ("J-8", "9 EVIDENCIAS DE HALLAZGOS.docx")
  ]

  /** `PATTERN_TO_FILE_R` (lines 185-199) */
  const PatternToFileR: Table := [
    ("R-1", "2 SUMARIA ESTADO RESULTADOS.xlsx"),
    ("R-2", "3 An\U{e1}lisis de tendencias y comparaciones hist\U{f3}ricas de ingresos.xlsx"),
    ("R-3", "4 An\U{e1}lisis de tendencias y comparaciones hist\U{f3}ricas de egresos.xlsx"),
    ("R-4", "5 An\U{e1}lisis comparativo de registros Ingresos.xlsx"),
    ("R-5", "6 An\U{e1}lisis comparativo de registros egresos.xlsx"),
    ("R-6", "7 Prueba Global de N\U{f3}minas.xlsx"),
    ("R-7", "8 PRUEBA DE PLANILLA.xlsx"),
    ("R-8", "9 VERIFICACION DE DECLARACIONES DE IMPUESTOS.docx"),
    ("R-9", "10 Prueba Global Seguro Social.xlsx"),
    ("R-10", "11 PARTIDAS DE AJUSTES.docx"),
    ("R-11", "12 PARTIDAS DE RECLASIFICACION.docx"),
    ("R-12", "13 HALLAZGOS DE AUDITORIA.docx"),
    ("R-13", "14 EVIDENCIAS DE HALLAZGOS.docx")
  ]

  /** The per-letter tables, in the order the merge lists them. */
  const Blocks: seq<Block> := [
    Block('A', 1, PatternToFileA),
    Block('B', 1, PatternToFileB),
    Block('C', 1, PatternToFileC),
    Block('D', 1, PatternToFileD),
    Block('E', 1, PatternToFileE),
    Block('F', 1, PatternToFileF),
    Block('G', 1, PatternToFileG),
    Block('H', 1, PatternToFileH),
    Block('I', 1, PatternToFileI),
    Block('J', 1, PatternToFileJ),
    Block('R', 1, PatternToFileR)
  ]

  /** `PATTERN_TO_FILE = {**PATTERN_TO_FILE_A, ..., **PATTERN_TO_FILE_R}`
      (lines 202-215). */
  const PatternToFile: Table := PyDict.FromPairs(Concat(Blocks))

  lemma NumberedA() ensures Numbered(PatternToFileA, 'A', 1) { NumberedByChars(PatternToFileA, 'A', 1); }
  lemma NumberedB() ensures Numbered(PatternToFileB, 'B', 1) { NumberedByChars(PatternToFileB, 'B', 1); }
  lemma NumberedC() ensures Numbered(PatternToFileC, 'C', 1) { NumberedByChars(PatternToFileC, 'C', 1); }
  lemma NumberedD() ensures Numbered(PatternToFileD, 'D', 1) { NumberedByChars(PatternToFileD, 'D', 1); }
  lemma NumberedE() ensures Numbered(PatternToFileE, 'E', 1) { NumberedByChars(PatternToFileE, 'E', 1); }
  lemma NumberedF() ensures Numbered(PatternToFileF, 'F', 1) { NumberedByChars(PatternToFileF, 'F', 1); }
  lemma NumberedG() ensures Numbered(PatternToFileG, 'G', 1) { NumberedByChars(PatternToFileG, 'G', 1); }
  lemma NumberedH() ensures Numbered(PatternToFileH, 'H', 1) { NumberedByChars(PatternToFileH, 'H', 1); }
  lemma NumberedI() ensures Numbered(PatternToFileI, 'I', 1) { NumberedByChars(PatternToFileI, 'I', 1); }
  lemma NumberedJ() ensures Numbered(PatternToFileJ, 'J', 1) { NumberedByChars(PatternToFileJ, 'J', 1); }
  lemma NumberedR() ensures Numbered(PatternToFileR, 'R', 1) { NumberedByChars(PatternToFileR, 'R', 1); }

  /** Eleven tables numbered from 1, listed under distinct letters, are
      well numbered, whatever their entries. */
  lemma WellNumberedLetters(ta: Table, tb: Table, tc: Table, td: Table, te: Table, tf: Table,
                            tg: Table, th: Table, ti: Table, tj: Table, tr: Table)
    requires Numbered(ta, 'A', 1) && Numbered(tb, 'B', 1) && Numbered(tc, 'C', 1) && Numbered(td, 'D', 1)
    requires Numbered(te, 'E', 1) && Numbered(tf, 'F', 1) && Numbered(tg, 'G', 1) && Numbered(th, 'H', 1)
    requires Numbered(ti, 'I', 1) && Numbered(tj, 'J', 1) && Numbered(tr, 'R', 1)
    ensures WellNumbered([Block('A', 1, ta), Block('B', 1, tb), Block('C', 1, tc), Block('D', 1, td),
                          Block('E', 1, te), Block('F', 1, tf), Block('G', 1, tg), Block('H', 1, th),
                          Block('I', 1, ti), Block('J', 1, tj), Block('R', 1, tr)])
  {
  }

  /** The tables as written: each letter's patterns run from 1 with no gap,
      and no letter has two tables. */
  lemma BlocksWellNumbered()
    ensures WellNumbered(Blocks)
  {
    NumberedA(); NumberedB(); NumberedC(); NumberedD(); NumberedE(); NumberedF();
    NumberedG(); NumberedH(); NumberedI(); NumberedJ(); NumberedR();
    WellNumberedLetters(PatternToFileA, PatternToFileB, PatternToFileC, PatternToFileD, PatternToFileE,
                        PatternToFileF, PatternToFileG, PatternToFileH, PatternToFileI, PatternToFileJ,
                        PatternToFileR);
  }

  /** The table sizes: A 18, B 16, C 6, D 16, E 13, F 13, G 10, H 19, I 8, J 8, R 13. */
  lemma BlockSizes()
    ensures seq(|Blocks|, i requires 0 <= i < |Blocks| => (Blocks[i].letter, |Blocks[i].table|)) ==
      [('A', 18), ('B', 16), ('C', 6), ('D', 16), ('E', 13), ('F', 13), ('G', 10), ('H', 19), ('I', 8), ('J', 8), ('R', 13)]
  {
  }

  /** The per-letter tables have disjoint keys, so the merge loses no entry
      and keeps their order. */
  lemma MergeLosesNothing()
    ensures PatternToFile == Concat(Blocks)
    ensures PyDict.Valid(PatternToFile)
    ensures |PatternToFile| == 140
  {
    BlocksWellNumbered();
    MergeOfWellNumbered(Blocks);
    assert Blocks[10..][1..] == Blocks[11..];
    assert Size(Blocks[10..]) == 13;
    assert Blocks[9..][1..] == Blocks[10..];
    assert Size(Blocks[9..]) == 21;
    assert Blocks[8..][1..] == Blocks[9..];
    assert Size(Blocks[8..]) == 29;
    assert Blocks[7..][1..] == Blocks[8..];
    assert Size(Blocks[7..]) == 48;
    assert Blocks[6..][1..] == Blocks[7..];
    assert Size(Blocks[6..]) == 58;
    assert Blocks[5..][1..] == Blocks[6..];
    assert Size(Blocks[5..]) == 71;
    assert Blocks[4..][1..] == Blocks[5..];
    assert Size(Blocks[4..]) == 84;
    assert Blocks[3..][1..] == Blocks[4..];
    assert Size(Blocks[3..]) == 100;
    assert Blocks[2..][1..] == Blocks[3..];
    assert Size(Blocks[2..]) == 106;
    assert Blocks[1..][1..] == Blocks[2..];
    assert Size(Blocks[1..]) == 122;
    assert Blocks[0..][1..] == Blocks[1..];
    assert Size(Blocks[0..]) == 140;
    assert Blocks[0..] == Blocks;
  }

  /** The merged table holds "L-n" exactly for the letters of the tables and
      the numbers from 1 up to that table's size. */
  lemma PatternsOfLetter(l: char, n: nat)
    ensures PyDict.HasKey(PatternToFile, PatternName(l, n)) <==>
            exists i :: 0 <= i < |Blocks| && Blocks[i].letter == l && 1 <= n <= |Blocks[i].table|
  {
    MergeLosesNothing();
    BlocksWellNumbered();
    ConcatHasKey(Blocks, l, n);
  }

  /** Each table letter has a folder. */
  lemma LettersHaveFolders()
    ensures forall b :: 0 <= b < |Blocks| ==> Blocks[b].letter != '-' && PyDict.HasKey(PrefixToFolder, [Blocks[b].letter])
  {
    forall b | 0 <= b < |Blocks| ensures PyDict.HasKey(PrefixToFolder, [Blocks[b].letter]) {
      assert PrefixToFolder[b].0 == [Blocks[b].letter];
    }
  }

  /** The prefix of every pattern, `pattern.split('-')[0]`, has a folder. */
  lemma PrefixesHaveFolders()
    ensures forall i :: 0 <= i < |PatternToFile| ==> PyDict.HasKey(PrefixToFolder, Split(PatternToFile[i].0, '-')[0])
  {
    MergeLosesNothing();
    BlocksWellNumbered();
    LettersHaveFolders();
    forall i | 0 <= i < |PatternToFile| ensures PyDict.HasKey(PrefixToFolder, Split(PatternToFile[i].0, '-')[0]) {
      var b, n := ConcatKeyLetter(Blocks, i);
      PatternNameSplit(Blocks[b].letter, n);
    }
  }

  /** The table is not injective: B-4 and B-5 name the same file. */
  lemma NotInjective()
    ensures PyDict.Get(PatternToFile, "B-4") == PyDict.Get(PatternToFile, "B-5") == Some("5 CIRCULARIZACION DE CLIENTE.docx")
  {
    MergeLosesNothing();
    assert Blocks[1..][1..] == Blocks[2..];
    assert Concat(Blocks) == PatternToFileA + (PatternToFileB + Concat(Blocks[2..]));
    assert PatternToFile[21] == ("B-4", "5 CIRCULARIZACION DE CLIENTE.docx");
    assert PatternToFile[22] == ("B-5", "5 CIRCULARIZACION DE CLIENTE.docx");
    PyDict.GetValid(PatternToFile, 21);
    PyDict.GetValid(PatternToFile, 22);
  }
}
