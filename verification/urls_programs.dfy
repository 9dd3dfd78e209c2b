/** Turning a reference pattern such as "A-1" into the folder and file of
    a template, and a folder and file back into the pattern
    (auditoria/processors/shared/urls_programs.py). */
module UrlsPrograms {
  import opened Wrappers
  import opened Text
  import PyDict
  import opened PatternTables
  import AuditMappings

  /** `PREFIX_TO_FOLDER` (lines 14-26) */
  const PrefixToFolder: Table := [
    ("A", "5 PRUEBAS SUSTANTIVAS/1 CAJA Y BANCOS"),
    ("B", "5 PRUEBAS SUSTANTIVAS/2 CUENTAS POR COBRAR"),
    ("C", "5 PRUEBAS SUSTANTIVAS/3 INVERSIONES"),
    ("D", "5 PRUEBAS SUSTANTIVAS/4 INVENTARIOS"),
    ("E", "5 PRUEBAS SUSTANTIVAS/5 CONSTRUCCIONES EN PROCESO"),
    ("F", "5 PRUEBAS SUSTANTIVAS/6 AUDITORIA ACTIVOS FIJOS"),
    ("G", "5 PRUEBAS SUSTANTIVAS/7 AUDITORIA ACTIVO INTANGIBLE"),
    ("H", "5 PRUEBAS SUSTANTIVAS/8 AUDITORIA CUENTAS POR PAGAR"),
    ("I", "5 PRUEBAS SUSTANTIVAS/9 AUDITORIA PASIVO LARGO PLAZO"),
    ("J", "5 PRUEBAS SUSTANTIVAS/10 AUDITORIA PATRIMONIO"),
    ("R", "5 PRUEBAS SUSTANTIVAS/11 AUDITORIA DE ESTADO RESULTADOS")
  ]

  /** `PATTERN_TO_FILE_A` (lines 29-49) */
  const PatternToFileA: Table := [
    ("A-1", "2 SUMARIA CAJAS Y BANCOS.xlsx"),
    ("A-2", "3 CONCILIACIONES BANCARIAS.xlsx"),
    ("A-3", "4 CONFIRMACION BANCARIA.docx"),
    ("A-4", "4.1 CONTROL DE CONFIRMACIONES.xlsx"),
    ("A-5", "5 ARQUEO DE CAJA.xlsx"),
    ("A-6", "6 ARQUEOS CAJA CHICA.docx"),
    ("A-7", "7 CORTE DE CHEQUES.xlsx"),
    ("A-8", "8 INTEGRACION INGRESOS.xlsx"),
    ("A-9", "9 PRUEBA DE INGRESOS.xlsx"),
    ("A-10", "10 INTEGRACION EGRESOS.xlsx"),
    ("A-11", "11 PRUEBA DE EGRESOS.xlsx"),
    ("A-12", "12 PRUEBA DE TRANSFERENCIAS.xlsx"),
    ("A-13", "13 REVISION AJUSTES CONTABLES.xlsx"),
    ("A-14", "14 PRUEBAS CIERRE CONTABLE.xlsx"),
    ("A-15", "15 PARTIDAS DE AJUSTES.docx"),
    ("A-16", "16 PARTIDAS DE RECLASIFICACION.docx"),
    ("A-17", "17 HALLAZGOS.docx"),
    ("A-18", "18 EVIDENCIAS DE HALLAZGOS.docx")
  ]

  /** `PATTERN_TO_FILE_B` (lines 52-69) */
  const PatternToFileB: Table := [
    ("B-1", "2 SUMARIA CUENTAS POR COBRAR.xlsx"),
    ("B-2", "3 INTEGRACION DE CLIENTES.xlsx"),
    ("B-3", "4 INTEGRACION DE DEUDORES.xlsx"),
    ("B-4", "5 CIRCULARIZACION DE CLIENTE.docx"),
    ("B-5", "5 CIRCULARIZACION DE CLIENTE.docx"),
    ("B-6", "6 CIRCULARIZACION.docx"),
    ("B-7", "7 ESTADISTICA DE CIRCULARIZACION.docx"),
    ("B-8", "8 INSPECCIONAR.xlsx"),
    ("B-9", "9 ANALISIS DE ANTIG\U{dc}EDAD DE SALDOS.xlsx"),
    ("B-10", "10 PRUEBA DE COBROS POSTERIORES.xlsx"),
    ("B-11", "11 ANALISIS DE CUENTAS INCOBRABLES.xlsx"),
    ("B-12", "12 CORTE DE FORMAS.xlsx"),
    ("B-13", "13 PARTIDAS DE AJUSTES.docx"),
    ("B-14", "14 PARTIDAS DE RECLASIFICACION.docx"),
    ("B-15", "15 HALLAZGOS.docx"),
    ("B-16", "16 EVIDENCIAS DE HALLAZGOS.docx")
  ]

  /** `PATTERN_TO_FILE_C` (lines 72-79) */
  const PatternToFileC: Table := [
    ("C-1", "2 SUMARIA INVERSIONES.xlsx"),
    ("C-2", "3 PRUEBA FISICA INVERSIONES.xlsx"),
    ("C-3", "4 PARTIDAS DE AJUSTES.docx"),
    ("C-4", "5 PARTIDAS DE RECLASIFICACION.docx"),
    ("C-5", "6 HALLAZGOS.docx"),
    ("C-6", "7 EVIDENCIAS DE HALLAZGOS.docx")
  ]

  /** `PATTERN_TO_FILE_D` (lines 82-99) */
  const PatternToFileD: Table := [
    ("D-1", "2 SUMARIA INVENTARIOS.xlsx"),
    ("D-2", "3 INTEGRACION DE INVENTARIOS.xlsx"),
    ("D-3", "4 INVENTARIOS EN TRANSITO.xlsx"),
    ("D-4", "5 INTEGRACION INVENTARIOS OBSOLETOS.xlsx"),
    ("D-5", "6 ANALITICA DE INVENTARIOS.xlsx"),
    ("D-6", "7 MEMORANDUM TOMA FISICA DE INVENTARIO.docx"),
    ("D-7", "8 INVENTARIO FISICO.xlsx"),
    ("D-8", "9 VALUACION DE INVENTARIOS.xlsx"),
    ("D-9", "10 Comparar costos con precios de mercado.xlsx"),
    ("D-10", "11 CONFIRMACION DE INVENTARIOS.docx"),
    ("D-11", "12 CORTE DE FORMAS.xlsx"),
    ("D-12", "13 PRUEBAS DE CIERRE.docx"),
    ("D-13", "14 PARTIDAS DE AJUSTES.docx"),
    ("D-14", "15 PARTIDAS DE RECLASIFICACION.docx"),
    ("D-15", "16 HALLAZGOS.docx"),
    ("D-16", "17 EVIDENCIAS DE HALLAZGOS.docx")
  ]

  /** `PATTERN_TO_FILE_E` (lines 102-116) */
  const PatternToFileE: Table := [
    ("E-1", "2 SUMARIA CONSTRUCCIONES EN PROCESO.xlsx"),
    ("E-2", "3 INTEGRACION DE OBRAS.xlsx"),
    ("E-3", "4 SOLICITUD DE CONFIRMACION OBRAS TERMINADAS.docx"),
    ("E-4", "5 REVISION DE PRESUPUESTO DE OBRAS.xlsx"),
    ("E-5", "6 CEDULA REVISION GUATECOMPRAS.xlsx"),
    ("E-6", "7 PRUEBA FISICA DE OBRAS.docx"),
    ("E-7", "8 PRUEBA DE COSTOS.xlsx"),
    ("E-8", "9 CONFIRMACION DE REGISTROS.xlsx"),
    ("E-9", "10 PARTIDAS DE CIERRE.docx"),
    ("E-10", "11 PARTIDAS DE AJUSTES.docx"),
    ("E-11", "12 PARTIDAS DE RECLASIFICACION.docx"),
    ("E-12", "13 HALLAZGOS.docx"),
    ("E-13", "14 EVIDENCIAS DE HALLAZGOS.docx")
  ]

  /** `PATTERN_TO_FILE_F` (lines 119-133) */
  const PatternToFileF: Table := [
    ("F-1", "2 SUMARIA ACTIVOS FIJOS.xlsx"),
    ("F-2", "3 INTEGRACION.xlsx"),
    ("F-3", "4 Revisi\U{f3}n de t\U{ed}tulos de propiedad, facturas y documentos legales.xlsx"),
    ("F-4", "5 INSPECCION FISICA.xlsx"),
    ("F-5", "6 PRUEBA DE ADICIONES.xlsx"),
    ("F-6", "7 PRUEBA DE BAJAS.xlsx"),
    ("F-7", "8 PRUEBA DE TRASLADOS.xlsx"),
    ("F-8", "9 METODOS USADOS.xlsx"),
    ("F-9", "10 DEPRECIACION.xlsx"),
    ("F-10", "11 PARTIDAS DE AJUSTES.docx"),
    ("F-11", "12 PARTIDAS DE RECLASIFICACION.docx"),
    ("F-12", "13 HALLAZGOS DE AUDITORIA.docx"),
    ("F-13", "14 EVIDENCIAS DE HALLAZGOS.docx")
  ]

  /** `PATTERN_TO_FILE_G` (lines 136-147) */
  const PatternToFileG: Table := [
    ("G-1", "2 SUMARIA ACTIVO INTANGIBLE.xlsx"),
    ("G-2", "3 INTEGRACION.xlsx"),
    ("G-3", "4 REVISION DE CONTRATOS.xlsx"),
    ("G-4", "5 SOLICITUD DE CONFIRMACION.docx"),
    ("G-5", "6 CONFIRMACION DE SEGUROS.docx"),
    ("G-6", "7 REVISI\U{d3}N DE SEGUROS PAGADOS.xlsx"),
    ("G-7", "8 PARTIDAS DE AJUSTES.docx"),
    ("G-8", "9 PARTIDAS DE RECLASIFICACION.docx"),
    ("G-9", "10 HALLAZGOS DE AUDITORIA.docx"),
    ("G-10", "11 EVIDENCIAS DE HALLAZGOS.docx")
  ]

  /** `PATTERN_TO_FILE_H` (lines 150-170) */
  const PatternToFileH: Table := [
    ("H-1", "2 SUMARIA CUENTAS POR PAGAR.xlsx"),
    ("H-2", "3 INTEGRACION.xlsx"),
    ("H-3", "4 INTEGRACION DE PROVEEDORES.xlsx"),
    ("H-4", "5 PROVEEDORES SELECCIONADOS PARA CONFIRMACION.docx"),
    ("H-5", "6 OFICIOS CONFIRMACIONES A PROVEEDORES.docx"),
    ("H-6", "7 CONFIRMACIONES DE PROVEEDORES.docx"),
    ("H-7", "8 ESTADISTICA DE PROVEEDORES.docx"),
    ("H-8", "9 CIRCULARIZACION DE PASIVOS.docx"),
    ("H-9", "10 CONFIRMACION DE ABOGADOS.docx"),
    ("H-10", "11 RESPUESTA CONFIRMACION DE ABOGADOS.docx"),
    ("H-11", "12 REVISION DE FACTURAS Y DOCUMENTOS DE RESPALDO.xlsx"),
    ("H-12", "13 INSPECCION FISICA PROVEEDORES.xlsx"),
    ("H-13", "14 PRUEBA DE PASIVOS OCULTOS.xlsx"),
    ("H-14", "15 Prueba de Pagos Posteriores.xlsx"),
    ("H-15", "16 Prueba de C\U{e1}lculo de Prestaciones Laborales.xlsx"),
    ("H-16", "17 PARTIDAS DE AJUSTES.docx"),
    ("H-17", "18 PARTIDAS DE RECLASIFICACION.docx"),
    ("H-18", "19 HALLAZGOS DE AUDITORIA.docx"),
    ("H-19", "20 EVIDENCIAS DE HALLAZGOS.docx")
  ]

  /** `PATTERN_TO_FILE_I` (lines 173-182) */
  const PatternToFileI: Table := [
    ("I-1", "2 SUMARIA PASIVO LARGO PLAZO.xlsx"),
    ("I-2", "3 ANALISIS DE PRESTAMOS.xlsx"),
    ("I-3", "4 OFICIO SOLICITUD CONFIRMACION PRESTAMOS.docx"),
    ("I-4", "5 CONFIRMACION DE PRESTAMOS.xlsx"),
    ("I-5", "6 PARTIDAS DE AJUSTES.docx"),
    ("I-6", "7 PARTIDAS DE RECLASIFICACION.docx"),
    ("I-7", "8 HALLAZGOS DE AUDITORIA.docx"),
    ("I-8", "9 EVIDENCIAS DE HALLAZGOS.docx")
  ]

  /** `PATTERN_TO_FILE_J` (lines 185-194) */
  const PatternToFileJ: Table := [
    ("J-1", "2 SUMARIA PATRIMONIO.xlsx"),
    ("J-2", "3 INTEGRACI\U{d3}N DEL PATRIMONIO.xlsx"),
    ("J-3", "4 INTEGRACI\U{d3}N DE DIVIDENDOS.xlsx"),
    ("J-4", "5 Revisi\U{f3}n de documentaci\U{f3}n de transacciones.xlsx"),
    ("J-5", "6 PARTIDAS DE AJUSTES.docx"),
    ("J-6", "7 PARTIDAS DE RECLASIFICACION.docx"),
    ("J-7", "8 HALLAZGOS DE AUDITORIA.docx"),
    ("J-8", "9 EVIDENCIAS DE HALLAZGOS.docx")
  ]

  /** `PATTERN_TO_FILE_R` (lines 197-211) */
  const PatternToFileR: Table := [
    ("R-1", "2 SUMARIA ESTADO RESULTADOS.xlsx"),
    ("R-2", "3 An\U{e1}lisis de tendencias y comparaciones hist\U{f3}ricas de ingresos.xlsx"),
    ("R-3", "4 An\U{e1}lisis de tendencias y comparaciones hist\U{f3}ricas de egresos.xlsx"),
    ("R-4", "5 An\U{e1}lisis comparativo de registros Ingresos.xlsx"),
    ("R-5", "6 An\U{e1}lisis comparativo de registros egresos.xlsx"),
    ("R-6", "7 Prueba Global de N\U{f3}minas.xlsx"),
    ("R-7", "8 PRUEBA DE PLANILLA.xlsx"),
    ("R-8", "9 VERIFICACION DE DECLARACIONES DE IMPUESTOS.docx"),
    ("R-9", "10 Prueba Global Seguro Social.xlsx"),
    ("R-10", "11 PARTIDAS DE AJUSTES.docx"),
    ("R-11", "12 PARTIDAS DE RECLASIFICACION.docx"),
    ("R-12", "13 HALLAZGOS DE AUDITORIA.docx"),
    ("R-13", "14 EVIDENCIAS DE HALLAZGOS.docx")
  ]

  /** The financial per-letter tables, in the order the merge lists them. */
  const Blocks: seq<Block> := [
    Block('A', 1, PatternToFileA),
    Block('B', 1, PatternToFileB),
    Block('C', 1, PatternToFileC),
    Block('D', 1, PatternToFileD),
    Block('E', 1, PatternToFileE),
    Block('F', 1, PatternToFileF),
    Block('G', 1, PatternToFileG),
    Block('H', 1, PatternToFileH),
    Block('I', 1, PatternToFileI),
    Block('J', 1, PatternToFileJ),
    Block('R', 1, PatternToFileR)
  ]

  /** `PATTERN_TO_FILE` (lines 214-227) */
  const PatternToFile: Table := PyDict.FromPairs(Concat(Blocks))

  /** `INTERNAL_PREFIX_TO_FOLDER` (lines 230-243) */
  const InternalPrefixToFolder: Table := [
    ("B", "6 AUDITORIA DE PROCESOS/1 Operativo/1 Gesti\U{f3}n de inventarios y almacenes/5 PRUEBAS DE AUDITORIA"),
    ("D", "6 AUDITORIA DE PROCESOS/2 Comercial/5 PRUEBAS"),
    ("E", "6 AUDITORIA DE PROCESOS/3 Financiero/1 AUDITORIA PROCESOS TESORERIA/5 PRUEBAS SUSTANTIVAS Y FRAUDE"),
    ("F", "6 AUDITORIA DE PROCESOS/3 Financiero/2 AUDITORIA PROCESOS CONTABILIDAD/5 PRUEBAS"),
    ("H", "6 AUDITORIA DE PROCESOS/3 Financiero/3 AUDITORIA PROCESOS COMPRAS/5 PRUEBAS"),
    ("K", "6 AUDITORIA DE PROCESOS/4 Recursos Humanos/5 PRUEBAS"),
    ("L", "6 AUDITORIA DE PROCESOS/5 Tecnologia/5 PRUEBAS"),
    ("M", "6 AUDITORIA DE PROCESOS/6 Legal/5 PRUEBAS"),
    ("N", "6 AUDITORIA DE PROCESOS/7 Servicios P\U{fa}blicos/5 PRUEBAS"),
    ("O", "6 AUDITORIA DE PROCESOS/8 Obras P\U{fa}blicas/5 PRUEBAS"),
    ("P", "6 AUDITORIA DE PROCESOS/9 Gesti\U{f3}n de Ahorro/5 PRUEBAS"),
    ("Q", "6 AUDITORIA DE PROCESOS/10 Gesti\U{f3}n de Cr\U{e9}ditos/5 PRUEBAS")
  ]

  /** `INTERNAL_PATTERN_TO_FILE_B` (lines 246-252) */
  const InternalPatternToFileB: Table := [
    ("B-6", "1 Inspecci\U{f3}n F\U{ed}sica.docx"),
    ("B-7", "2 Conciliacion Saldos.docx"),
    ("B-8", "3 An\U{e1}lisis de transacciones.docx"),
    ("B-9", "4 Revisi\U{f3}n de documentaci\U{f3}n.docx"),
    ("B-10", "5 Identificaci\U{f3}n de riesgos.docx")
  ]

  /** `INTERNAL_PATTERN_TO_FILE_D` (lines 255-261) */
  const InternalPatternToFileD: Table := [
    ("D-5", "1 Pruebas de Ventas.docx"),
    ("D-6", "2 Analizar Transaciones.docx"),
    ("D-7", "3 Revisar segregaci\U{f3}n de funciones.docx"),
    ("D-8", "4 Conciliar peri\U{f3}dicamente cifras.docx"),
    ("D-9", "5 Evaluar Politicas.docx")
  ]

  /** `INTERNAL_PATTERN_TO_FILE_E` (lines 264-271) */
  const InternalPatternToFileE: Table := [
    ("E-5", "1 Revisar pol\U{ed}ticas y procedimientos.docx"),
    ("E-6", "2 Examinar el cumplimiento.docx"),
    ("E-7", "3 Revisar conciliaciones bancarias.docx"),
    ("E-8", "4 Pruebas pagos duplicados.docx"),
    ("E-9", "5 Identificar se\U{f1}ales de fraude.docx"),
    ("E-10", "6 Revisar reportes flujo de caja.docx")
  ]

  /** `INTERNAL_PATTERN_TO_FILE_F` (lines 274-281) */
  const InternalPatternToFileF: Table := [
    ("F-5", "1 Revisi\U{f3}n Conciliaciones Bancarias.docx"),
    ("F-6", "2 Pruebas de Integridad.docx"),
    ("F-7", "3 Pruebas de Validaci\U{f3}n.docx"),
    ("F-8", "4 Pruebas de An\U{e1}lisis.docx"),
    ("F-9", "5 Pruebas de Confirmaciones externas.docx"),
    ("F-10", "6 Pruebas Revisi\U{f3}n de Accesos.docx")
  ]

  /** `INTERNAL_PATTERN_TO_FILE_H` (lines 284-291) */
  const InternalPatternToFileH: Table := [
    ("H-5", "1 Pruebas  Verificar integridad.docx"),
    ("H-6", "2 Pruebas de Control.docx"),
    ("H-7", "3 Comprobar segregaci\U{f3}n de funciones.docx"),
    ("H-8", "4 Revisar cumplimiento de pol\U{ed}ticas.docx"),
    ("H-9", "5 Conciliar las facturas.docx"),
    ("H-10", "6 Verificaci\U{f3}n F\U{ed}sica de Empresas.docx")
  ]

  /** `INTERNAL_PATTERN_TO_FILE_K` (lines 294-302) */
  const InternalPatternToFileK: Table := [
    ("K-5", "1 Pruebas de Validaci\U{f3}n N\U{f3}mina.docx"),
    ("K-6", "2 Revisi\U{f3}n Beneficios y Deducciones.docx"),
    ("K-7", "3 Verificaci\U{f3}n de Personal Fantasma.docx"),
    ("K-8", "4 Revisi\U{f3}n de Contratos Laborales.docx"),
    ("K-9", "5 Prueba de Vacaciones y Licencias.docx"),
    ("K-10", "6 Revisi\U{f3}n  Procesos de Reclutamiento.docx"),
    ("K-11", "7 Pruebas de Detecci\U{f3}n Pagos Duplicados.docx")
  ]

  /** `INTERNAL_PATTERN_TO_FILE_L` (lines 305-311) */
  const InternalPatternToFileL: Table := [
    ("L-5", "1 Pruebas Evaluaci\U{f3}n Control de Accesos.docx"),
    ("L-6", "2 Pruebas Revisi\U{f3}n Incidentes de Seguridad.docx"),
    ("L-7", "3 Pruebas Validaci\U{f3}n de Actualizaciones Sistemas.docx"),
    ("L-8", "4 Pruebas Mantenimiento de Infraestructura.docx"),
    ("L-9", "5 Pruebas Detecci\U{f3}n de Accesos Indebidos.docx")
  ]

  /** `INTERNAL_PATTERN_TO_FILE_M` (lines 314-320) */
  const InternalPatternToFileM: Table := [
    ("M-5", "1 Pruebas Revisi\U{f3}n Solicitudes de Contrato.docx"),
    ("M-6", "2 Pruebas Evaluaci\U{f3}n de Contratos Formalizados.docx"),
    ("M-7", "3 Pruebas Gesti\U{f3}n de Litigios.docx"),
    ("M-8", "4 Pruebas de Cumplimiento Normativo.docx"),
    ("M-9", "5 Pruebas Gesti\U{f3}n de Expedientes Legales.docx")
  ]

  /** `INTERNAL_PATTERN_TO_FILE_N` (lines 323-329) */
  const InternalPatternToFileN: Table := [
    ("N-5", "1 Validar solicitudes.docx"),
    ("N-6", "2 Verificar calidad y cumplimiento.docx"),
    ("N-7", "3 Revisar sistema de reclamos y sugerencias.docx"),
    ("N-8", "4 Verificar alineaci\U{f3}n de  operaciones.docx"),
    ("N-9", "5 Revisi\U{f3}n registros de mantenimiento.docx")
  ]

  /** `INTERNAL_PATTERN_TO_FILE_O` (lines 332-339) */
  const InternalPatternToFileO: Table := [
    ("O-5", "1 Verificar expedientes.docx"),
    ("O-6", "2 Revisar licitaciones p\U{fa}blicas.docx"),
    ("O-7", "3 Analizar avances financieros y f\U{ed}sicos.docx"),
    ("O-8", "4 Inspeccionar calidad de materiales.docx"),
    ("O-9", "5 Revisar pagos.docx"),
    ("O-10", "6 Inspecci\U{f3}n f\U{ed}sica al proveedor.docx")
  ]

  /** `INTERNAL_PATTERN_TO_FILE_P` (lines 342-348) */
  const InternalPatternToFileP: Table := [
    ("P-5", "1 Revisi\U{f3}n de solicitudes.docx"),
    ("P-6", "2 Verificaci\U{f3}n autorizaciones.docx"),
    ("P-7", "3 Pruebas Evaluaci\U{f3}n de permisos.docx"),
    ("P-8", "4 Pruebas cuentas de ahorro inactivas.docx"),
    ("P-9", "5 Pruebas de Pagos.docx")
  ]

  /** `INTERNAL_PATTERN_TO_FILE_Q` (lines 351-359) */
  const InternalPatternToFileQ: Table := [
    ("Q-5", "1 Verificaci\U{f3}n Solicitudes de Cr\U{e9}dito.docx"),
    ("Q-6", "2 Evaluaci\U{f3}n Crediticia.docx"),
    ("Q-7", "3 Evaluaci\U{f3}n Aprobaci\U{f3}n de Cr\U{e9}ditos.docx"),
    ("Q-8", "4 Inspecci\U{f3}n de Cartera.docx"),
    ("Q-9", "5 Revisi\U{f3}n de Cr\U{e9}ditos en Mora.docx"),
    ("Q-10", "6 An\U{e1}lisis Registros Contables.docx"),
    ("Q-11", "7 Detecci\U{f3}n de Indicios de Fraude.docx")
  ]

  /** `INTERNAL_PREFIX_TO_PROGRAM` (lines 362-375) */
  const InternalPrefixToProgram: Table := [
    ("B", "4 Programa de Auditor\U{ed}a.docx"),
    ("D", "4 Programa de Auditor\U{ed}a.docx"),
    ("E", "4 Programa de Auditor\U{ed}a.docx"),
    ("F", "4 Programa de Auditor\U{ed}a.docx"),
    ("H", "4 Programa de Auditor\U{ed}a.docx"),
    ("K", "4 Programa de Auditor\U{ed}a.docx"),
    ("L", "4 Programa de Auditor\U{ed}a.docx"),
    ("M", "4 Programa de Auditor\U{ed}a.docx"),
    ("N", "4 Programa de Auditor\U{ed}a.docx"),
    ("O", "4 Programa de Auditor\U{ed}a.docx"),
    ("P", "4 Programa de Auditor\U{ed}a.docx"),
    ("Q", "4 Programa de Auditor\U{ed}a.docx")
  ]

  /** The internal per-letter tables, in the order the merge lists them. */
  const InternalBlocks: seq<Block> := [
    Block('B', 6, InternalPatternToFileB),
    Block('D', 5, InternalPatternToFileD),
    Block('E', 5, InternalPatternToFileE),
    Block('F', 5, InternalPatternToFileF),
    Block('H', 5, InternalPatternToFileH),
    Block('K', 5, InternalPatternToFileK),
    Block('L', 5, InternalPatternToFileL),
    Block('M', 5, InternalPatternToFileM),
    Block('N', 5, InternalPatternToFileN),
    Block('O', 5, InternalPatternToFileO),
    Block('P', 5, InternalPatternToFileP),
    Block('Q', 5, InternalPatternToFileQ)
  ]

  /** `INTERNAL_PATTERN_TO_FILE` (lines 378-391) */
  const InternalPatternToFile: Table := PyDict.FromPairs(Concat(InternalBlocks))

  /** `SPECIAL_PATTERNS` (lines 394-406) */
  const SpecialPatterns: Table := [
    ("A-programa", "1 PROGRAMA.docx"),
    ("B-programa", "1 PROGRAMA DE AUDITORIA CUENTAS POR COBRAR.docx"),
    ("C-programa", "1 PROGRAMA DE AUDITORIA INVERSIONES.docx"),
    ("D-programa", "1 PROGRAMA DE AUDITORIA INVENTARIOS.docx"),
    ("E-programa", "1 PROGRAMA DE AUDITORIA CONSTRUCCIONES EN PROCESO.docx"),
    ("F-programa", "1 PROGRAMA DE AUDITORIA ACTIVOS FIJOS.docx"),
    ("G-programa", "1 PROGRAMA DE ACTIVO INTANGIBLE.docx"),
    ("H-programa", "1 PROGRAMA DE AUDITORIA CUENTAS POR PAGAR.docx"),
    ("I-programa", "1 PROGRAMA DE AUDITORIA PRESTAMOS POR PAGAR.docx"),
    ("J-programa", "1 PROGRAMA DE AUDITORIA PATRIMONIO.docx"),
    ("R-programa", "1 PROGRAMA DE AUDITORIA ESTADO RESULTADOS.docx")
  ]

  /** `PREFIX_TO_PROGRAM` (lines 409-421) */
  const PrefixToProgram: Table := [
    ("A", "1 PROGRAMA.docx"),
    ("B", "1 PROGRAMA DE AUDITORIA CUENTAS POR COBRAR.docx"),
    ("C", "1 PROGRAMA DE AUDITORIA INVERSIONES.docx"),
    ("D", "1 PROGRAMA DE AUDITORIA INVENTARIOS.docx"),
    ("E", "1 PROGRAMA DE AUDITORIA CONSTRUCCIONES EN PROCESO.docx"),
    ("F", "1 PROGRAMA DE AUDITORIA ACTIVOS FIJOS.docx"),
    ("G", "1 PROGRAMA DE ACTIVO INTANGIBLE.docx"),
    ("H", "1 PROGRAMA DE AUDITORIA CUENTAS POR PAGAR.docx"),
    ("I", "1 PROGRAMA DE AUDITORIA PRESTAMOS POR PAGAR.docx"),
    ("J", "1 PROGRAMA DE AUDITORIA PATRIMONIO.docx"),
    ("R", "1 PROGRAMA DE AUDITORIA ESTADO RESULTADOS.docx")
  ]

  lemma NumberedA() ensures Numbered(PatternToFileA, 'A', 1) { NumberedByChars(PatternToFileA, 'A', 1); }
  lemma NumberedB() ensures Numbered(PatternToFileB, 'B', 1) { NumberedByChars(PatternToFileB, 'B', 1); }
  lemma NumberedC() ensures Numbered(PatternToFileC, 'C', 1) { NumberedByChars(PatternToFileC, 'C', 1); }
  lemma NumberedD() ensures Numbered(PatternToFileD, 'D', 1) { NumberedByChars(PatternToFileD, 'D', 1); }
  lemma NumberedE() ensures Numbered(PatternToFileE, 'E', 1) { NumberedByChars(PatternToFileE, 'E', 1); }
  lemma NumberedF() ensures Numbered(PatternToFileF, 'F', 1) { NumberedByChars(PatternToFileF, 'F', 1); }
  lemma NumberedG() ensures Numbered(PatternToFileG, 'G', 1) { NumberedByChars(PatternToFileG, 'G', 1); }
  lemma NumberedH() ensures Numbered(PatternToFileH, 'H', 1) { NumberedByChars(PatternToFileH, 'H', 1); }
  lemma NumberedI() ensures Numbered(PatternToFileI, 'I', 1) { NumberedByChars(PatternToFileI, 'I', 1); }
  lemma NumberedJ() ensures Numbered(PatternToFileJ, 'J', 1) { NumberedByChars(PatternToFileJ, 'J', 1); }
  lemma NumberedR() ensures Numbered(PatternToFileR, 'R', 1) { NumberedByChars(PatternToFileR, 'R', 1); }
  lemma InternalNumberedB() ensures Numbered(InternalPatternToFileB, 'B', 6) { NumberedByChars(InternalPatternToFileB, 'B', 6); }
  lemma InternalNumberedD() ensures Numbered(InternalPatternToFileD, 'D', 5) { NumberedByChars(InternalPatternToFileD, 'D', 5); }
  lemma InternalNumberedE() ensures Numbered(InternalPatternToFileE, 'E', 5) { NumberedByChars(InternalPatternToFileE, 'E', 5); }
  lemma InternalNumberedF() ensures Numbered(InternalPatternToFileF, 'F', 5) { NumberedByChars(InternalPatternToFileF, 'F', 5); }
  lemma InternalNumberedH() ensures Numbered(InternalPatternToFileH, 'H', 5) { NumberedByChars(InternalPatternToFileH, 'H', 5); }
  lemma InternalNumberedK() ensures Numbered(InternalPatternToFileK, 'K', 5) { NumberedByChars(InternalPatternToFileK, 'K', 5); }
  lemma InternalNumberedL() ensures Numbered(InternalPatternToFileL, 'L', 5) { NumberedByChars(InternalPatternToFileL, 'L', 5); }
  lemma InternalNumberedM() ensures Numbered(InternalPatternToFileM, 'M', 5) { NumberedByChars(InternalPatternToFileM, 'M', 5); }
  lemma InternalNumberedN() ensures Numbered(InternalPatternToFileN, 'N', 5) { NumberedByChars(InternalPatternToFileN, 'N', 5); }
  lemma InternalNumberedO() ensures Numbered(InternalPatternToFileO, 'O', 5) { NumberedByChars(InternalPatternToFileO, 'O', 5); }
  lemma InternalNumberedP() ensures Numbered(InternalPatternToFileP, 'P', 5) { NumberedByChars(InternalPatternToFileP, 'P', 5); }
  lemma InternalNumberedQ() ensures Numbered(InternalPatternToFileQ, 'Q', 5) { NumberedByChars(InternalPatternToFileQ, 'Q', 5); }

  lemma BlocksWellNumbered()
    ensures WellNumbered(Blocks)
  {
    NumberedA(); NumberedB(); NumberedC(); NumberedD(); NumberedE(); NumberedF();
    NumberedG(); NumberedH(); NumberedI(); NumberedJ(); NumberedR();
    AuditMappings.WellNumberedLetters(PatternToFileA, PatternToFileB, PatternToFileC, PatternToFileD,
                                      PatternToFileE, PatternToFileF, PatternToFileG, PatternToFileH,
                                      PatternToFileI, PatternToFileJ, PatternToFileR);
  }

  /** Twelve tables numbered from the internal tables' first numbers,
      listed under distinct letters, are well numbered, whatever their
      entries. */
  lemma InternalWellNumberedLetters(tb: Table, td: Table, te: Table, tf: Table, th: Table, tk: Table,
                                    tl: Table, tm: Table, tn: Table, to: Table, tp: Table, tq: Table)
    requires Numbered(tb, 'B', 6) && Numbered(td, 'D', 5) && Numbered(te, 'E', 5) && Numbered(tf, 'F', 5)
    requires Numbered(th, 'H', 5) && Numbered(tk, 'K', 5) && Numbered(tl, 'L', 5) && Numbered(tm, 'M', 5)
    requires Numbered(tn, 'N', 5) && Numbered(to, 'O', 5) && Numbered(tp, 'P', 5) && Numbered(tq, 'Q', 5)
    ensures WellNumbered([Block('B', 6, tb), Block('D', 5, td), Block('E', 5, te), Block('F', 5, tf),
                          Block('H', 5, th), Block('K', 5, tk), Block('L', 5, tl), Block('M', 5, tm),
                          Block('N', 5, tn), Block('O', 5, to), Block('P', 5, tp), Block('Q', 5, tq)])
  {
  }

  lemma InternalBlocksWellNumbered()
    ensures WellNumbered(InternalBlocks)
  {
    InternalNumberedB(); InternalNumberedD(); InternalNumberedE(); InternalNumberedF();
    InternalNumberedH(); InternalNumberedK(); InternalNumberedL(); InternalNumberedM();
    InternalNumberedN(); InternalNumberedO(); InternalNumberedP(); InternalNumberedQ();
    InternalWellNumberedLetters(InternalPatternToFileB, InternalPatternToFileD, InternalPatternToFileE,
                                InternalPatternToFileF, InternalPatternToFileH, InternalPatternToFileK,
                                InternalPatternToFileL, InternalPatternToFileM, InternalPatternToFileN,
                                InternalPatternToFileO, InternalPatternToFileP, InternalPatternToFileQ);
  }

  // ----------------------------------------------- the tables per audit type

  /** The tables of an internal (process) audit or of a financial audit. */
  function FolderTable(isInternal: bool): Table {
    if isInternal then InternalPrefixToFolder else PrefixToFolder
  }

  function PatternTable(isInternal: bool): Table {
    if isInternal then InternalPatternToFile else PatternToFile
  }

  function ProgramTable(isInternal: bool): Table {
    if isInternal then InternalPrefixToProgram else PrefixToProgram
  }

  function BaseFolder(isInternal: bool): string {
    if isInternal then "templates_base_interna" else "templates_base_financiera"
  }

  /** `pattern.split('-')[0]` */
  function Prefix(pattern: string): string {
    Split(pattern, '-')[0]
  }

  /** The string the fallback test `prefix in 'ABCDEFGHIJR'` searches: a
      substring test, which for a one-letter prefix is membership. */
  const ProgramLetters: string := "ABCDEFGHIJR"

  // ------------------------------------------------ get_file_info_from_pattern

  /** The folder and file a pattern stands for, before the file system is
      consulted: an invalid pattern or an unknown prefix gives nothing, a
      special pattern is looked up first, then the pattern table, and an
      unlisted pattern falls back to the prefix's program file when its
      second field is "programa" or its prefix is a financial letter. */
  function Resolve(pattern: string, isInternal: bool): (r: Option<(string, string)>)
    ensures pattern == [] || '-' !in pattern ==> r.None?
    ensures !PyDict.HasKey(FolderTable(isInternal), Prefix(pattern)) ==> r.None?
    ensures r.Some? ==> PyDict.Get(FolderTable(isInternal), Prefix(pattern)) == Some(r.value.0)
  {
    ResolveIn(pattern, FolderTable(isInternal), PatternTable(isInternal), ProgramTable(isInternal))
  }

  /** The lookup itself, over the three tables of the audit type. */
  function ResolveIn(pattern: string, folders: Table, patterns: Table, programs: Table): (r: Option<(string, string)>)
    ensures pattern == [] || '-' !in pattern ==> r.None?
    ensures !PyDict.HasKey(folders, Prefix(pattern)) ==> r.None?
    ensures r.Some? ==> PyDict.Get(folders, Prefix(pattern)) == Some(r.value.0)
  {
    if pattern == [] || '-' !in pattern then None
    else
      var prefix := Prefix(pattern);
      match PyDict.Get(folders, prefix)
      case None => None
      case Some(folder) =>
        if folder == [] then None
        else
          var found := match PyDict.Get(SpecialPatterns, pattern)
                       case Some(f) => Some(f)
                       case None => PyDict.Get(patterns, pattern);
          if found.Some? && found.value != [] then Some((folder, found.value))
          else
            SplitHasSep(pattern, '-');
            if Lower(Split(pattern, '-')[1]) == "programa" ||
               (Contains(ProgramLetters, prefix) && !PyDict.HasKey(patterns, pattern))
            then
              match PyDict.Get(programs, prefix)
              case Some(program) => Some((folder, program))
              case None => None
            else None
  }

  /** What `get_file_info_from_pattern` returns. */
  datatype FileInfo = FileInfo(folder: string, filename: string, fullPath: string)

  /** `os.path.join(settings.BASE_DIR, 'static', <templates folder>, folder, filename)` */
  function TemplatePath(baseDir: string, isInternal: bool, folder: string, filename: string): string {
    Join([baseDir, "static", BaseFolder(isInternal), folder, filename], "/")
  }

  /** `get_file_info_from_pattern(pattern, is_internal)`. The file system
      enters as `pathExists` (`os.path.exists`) and `templatePath` (the fuzzy
      `get_template_path` search), and `settings.BASE_DIR` as `baseDir`. */
  function GetFileInfoFromPattern(pattern: string, isInternal: bool, baseDir: string,
                                  pathExists: string -> bool,
                                  templatePath: (string, string, bool) -> Option<string>): (r: Option<FileInfo>)
    ensures Resolve(pattern, isInternal).None? ==> r.None?
    ensures r.Some? ==> Resolve(pattern, isInternal) == Some((r.value.folder, r.value.filename))
    ensures r.Some? ==>
      var path := TemplatePath(baseDir, isInternal, r.value.folder, r.value.filename);
      (pathExists(path) && r.value.fullPath == path) ||
      (!pathExists(path) && templatePath(r.value.folder, r.value.filename, isInternal) == Some(r.value.fullPath) && r.value.fullPath != [])
    ensures match Resolve(pattern, isInternal)
            case Some((folder, filename)) => pathExists(TemplatePath(baseDir, isInternal, folder, filename)) ==> r.Some?
            case None => true
  {
    match Resolve(pattern, isInternal)
    case None => None
    case Some((folder, filename)) =>
      var path := TemplatePath(baseDir, isInternal, folder, filename);
      if pathExists(path) then Some(FileInfo(folder, filename, path))
      else
        match templatePath(folder, filename, isInternal)
        case Some(t) => if t != [] then Some(FileInfo(folder, filename, t)) else None
        case None => None
  }

  // ---------------------------------------------------- data facts used below

  lemma FolderValuesNonEmpty(isInternal: bool)
    ensures forall i :: 0 <= i < |FolderTable(isInternal)| ==> FolderTable(isInternal)[i].1 != []
  {
  }

  lemma SpecialValuesNonEmpty()
    ensures forall i :: 0 <= i < |SpecialPatterns| ==> SpecialPatterns[i].1 != []
  {
  }

  /** Every prefix with a folder has a program file. */
  lemma ProgramsCoverFolders(isInternal: bool)
    ensures forall i :: 0 <= i < |FolderTable(isInternal)| ==> PyDict.HasKey(ProgramTable(isInternal), FolderTable(isInternal)[i].0)
  {
    var f, g := FolderTable(isInternal), ProgramTable(isInternal);
    forall i | 0 <= i < |f| ensures PyDict.HasKey(g, f[i].0) {
      assert g[i].0 == f[i].0;
    }
  }

  lemma SpecialKeysHaveDash()
    ensures forall i :: 0 <= i < |SpecialPatterns| ==> '-' in SpecialPatterns[i].0
  {
  }

  /** The folder of a known prefix is not empty. */
  lemma FolderOf(isInternal: bool, prefix: string) returns (folder: string)
    requires PyDict.HasKey(FolderTable(isInternal), prefix)
    ensures PyDict.Get(FolderTable(isInternal), prefix) == Some(folder) && folder != []
  {
    folder := PyDict.Get(FolderTable(isInternal), prefix).value;
    FolderValuesNonEmpty(isInternal);
  }

  /** The file of a special pattern is not empty, and the pattern holds a '-'. */
  lemma SpecialOf(pattern: string) returns (file: string)
    requires PyDict.HasKey(SpecialPatterns, pattern)
    ensures PyDict.Get(SpecialPatterns, pattern) == Some(file) && file != [] && '-' in pattern
  {
    file := PyDict.Get(SpecialPatterns, pattern).value;
    SpecialValuesNonEmpty();
    SpecialKeysHaveDash();
    var i :| 0 <= i < |SpecialPatterns| && SpecialPatterns[i].0 == pattern;
  }

  // ------------------------------------------------------------ the lookup

  /** A special pattern ("A-programa", ...) is resolved before the pattern
      table, for either audit type, as long as its prefix has a folder. */
  lemma SpecialFirst(pattern: string, isInternal: bool)
    requires PyDict.HasKey(SpecialPatterns, pattern)
    requires PyDict.HasKey(FolderTable(isInternal), Prefix(pattern))
    ensures Resolve(pattern, isInternal) ==
            Some((PyDict.Get(FolderTable(isInternal), Prefix(pattern)).value, PyDict.Get(SpecialPatterns, pattern).value))
  {
    var folder := FolderOf(isInternal, Prefix(pattern));
    var file := SpecialOf(pattern);
    SpecialStep(pattern, FolderTable(isInternal), PatternTable(isInternal), ProgramTable(isInternal), folder, file);
  }

  lemma SpecialStep(pattern: string, folders: Table, patterns: Table, programs: Table, folder: string, file: string)
    requires '-' in pattern
    requires PyDict.Get(folders, Prefix(pattern)) == Some(folder) && folder != []
    requires PyDict.Get(SpecialPatterns, pattern) == Some(file) && file != []
    ensures ResolveIn(pattern, folders, patterns, programs) == Some((folder, file))
  {
  }

  /** Both merged pattern tables lose nothing: their per-letter tables have
      disjoint keys. */
  lemma MergesLoseNothing()
    ensures PatternToFile == Concat(Blocks) && PyDict.Valid(PatternToFile)
    ensures InternalPatternToFile == Concat(InternalBlocks) && PyDict.Valid(InternalPatternToFile)
  {
    BlocksWellNumbered();
    InternalBlocksWellNumbered();
    MergeOfWellNumbered(Blocks);
    MergeOfWellNumbered(InternalBlocks);
  }

  /** The blocks of an audit type's pattern table. */
  function BlocksOf(isInternal: bool): seq<Block> {
    if isInternal then InternalBlocks else Blocks
  }

  predicate FilesNonEmpty(blocks: seq<Block>) {
    forall b, i :: 0 <= b < |blocks| && 0 <= i < |blocks[b].table| ==> blocks[b].table[i].1 != []
  }

  lemma BlocksFilesNonEmpty()
    ensures FilesNonEmpty(Blocks) && FilesNonEmpty(InternalBlocks)
  {
    FinancialFilesNonEmpty();
    InternalFilesNonEmpty();
  }

  lemma FinancialFilesNonEmpty() ensures FilesNonEmpty(Blocks) { }
  lemma InternalFilesNonEmpty() ensures FilesNonEmpty(InternalBlocks) { }

  /** Every pattern of a table is "L-n", so it holds a '-', and names a
      non-empty file. */
  lemma PatternEntry(isInternal: bool, pattern: string) returns (file: string)
    requires PyDict.HasKey(PatternTable(isInternal), pattern)
    ensures PyDict.Get(PatternTable(isInternal), pattern) == Some(file) && file != [] && '-' in pattern
  {
    MergesLoseNothing();
    BlocksWellNumbered();
    InternalBlocksWellNumbered();
    BlocksFilesNonEmpty();
    var blocks := BlocksOf(isInternal);
    var t := PatternTable(isInternal);
    assert t == Concat(blocks);
    var i :| 0 <= i < |t| && t[i].0 == pattern;
    var b, n := ConcatKeyLetter(blocks, i);
    assert pattern[1] == '-';
    var j := ConcatEntryFile(blocks, i);
    PyDict.GetValid(t, i);
    file := t[i].1;
  }

  /** Every merged entry comes from one of the blocks. */
  lemma {:induction false} ConcatEntryFile(blocks: seq<Block>, i: nat) returns (b: nat)
    requires i < |Concat(blocks)|
    ensures b < |blocks| && Concat(blocks)[i] in blocks[b].table
  {
    if i < |blocks[0].table| {
      b := 0;
      assert Concat(blocks)[i] == blocks[0].table[i];
    } else {
      var b' := ConcatEntryFile(blocks[1..], i - |blocks[0].table|);
      b := b' + 1;
    }
  }

  /** A listed pattern that is not special resolves to its table file. */
  lemma TableHit(pattern: string, isInternal: bool)
    requires !PyDict.HasKey(SpecialPatterns, pattern)
    requires PyDict.HasKey(PatternTable(isInternal), pattern)
    requires PyDict.HasKey(FolderTable(isInternal), Prefix(pattern))
    ensures Resolve(pattern, isInternal) ==
            Some((PyDict.Get(FolderTable(isInternal), Prefix(pattern)).value, PyDict.Get(PatternTable(isInternal), pattern).value))
  {
    var folder := FolderOf(isInternal, Prefix(pattern));
    var file := PatternEntry(isInternal, pattern);
    TableStep(pattern, FolderTable(isInternal), PatternTable(isInternal), ProgramTable(isInternal), folder, file);
  }

  lemma TableStep(pattern: string, folders: Table, patterns: Table, programs: Table, folder: string, file: string)
    requires '-' in pattern
    requires PyDict.Get(folders, Prefix(pattern)) == Some(folder) && folder != []
    requires !PyDict.HasKey(SpecialPatterns, pattern)
    requires PyDict.Get(patterns, pattern) == Some(file) && file != []
    ensures ResolveIn(pattern, folders, patterns, programs) == Some((folder, file))
  {
  }

  /** An unlisted pattern falls back to its prefix's program file when its
      second field reads "programa" in any case, or its prefix is one of
      the financial letters. */
  lemma ProgramFallback(pattern: string, isInternal: bool)
    requires '-' in pattern
    requires PyDict.HasKey(FolderTable(isInternal), Prefix(pattern))
    requires !PyDict.HasKey(SpecialPatterns, pattern) && !PyDict.HasKey(PatternTable(isInternal), pattern)
    requires (SplitHasSep(pattern, '-'); Lower(Split(pattern, '-')[1]) == "programa") || Contains(ProgramLetters, Prefix(pattern))
    ensures PyDict.HasKey(ProgramTable(isInternal), Prefix(pattern))
    ensures Resolve(pattern, isInternal) ==
            Some((PyDict.Get(FolderTable(isInternal), Prefix(pattern)).value, PyDict.Get(ProgramTable(isInternal), Prefix(pattern)).value))
  {
    var folder := FolderOf(isInternal, Prefix(pattern));
    var program := ProgramOf(isInternal, Prefix(pattern));
    FallbackStep(pattern, FolderTable(isInternal), PatternTable(isInternal), ProgramTable(isInternal), folder, program);
  }

  /** The fallback branch of the lookup, once the folder and the program
      file of the prefix are known. */
  lemma FallbackStep(pattern: string, folders: Table, patterns: Table, programs: Table, folder: string, program: string)
    requires '-' in pattern
    requires PyDict.Get(folders, Prefix(pattern)) == Some(folder) && folder != []
    requires PyDict.Get(programs, Prefix(pattern)) == Some(program)
    requires !PyDict.HasKey(SpecialPatterns, pattern) && !PyDict.HasKey(patterns, pattern)
    requires (SplitHasSep(pattern, '-'); Lower(Split(pattern, '-')[1]) == "programa") || Contains(ProgramLetters, Prefix(pattern))
    ensures ResolveIn(pattern, folders, patterns, programs) == Some((folder, program))
  {
  }

  /** A prefix with a folder has a program file. */
  lemma ProgramOf(isInternal: bool, prefix: string) returns (program: string)
    requires PyDict.HasKey(FolderTable(isInternal), prefix)
    ensures PyDict.Get(ProgramTable(isInternal), prefix) == Some(program)
  {
    ProgramsCoverFolders(isInternal);
    var i :| 0 <= i < |FolderTable(isInternal)| && FolderTable(isInternal)[i].0 == prefix;
    program := PyDict.Get(ProgramTable(isInternal), prefix).value;
  }

  /** Otherwise an unlisted pattern resolves to nothing: an internal pattern
      whose letter is not a financial one (K to Q) has no fallback. */
  lemma NoFallback(pattern: string, isInternal: bool)
    requires '-' in pattern
    requires !PyDict.HasKey(SpecialPatterns, pattern) && !PyDict.HasKey(PatternTable(isInternal), pattern)
    requires (SplitHasSep(pattern, '-'); Lower(Split(pattern, '-')[1]) != "programa")
    requires !Contains(ProgramLetters, Prefix(pattern))
    ensures Resolve(pattern, isInternal).None?
  {
    NoFallbackIn(pattern, FolderTable(isInternal), PatternTable(isInternal), ProgramTable(isInternal));
  }

  lemma NoFallbackIn(pattern: string, folders: Table, patterns: Table, programs: Table)
    requires '-' in pattern
    requires !PyDict.HasKey(SpecialPatterns, pattern) && !PyDict.HasKey(patterns, pattern)
    requires (SplitHasSep(pattern, '-'); Lower(Split(pattern, '-')[1]) != "programa")
    requires !Contains(ProgramLetters, Prefix(pattern))
    ensures ResolveIn(pattern, folders, patterns, programs).None?
  {
  }

  // ------------------------------------------------- get_pattern_from_file

  /** `'6 auditoria de procesos' in folder.lower()` */
  predicate IsInternalFolder(folder: string) {
    Contains(Lower(folder), "6 auditoria de procesos")
  }

  /** The first prefix whose folder, lower-cased, occurs in `folderLower`. */
  function FindPrefix(table: Table, folderLower: string): (r: Option<string>)
    ensures r.Some? ==> exists i :: 0 <= i < |table| && table[i].0 == r.value && Contains(folderLower, Lower(table[i].1)) &&
                          forall j :: 0 <= j < i ==> !Contains(folderLower, Lower(table[j].1))
    ensures r.None? ==> forall i :: 0 <= i < |table| ==> !Contains(folderLower, Lower(table[i].1))
  {
    if table == [] then None
    else if Contains(folderLower, Lower(table[0].1)) then Some(table[0].0)
    else
      var r := FindPrefix(table[1..], folderLower);
      assert forall j :: 1 <= j < |table| ==> table[j] == table[1..][j - 1];
      if r.Some? then
        var i :| 0 <= i < |table[1..]| && table[1..][i].0 == r.value && Contains(folderLower, Lower(table[1..][i].1)) &&
                 forall j :: 0 <= j < i ==> !Contains(folderLower, Lower(table[1..][j].1));
        assert table[i + 1] == table[1..][i];
        r
      else r
  }

  /** The entry is for `filename` and its pattern starts with `prefix`. */
  predicate PatternMatch(e: (string, string), prefix: string, filename: string) {
    e.1 == filename && StartsWith(e.0, prefix)
  }

  /** The first pattern of the table for `filename` starting with `prefix`. */
  function FindPattern(table: Table, prefix: string, filename: string): (r: Option<string>)
    ensures r.Some? ==> exists i :: 0 <= i < |table| && table[i].0 == r.value && PatternMatch(table[i], prefix, filename) &&
                          forall j :: 0 <= j < i ==> !PatternMatch(table[j], prefix, filename)
    ensures r.None? ==> forall i :: 0 <= i < |table| ==> !PatternMatch(table[i], prefix, filename)
  {
    if table == [] then None
    else if PatternMatch(table[0], prefix, filename) then Some(table[0].0)
    else
      var r := FindPattern(table[1..], prefix, filename);
      assert forall j :: 1 <= j < |table| ==> table[j] == table[1..][j - 1];
      if r.Some? then
        var i :| 0 <= i < |table[1..]| && table[1..][i].0 == r.value && PatternMatch(table[1..][i], prefix, filename) &&
                 forall j :: 0 <= j < i ==> !PatternMatch(table[1..][j], prefix, filename);
        assert table[i + 1] == table[1..][i];
        r
      else r
  }

  /** What `get_pattern_from_file(folder, filename)` returns: the special
      pattern of the file if there is one, whatever the folder; otherwise the
      prefix is the first whose folder occurs in `folder` (both lower-cased),
      and the result is the first pattern of that prefix naming the file,
      else "<prefix>-programa" for the prefix's program file, else nothing. */
  function PatternFromFile(folder: string, filename: string): Option<string> {
    var isInternal := IsInternalFolder(folder);
    PatternFromFileIn(folder, filename, FolderTable(isInternal), PatternTable(isInternal), ProgramTable(isInternal))
  }

  /** The search itself, over the three tables of the folder's audit type. */
  function PatternFromFileIn(folder: string, filename: string, folders: Table, patterns: Table, programs: Table): Option<string> {
    match PyDict.KeyOf(SpecialPatterns, filename)
    case Some(p) => Some(p)
    case None =>
      match FindPrefix(folders, Lower(folder))
      case None => None
      case Some(prefix) =>
        if prefix == [] then None
        else
          match FindPattern(patterns, prefix, filename)
          case Some(p) => Some(p)
          case None =>
            if PyDict.Get(programs, prefix) == Some(filename) then Some(prefix + "-programa") else None
  }

  /** A file of a special pattern maps back to it, whatever the folder. */
  lemma SpecialFileStep(folder: string, filename: string, folders: Table, patterns: Table, programs: Table, p: string)
    requires PyDict.KeyOf(SpecialPatterns, filename) == Some(p)
    ensures PatternFromFileIn(folder, filename, folders, patterns, programs) == Some(p)
  {
  }

  /** Otherwise the first pattern of the folder's prefix naming the file is
      the answer. */
  lemma PatternFileStep(folder: string, filename: string, folders: Table, patterns: Table, programs: Table, prefix: string, p: string)
    requires PyDict.KeyOf(SpecialPatterns, filename).None?
    requires FindPrefix(folders, Lower(folder)) == Some(prefix) && prefix != []
    requires FindPattern(patterns, prefix, filename) == Some(p)
    ensures PatternFromFileIn(folder, filename, folders, patterns, programs) == Some(p)
  {
  }

  /** The loop over `SPECIAL_PATTERNS.items()` (lines 514-516). */
  method SearchSpecial(table: Table, filename: string) returns (r: Option<string>)
    ensures r == PyDict.KeyOf(table, filename)
  {
    for i := 0 to |table|
      invariant forall j :: 0 <= j < i ==> table[j].1 != filename
    {
      if table[i].1 == filename {
        return Some(table[i].0);
      }
    }
    return None;
  }

  /** The loop over `prefix_to_folder.items()` (lines 533-536). */
  method SearchPrefix(table: Table, folderLower: string) returns (r: Option<string>)
    ensures r == FindPrefix(table, folderLower)
  {
    for i := 0 to |table|
      invariant forall j :: 0 <= j < i ==> !Contains(folderLower, Lower(table[j].1))
    {
      if Contains(folderLower, Lower(table[i].1)) {
        return Some(table[i].0);
      }
    }
    return None;
  }

  /** The loop over `pattern_to_file.items()` (lines 543-545). */
  method SearchPattern(table: Table, prefix: string, filename: string) returns (r: Option<string>)
    ensures r == FindPattern(table, prefix, filename)
  {
    for i := 0 to |table|
      invariant forall j :: 0 <= j < i ==> !PatternMatch(table[j], prefix, filename)
    {
      if table[i].1 == filename && StartsWith(table[i].0, prefix) {
        return Some(table[i].0);
      }
    }
    return None;
  }

  /** `get_pattern_from_file(folder, filename)` */
  method GetPatternFromFile(folder: string, filename: string) returns (r: Option<string>)
    ensures r == PatternFromFile(folder, filename)
  {
    r := SearchSpecial(SpecialPatterns, filename);
    if r.Some? {
      return;
    }
    var isInternal := Contains(Lower(folder), "6 auditoria de procesos");
    var prefix := SearchPrefix(FolderTable(isInternal), Lower(folder));
    if prefix.None? || prefix.value == [] {
      return None;
    }
    r := SearchPattern(PatternTable(isInternal), prefix.value, filename);
    if r.Some? {
      return;
    }
    if PyDict.Get(ProgramTable(isInternal), prefix.value) == Some(filename) {
      return Some(prefix.value + "-programa");
    }
    return None;
  }

  // ------------------------------------------------ the inverse, proved

  lemma {:induction false} FindPatternAppend(a: Table, c: Table, prefix: string, filename: string)
    ensures FindPattern(a + c, prefix, filename) ==
            if FindPattern(a, prefix, filename).Some? then FindPattern(a, prefix, filename) else FindPattern(c, prefix, filename)
  {
    if a == [] {
      assert a + c == c;
    } else {
      assert (a + c)[1..] == a[1..] + c;
      FindPatternAppend(a[1..], c, prefix, filename);
    }
  }

  /** Within a table of one letter, the search by that letter is the search
      by file alone. */
  lemma {:induction false} FindPatternOwnLetter(t: Table, letter: char, first: nat, filename: string)
    requires Numbered(t, letter, first)
    ensures FindPattern(t, [letter], filename) == PyDict.KeyOf(t, filename)
  {
    if t != [] {
      assert t[0].0[..1] == [letter];
      assert Numbered(t[1..], letter, first + 1) by {
        forall i | 0 <= i < |t[1..]| ensures t[1..][i].0 == PatternName(letter, first + 1 + i) { assert t[1..][i] == t[i + 1]; }
      }
      FindPatternOwnLetter(t[1..], letter, first + 1, filename);
    }
  }

  /** No pattern of other letters starts with `l`. */
  lemma FindPatternOtherLetters(blocks: seq<Block>, l: char, filename: string)
    requires WellNumbered(blocks)
    requires forall b :: 0 <= b < |blocks| ==> blocks[b].letter != l
    ensures FindPattern(Concat(blocks), [l], filename).None?
  {
    var t := Concat(blocks);
    forall i | 0 <= i < |t| ensures !PatternMatch(t[i], [l], filename) {
      var b, n := ConcatKeyLetter(blocks, i);
      assert t[i].0[0] == blocks[b].letter;
    }
  }

  /** In the merged table, the search by the letter of one block is the
      search by file within that block. */
  lemma {:induction false} FindPatternBlock(blocks: seq<Block>, b: nat, filename: string)
    requires WellNumbered(blocks) && b < |blocks|
    ensures FindPattern(Concat(blocks), [blocks[b].letter], filename) == PyDict.KeyOf(blocks[b].table, filename)
  {
    var l := blocks[b].letter;
    var rest := blocks[1..];
    WellNumberedTail(blocks);
    FindPatternAppend(blocks[0].table, Concat(rest), [l], filename);
    if b == 0 {
      FindPatternOwnLetter(blocks[0].table, l, blocks[0].first, filename);
      forall c | 0 <= c < |rest| ensures rest[c].letter != l { assert rest[c] == blocks[c + 1]; }
      FindPatternOtherLetters(rest, l, filename);
    } else {
      assert blocks[0].letter != l;
      FindPatternOtherLetters([blocks[0]], l, filename);
      assert Concat([blocks[0]]) == blocks[0].table;
      assert rest[b - 1] == blocks[b];
      FindPatternBlock(rest, b - 1, filename);
    }
  }

  /** The file of every internal program. */
  const InternalProgramFile: string := "4 Programa de Auditor\U{ed}a.docx"

  /** No file of `t` is a special (program) file. */
  predicate NoSpecialFile(t: Table) {
    forall i, j :: 0 <= i < |t| && 0 <= j < |SpecialPatterns| ==> t[i].1 != SpecialPatterns[j].1
  }

  /** No file of `t` is the internal program file. */
  predicate NoProgramFile(t: Table) {
    forall i :: 0 <= i < |t| ==> t[i].1 != InternalProgramFile
  }

  /** No two entries `j < i` with `lo <= i < hi` name the same file. */
  predicate DistinctBelow(t: Table, lo: nat, hi: nat) {
    forall i, j :: lo <= i < hi && i < |t| && 0 <= j < i ==> t[j].1 != t[i].1
  }

  lemma DistinctParts(t: Table, k: nat)
    requires DistinctBelow(t, 0, k) && DistinctBelow(t, k, |t|)
    ensures PyDict.ValuesDistinct(t)
  {
    forall i, j | 0 <= j < i < |t| ensures t[j].1 != t[i].1 {
      if i < k {
        assert DistinctBelow(t, 0, k);
      }
    }
  }

  // Per-table facts about the file names.
  lemma FilesASpecial() ensures NoSpecialFile(PatternToFileA) { }
  lemma FilesALow() ensures DistinctBelow(PatternToFileA, 0, 9) { }
  lemma FilesAHigh() ensures DistinctBelow(PatternToFileA, 9, 18) { }
  lemma FilesCSpecial() ensures NoSpecialFile(PatternToFileC) { }
  lemma FilesCDistinct() ensures PyDict.ValuesDistinct(PatternToFileC) { }
  lemma FilesDSpecial() ensures NoSpecialFile(PatternToFileD) { }
  lemma FilesDLow() ensures DistinctBelow(PatternToFileD, 0, 8) { }
  lemma FilesDHigh() ensures DistinctBelow(PatternToFileD, 8, 16) { }
  lemma FilesESpecial() ensures NoSpecialFile(PatternToFileE) { }
  lemma FilesELow() ensures DistinctBelow(PatternToFileE, 0, 6) { }
  lemma FilesEHigh() ensures DistinctBelow(PatternToFileE, 6, 13) { }
  lemma FilesFSpecial() ensures NoSpecialFile(PatternToFileF) { }
  lemma FilesFLow() ensures DistinctBelow(PatternToFileF, 0, 6) { }
  lemma FilesFHigh() ensures DistinctBelow(PatternToFileF, 6, 13) { }
  lemma FilesGSpecial() ensures NoSpecialFile(PatternToFileG) { }
  lemma FilesGDistinct() ensures PyDict.ValuesDistinct(PatternToFileG) { }
  lemma FilesHSpecial() ensures NoSpecialFile(PatternToFileH) { }
  lemma FilesHLow() ensures DistinctBelow(PatternToFileH, 0, 9) { }
  lemma FilesHHigh() ensures DistinctBelow(PatternToFileH, 9, 19) { }
  lemma FilesISpecial() ensures NoSpecialFile(PatternToFileI) { }
  lemma FilesIDistinct() ensures PyDict.ValuesDistinct(PatternToFileI) { }
  lemma FilesJSpecial() ensures NoSpecialFile(PatternToFileJ) { }
  lemma FilesJDistinct() ensures PyDict.ValuesDistinct(PatternToFileJ) { }
  lemma FilesRSpecial() ensures NoSpecialFile(PatternToFileR) { }
  lemma FilesRLow() ensures DistinctBelow(PatternToFileR, 0, 6) { }
  lemma FilesRHigh() ensures DistinctBelow(PatternToFileR, 6, 13) { }
  lemma InternalFilesBSpecial() ensures NoSpecialFile(InternalPatternToFileB) { }
  lemma InternalFilesBProgram() ensures NoProgramFile(InternalPatternToFileB) { }
  lemma InternalFilesBDistinct() ensures PyDict.ValuesDistinct(InternalPatternToFileB) { }
  lemma InternalFilesDSpecial() ensures NoSpecialFile(InternalPatternToFileD) { }
  lemma InternalFilesDProgram() ensures NoProgramFile(InternalPatternToFileD) { }
  lemma InternalFilesDDistinct() ensures PyDict.ValuesDistinct(InternalPatternToFileD) { }
  lemma InternalFilesESpecial() ensures NoSpecialFile(InternalPatternToFileE) { }
  lemma InternalFilesEProgram() ensures NoProgramFile(InternalPatternToFileE) { }
  lemma InternalFilesEDistinct() ensures PyDict.ValuesDistinct(InternalPatternToFileE) { }
  lemma InternalFilesFSpecial() ensures NoSpecialFile(InternalPatternToFileF) { }
  lemma InternalFilesFProgram() ensures NoProgramFile(InternalPatternToFileF) { }
  lemma InternalFilesFDistinct() ensures PyDict.ValuesDistinct(InternalPatternToFileF) { }
  lemma InternalFilesHSpecial() ensures NoSpecialFile(InternalPatternToFileH) { }
  lemma InternalFilesHProgram() ensures NoProgramFile(InternalPatternToFileH) { }
  lemma InternalFilesHDistinct() ensures PyDict.ValuesDistinct(InternalPatternToFileH) { }
  lemma InternalFilesKSpecial() ensures NoSpecialFile(InternalPatternToFileK) { }
  lemma InternalFilesKProgram() ensures NoProgramFile(InternalPatternToFileK) { }
  lemma InternalFilesKDistinct() ensures PyDict.ValuesDistinct(InternalPatternToFileK) { }
  lemma InternalFilesLSpecial() ensures NoSpecialFile(InternalPatternToFileL) { }
  lemma InternalFilesLProgram() ensures NoProgramFile(InternalPatternToFileL) { }
  lemma InternalFilesLDistinct() ensures PyDict.ValuesDistinct(InternalPatternToFileL) { }
  lemma InternalFilesMSpecial() ensures NoSpecialFile(InternalPatternToFileM) { }
  lemma InternalFilesMProgram() ensures NoProgramFile(InternalPatternToFileM) { }
  lemma InternalFilesMDistinct() ensures PyDict.ValuesDistinct(InternalPatternToFileM) { }
  lemma InternalFilesNSpecial() ensures NoSpecialFile(InternalPatternToFileN) { }
  lemma InternalFilesNProgram() ensures NoProgramFile(InternalPatternToFileN) { }
  lemma InternalFilesNDistinct() ensures PyDict.ValuesDistinct(InternalPatternToFileN) { }
  lemma InternalFilesOSpecial() ensures NoSpecialFile(InternalPatternToFileO) { }
  lemma InternalFilesOProgram() ensures NoProgramFile(InternalPatternToFileO) { }
  lemma InternalFilesODistinct() ensures PyDict.ValuesDistinct(InternalPatternToFileO) { }
  lemma InternalFilesPSpecial() ensures NoSpecialFile(InternalPatternToFileP) { }
  lemma InternalFilesPProgram() ensures NoProgramFile(InternalPatternToFileP) { }
  lemma InternalFilesPDistinct() ensures PyDict.ValuesDistinct(InternalPatternToFileP) { }
  lemma InternalFilesQSpecial() ensures NoSpecialFile(InternalPatternToFileQ) { }
  lemma InternalFilesQProgram() ensures NoProgramFile(InternalPatternToFileQ) { }
  lemma InternalFilesQDistinct() ensures PyDict.ValuesDistinct(InternalPatternToFileQ) { }

  lemma FilesA() ensures NoSpecialFile(PatternToFileA) && PyDict.ValuesDistinct(PatternToFileA) {
    FilesASpecial(); FilesALow(); FilesAHigh(); DistinctParts(PatternToFileA, 9);
  }
  lemma FilesB()
    ensures NoSpecialFile(PatternToFileB)
    ensures PatternToFileB[3].1 == PatternToFileB[4].1
    ensures forall i, j :: 0 <= j < i < |PatternToFileB| && i != 4 ==> PatternToFileB[j].1 != PatternToFileB[i].1
  {
    FilesBSpecial(); FilesBLow(); FilesBHigh();
  }
  lemma FilesBSpecial() ensures NoSpecialFile(PatternToFileB) { }
  lemma FilesBLow()
    ensures forall i, j :: 0 <= j < i < 8 && i != 4 ==> PatternToFileB[j].1 != PatternToFileB[i].1
  { }
  lemma FilesBHigh() ensures DistinctBelow(PatternToFileB, 8, |PatternToFileB|) { }
  lemma FilesC() ensures NoSpecialFile(PatternToFileC) && PyDict.ValuesDistinct(PatternToFileC) {
    FilesCSpecial(); FilesCDistinct();
  }
  lemma FilesD() ensures NoSpecialFile(PatternToFileD) && PyDict.ValuesDistinct(PatternToFileD) {
    FilesDSpecial(); FilesDLow(); FilesDHigh(); DistinctParts(PatternToFileD, 8);
  }
  lemma FilesE() ensures NoSpecialFile(PatternToFileE) && PyDict.ValuesDistinct(PatternToFileE) {
    FilesESpecial(); FilesELow(); FilesEHigh(); DistinctParts(PatternToFileE, 6);
  }
  lemma FilesF() ensures NoSpecialFile(PatternToFileF) && PyDict.ValuesDistinct(PatternToFileF) {
    FilesFSpecial(); FilesFLow(); FilesFHigh(); DistinctParts(PatternToFileF, 6);
  }
  lemma FilesG() ensures NoSpecialFile(PatternToFileG) && PyDict.ValuesDistinct(PatternToFileG) {
    FilesGSpecial(); FilesGDistinct();
  }
  lemma FilesH() ensures NoSpecialFile(PatternToFileH) && PyDict.ValuesDistinct(PatternToFileH) {
    FilesHSpecial(); FilesHLow(); FilesHHigh(); DistinctParts(PatternToFileH, 9);
  }
  lemma FilesI() ensures NoSpecialFile(PatternToFileI) && PyDict.ValuesDistinct(PatternToFileI) {
    FilesISpecial(); FilesIDistinct();
  }
  lemma FilesJ() ensures NoSpecialFile(PatternToFileJ) && PyDict.ValuesDistinct(PatternToFileJ) {
    FilesJSpecial(); FilesJDistinct();
  }
  lemma FilesR() ensures NoSpecialFile(PatternToFileR) && PyDict.ValuesDistinct(PatternToFileR) {
    FilesRSpecial(); FilesRLow(); FilesRHigh(); DistinctParts(PatternToFileR, 6);
  }
  lemma InternalFilesB() ensures NoSpecialFile(InternalPatternToFileB) && NoProgramFile(InternalPatternToFileB) && PyDict.ValuesDistinct(InternalPatternToFileB) {
    InternalFilesBSpecial(); InternalFilesBProgram(); InternalFilesBDistinct();
  }
  lemma InternalFilesD() ensures NoSpecialFile(InternalPatternToFileD) && NoProgramFile(InternalPatternToFileD) && PyDict.ValuesDistinct(InternalPatternToFileD) {
    InternalFilesDSpecial(); InternalFilesDProgram(); InternalFilesDDistinct();
  }
  lemma InternalFilesE() ensures NoSpecialFile(InternalPatternToFileE) && NoProgramFile(InternalPatternToFileE) && PyDict.ValuesDistinct(InternalPatternToFileE) {
    InternalFilesESpecial(); InternalFilesEProgram(); InternalFilesEDistinct();
  }
  lemma InternalFilesF() ensures NoSpecialFile(InternalPatternToFileF) && NoProgramFile(InternalPatternToFileF) && PyDict.ValuesDistinct(InternalPatternToFileF) {
    InternalFilesFSpecial(); InternalFilesFProgram(); InternalFilesFDistinct();
  }
  lemma InternalFilesH() ensures NoSpecialFile(InternalPatternToFileH) && NoProgramFile(InternalPatternToFileH) && PyDict.ValuesDistinct(InternalPatternToFileH) {
    InternalFilesHSpecial(); InternalFilesHProgram(); InternalFilesHDistinct();
  }
  lemma InternalFilesK() ensures NoSpecialFile(InternalPatternToFileK) && NoProgramFile(InternalPatternToFileK) && PyDict.ValuesDistinct(InternalPatternToFileK) {
    InternalFilesKSpecial(); InternalFilesKProgram(); InternalFilesKDistinct();
  }
  lemma InternalFilesL() ensures NoSpecialFile(InternalPatternToFileL) && NoProgramFile(InternalPatternToFileL) && PyDict.ValuesDistinct(InternalPatternToFileL) {
    InternalFilesLSpecial(); InternalFilesLProgram(); InternalFilesLDistinct();
  }
  lemma InternalFilesM() ensures NoSpecialFile(InternalPatternToFileM) && NoProgramFile(InternalPatternToFileM) && PyDict.ValuesDistinct(InternalPatternToFileM) {
    InternalFilesMSpecial(); InternalFilesMProgram(); InternalFilesMDistinct();
  }
  lemma InternalFilesN() ensures NoSpecialFile(InternalPatternToFileN) && NoProgramFile(InternalPatternToFileN) && PyDict.ValuesDistinct(InternalPatternToFileN) {
    InternalFilesNSpecial(); InternalFilesNProgram(); InternalFilesNDistinct();
  }
  lemma InternalFilesO() ensures NoSpecialFile(InternalPatternToFileO) && NoProgramFile(InternalPatternToFileO) && PyDict.ValuesDistinct(InternalPatternToFileO) {
    InternalFilesOSpecial(); InternalFilesOProgram(); InternalFilesODistinct();
  }
  lemma InternalFilesP() ensures NoSpecialFile(InternalPatternToFileP) && NoProgramFile(InternalPatternToFileP) && PyDict.ValuesDistinct(InternalPatternToFileP) {
    InternalFilesPSpecial(); InternalFilesPProgram(); InternalFilesPDistinct();
  }
  lemma InternalFilesQ() ensures NoSpecialFile(InternalPatternToFileQ) && NoProgramFile(InternalPatternToFileQ) && PyDict.ValuesDistinct(InternalPatternToFileQ) {
    InternalFilesQSpecial(); InternalFilesQProgram(); InternalFilesQDistinct();
  }

  /** The financial tables name no special file, and only B names a file
      twice (B-4 and B-5). */
  lemma BlockFiles(b: nat)
    requires b < |Blocks|
    ensures NoSpecialFile(Blocks[b].table)
    ensures b != 1 ==> PyDict.ValuesDistinct(Blocks[b].table)
    ensures b == 1 ==> Blocks[b].table[3].1 == Blocks[b].table[4].1 &&
                       forall i, j :: 0 <= j < i < |Blocks[b].table| && i != 4 ==> Blocks[b].table[j].1 != Blocks[b].table[i].1
  {
    if b == 0 { FilesA(); assert Blocks[b].table == PatternToFileA;
    } else if b == 1 { FilesB(); assert Blocks[b].table == PatternToFileB;
    } else if b == 2 { FilesC(); assert Blocks[b].table == PatternToFileC;
    } else if b == 3 { FilesD(); assert Blocks[b].table == PatternToFileD;
    } else if b == 4 { FilesE(); assert Blocks[b].table == PatternToFileE;
    } else if b == 5 { FilesF(); assert Blocks[b].table == PatternToFileF;
    } else if b == 6 { FilesG(); assert Blocks[b].table == PatternToFileG;
    } else if b == 7 { FilesH(); assert Blocks[b].table == PatternToFileH;
    } else if b == 8 { FilesI(); assert Blocks[b].table == PatternToFileI;
    } else if b == 9 { FilesJ(); assert Blocks[b].table == PatternToFileJ;
    } else if b == 10 { FilesR(); assert Blocks[b].table == PatternToFileR;
    }
  }

  /** The internal tables name no special file and no program file, and no
      file twice. */
  lemma InternalBlockFiles(b: nat)
    requires b < |InternalBlocks|
    ensures NoSpecialFile(InternalBlocks[b].table) && NoProgramFile(InternalBlocks[b].table)
    ensures PyDict.ValuesDistinct(InternalBlocks[b].table)
  {
    if b == 0 { InternalFilesB(); assert InternalBlocks[b].table == InternalPatternToFileB;
    } else if b == 1 { InternalFilesD(); assert InternalBlocks[b].table == InternalPatternToFileD;
    } else if b == 2 { InternalFilesE(); assert InternalBlocks[b].table == InternalPatternToFileE;
    } else if b == 3 { InternalFilesF(); assert InternalBlocks[b].table == InternalPatternToFileF;
    } else if b == 4 { InternalFilesH(); assert InternalBlocks[b].table == InternalPatternToFileH;
    } else if b == 5 { InternalFilesK(); assert InternalBlocks[b].table == InternalPatternToFileK;
    } else if b == 6 { InternalFilesL(); assert InternalBlocks[b].table == InternalPatternToFileL;
    } else if b == 7 { InternalFilesM(); assert InternalBlocks[b].table == InternalPatternToFileM;
    } else if b == 8 { InternalFilesN(); assert InternalBlocks[b].table == InternalPatternToFileN;
    } else if b == 9 { InternalFilesO(); assert InternalBlocks[b].table == InternalPatternToFileO;
    } else if b == 10 { InternalFilesP(); assert InternalBlocks[b].table == InternalPatternToFileP;
    } else if b == 11 { InternalFilesQ(); assert InternalBlocks[b].table == InternalPatternToFileQ;
    }
  }

  /** A file names one pattern of its letter, except the file shared by B-4
      and B-5, whose first pattern is B-4. */
  lemma FirstPatternOfFile(b: nat, i: nat)
    requires b < |Blocks| && i < |Blocks[b].table|
    ensures PyDict.KeyOf(Blocks[b].table, Blocks[b].table[i].1) ==
            Some(if b == 1 && i == 4 then "B-4" else Blocks[b].table[i].0)
  {
    var t := Blocks[b].table;
    BlockFiles(b);
    if b == 1 && i == 4 {
      PyDict.KeyOfFirst(t, 3);
      assert t[3].0 == "B-4";
    } else {
      PyDict.KeyOfFirst(t, i);
    }
  }

  /** A file in no block is not found by any search of the merged table. */
  lemma FindPatternAbsent(blocks: seq<Block>, prefix: string, filename: string)
    requires forall b, i :: 0 <= b < |blocks| && 0 <= i < |blocks[b].table| ==> blocks[b].table[i].1 != filename
    ensures FindPattern(Concat(blocks), prefix, filename).None?
  {
    var t := Concat(blocks);
    forall k | 0 <= k < |t| ensures t[k].1 != filename {
      var b := ConcatEntryFile(blocks, k);
    }
  }

  /** The inverse of the lookup for a financial audit: given a folder whose
      prefix search finds letter L, every file of the L table maps back to
      its pattern, except that B-5's file maps back to B-4. */
  lemma InverseLookup(folder: string, b: nat, i: nat)
    requires b < |Blocks| && i < |Blocks[b].table|
    requires !IsInternalFolder(folder)
    requires FindPrefix(PrefixToFolder, Lower(folder)) == Some([Blocks[b].letter])
    ensures PatternFromFile(folder, Blocks[b].table[i].1) == Some(if b == 1 && i == 4 then "B-4" else Blocks[b].table[i].0)
  {
    var file := Blocks[b].table[i].1;
    BlockFiles(b);
    assert PyDict.KeyOf(SpecialPatterns, file).None?;
    MergesLoseNothing();
    BlocksWellNumbered();
    FindPatternBlock(Blocks, b, file);
    FirstPatternOfFile(b, i);
    PatternFileStep(folder, file, PrefixToFolder, PatternToFile, PrefixToProgram, [Blocks[b].letter],
                    if b == 1 && i == 4 then "B-4" else Blocks[b].table[i].0);
  }

  /** The inverse of the lookup for an internal audit: every file of the
      table of the letter the folder selects maps back to its own pattern. */
  lemma InternalInverseLookup(folder: string, b: nat, i: nat)
    requires b < |InternalBlocks| && i < |InternalBlocks[b].table|
    requires IsInternalFolder(folder)
    requires FindPrefix(InternalPrefixToFolder, Lower(folder)) == Some([InternalBlocks[b].letter])
    ensures PatternFromFile(folder, InternalBlocks[b].table[i].1) == Some(InternalBlocks[b].table[i].0)
  {
    var file := InternalBlocks[b].table[i].1;
    InternalFirstPatternOfFile(b, i);
    MergesLoseNothing();
    InternalBlocksWellNumbered();
    FindPatternBlock(InternalBlocks, b, file);
    PatternFileStep(folder, file, InternalPrefixToFolder, InternalPatternToFile, InternalPrefixToProgram,
                    [InternalBlocks[b].letter], InternalBlocks[b].table[i].0);
  }

  /** An internal file names one pattern, and no special pattern. */
  lemma InternalFirstPatternOfFile(b: nat, i: nat)
    requires b < |InternalBlocks| && i < |InternalBlocks[b].table|
    ensures PyDict.KeyOf(InternalBlocks[b].table, InternalBlocks[b].table[i].1) == Some(InternalBlocks[b].table[i].0)
    ensures PyDict.KeyOf(SpecialPatterns, InternalBlocks[b].table[i].1).None?
  {
    InternalBlockFiles(b);
    PyDict.KeyOfFirst(InternalBlocks[b].table, i);
  }

  /** The special table is the financial program table with "-programa"
      added to each prefix. */
  lemma SpecialArePrograms()
    ensures |SpecialPatterns| == |PrefixToProgram|
    ensures forall j :: 0 <= j < |SpecialPatterns| ==>
              SpecialPatterns[j].0 == PrefixToProgram[j].0 + "-programa" && SpecialPatterns[j].1 == PrefixToProgram[j].1
  {
  }

  lemma SpecialFilesDistinct()
    ensures PyDict.ValuesDistinct(SpecialPatterns)
  {
  }

  /** A financial program file maps back to "<prefix>-programa" through the
      special table, whatever the folder: the last step of the search is
      never reached for a financial program. */
  lemma FinancialProgramViaSpecial(folder: string, i: nat)
    requires i < |PrefixToProgram|
    ensures PatternFromFile(folder, PrefixToProgram[i].1) == Some(PrefixToProgram[i].0 + "-programa")
  {
    SpecialArePrograms();
    SpecialFilesDistinct();
    PyDict.KeyOfFirst(SpecialPatterns, i);
    var b := IsInternalFolder(folder);
    SpecialFileStep(folder, PrefixToProgram[i].1, FolderTable(b), PatternTable(b), ProgramTable(b), PrefixToProgram[i].0 + "-programa");
  }

  lemma InternalProgramsValid()
    ensures PyDict.Valid(InternalPrefixToProgram)
    ensures forall i :: 0 <= i < |InternalPrefixToProgram| ==>
              InternalPrefixToProgram[i].1 == InternalProgramFile && |InternalPrefixToProgram[i].0| == 1
    ensures forall j :: 0 <= j < |SpecialPatterns| ==> SpecialPatterns[j].1 != InternalProgramFile
  {
  }

  /** An internal program file maps back to "<prefix>-programa" for the
      prefix the folder selects: no table and no special pattern names it,
      so the search ends at the program table. */
  lemma InternalProgramRoundTrip(folder: string, i: nat)
    requires i < |InternalPrefixToProgram|
    requires IsInternalFolder(folder)
    requires FindPrefix(InternalPrefixToFolder, Lower(folder)) == Some(InternalPrefixToProgram[i].0)
    ensures PatternFromFile(folder, InternalProgramFile) == Some(InternalPrefixToProgram[i].0 + "-programa")
  {
    var prefix := InternalPrefixToProgram[i].0;
    InternalProgramsValid();
    PyDict.GetValid(InternalPrefixToProgram, i);
    SpecialNotProgram();
    InternalProgramInNoTable(prefix);
    ProgramStep(folder, InternalProgramFile, InternalPrefixToFolder, InternalPatternToFile, InternalPrefixToProgram, prefix);
  }

  /** The internal program file is no special pattern's file. */
  lemma SpecialNotProgram()
    ensures PyDict.KeyOf(SpecialPatterns, InternalProgramFile).None?
  {
    InternalProgramsValid();
    PyDict.KeyOfAbsent(SpecialPatterns, InternalProgramFile);
  }

  /** The last step of the search: a file of no special pattern and of no
      pattern of the folder's prefix maps back through the program table. */
  lemma ProgramStep(folder: string, file: string, folders: Table, patterns: Table, programs: Table, prefix: string)
    requires PyDict.KeyOf(SpecialPatterns, file).None?
    requires FindPrefix(folders, Lower(folder)) == Some(prefix) && prefix != []
    requires FindPattern(patterns, prefix, file).None?
    requires PyDict.Get(programs, prefix) == Some(file)
    ensures PatternFromFileIn(folder, file, folders, patterns, programs) == Some(prefix + "-programa")
  {
  }

  /** No search of the internal pattern table finds the program file. */
  lemma InternalProgramInNoTable(prefix: string)
    ensures FindPattern(InternalPatternToFile, prefix, InternalProgramFile).None?
  {
    MergesLoseNothing();
    forall b, k | 0 <= b < |InternalBlocks| && 0 <= k < |InternalBlocks[b].table|
      ensures InternalBlocks[b].table[k].1 != InternalProgramFile
    {
      InternalBlockFiles(b);
    }
    FindPatternAbsent(InternalBlocks, prefix, InternalProgramFile);
  }

  // ------------------------------------------- the two copies of the tables

  /** The tables of urls_programs/financial_audit_mappings.py repeat these,
      with one difference: I-4 is a .docx file there and a .xlsx file here. */
  lemma CopiesDifferAtI4()
    ensures AuditMappings.PrefixToFolder == PrefixToFolder
    ensures |AuditMappings.Blocks| == |Blocks|
    ensures forall b :: 0 <= b < |Blocks| && b != 8 ==> AuditMappings.Blocks[b] == Blocks[b]
    ensures AuditMappings.Blocks[8].table == Blocks[8].table[3 := ("I-4", "5 CONFIRMACION DE PRESTAMOS.docx")]
    ensures Blocks[8].table[3] == ("I-4", "5 CONFIRMACION DE PRESTAMOS.xlsx")
  {
  }

  /** Every entry of a per-letter table is what the merged table gives for
      its pattern. */
  lemma LookupOfBlock(b: nat, i: nat)
    requires b < |Blocks| && i < |Blocks[b].table|
    ensures PyDict.Get(PatternToFile, Blocks[b].table[i].0) == Some(Blocks[b].table[i].1)
    ensures PyDict.Get(AuditMappings.PatternToFile, AuditMappings.Blocks[b].table[i].0) == Some(AuditMappings.Blocks[b].table[i].1)
  {
    CopiesDifferAtI4();
    AuditMappings.MergeLosesNothing();
    AuditMappings.BlocksWellNumbered();
    MergesLoseNothing();
    BlocksWellNumbered();
    GetConcat(AuditMappings.Blocks, b, i);
    GetConcat(Blocks, b, i);
  }

  /** Looked up through the merged tables, "I-4" names different files. */
  lemma I4LookupsDiffer()
    ensures PyDict.Get(AuditMappings.PatternToFile, "I-4") == Some("5 CONFIRMACION DE PRESTAMOS.docx")
    ensures PyDict.Get(PatternToFile, "I-4") == Some("5 CONFIRMACION DE PRESTAMOS.xlsx")
  {
    CopiesDifferAtI4();
    LookupOfBlock(8, 3);
  }
}
