/**
 * The reference price table of electrical services, `SERVICES_DB`: 41 rows
 * grouped by category, each with a price band. The table is written as one
 * slice per category (in the order of the source) so that every fact about
 * it is proved slice by slice and then carried over the concatenation.
 */
module ServicesData {
  import opened Types

  /** The "Iluminação" rows (data/services.ts:6-16). */
  const LightingRows: seq<ServiceDefinition> := [
    ServiceDefinition("i1", Iluminacao, "Instalação de Interruptor Simples ou Pulsador", 45.0, 65.0, 55.0),
    ServiceDefinition("i2", Iluminacao, "Instalação de Interruptor Tree-Way ou Four Way", 55.0, 75.0, 65.0),
    ServiceDefinition("i3", Iluminacao, "Instalação de Interruptor Duplo ou Bipolar", 55.0, 75.0, 65.0),
    ServiceDefinition("i4", Iluminacao, "Instalação de Interruptor e Tomada (Juntos)", 55.0, 75.0, 65.0),
    ServiceDefinition("i5", Iluminacao, "Instalação de Arandela, Pendente ou Spot Comum", 60.0, 90.0, 75.0),
    ServiceDefinition("i6", Iluminacao, "Instalação de Lâmpada Fluorescente ou LED (Tubular)", 65.0, 85.0, 75.0),
    ServiceDefinition("i7", Iluminacao, "Instalação de Lustres Simples ou Luminária", 85.0, 110.0, 97.5),
    ServiceDefinition("i8", Iluminacao, "Instalação de Lustres Grandes ou Luminária", 130.0, 160.0, 145.0),
    ServiceDefinition("i9", Iluminacao, "Instalação de Refletor de Jardim", 95.0, 125.0, 110.0),
    ServiceDefinition("i10", Iluminacao, "Instalação de Refletor LED + Fotocélula ou Sensor", 65.0, 105.0, 85.0),
    ServiceDefinition("i11", Iluminacao, "Instalação de Perfil de LED (Metro Linear)", 150.0, 190.0, 170.0)
  ]

  /** The "Ponto de Utilização" rows (data/services.ts:19-28). */
  const OutletsRows: seq<ServiceDefinition> := [
    ServiceDefinition("p1", PontoUtilizacao, "Instalação de Tomada Simples", 35.0, 55.0, 45.0),
    ServiceDefinition("p2", PontoUtilizacao, "Instalação de Tomada Dupla", 45.0, 65.0, 55.0),
    ServiceDefinition("p3", PontoUtilizacao, "Instalação de Tomada Tripla", 55.0, 75.0, 65.0),
    ServiceDefinition("p4", PontoUtilizacao, "Instalação de Tomada Industrial (3P+T)", 85.0, 125.0, 105.0),
    ServiceDefinition("p5", PontoUtilizacao, "Instalação de Ventilador de Teto", 130.0, 170.0, 150.0),
    ServiceDefinition("p6", PontoUtilizacao, "Instalação de Chuveiro Elétrico Simples", 85.0, 105.0, 95.0),
    ServiceDefinition("p7", PontoUtilizacao, "Instalação de Chuveiro Luxo (Eletrônico/Pressurizado)", 130.0, 160.0, 145.0),
    ServiceDefinition("p8", PontoUtilizacao, "Instalação de Interfone 1 Chamada", 140.0, 210.0, 175.0),
    ServiceDefinition("p9", PontoUtilizacao, "Instalação de Video Porteiro", 170.0, 210.0, 190.0),
    ServiceDefinition("p10", PontoUtilizacao, "Instalação de Portão Eletrônico Deslizante", 250.0, 290.0, 270.0)
  ]

  /** The "Quadros de Distribuição / Painel" rows (data/services.ts:31-36). */
  const PanelsRows: seq<ServiceDefinition> := [
    ServiceDefinition("q1", QuadrosDistribuicao, "Substituição de Disjuntor Monofásico", 45.0, 65.0, 55.0),
    ServiceDefinition("q2", QuadrosDistribuicao, "Instalação de IDR", 120.0, 160.0, 140.0),
    ServiceDefinition("q3", QuadrosDistribuicao, "Instalação de DPS", 105.0, 135.0, 120.0),
    ServiceDefinition("q4", QuadrosDistribuicao, "Montagem QDC (6 Circuitos + DR + DPS)", 495.0, 545.0, 520.0),
    ServiceDefinition("q5", QuadrosDistribuicao, "Montagem QDC (12 Circuitos + DR + DPS)", 750.0, 800.0, 775.0),
    ServiceDefinition("q6", QuadrosDistribuicao, "Montagem QDC (24 Circuitos + DR + DPS)", 1260.0, 1320.0, 1290.0)
  ]

  /** The "Passagem de Cabos" rows (data/services.ts:39-41). */
  const CablingRows: seq<ServiceDefinition> := [
    ServiceDefinition("c1", PassagemCabos, "Entrada Monofásica (QM para QDC)", 170.0, 230.0, 200.0),
    ServiceDefinition("c2", PassagemCabos, "Entrada Bifásica ou Trifásica (QM para QDC)", 230.0, 300.0, 265.0),
    ServiceDefinition("c3", PassagemCabos, "Alimentação para Motores", 160.0, 220.0, 190.0)
  ]

  /** The "Solução de Problemas Elétricos" rows (data/services.ts:44-46). */
  const TroubleshootingRows: seq<ServiceDefinition> := [
    ServiceDefinition("s1", SolucaoProblemas, "Curto Circuito Monofásico", 130.0, 190.0, 160.0),
    ServiceDefinition("s2", SolucaoProblemas, "Curto Circuito Bifásico", 160.0, 220.0, 190.0),
    ServiceDefinition("s3", SolucaoProblemas, "Curto Circuito Trifásico", 185.0, 255.0, 220.0)
  ]

  /** The "Padrão de Entrada" rows (data/services.ts:49-51). */
  const ServiceEntranceRows: seq<ServiceDefinition> := [
    ServiceDefinition("e1", PadraoEntrada, "Instalação de Medidor Monofásico 127/220V", 1080.0, 1700.0, 1390.0),
    ServiceDefinition("e2", PadraoEntrada, "Instalação de Medidor Bifásico 220V", 1290.0, 1940.0, 1615.0),
    ServiceDefinition("e3", PadraoEntrada, "Instalação de Medidor Trifásico 220V", 1500.0, 2150.0, 1825.0)
  ]

  /** The "Carregador Veicular" rows (data/services.ts:54). */
  const VehicleChargerRows: seq<ServiceDefinition> := [
    ServiceDefinition("v1", CarregadorVeicular, "Instalação de Carregador Veicular (Residencial Simples)", 800.0, 1200.0, 1000.0)
  ]

  /** The "Automação Residencial" rows (data/services.ts:57-60). */
  const HomeAutomationRows: seq<ServiceDefinition> := [
    ServiceDefinition("a1", AutomacaoResidencial, "Instalação de Interruptor Inteligente", 110.0, 270.0, 190.0),
    ServiceDefinition("a2", AutomacaoResidencial, "Instalação Mini Relé Interruptor", 160.0, 270.0, 215.0),
    ServiceDefinition("a3", AutomacaoResidencial, "Configuração Assistente Virtual", 110.0, 210.0, 160.0),
    ServiceDefinition("a4", AutomacaoResidencial, "Instalação Fechadura Inteligente", 210.0, 370.0, 290.0)
  ]
  const SERVICES_DB: seq<ServiceDefinition> :=
    LightingRows + OutletsRows + PanelsRows + CablingRows + TroubleshootingRows
    + ServiceEntranceRows + VehicleChargerRows + HomeAutomationRows

  /** A row's price band: positive, ordered, and the average is the midpoint. */
  predicate Banded(d: ServiceDefinition)
  {
    0.0 < d.minPrice <= d.avgPrice <= d.maxPrice && d.avgPrice == (d.minPrice + d.maxPrice) / 2.0
  }

  /** The letter every id of a category starts with. */
  function IdLetter(c: ServiceCategory): char
  {
    match c
    case Iluminacao => 'i'
    case PontoUtilizacao => 'p'
    case QuadrosDistribuicao => 'q'
    case PassagemCabos => 'c'
    case SolucaoProblemas => 's'
    case PadraoEntrada => 'e'
    case CarregadorVeicular => 'v'
    case AutomacaoResidencial => 'a'
  }

  lemma IdLetterInjective(c: ServiceCategory, d: ServiceCategory)
    ensures IdLetter(c) == IdLetter(d) <==> c == d
  {
  }

  /** Every row is banded and lettered by its category, and no two rows share an id. */
  predicate WellFormed(rows: seq<ServiceDefinition>)
  {
    (forall i :: 0 <= i < |rows| ==>
       Banded(rows[i]) && |rows[i].id| >= 2 && rows[i].id[0] == IdLetter(rows[i].category))
    && (forall i, j :: 0 <= i < j < |rows| ==> rows[i].id != rows[j].id)
  }

  /** Every row's category lies at a position in `lo..hi` of the category enumeration. */
  predicate Within(rows: seq<ServiceDefinition>, lo: nat, hi: nat)
  {
    forall i :: 0 <= i < |rows| ==> lo <= CategoryIndex(rows[i].category) < hi
  }

  /** Appending the slice of the next category keeps the table well formed. */
  lemma JoinRows(a: seq<ServiceDefinition>, b: seq<ServiceDefinition>, lo: nat, mid: nat, hi: nat)
    requires lo <= mid <= hi
    requires WellFormed(a) && Within(a, lo, mid)
    requires WellFormed(b) && Within(b, mid, hi)
    ensures WellFormed(a + b) && Within(a + b, lo, hi)
  {
    var s := a + b;
    forall i, j | 0 <= i < j < |s|
      ensures s[i].id != s[j].id
    {
      if i < |a| <= j {
        IdLetterInjective(s[i].category, s[j].category);
        assert s[i].id[0] != s[j].id[0];
      }
    }
  }

  /** The rows come category by category, in the order of the enumeration. */
  predicate Grouped(rows: seq<ServiceDefinition>)
  {
    forall i, j :: 0 <= i < j < |rows| ==> CategoryIndex(rows[i].category) <= CategoryIndex(rows[j].category)
  }

  /** Appending the slice of the next category keeps the table grouped. */
  lemma JoinGrouped(a: seq<ServiceDefinition>, b: seq<ServiceDefinition>, lo: nat, mid: nat, hi: nat)
    requires lo <= mid <= hi
    requires Grouped(a) && Within(a, lo, mid) && Grouped(b) && Within(b, mid, hi)
    ensures Grouped(a + b) && Within(a + b, lo, hi)
  {
    var s := a + b;
    forall i, j | 0 <= i < j < |s|
      ensures CategoryIndex(s[i].category) <= CategoryIndex(s[j].category)
    {
      if |a| <= i {
        assert s[i] == b[i - |a|] && s[j] == b[j - |a|];
      } else if |a| <= j {
        assert s[j] == b[j - |a|];
      }
    }
  }

  lemma LightingIdsDistinct()
    ensures forall i, j :: 0 <= i < j < |LightingRows| ==> LightingRows[i].id != LightingRows[j].id
  {
  }

  lemma LightingBanded()
    ensures forall i :: 0 <= i < |LightingRows| ==> Banded(LightingRows[i])
  {
  }

  lemma LightingLettered()
    ensures forall i :: 0 <= i < |LightingRows| ==>
      |LightingRows[i].id| >= 2 && LightingRows[i].id[0] == IdLetter(LightingRows[i].category)
  {
  }

  lemma LightingWellFormed()
    ensures WellFormed(LightingRows) && Within(LightingRows, 0, 1)
  {
    LightingBanded();
    LightingLettered();
    LightingIdsDistinct();
  }

  lemma OutletsBanded()
    ensures forall i :: 0 <= i < |OutletsRows| ==> Banded(OutletsRows[i])
  {
  }

  lemma OutletsLettered()
    ensures forall i :: 0 <= i < |OutletsRows| ==>
      |OutletsRows[i].id| >= 2 && OutletsRows[i].id[0] == IdLetter(OutletsRows[i].category)
  {
  }

  lemma OutletsIdsDistinct()
    ensures forall i, j :: 0 <= i < j < |OutletsRows| ==> OutletsRows[i].id != OutletsRows[j].id
  {
  }

  lemma OutletsWellFormed()
    ensures WellFormed(OutletsRows) && Within(OutletsRows, 1, 2)
  {
    OutletsBanded();
    OutletsLettered();
    OutletsIdsDistinct();
  }

  lemma PanelsBanded()
    ensures forall i :: 0 <= i < |PanelsRows| ==> Banded(PanelsRows[i])
  {
  }

  lemma PanelsLettered()
    ensures forall i :: 0 <= i < |PanelsRows| ==>
      |PanelsRows[i].id| >= 2 && PanelsRows[i].id[0] == IdLetter(PanelsRows[i].category)
  {
  }

  lemma PanelsIdsDistinct()
    ensures forall i, j :: 0 <= i < j < |PanelsRows| ==> PanelsRows[i].id != PanelsRows[j].id
  {
  }

  lemma PanelsWellFormed()
    ensures WellFormed(PanelsRows) && Within(PanelsRows, 2, 3)
  {
    PanelsBanded();
    PanelsLettered();
    PanelsIdsDistinct();
  }

  lemma CablingWellFormed()
    ensures WellFormed(CablingRows) && Within(CablingRows, 3, 4)
  {
  }

  lemma TroubleshootingWellFormed()
    ensures WellFormed(TroubleshootingRows) && Within(TroubleshootingRows, 4, 5)
  {
  }

  lemma ServiceEntranceWellFormed()
    ensures WellFormed(ServiceEntranceRows) && Within(ServiceEntranceRows, 5, 6)
  {
  }

  lemma VehicleChargerWellFormed()
    ensures WellFormed(VehicleChargerRows) && Within(VehicleChargerRows, 6, 7)
  {
  }

  lemma HomeAutomationBanded()
    ensures forall i :: 0 <= i < |HomeAutomationRows| ==> Banded(HomeAutomationRows[i])
  {
  }

  lemma HomeAutomationLettered()
    ensures forall i :: 0 <= i < |HomeAutomationRows| ==>
      |HomeAutomationRows[i].id| >= 2 && HomeAutomationRows[i].id[0] == IdLetter(HomeAutomationRows[i].category)
  {
  }

  lemma HomeAutomationIdsDistinct()
    ensures forall i, j :: 0 <= i < j < |HomeAutomationRows| ==> HomeAutomationRows[i].id != HomeAutomationRows[j].id
  {
  }

  lemma HomeAutomationWellFormed()
    ensures WellFormed(HomeAutomationRows) && Within(HomeAutomationRows, 7, 8)
  {
    HomeAutomationBanded();
    HomeAutomationLettered();
    HomeAutomationIdsDistinct();
  }

  /** A slice of one category is trivially grouped. */
  lemma SliceGrouped(rows: seq<ServiceDefinition>, k: nat)
    requires Within(rows, k, k + 1)
    ensures Grouped(rows)
  {
  }

  /** The first four categories. */
  lemma FrontWellFormed()
    ensures var t := LightingRows + OutletsRows + PanelsRows + CablingRows;
      WellFormed(t) && Within(t, 0, 4) && Grouped(t)
  {
    LightingWellFormed();
    OutletsWellFormed();
    PanelsWellFormed();
    CablingWellFormed();
    SliceGrouped(LightingRows, 0);
    SliceGrouped(OutletsRows, 1);
    SliceGrouped(PanelsRows, 2);
    SliceGrouped(CablingRows, 3);
    JoinRows(LightingRows, OutletsRows, 0, 1, 2);
    JoinGrouped(LightingRows, OutletsRows, 0, 1, 2);
    JoinRows(LightingRows + OutletsRows, PanelsRows, 0, 2, 3);
    JoinGrouped(LightingRows + OutletsRows, PanelsRows, 0, 2, 3);
    JoinRows(LightingRows + OutletsRows + PanelsRows, CablingRows, 0, 3, 4);
    JoinGrouped(LightingRows + OutletsRows + PanelsRows, CablingRows, 0, 3, 4);
  }

  /** The last four categories. */
  lemma BackWellFormed()
    ensures var t := TroubleshootingRows + ServiceEntranceRows + VehicleChargerRows + HomeAutomationRows;
      WellFormed(t) && Within(t, 4, 8) && Grouped(t)
  {
    TroubleshootingWellFormed();
    ServiceEntranceWellFormed();
    VehicleChargerWellFormed();
    HomeAutomationWellFormed();
    SliceGrouped(TroubleshootingRows, 4);
    SliceGrouped(ServiceEntranceRows, 5);
    SliceGrouped(VehicleChargerRows, 6);
    SliceGrouped(HomeAutomationRows, 7);
    JoinRows(TroubleshootingRows, ServiceEntranceRows, 4, 5, 6);
    JoinGrouped(TroubleshootingRows, ServiceEntranceRows, 4, 5, 6);
    JoinRows(TroubleshootingRows + ServiceEntranceRows, VehicleChargerRows, 4, 6, 7);
    JoinGrouped(TroubleshootingRows + ServiceEntranceRows, VehicleChargerRows, 4, 6, 7);
    JoinRows(TroubleshootingRows + ServiceEntranceRows + VehicleChargerRows, HomeAutomationRows, 4, 7, 8);
    JoinGrouped(TroubleshootingRows + ServiceEntranceRows + VehicleChargerRows, HomeAutomationRows, 4, 7, 8);
  }

  /** The table as its two halves. */
  lemma Halves()
    ensures SERVICES_DB == (LightingRows + OutletsRows + PanelsRows + CablingRows)
      + (TroubleshootingRows + ServiceEntranceRows + VehicleChargerRows + HomeAutomationRows)
  {
  }

  /** The whole table: 41 rows, every band sound, every id distinct and lettered by its category. */
  lemma ServicesWellFormed()
    ensures |SERVICES_DB| == 41
    ensures WellFormed(SERVICES_DB)
  {
    FrontWellFormed();
    BackWellFormed();
    Halves();
    JoinRows(LightingRows + OutletsRows + PanelsRows + CablingRows,
      TroubleshootingRows + ServiceEntranceRows + VehicleChargerRows + HomeAutomationRows, 0, 4, 8);
  }

  /** The table lists the categories one after the other, in the order of the enumeration. */
  lemma ServicesGrouped()
    ensures Grouped(SERVICES_DB)
  {
    FrontWellFormed();
    BackWellFormed();
    Halves();
    JoinGrouped(LightingRows + OutletsRows + PanelsRows + CablingRows,
      TroubleshootingRows + ServiceEntranceRows + VehicleChargerRows + HomeAutomationRows, 0, 4, 8);
  }

  /** Every catalogue price band is positive and ordered, with the average at the midpoint. */
  lemma ServicePriceBands(i: nat)
    requires i < |SERVICES_DB|
    ensures 0.0 < SERVICES_DB[i].minPrice <= SERVICES_DB[i].avgPrice <= SERVICES_DB[i].maxPrice
    ensures SERVICES_DB[i].avgPrice == (SERVICES_DB[i].minPrice + SERVICES_DB[i].maxPrice) / 2.0
  {
    ServicesWellFormed();
  }

  /** No two rows share an id, so an id picks out one catalogue service. */
  lemma ServiceIdsDistinct(i: nat, j: nat)
    requires i < |SERVICES_DB| && j < |SERVICES_DB|
    ensures SERVICES_DB[i].id == SERVICES_DB[j].id <==> i == j
  {
    ServicesWellFormed();
  }

  /** The first letter of an id names the row's category, and two rows share that letter iff they share a category. */
  lemma IdLetterNamesCategory(i: nat, j: nat)
    requires i < |SERVICES_DB| && j < |SERVICES_DB|
    ensures SERVICES_DB[i].id != [] && SERVICES_DB[i].id[0] == IdLetter(SERVICES_DB[i].category)
    ensures SERVICES_DB[i].id[0] == SERVICES_DB[j].id[0] <==> SERVICES_DB[i].category == SERVICES_DB[j].category
  {
    ServicesWellFormed();
    IdLetterInjective(SERVICES_DB[i].category, SERVICES_DB[j].category);
  }

  /** The first row of each category: no category is empty, and the row before it is of another category. */
  function FirstOfCategory(c: ServiceCategory): (k: nat)
    ensures k < |SERVICES_DB| && SERVICES_DB[k].category == c
    ensures k > 0 ==> SERVICES_DB[k - 1].category != c
  {
    match c
    case Iluminacao => 0
    case PontoUtilizacao => 11
    case QuadrosDistribuicao => 21
    case PassagemCabos => 27
    case SolucaoProblemas => 30
    case PadraoEntrada => 33
    case CarregadorVeicular => 36
    case AutomacaoResidencial => 37
  }

  /** Since the table is grouped, no row before `FirstOfCategory(c)` is of category `c`. */
  lemma FirstOfCategoryIsFirst(c: ServiceCategory)
    ensures forall i :: 0 <= i < FirstOfCategory(c) ==> SERVICES_DB[i].category != c
  {
    var k := FirstOfCategory(c);
    ServicesGrouped();
    forall i | 0 <= i < k
      ensures SERVICES_DB[i].category != c
    {
      var before := SERVICES_DB[k - 1].category;
      assert CategoryIndex(before) <= CategoryIndex(c);
      assert CategoryIndex(before) != CategoryIndex(c) by {
        assert AllCategories[CategoryIndex(before)] == before;
      }
      assert CategoryIndex(SERVICES_DB[i].category) <= CategoryIndex(before);
    }
  }
}
