/**
 * The entities of the electrician's quoting tool: the reference price tables'
 * rows, the line items of a quote, the quote itself and the application state.
 * Every TypeScript interface becomes a datatype; the string enumerations become
 * datatypes with a function giving the string the program stores or prints.
 */
module Types {

  datatype Option<+T> = None | Some(value: T)

  /** The eight service categories, in declaration order. */
  datatype ServiceCategory =
    | Iluminacao
    | PontoUtilizacao
    | QuadrosDistribuicao
    | PassagemCabos
    | SolucaoProblemas
    | PadraoEntrada
    | CarregadorVeicular
    | AutomacaoResidencial

  /** The string value each category carries in the enumeration. */
  function CategoryLabel(c: ServiceCategory): string
  {
    match c
    case Iluminacao => "Iluminação"
    case PontoUtilizacao => "Ponto de Utilização"
    case QuadrosDistribuicao => "Quadros de Distribuição / Painel"
    case PassagemCabos => "Passagem de Cabos"
    case SolucaoProblemas => "Solução de Problemas Elétricos"
    case PadraoEntrada => "Padrão de Entrada"
    case CarregadorVeicular => "Carregador Veicular"
    case AutomacaoResidencial => "Automação Residencial"
  }

  /** `Object.values(ServiceCategory)`: every category once, in declaration order. */
  const AllCategories: seq<ServiceCategory> :=
    [Iluminacao, PontoUtilizacao, QuadrosDistribuicao, PassagemCabos,
     SolucaoProblemas, PadraoEntrada, CarregadorVeicular, AutomacaoResidencial]

  /** The position of a category in `AllCategories`. */
  function CategoryIndex(c: ServiceCategory): (k: nat)
    ensures k < |AllCategories| && AllCategories[k] == c
  {
    match c
    case Iluminacao => 0
    case PontoUtilizacao => 1
    case QuadrosDistribuicao => 2
    case PassagemCabos => 3
    case SolucaoProblemas => 4
    case PadraoEntrada => 5
    case CarregadorVeicular => 6
    case AutomacaoResidencial => 7
  }

  lemma AllCategoriesEnumerates()
    ensures |AllCategories| == 8
    ensures forall c: ServiceCategory :: c in AllCategories
    ensures forall i, j :: 0 <= i < j < |AllCategories| ==> AllCategories[i] != AllCategories[j]
  {
    forall c: ServiceCategory ensures c in AllCategories {
      var k := CategoryIndex(c);
    }
  }

  /** The first three characters of every label tell the categories apart. */
  function LabelStem(c: ServiceCategory): (stem: string)
    ensures |CategoryLabel(c)| >= 3 && CategoryLabel(c)[..3] == stem
  {
    match c
    case Iluminacao => "Ilu"
    case PontoUtilizacao => "Pon"
    case QuadrosDistribuicao => "Qua"
    case PassagemCabos => "Pas"
    case SolucaoProblemas => "Sol"
    case PadraoEntrada => "Pad"
    case CarregadorVeicular => "Car"
    case AutomacaoResidencial => "Aut"
  }

  /** No two categories share a label, so the label identifies the category. */
  lemma CategoryLabelsDistinct(c: ServiceCategory, d: ServiceCategory)
    ensures CategoryLabel(c) == CategoryLabel(d) <==> c == d
  {
    var sc, sd := LabelStem(c), LabelStem(d);
    if c != d {
      assert sc != sd;
    }
  }

  datatype ServiceDefinition = ServiceDefinition(
    id: string,
    category: ServiceCategory,
    description: string,
    minPrice: real,
    maxPrice: real,
    avgPrice: real)

  datatype MaterialDefinition = MaterialDefinition(
    id: string,
    description: string,
    unit: string,
    price: real)

  /** A material line of a quote; it carries its own unit of measure. */
  datatype MaterialItem = MaterialItem(
    id: string,
    description: string,
    quantity: real,
    unit: string,
    unitPrice: real)

  /** A service line of a quote; unlike a material line it has no unit. */
  datatype SelectedService = SelectedService(
    id: string,
    serviceId: string,
    description: string,
    quantity: int,
    unitPrice: real)

  datatype Status = Pending | Approved | Completed | Cancelled

  /** The string the program stores for a status. */
  function StatusName(s: Status): string
  {
    match s
    case Pending => "pending"
    case Approved => "approved"
    case Completed => "completed"
    case Cancelled => "cancelled"
  }

  /** A quote; `validUntil` is its only optional field. */
  datatype Quote = Quote(
    id: string,
    clientName: string,
    clientPhone: string,
    address: string,
    date: string,
    validUntil: Option<string>,
    services: seq<SelectedService>,
    materials: seq<MaterialItem>,
    observations: string,
    discount: real,
    travelFee: real,
    status: Status)

  datatype Tab = DashboardTab | QuotesTab | NewQuoteTab | CatalogTab

  /** The string id of a tab, as stored in the state and in the menu. */
  function TabId(t: Tab): string
  {
    match t
    case DashboardTab => "dashboard"
    case QuotesTab => "quotes"
    case NewQuoteTab => "new-quote"
    case CatalogTab => "catalog"
  }

  lemma TabIdsDistinct(s: Tab, t: Tab)
    ensures TabId(s) == TabId(t) <==> s == t
  {
  }

  datatype AppState = AppState(quotes: seq<Quote>, activeTab: Tab)
}
