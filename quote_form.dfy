/**
 * The three-step quote wizard. Its line-item handlers are list
 * transformations given here as functions (`AppendService`, `DropService`,
 * ...); the form's state is the class `QuoteFormState`, whose handler methods
 * replace one field each with the result of those functions. Fresh ids, which
 * the program draws from `Math.random`, and the save timestamp are parameters.
 */
module QuoteForm {
  import opened Types
  import Seqs
  import Text
  import Pricing
  import ServicesData
  import MaterialsData

  /** The service line `addService` appends for a catalogue row. */
  function NewService(def: ServiceDefinition, freshId: string): SelectedService
  {
    SelectedService(freshId, def.id, def.description, 1, def.avgPrice)
  }

  /** `[...selectedServices, newSelected]`: one line at the end, priced at the row's average. */
  function AppendService(services: seq<SelectedService>, def: ServiceDefinition, freshId: string): (r: seq<SelectedService>)
    ensures |r| == |services| + 1 && r[..|services|] == services
    ensures r[|services|].id == freshId && r[|services|].serviceId == def.id
    ensures r[|services|].description == def.description
    ensures r[|services|].quantity == 1 && r[|services|].unitPrice == def.avgPrice
  {
    services + [NewService(def, freshId)]
  }

  /** Adding a service raises the services subtotal by exactly that service's average price. */
  lemma AppendServiceSubtotal(services: seq<SelectedService>, def: ServiceDefinition, freshId: string)
    ensures Pricing.ServicesSubtotal(AppendService(services, def, freshId))
         == Pricing.ServicesSubtotal(services) + def.avgPrice
  {
    var n := NewService(def, freshId);
    Pricing.SumAppend(services, [n], Pricing.ServiceLine);
    assert Pricing.Sum([n], Pricing.ServiceLine) == Pricing.ServiceLine(n) + Pricing.Sum([n][1..], Pricing.ServiceLine);
  }

  /** No two lines share an id. */
  predicate UniqueIds(services: seq<SelectedService>)
  {
    forall i, j :: 0 <= i < j < |services| ==> services[i].id != services[j].id
  }

  /** A fresh id keeps the line ids unique, so later per-id edits touch only the new line. */
  lemma AppendServiceKeepsIdsUnique(services: seq<SelectedService>, def: ServiceDefinition, freshId: string)
    requires UniqueIds(services)
    requires forall i :: 0 <= i < |services| ==> services[i].id != freshId
    ensures UniqueIds(AppendService(services, def, freshId))
  {
  }

  /** `selectedServices.filter(s => s.id !== id)`. */
  function DropService(services: seq<SelectedService>, id: string): (r: seq<SelectedService>)
    ensures forall k :: 0 <= k < |r| ==> r[k].id != id && r[k] in services
    ensures forall k :: 0 <= k < |services| && services[k].id != id ==> services[k] in r
    ensures |r| + Seqs.Count(services, (s: SelectedService) => s.id == id) == |services|
  {
    var p := (s: SelectedService) => s.id != id;
    Seqs.CountComplement(services, (s: SelectedService) => s.id == id, p);
    Seqs.Filter(services, p)
  }

  /** Removal keeps the surviving lines in order and takes off exactly their share of the subtotal. */
  lemma DropServiceKeepsOrder(services: seq<SelectedService>, id: string)
    ensures Seqs.IsSubsequence(DropService(services, id), services)
    ensures Pricing.ServicesSubtotal(services)
         == Pricing.ServicesSubtotal(DropService(services, id))
          + Pricing.Sum(Seqs.Filter(services, (s: SelectedService) => s.id == id), Pricing.ServiceLine)
  {
    var p := (s: SelectedService) => s.id != id;
    Seqs.FilterIsSubsequence(services, p);
    Pricing.SumFilterSplit(services, Pricing.ServiceLine, p, (s: SelectedService) => s.id == id);
  }

  /** Removing an id no line carries leaves the list as it was. */
  lemma DropAbsentService(services: seq<SelectedService>, id: string)
    requires forall k :: 0 <= k < |services| ==> services[k].id != id
    ensures DropService(services, id) == services
  {
    Seqs.FilterKeepsAll(services, (s: SelectedService) => s.id != id);
  }

  function Max(a: int, b: int): int
  {
    if a >= b then a else b
  }

  /** `updateServiceQty`: the lines with `id` get quantity `max(1, qty)`; every other line is kept. */
  function SetServiceQty(services: seq<SelectedService>, id: string, qty: int): (r: seq<SelectedService>)
    ensures |r| == |services|
    ensures forall k :: 0 <= k < |r| && services[k].id != id ==> r[k] == services[k]
    ensures forall k :: 0 <= k < |r| && services[k].id == id ==>
      r[k] == services[k].(quantity := Max(1, qty)) && r[k].quantity >= 1
  {
    Seqs.Map(services, (s: SelectedService) => if s.id == id then s.(quantity := Max(1, qty)) else s)
  }

  /** Every line's quantity is at least one. */
  predicate PositiveQuantities(services: seq<SelectedService>)
  {
    forall k :: 0 <= k < |services| ==> services[k].quantity >= 1
  }

  /** The clamp keeps every quantity at least one, and setting the same quantity twice changes nothing more. */
  lemma SetServiceQtyClamps(services: seq<SelectedService>, id: string, qty: int)
    requires PositiveQuantities(services)
    ensures PositiveQuantities(SetServiceQty(services, id, qty))
    ensures SetServiceQty(SetServiceQty(services, id, qty), id, qty) == SetServiceQty(services, id, qty)
  {
  }

  /** `updateServicePrice`: the lines with `id` get the new unit price; every other line is kept. */
  function SetServicePrice(services: seq<SelectedService>, id: string, price: real): (r: seq<SelectedService>)
    ensures |r| == |services|
    ensures forall k :: 0 <= k < |r| && services[k].id != id ==> r[k] == services[k]
    ensures forall k :: 0 <= k < |r| && services[k].id == id ==> r[k] == services[k].(unitPrice := price)
  {
    Seqs.Map(services, (s: SelectedService) => if s.id == id then s.(unitPrice := price) else s)
  }

  /** A price edit keeps quantities, ids and order. */
  lemma SetServicePriceKeepsLines(services: seq<SelectedService>, id: string, price: real)
    requires PositiveQuantities(services)
    ensures PositiveQuantities(SetServicePrice(services, id, price))
    ensures forall k :: 0 <= k < |services| ==> SetServicePrice(services, id, price)[k].id == services[k].id
  {
  }

  /** `addMaterialManually`: a blank line, one "un" at price 0, appended at the end. */
  function AppendBlankMaterial(materials: seq<MaterialItem>, freshId: string): (r: seq<MaterialItem>)
    ensures |r| == |materials| + 1 && r[..|materials|] == materials
    ensures r[|materials|] == MaterialItem(freshId, "", 1.0, "un", 0.0)
  {
    materials + [MaterialItem(freshId, "", 1.0, "un", 0.0)]
  }

  /** `addMaterialFromDB`: a line copying the stock row's description, unit and price, quantity 1. */
  function AppendStockMaterial(materials: seq<MaterialItem>, def: MaterialDefinition, freshId: string): (r: seq<MaterialItem>)
    ensures |r| == |materials| + 1 && r[..|materials|] == materials
    ensures r[|materials|].id == freshId && r[|materials|].description == def.description
    ensures r[|materials|].unit == def.unit && r[|materials|].unitPrice == def.price
    ensures r[|materials|].quantity == 1.0
  {
    materials + [MaterialItem(freshId, def.description, 1.0, def.unit, def.price)]
  }

  /** A blank line adds nothing to the materials subtotal; a stock line adds its price. */
  lemma AppendMaterialSubtotal(materials: seq<MaterialItem>, def: MaterialDefinition, freshId: string)
    ensures Pricing.MaterialsSubtotal(AppendBlankMaterial(materials, freshId)) == Pricing.MaterialsSubtotal(materials)
    ensures Pricing.MaterialsSubtotal(AppendStockMaterial(materials, def, freshId))
         == Pricing.MaterialsSubtotal(materials) + def.price
  {
    var blank := MaterialItem(freshId, "", 1.0, "un", 0.0);
    var stock := MaterialItem(freshId, def.description, 1.0, def.unit, def.price);
    Pricing.SumAppend(materials, [blank], Pricing.MaterialLine);
    Pricing.SumAppend(materials, [stock], Pricing.MaterialLine);
    assert Pricing.Sum([blank], Pricing.MaterialLine) == Pricing.MaterialLine(blank) + Pricing.Sum([blank][1..], Pricing.MaterialLine);
    assert Pricing.Sum([stock], Pricing.MaterialLine) == Pricing.MaterialLine(stock) + Pricing.Sum([stock][1..], Pricing.MaterialLine);
  }

  /** The editable fields of a material line, each with the value the input delivers. */
  datatype MaterialEdit =
    | Description(text: string)
    | Unit(unit: string)
    | Quantity(quantity: real)
    | UnitPrice(price: real)

  /** `{ ...m, [field]: value }`. */
  function ApplyEdit(m: MaterialItem, e: MaterialEdit): MaterialItem
  {
    match e
    case Description(t) => m.(description := t)
    case Unit(u) => m.(unit := u)
    case Quantity(q) => m.(quantity := q)
    case UnitPrice(p) => m.(unitPrice := p)
  }

  /** `updateMaterial`: the lines with `id` get the edited field; every other line is kept. */
  function EditMaterial(materials: seq<MaterialItem>, id: string, e: MaterialEdit): (r: seq<MaterialItem>)
    ensures |r| == |materials|
    ensures forall k :: 0 <= k < |r| && materials[k].id != id ==> r[k] == materials[k]
    ensures forall k :: 0 <= k < |r| && materials[k].id == id ==> r[k] == ApplyEdit(materials[k], e)
  {
    Seqs.Map(materials, (m: MaterialItem) => if m.id == id then ApplyEdit(m, e) else m)
  }

  /** An edit changes the named field only: the id and the other three fields stay. */
  lemma EditChangesOneField(m: MaterialItem, e: MaterialEdit)
    ensures ApplyEdit(m, e).id == m.id
    ensures !e.Description? ==> ApplyEdit(m, e).description == m.description
    ensures !e.Unit? ==> ApplyEdit(m, e).unit == m.unit
    ensures !e.Quantity? ==> ApplyEdit(m, e).quantity == m.quantity
    ensures !e.UnitPrice? ==> ApplyEdit(m, e).unitPrice == m.unitPrice
  {
  }

  /** Editing the same field to the same value twice has the effect of editing it once. */
  lemma EditMaterialIdempotent(materials: seq<MaterialItem>, id: string, e: MaterialEdit)
    ensures EditMaterial(EditMaterial(materials, id, e), id, e) == EditMaterial(materials, id, e)
  {
    var once := EditMaterial(materials, id, e);
    var twice := EditMaterial(once, id, e);
    forall k | 0 <= k < |materials|
      ensures twice[k] == once[k]
    {
      EditChangesOneField(materials[k], e);
    }
  }

  /** `materials.filter(m => m.id !== id)`. */
  function DropMaterial(materials: seq<MaterialItem>, id: string): (r: seq<MaterialItem>)
    ensures forall k :: 0 <= k < |r| ==> r[k].id != id && r[k] in materials
    ensures forall k :: 0 <= k < |materials| && materials[k].id != id ==> materials[k] in r
    ensures |r| + Seqs.Count(materials, (m: MaterialItem) => m.id == id) == |materials|
  {
    var p := (m: MaterialItem) => m.id != id;
    Seqs.CountComplement(materials, (m: MaterialItem) => m.id == id, p);
    Seqs.Filter(materials, p)
  }

  lemma DropMaterialKeepsOrder(materials: seq<MaterialItem>, id: string)
    ensures Seqs.IsSubsequence(DropMaterial(materials, id), materials)
  {
    Seqs.FilterIsSubsequence(materials, (m: MaterialItem) => m.id != id);
  }

  /** A catalogue row is listed when its description or its category label contains the search term, case-insensitively. */
  predicate ServiceMatches(s: ServiceDefinition, term: string)
  {
    Text.Contains(Text.ToLower(s.description), Text.ToLower(term))
    || Text.Contains(Text.ToLower(CategoryLabel(s.category)), Text.ToLower(term))
  }

  /** `filteredServices`: the matching catalogue rows, in catalogue order. */
  function FilteredServices(term: string): (r: seq<ServiceDefinition>)
    ensures forall k :: 0 <= k < |r| ==> r[k] in ServicesData.SERVICES_DB && ServiceMatches(r[k], term)
    ensures forall k :: 0 <= k < |ServicesData.SERVICES_DB| && ServiceMatches(ServicesData.SERVICES_DB[k], term) ==>
      ServicesData.SERVICES_DB[k] in r
  {
    Seqs.Filter(ServicesData.SERVICES_DB, (s: ServiceDefinition) => ServiceMatches(s, term))
  }

  /** With an empty search box the whole catalogue is listed. */
  lemma EmptySearchListsAllServices()
    ensures FilteredServices("") == ServicesData.SERVICES_DB
  {
    Seqs.FilterKeepsAll(ServicesData.SERVICES_DB, (s: ServiceDefinition) => ServiceMatches(s, ""));
  }

  /** A stock material is listed when its description contains the search term, case-insensitively. */
  predicate MaterialMatches(m: MaterialDefinition, term: string)
  {
    Text.Contains(Text.ToLower(m.description), Text.ToLower(term))
  }

  /** `filteredMaterials`: the matching stock rows, in table order. */
  function FilteredMaterials(term: string): (r: seq<MaterialDefinition>)
    ensures forall k :: 0 <= k < |r| ==> r[k] in MaterialsData.MATERIALS_DB && MaterialMatches(r[k], term)
    ensures forall k :: 0 <= k < |MaterialsData.MATERIALS_DB| && MaterialMatches(MaterialsData.MATERIALS_DB[k], term) ==>
      MaterialsData.MATERIALS_DB[k] in r
  {
    Seqs.Filter(MaterialsData.MATERIALS_DB, (m: MaterialDefinition) => MaterialMatches(m, term))
  }

  /** The material search results are shown only while the material search box is not empty. */
  function MaterialResultsShown(term: string): (r: Option<seq<MaterialDefinition>>)
    ensures r.Some? <==> term != []
    ensures r.Some? ==> r.value == FilteredMaterials(term)
  {
    if term == [] then None else Some(FilteredMaterials(term))
  }

  /** The units offered by the drop-down of a material line. */
  const UnitOptions: seq<string> := ["un", "m", "rolo", "cx", "par", "pct", "kg"]

  /** Every unit of the stock table is one the drop-down offers, so a stock line can be edited without losing its unit. */
  lemma StockUnitsOffered(i: nat)
    requires i < |MaterialsData.MATERIALS_DB|
    ensures MaterialsData.MATERIALS_DB[i].unit in UnitOptions
  {
    MaterialsData.MaterialsSound();
  }

  /** The buttons of the wizard's footer. */
  datatype Buttons = Buttons(previous: bool, next: bool, save: bool)

  /** "Anterior" when past the first step; "Continuar" before the last, "Gerar Orçamento" in its place otherwise. */
  function FooterButtons(step: int): Buttons
  {
    Buttons(step > 1, step < 3, !(step < 3))
  }

  /** On the steps 1 to 3 the footer offers going back except on step 1, going on except on step 3, and saving only on step 3. */
  lemma FooterButtonsByStep(step: int)
    requires 1 <= step <= 3
    ensures FooterButtons(step).previous <==> step != 1
    ensures FooterButtons(step).next <==> step != 3
    ensures FooterButtons(step).save <==> step == 3
    ensures FooterButtons(step).next != FooterButtons(step).save
  {
  }

  /** `parseFloat(value) || 0`: an unparsable or zero input gives 0. */
  function TravelFeeInput(parsed: Option<real>): (fee: real)
    ensures parsed.None? ==> fee == 0.0
    ensures parsed.Some? ==> fee == parsed.value
  {
    match parsed
    case None => 0.0
    case Some(v) => v
  }

  /** The form's state: the wizard step, the client data, the line items and the two search terms. */
  class QuoteFormState {
    var step: int
    var clientName: string
    var clientPhone: string
    var address: string
    var travelFee: real
    var selectedServices: seq<SelectedService>
    var materials: seq<MaterialItem>
    var observations: string
    var validUntil: string
    var discount: real
    var searchTerm: string
    var materialSearchTerm: string

    /** The step stays in 1..3, the discount stays 0 (nothing sets it) and no service quantity drops below 1. */
    predicate Valid()
      reads this
    {
      1 <= step <= 3 && discount == 0.0 && PositiveQuantities(selectedServices)
    }

    constructor ()
      ensures Valid() && step == 1
      ensures clientName == "" && clientPhone == "" && address == ""
      ensures travelFee == 0.0 && discount == 0.0
      ensures selectedServices == [] && materials == []
      ensures observations == "" && validUntil == "" && searchTerm == "" && materialSearchTerm == ""
    {
      step := 1;
      clientName, clientPhone, address := "", "", "";
      travelFee := 0.0;
      selectedServices, materials := [], [];
      observations, validUntil := "", "";
      discount := 0.0;
      searchTerm, materialSearchTerm := "", "";
    }

    /** `calculateTotal`, run as the program does: two left folds, then travel fee and discount. */
    function CalculateTotal(): (t: real)
      reads this
      ensures t == Pricing.GrandTotal(selectedServices, materials, travelFee, discount)
    {
      Pricing.ReduceIsSum(selectedServices, Pricing.ServiceLine, 0.0);
      Pricing.ReduceIsSum(materials, Pricing.MaterialLine, 0.0);
      var sTotal := Pricing.Reduce(selectedServices, Pricing.ServiceLine, 0.0);
      var mTotal := Pricing.Reduce(materials, Pricing.MaterialLine, 0.0);
      sTotal + mTotal + travelFee - discount
    }

    /** "Continuar". */
    method Next()
      requires Valid() && FooterButtons(step).next
      modifies this`step
      ensures Valid() && step == old(step) + 1
    {
      step := step + 1;
    }

    /** "Anterior". */
    method Previous()
      requires Valid() && FooterButtons(step).previous
      modifies this`step
      ensures Valid() && step == old(step) - 1
    {
      step := step - 1;
    }

    method SetClientName(v: string)
      modifies this`clientName
      ensures clientName == v
    {
      clientName := v;
    }

    method SetClientPhone(v: string)
      modifies this`clientPhone
      ensures clientPhone == v
    {
      clientPhone := v;
    }

    method SetAddress(v: string)
      modifies this`address
      ensures address == v
    {
      address := v;
    }

    method SetObservations(v: string)
      modifies this`observations
      ensures observations == v
    {
      observations := v;
    }

    method SetValidUntil(v: string)
      modifies this`validUntil
      ensures validUntil == v
    {
      validUntil := v;
    }

    method SetSearchTerm(v: string)
      modifies this`searchTerm
      ensures searchTerm == v
    {
      searchTerm := v;
    }

    method SetMaterialSearchTerm(v: string)
      modifies this`materialSearchTerm
      ensures materialSearchTerm == v
    {
      materialSearchTerm := v;
    }

    /** The travel-fee input; `parsed` is what `parseFloat` made of the text. */
    method SetTravelFee(parsed: Option<real>)
      modifies this`travelFee
      ensures travelFee == TravelFeeInput(parsed)
    {
      travelFee := TravelFeeInput(parsed);
    }

    method AddService(def: ServiceDefinition, freshId: string)
      requires Valid()
      modifies this`selectedServices
      ensures Valid() && selectedServices == AppendService(old(selectedServices), def, freshId)
      ensures CalculateTotal() == old(CalculateTotal()) + def.avgPrice
    {
      AppendServiceSubtotal(selectedServices, def, freshId);
      selectedServices := AppendService(selectedServices, def, freshId);
    }

    method RemoveService(id: string)
      requires Valid()
      modifies this`selectedServices
      ensures Valid() && selectedServices == DropService(old(selectedServices), id)
    {
      selectedServices := DropService(selectedServices, id);
    }

    method UpdateServiceQty(id: string, qty: int)
      requires Valid()
      modifies this`selectedServices
      ensures Valid() && selectedServices == SetServiceQty(old(selectedServices), id, qty)
    {
      SetServiceQtyClamps(selectedServices, id, qty);
      selectedServices := SetServiceQty(selectedServices, id, qty);
    }

    method UpdateServicePrice(id: string, price: real)
      requires Valid()
      modifies this`selectedServices
      ensures Valid() && selectedServices == SetServicePrice(old(selectedServices), id, price)
    {
      SetServicePriceKeepsLines(selectedServices, id, price);
      selectedServices := SetServicePrice(selectedServices, id, price);
    }

    method AddMaterialManually(freshId: string)
      requires Valid()
      modifies this`materials
      ensures Valid() && materials == AppendBlankMaterial(old(materials), freshId)
      ensures CalculateTotal() == old(CalculateTotal())
    {
      AppendMaterialSubtotal(materials, MaterialDefinition("", "", "", 0.0), freshId);
      materials := AppendBlankMaterial(materials, freshId);
    }

    /** Adds the stock row and clears the material search box. */
    method AddMaterialFromDB(def: MaterialDefinition, freshId: string)
      requires Valid()
      modifies this`materials, this`materialSearchTerm
      ensures Valid() && materials == AppendStockMaterial(old(materials), def, freshId)
      ensures materialSearchTerm == ""
      ensures CalculateTotal() == old(CalculateTotal()) + def.price
    {
      AppendMaterialSubtotal(materials, def, freshId);
      materials := AppendStockMaterial(materials, def, freshId);
      materialSearchTerm := "";
    }

    method UpdateMaterial(id: string, e: MaterialEdit)
      requires Valid()
      modifies this`materials
      ensures Valid() && materials == EditMaterial(old(materials), id, e)
    {
      materials := EditMaterial(materials, id, e);
    }

    method RemoveMaterial(id: string)
      requires Valid()
      modifies this`materials
      ensures Valid() && materials == DropMaterial(old(materials), id)
    {
      materials := DropMaterial(materials, id);
    }

    /**
     * `handleSave`: no quote without a client name; otherwise a pending quote
     * carrying the form's data, with `validUntil` absent when its input is empty.
     */
    function HandleSave(freshId: string, now: string): (r: Option<Quote>)
      reads this
      ensures r.None? <==> clientName == ""
      ensures r.Some? ==> r.value.id == freshId && r.value.date == now && r.value.status == Pending
      ensures r.Some? ==> r.value.clientName == clientName && r.value.clientPhone == clientPhone && r.value.address == address
      ensures r.Some? ==> r.value.services == selectedServices && r.value.materials == materials
      ensures r.Some? ==> r.value.observations == observations
      ensures r.Some? ==> r.value.discount == discount && r.value.travelFee == travelFee
      ensures r.Some? ==> (r.value.validUntil.None? <==> validUntil == "")
      ensures r.Some? && validUntil != "" ==> r.value.validUntil == Some(validUntil)
    {
      if clientName == "" then None
      else
        Some(Quote(freshId, clientName, clientPhone, address, now,
                   if validUntil == "" then None else Some(validUntil),
                   selectedServices, materials, observations, discount, travelFee, Pending))
    }
  }

  /** A quote saved from a valid form carries no discount, and its total is the one the form displayed. */
  lemma SavedQuoteMatchesForm(f: QuoteFormState, freshId: string, now: string)
    requires f.Valid() && f.clientName != ""
    ensures f.HandleSave(freshId, now).Some?
    ensures f.HandleSave(freshId, now).value.discount == 0.0
    ensures Pricing.QuoteTotal(f.HandleSave(freshId, now).value) == f.CalculateTotal()
  {
  }
}
