/**
 * The reference price table of materials, `MATERIALS_DB`: 21 rows,
 * ids m1 to m21. It is written as two slices, the ids of one and of two
 * digits, so that its facts are proved slice by slice.
 */
module MaterialsData {
  import opened Types

  /** Rows m1 to m9 (data/materials.ts:5-13). */
  const ShortIdRows: seq<MaterialDefinition> := [
    MaterialDefinition("m1", "Cabo Flexível 1,5mm² - Preto", "m", 2.5),
    MaterialDefinition("m2", "Cabo Flexível 1,5mm² - Azul", "m", 2.5),
    MaterialDefinition("m3", "Cabo Flexível 2,5mm² - Preto", "m", 3.8),
    MaterialDefinition("m4", "Cabo Flexível 2,5mm² - Azul", "m", 3.8),
    MaterialDefinition("m5", "Cabo Flexível 4,0mm² - Preto", "m", 6.2),
    MaterialDefinition("m6", "Cabo Flexível 6,0mm² - Preto", "m", 9.5),
    MaterialDefinition("m7", "Disjuntor Monofásico DIN 10A", "un", 12.0),
    MaterialDefinition("m8", "Disjuntor Monofásico DIN 16A", "un", 12.0),
    MaterialDefinition("m9", "Disjuntor Monofásico DIN 20A", "un", 12.0)
  ]

  /** Rows m10 to m21 (data/materials.ts:14-25). */
  const LongIdRows: seq<MaterialDefinition> := [
    MaterialDefinition("m10", "Disjuntor Bifásico DIN 32A", "un", 45.0),
    MaterialDefinition("m11", "Disjuntor Bifásico DIN 40A", "un", 45.0),
    MaterialDefinition("m12", "Tomada 10A 4x2 Completa - Branca", "un", 15.0),
    MaterialDefinition("m13", "Tomada 20A 4x2 Completa - Branca", "un", 18.0),
    MaterialDefinition("m14", "Interruptor Simples 4x2 Completo", "un", 14.0),
    MaterialDefinition("m15", "Interruptor Duplo 4x2 Completo", "un", 22.0),
    MaterialDefinition("m16", "Fita Isolante 20m - Profissional", "rolo", 18.0),
    MaterialDefinition("m17", "Eletroduto Flexível Corrugado 3/4 (25mm)", "m", 2.2),
    MaterialDefinition("m18", "Caixa de Passagem 4x2 PVC", "un", 3.5),
    MaterialDefinition("m19", "Quadro de Distribuição 12/16 Disjuntores", "un", 85.0),
    MaterialDefinition("m20", "DPS 20kA 275V", "un", 45.0),
    MaterialDefinition("m21", "DR Bipolar 40A 30mA", "un", 120.0)
  ]

  const MATERIALS_DB: seq<MaterialDefinition> := ShortIdRows + LongIdRows

  /** The units the table uses. */
  predicate StockUnit(u: string)
  {
    u == "m" || u == "un" || u == "rolo"
  }

  /** A sound row: an "m" id of the given length, a description, a stock unit and a positive price. */
  predicate SoundRow(d: MaterialDefinition, idLength: nat)
  {
    |d.id| == idLength && "m" <= d.id && d.description != [] && StockUnit(d.unit) && d.price > 0.0
  }

  predicate SoundRows(rows: seq<MaterialDefinition>, idLength: nat)
  {
    (forall i :: 0 <= i < |rows| ==> SoundRow(rows[i], idLength))
    && (forall i, j :: 0 <= i < j < |rows| ==> rows[i].id != rows[j].id)
  }

  lemma ShortIdRowsDistinct()
    ensures forall i, j :: 0 <= i < j < |ShortIdRows| ==> ShortIdRows[i].id != ShortIdRows[j].id
  {
  }

  lemma ShortIdRowsEachSound()
    ensures forall i :: 0 <= i < |ShortIdRows| ==> SoundRow(ShortIdRows[i], 2)
  {
  }

  lemma ShortIdRowsSound()
    ensures SoundRows(ShortIdRows, 2)
  {
    ShortIdRowsEachSound();
    ShortIdRowsDistinct();
  }

  lemma LongIdRowsDistinct()
    ensures forall i, j :: 0 <= i < j < |LongIdRows| ==> LongIdRows[i].id != LongIdRows[j].id
  {
  }

  lemma LongIdRowsEachSound()
    ensures forall i :: 0 <= i < |LongIdRows| ==> SoundRow(LongIdRows[i], 3)
  {
  }

  lemma LongIdRowsSound()
    ensures SoundRows(LongIdRows, 3)
  {
    LongIdRowsEachSound();
    LongIdRowsDistinct();
  }

  /** Each row of the table is a sound row: a short id in the first part, a long one after. */
  lemma MaterialsEachSound()
    ensures forall i :: 0 <= i < |MATERIALS_DB| ==> SoundRow(MATERIALS_DB[i], if i < |ShortIdRows| then 2 else 3)
  {
    ShortIdRowsSound();
    LongIdRowsSound();
    var s := MATERIALS_DB;
    forall i | 0 <= i < |s|
      ensures SoundRow(s[i], if i < |ShortIdRows| then 2 else 3)
    {
      if i >= |ShortIdRows| {
        assert s[i] == LongIdRows[i - |ShortIdRows|];
      }
    }
  }

  /** No two rows of the table share an id: within each part by listing, across them by length. */
  lemma MaterialsIdsDistinct()
    ensures forall i, j :: 0 <= i < j < |MATERIALS_DB| ==> MATERIALS_DB[i].id != MATERIALS_DB[j].id
  {
    ShortIdRowsSound();
    LongIdRowsSound();
    MaterialsEachSound();
    var s := MATERIALS_DB;
    forall i, j | 0 <= i < j < |s|
      ensures s[i].id != s[j].id
    {
      if j < |ShortIdRows| {
        assert s[i] == ShortIdRows[i] && s[j] == ShortIdRows[j];
      } else if |ShortIdRows| <= i {
        assert s[i] == LongIdRows[i - |ShortIdRows|] && s[j] == LongIdRows[j - |ShortIdRows|];
      } else {
        assert |s[i].id| == 2 && |s[j].id| == 3;
      }
    }
  }

  /**
   * The whole table: 21 rows, each with a non-empty description, a unit among
   * m, un and rolo and a positive price, and no two rows with the same id.
   */
  lemma MaterialsSound()
    ensures |MATERIALS_DB| == 21
    ensures forall i :: 0 <= i < |MATERIALS_DB| ==>
      MATERIALS_DB[i].description != [] && StockUnit(MATERIALS_DB[i].unit) && MATERIALS_DB[i].price > 0.0
    ensures forall i, j :: 0 <= i < j < |MATERIALS_DB| ==> MATERIALS_DB[i].id != MATERIALS_DB[j].id
  {
    MaterialsEachSound();
    MaterialsIdsDistinct();
  }
}
