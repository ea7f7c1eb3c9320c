/**
 * The weather card's condition text: WMO weather interpretation codes, as
 * published by Open-Meteo, mapped to Spanish labels over inclusive ranges.
 */
module WeatherCard {
  import Api

  const Despejado := "Despejado"
  const ParcialmenteNublado := "Parcialmente Nublado"
  const Niebla := "Niebla"
  const Llovizna := "Llovizna"
  const Lluvia := "Lluvia"
  const Nieve := "Nieve"
  const Chubascos := "Chubascos"
  const Tormenta := "Tormenta El\U{00E9}ctrica"
  const Desconocido := "Desconocido"

  /** `getWeatherDescription`: the chain of range tests, in the source's order. */
  function Description(code: int): string {
    if code == 0 then Despejado
    else if 1 <= code <= 3 then ParcialmenteNublado
    else if 45 <= code <= 48 then Niebla
    else if 51 <= code <= 55 then Llovizna
    else if 61 <= code <= 65 then Lluvia
    else if 71 <= code <= 75 then Nieve
    else if 80 <= code <= 82 then Chubascos
    else if 95 <= code <= 99 then Tormenta
    else Desconocido
  }

  /** One row of the WMO table: an inclusive code range and its text. */
  datatype Range = Range(lo: int, hi: int, text: string) {
    predicate Has(code: int) { lo <= code <= hi }
  }

  /** The table the chain implements, as data. */
  const Table: seq<Range> := [
    Range(0, 0, Despejado),
    Range(1, 3, ParcialmenteNublado),
    Range(45, 48, Niebla),
    Range(51, 55, Llovizna),
    Range(61, 65, Lluvia),
    Range(71, 75, Nieve),
    Range(80, 82, Chubascos),
    Range(95, 99, Tormenta)
  ]

  /** No code lies in two rows of a table. */
  ghost predicate Disjoint(table: seq<Range>) {
    forall i, j, code :: 0 <= i < j < |table| && table[i].Has(code) ==> !table[j].Has(code)
  }

  /** Reference definition: the label of the first row holding `code`, else `Desconocido`. */
  function Lookup(table: seq<Range>, code: int): string {
    if table == [] then Desconocido
    else if table[0].Has(code) then table[0].text
    else Lookup(table[1..], code)
  }

  /** In a disjoint table, a row holding the code decides the lookup. */
  lemma {:induction false} LookupFindsRow(table: seq<Range>, k: int, code: int)
    requires Disjoint(table)
    requires 0 <= k < |table| && table[k].Has(code)
    ensures Lookup(table, code) == table[k].text
  {
    if k > 0 {
      assert !table[0].Has(code);
      assert Disjoint(table[1..]) by {
        forall i, j, c | 0 <= i < j < |table| - 1 && table[1..][i].Has(c)
          ensures !table[1..][j].Has(c)
        {
          assert table[1..][i] == table[i + 1] && table[1..][j] == table[j + 1];
        }
      }
      LookupFindsRow(table[1..], k - 1, code);
    }
  }

  /** A code in no row looks up to `Desconocido`. */
  lemma {:induction false} LookupDefault(table: seq<Range>, code: int)
    requires forall k :: 0 <= k < |table| ==> !table[k].Has(code)
    ensures Lookup(table, code) == Desconocido
  {
    if table != [] {
      assert forall k :: 0 <= k < |table| - 1 ==> table[1..][k] == table[k + 1];
      LookupDefault(table[1..], code);
    }
  }

  /** The ranges are pairwise disjoint, so exactly one branch applies to each code. */
  lemma TableDisjoint()
    ensures Disjoint(Table)
  {
  }

  /** Each code in a row of the table gets that row's label. */
  lemma DescriptionInRange(k: int, code: int)
    requires 0 <= k < |Table| && Table[k].Has(code)
    ensures Description(code) == Table[k].text
  {
  }

  /** Any code in no row (999, a negative code, 4 to 44, ...) is `Desconocido`. */
  lemma DescriptionOutOfRange(code: int)
    requires forall k :: 0 <= k < |Table| ==> !Table[k].Has(code)
    ensures Description(code) == Desconocido
  {
    assert !Table[0].Has(code) && !Table[1].Has(code) && !Table[2].Has(code) && !Table[3].Has(code);
    assert !Table[4].Has(code) && !Table[5].Has(code) && !Table[6].Has(code) && !Table[7].Has(code);
  }

  /** The chain of tests agrees everywhere with the table lookup. */
  lemma DescriptionIsLookup(code: int)
    ensures Description(code) == Lookup(Table, code)
  {
    TableDisjoint();
    if k :| 0 <= k < |Table| && Table[k].Has(code) {
      DescriptionInRange(k, code);
      LookupFindsRow(Table, k, code);
    } else {
      DescriptionOutOfRange(code);
      LookupDefault(Table, code);
    }
  }

  /** The labels are pairwise distinct, so the label tells which row a code is in. */
  lemma LabelsDistinct()
    ensures forall i, j :: 0 <= i < j < |Table| ==> Table[i].text != Table[j].text
    ensures forall i :: 0 <= i < |Table| ==> Table[i].text != Desconocido
  {
  }

  /** The values the card's tests check: 0, 61 and 999. */
  lemma DescriptionExamples()
    ensures Description(0) == Despejado
    ensures Description(61) == Lluvia
    ensures Description(999) == Desconocido
    ensures forall code :: 61 <= code <= 65 ==> Description(code) == Lluvia
  {
  }

  /** The card's "Condición" cell. */
  function ConditionText(data: Api.WeatherData): string {
    Description(data.weatherCode)
  }

  /** The condition text depends on the weather code alone, not on temperature or wind. */
  lemma ConditionDependsOnCodeOnly(a: Api.WeatherData, b: Api.WeatherData)
    requires a.weatherCode == b.weatherCode
    ensures ConditionText(a) == ConditionText(b)
  {
  }
}
