/**
 * Cuba's provinces and municipalities (src/utils/cuba.ts), and the pair of
 * selects built on them by the registration and profile forms.
 */
module Cuba {

  /** `CUBA_PROVINCES`, in declaration order: each province with its municipalities. */
  const Table: seq<(string, seq<string>)> := [
    ("Pinar del Río", PinarDelRio),
    ("Artemisa", Artemisa),
    ("La Habana", LaHabana),
    ("Mayabeque", Mayabeque),
    ("Matanzas", Matanzas),
    ("Villa Clara", VillaClara),
    ("Cienfuegos", Cienfuegos),
    ("Sancti Spíritus", SanctiSpiritus),
    ("Ciego de Ávila", CiegoDeAvila),
    ("Camagüey", Camaguey),
    ("Las Tunas", LasTunas),
    ("Holguín", Holguin),
    ("Granma", Granma),
    ("Santiago de Cuba", SantiagoDeCuba),
    ("Guantánamo", Guantanamo),
    ("Isla de la Juventud", IslaDeLaJuventudTowns)
  ]

  const PinarDelRio: seq<string> := ["Pinar del Río", "Consolación del Sur", "Guane", "La Palma", "Los Palacios", "Mantua", "Minas de Matahambre", "San Juan y Martínez", "San Luis", "Sandino", "Viñales"]
  const Artemisa: seq<string> := ["Artemisa", "Alquízar", "Bahía Honda", "Bauta", "Caimito", "Candelaria", "Guanajay", "Güira de Melena", "Mariel", "San Antonio de los Baños", "Soroa"]
  const LaHabana: seq<string> := ["La Habana Vieja", "Centro Habana", "Cerro", "Diez de Octubre", "Plaza de la Revolución", "Playa", "Marianao", "La Lisa", "Boyeros", "Arroyo Naranjo", "Cotorro", "San Miguel del Padrón", "Guanabacoa", "Regla", "Habana del Este"]
  const Mayabeque: seq<string> := ["Güines", "Batabanó", "Bejucal", "Jaruco", "Madruga", "Melena del Sur", "Nueva Paz", "Quivicán", "San José de las Lajas", "San Nicolás", "Santa Cruz del Norte"]
  const Matanzas: seq<string> := ["Matanzas", "Calimete", "Cárdenas", "Ciénaga de Zapata", "Colón", "Jagüey Grande", "Jovellanos", "Limonar", "Los Arabos", "Martí", "Pedro Betancourt", "Perico", "Unión de Reyes"]
  const VillaClara: seq<string> := ["Santa Clara", "Caibarién", "Camajuaní", "Cifuentes", "Corralillo", "Encrucijada", "Manicaragua", "Placetas", "Quemado de Güines", "Ranchuelo", "Remedios", "Sagua la Grande", "Santo Domingo"]
  const Cienfuegos: seq<string> := ["Cienfuegos", "Abreus", "Aguada de Pasajeros", "Cruces", "Cumanayagua", "Lajas", "Palmira", "Rodas"]
  const SanctiSpiritus: seq<string> := ["Sancti Spíritus", "Cabaiguán", "Fomento", "Jatibonico", "La Sierpe", "Taguasco", "Trinidad", "Yaguajay"]
  const CiegoDeAvila: seq<string> := ["Ciego de Ávila", "Baraguá", "Bolivia", "Chambas", "Ciro Redondo", "Florencia", "Majagua", "Morón", "Primero de Enero", "Venezuela"]
  const Camaguey: seq<string> := ["Camagüey", "Carlos M. de Céspedes", "Esmeralda", "Florida", "Guaimaro", "Jimagüayú", "Minas", "Najasa", "Nuevitas", "Santa Cruz del Sur", "Sibanicú", "Sierra de Cubitas", "Vertientes"]
  const LasTunas: seq<string> := ["Las Tunas", "Amancio", "Colombia", "Jesús Menéndez", "Jobabo", "Majibacoa", "Manatí", "Puerto Padre"]
  const Holguin: seq<string> := ["Holguín", "Antilla", "Báguanos", "Banes", "Cacocum", "Calixto García", "Cueto", "Frank País", "Gibara", "Mayarí", "Moa", "Rafael Freyre", "Sagua de Tánamo", "Urbano Noris"]
  const Granma: seq<string> := ["Bayamo", "Bartolomé Masó", "Buey Arriba", "Campechuela", "Cauto Cristo", "Guisa", "Jiguaní", "Manzanillo", "Media Luna", "Niquero", "Pilón", "Río Cauto", "Yara"]
  const SantiagoDeCuba: seq<string> := ["Santiago de Cuba", "Contramaestre", "Guamá", "Mella", "Palma Soriano", "San Luis", "Segundo Frente", "Songo-La Maya", "Tercer Frente"]
  const Guantanamo: seq<string> := ["Guantánamo", "Baracoa", "Caimanera", "El Salvador", "Imías", "Maisí", "Manuel Tames", "Niceto Pérez", "San Antonio del Sur", "Yateras"]
  const IslaDeLaJuventudTowns: seq<string> := ["Nueva Gerona"]

  /** The keys of a table, in order. */
  function Keys(t: seq<(string, seq<string>)>): (r: seq<string>)
    ensures |r| == |t| && forall i :: 0 <= i < |t| ==> r[i] == t[i].0
  {
    if t == [] then [] else [t[0].0] + Keys(t[1..])
  }

  /** `PROVINCES = Object.keys(CUBA_PROVINCES)`. */
  const Provinces: seq<string> := Keys(Table)

  /** The entry of the first row with key p, or [] without one. */
  function Lookup(t: seq<(string, seq<string>)>, p: string): (r: seq<string>)
    ensures p !in Keys(t) ==> r == []
    ensures forall i :: 0 <= i < |t| && t[i].0 == p && (forall j :: 0 <= j < i ==> t[j].0 != p) ==> r == t[i].1
  {
    if t == [] then []
    else if t[0].0 == p then t[0].1
    else
      assert forall i :: 0 < i < |t| ==> t[i] == t[1..][i - 1];
      Lookup(t[1..], p)
  }

  /** `getMunicipalities(province)`. */
  function Municipalities(province: string): seq<string>
  {
    Lookup(Table, province)
  }

  /** Every province of the table lists at least one municipality. */
  lemma TableEntriesNonEmpty()
    ensures forall i :: 0 <= i < |Table| ==> |Table[i].1| > 0
    ensures |Table| == 16
  {
  }

  /** With non-empty entries, a key is listed exactly when its lookup is not empty. */
  lemma {:induction false} LookupNonEmptyIffListed(t: seq<(string, seq<string>)>, p: string)
    requires forall i :: 0 <= i < |t| ==> |t[i].1| > 0
    ensures Lookup(t, p) != [] <==> p in Keys(t)
  {
    if t != [] && t[0].0 != p {
      assert forall i :: 0 <= i < |t[1..]| ==> t[1..][i] == t[i + 1];
      LookupNonEmptyIffListed(t[1..], p);
      assert Keys(t) == [t[0].0] + Keys(t[1..]);
    }
  }

  /** A province is offered exactly when it has municipalities to choose from. */
  lemma ListedIffHasMunicipalities(province: string)
    ensures province in Provinces <==> Municipalities(province) != []
  {
    TableEntriesNonEmpty();
    LookupNonEmptyIffListed(Table, province);
  }

  /** The placeholder '' is not a province, so it has no municipalities. */
  lemma NoProvinceNoMunicipalities()
    ensures Municipalities("") == []
  {
    assert forall i :: 0 <= i < |Table| ==> |Table[i].0| > 0;
    assert "" !in Provinces;
    ListedIffHasMunicipalities("");
  }

  /** The island municipality is a province of its own with the single municipality Nueva Gerona. */
  lemma IslaDeLaJuventud()
    ensures "Isla de la Juventud" in Provinces
    ensures Municipalities("Isla de la Juventud") == ["Nueva Gerona"]
  {
    var p := "Isla de la Juventud";
    assert Table[15] == (p, ["Nueva Gerona"]);
    assert forall j :: 0 <= j < 15 ==> |Table[j].0| != |p|;
    assert Provinces[15] == p;
  }

  // ---------------------------------------------------------------------
  // The province and municipality selects

  datatype Location = Location(province: string, municipality: string)

  /** Choosing a province always clears the municipality. */
  function PickProvince(l: Location, province: string): Location
  {
    Location(province, "")
  }

  /**
   * After choosing a province the pair is never valid until a municipality
   * is picked again, and a municipality picked from the options belongs to
   * the chosen province.
   */
  lemma PickResetsMunicipality(l: Location, province: string, m: string)
    ensures PickProvince(l, province).municipality == ""
    ensures PickProvince(l, province).province == province
    ensures m in MunicipalityOptions(PickProvince(l, province)) ==>
      PickMunicipality(PickProvince(l, province), m) == Location(province, m) && province in Provinces
  {
    if m in MunicipalityOptions(PickProvince(l, province)) {
      ListedIffHasMunicipalities(province);
    }
  }

  function PickMunicipality(l: Location, municipality: string): Location
  {
    Location(l.province, municipality)
  }

  /** The municipality options follow the chosen province. */
  function MunicipalityOptions(l: Location): seq<string>
  {
    Municipalities(l.province)
  }

  /** The municipality select is disabled until a province is chosen; with none chosen it has no options anyway. */
  predicate MunicipalityDisabled(l: Location)
  {
    l.province == ""
  }
}
