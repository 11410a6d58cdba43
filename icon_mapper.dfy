/**
 * The campus location icons: the name-to-icon table, the catalogue of icons
 * with their labels and categories, and the lookup, category and search
 * functions over them.
 */
module IconMapper {

  import opened Common

  /** LocationIconName. */
  datatype IconName =
    | BuildingName | BookOpenName | CoffeeName | CarName | GraduationCapName | BeakerName
    | UsersName | DumbbellName | HeartName | UtensilsName | BriefcaseName | WifiName
    | PrinterName | ComputerName | MusicName | MapPinName

  /** The Lucide components the table points to. */
  datatype Icon =
    | Building | BookOpen | Coffee | Car | GraduationCap | Beaker
    | Users | Dumbbell | Heart | Utensils | Briefcase | Wifi
    | Printer | Computer | Music | MapPin

  function NameString(n: IconName): string {
    match n
    case BuildingName => "building"
    case BookOpenName => "book-open"
    case CoffeeName => "coffee"
    case CarName => "car"
    case GraduationCapName => "graduation-cap"
    case BeakerName => "beaker"
    case UsersName => "users"
    case DumbbellName => "dumbbell"
    case HeartName => "heart"
    case UtensilsName => "utensils"
    case BriefcaseName => "briefcase"
    case WifiName => "wifi"
    case PrinterName => "printer"
    case ComputerName => "computer"
    case MusicName => "music"
    case MapPinName => "map-pin"
  }

  /** The icon name a string spells, if any. */
  function ParseName(s: string): (r: Option<IconName>)
    ensures r.Some? ==> NameString(r.value) == s
  {
    if s == "building" then Some(BuildingName)
    else if s == "book-open" then Some(BookOpenName)
    else if s == "coffee" then Some(CoffeeName)
    else if s == "car" then Some(CarName)
    else if s == "graduation-cap" then Some(GraduationCapName)
    else if s == "beaker" then Some(BeakerName)
    else if s == "users" then Some(UsersName)
    else if s == "dumbbell" then Some(DumbbellName)
    else if s == "heart" then Some(HeartName)
    else if s == "utensils" then Some(UtensilsName)
    else if s == "briefcase" then Some(BriefcaseName)
    else if s == "wifi" then Some(WifiName)
    else if s == "printer" then Some(PrinterName)
    else if s == "computer" then Some(ComputerName)
    else if s == "music" then Some(MusicName)
    else if s == "map-pin" then Some(MapPinName)
    else None
  }

  /** Every name is recognised, so no two names are spelled alike. */
  lemma ParseNameString(n: IconName)
    ensures ParseName(NameString(n)) == Some(n)
  {
  }

  lemma NameStringInjective(a: IconName, b: IconName)
    ensures NameString(a) == NameString(b) ==> a == b
  {
    ParseNameString(a);
    ParseNameString(b);
  }

  /** LOCATION_ICON_MAP: the fallback icon MapPin is the table's entry for its own name only. */
  function LocationIconMap(n: IconName): (r: Icon)
    ensures r == MapPin <==> n == MapPinName
  {
    match n
    case BuildingName => Building
    case BookOpenName => BookOpen
    case CoffeeName => Coffee
    case CarName => Car
    case GraduationCapName => GraduationCap
    case BeakerName => Beaker
    case UsersName => Users
    case DumbbellName => Dumbbell
    case HeartName => Heart
    case UtensilsName => Utensils
    case BriefcaseName => Briefcase
    case WifiName => Wifi
    case PrinterName => Printer
    case ComputerName => Computer
    case MusicName => Music
    case MapPinName => MapPin
  }

  /** The table gives each name its own icon. */
  lemma IconMapInjective(a: IconName, b: IconName)
    ensures LocationIconMap(a) == LocationIconMap(b) ==> a == b
  {
    match a
    case BuildingName =>
    case BookOpenName =>
    case CoffeeName =>
    case CarName =>
    case GraduationCapName =>
    case BeakerName =>
    case UsersName =>
    case DumbbellName =>
    case HeartName =>
    case UtensilsName =>
    case BriefcaseName =>
    case WifiName =>
    case PrinterName =>
    case ComputerName =>
    case MusicName =>
    case MapPinName =>
  }

  datatype Category = Basic | Services

  /** LocationIconDefinition; `labelText` is its `label` field (`label` is a
      reserved word in Dafny). */
  datatype IconDefinition = IconDefinition(
    name: IconName,
    component: Icon,
    labelText: string,
    description: string,
    category: Category)

  /** AVAILABLE_LOCATION_ICONS. */
  const AvailableIcons: seq<IconDefinition> := [
    IconDefinition(BuildingName, Building, "Edificio", "Edificios y estructuras generales", Basic),
    IconDefinition(BookOpenName, BookOpen, "Biblioteca", "Bibliotecas y salas de lectura", Basic),
    IconDefinition(CoffeeName, Coffee, "Cafetería", "Cafeterías y áreas de snacks", Basic),
    IconDefinition(CarName, Car, "Estacionamiento", "Estacionamientos y parqueaderos", Basic),
    IconDefinition(GraduationCapName, GraduationCap, "Académico", "Áreas académicas y aulas", Basic),
    IconDefinition(BeakerName, Beaker, "Laboratorio", "Laboratorios y espacios experimentales", Basic),
    IconDefinition(UsersName, Users, "Áreas Sociales", "Espacios de convivencia y socialización", Basic),
    IconDefinition(DumbbellName, Dumbbell, "Gimnasio", "Gimnasios y áreas deportivas", Basic),
    IconDefinition(HeartName, Heart, "Enfermería", "Servicios médicos y enfermería", Services),
    IconDefinition(UtensilsName, Utensils, "Comedor", "Comedores y áreas de alimentación", Services),
    IconDefinition(BriefcaseName, Briefcase, "Oficinas", "Oficinas administrativas", Services),
    IconDefinition(WifiName, Wifi, "Zona Tech", "Zonas WiFi y tecnología", Services),
    IconDefinition(PrinterName, Printer, "Impresión", "Servicios de impresión y copiado", Services),
    IconDefinition(ComputerName, Computer, "Sala de Cómputo", "Salas de computadoras", Services),
    IconDefinition(MusicName, Music, "Auditorio", "Auditorios y espacios culturales", Services),
    IconDefinition(MapPinName, MapPin, "Ubicación", "Marcador general de ubicación", Basic)]

  /** The position of each name in the catalogue. */
  function CatalogueIndex(n: IconName): (i: nat)
    ensures i < |AvailableIcons| && AvailableIcons[i].name == n
  {
    match n
    case BuildingName => 0
    case BookOpenName => 1
    case CoffeeName => 2
    case CarName => 3
    case GraduationCapName => 4
    case BeakerName => 5
    case UsersName => 6
    case DumbbellName => 7
    case HeartName => 8
    case UtensilsName => 9
    case BriefcaseName => 10
    case WifiName => 11
    case PrinterName => 12
    case ComputerName => 13
    case MusicName => 14
    case MapPinName => 15
  }

  /** The catalogue's names, in order. */
  function CatalogueNames(): (r: seq<IconName>)
    ensures |r| == |AvailableIcons|
    ensures forall i :: 0 <= i < |r| ==> r[i] == AvailableIcons[i].name
  {
    seq(|AvailableIcons|, i requires 0 <= i < |AvailableIcons| => AvailableIcons[i].name)
  }

  /** Each entry sits at its name's index. */
  lemma EntriesAtTheirIndex()
    ensures forall i :: 0 <= i < |AvailableIcons| ==> CatalogueIndex(AvailableIcons[i].name) == i
  {
  }

  /** The catalogue lists every name exactly once. */
  lemma CatalogueListsEveryNameOnce()
    ensures forall n: IconName :: n in CatalogueNames()
    ensures NoDuplicates(CatalogueNames())
  {
    var names := CatalogueNames();
    forall n: IconName ensures n in names {
      assert names[CatalogueIndex(n)] == n;
    }
    EntriesAtTheirIndex();
  }

  /** Each entry's component is the table's icon for its name. */
  lemma CatalogueMatchesTable(n: IconName)
    ensures AvailableIcons[CatalogueIndex(n)].component == LocationIconMap(n)
  {
    match n
    case BuildingName =>
    case BookOpenName =>
    case CoffeeName =>
    case CarName =>
    case GraduationCapName =>
    case BeakerName =>
    case UsersName =>
    case DumbbellName =>
    case HeartName =>
    case UtensilsName =>
    case BriefcaseName =>
    case WifiName =>
    case PrinterName =>
    case ComputerName =>
    case MusicName =>
    case MapPinName =>
  }

  // ---------------------------------------------------------------------
  // getIconComponent
  // ---------------------------------------------------------------------

  /** The names every object literal inherits from Object.prototype. */
  const InheritedNames: set<string> := {
    "constructor", "hasOwnProperty", "isPrototypeOf", "propertyIsEnumerable",
    "toString", "toLocaleString", "valueOf", "__proto__",
    "__defineGetter__", "__defineSetter__", "__lookupGetter__", "__lookupSetter__"}

  /** What indexing the icon table with a string yields: an icon, an
      inherited Object.prototype member, or undefined. */
  datatype Lookup = IconValue(icon: Icon) | InheritedMember(member: string) | Undefined

  /** Indexing the table object with a string, as JavaScript does it. */
  function TableLookup(s: string): (r: Lookup)
    ensures ParseName(s).Some? ==> r == IconValue(LocationIconMap(ParseName(s).value))
    ensures ParseName(s).None? && s in InheritedNames ==> r == InheritedMember(s)
    ensures ParseName(s).None? && s !in InheritedNames ==> r == Undefined
  {
    match ParseName(s)
    case Some(n) => IconValue(LocationIconMap(n))
    case None => if s in InheritedNames then InheritedMember(s) else Undefined
  }

  /** getIconComponent as written: a missing or empty name gives MapPin; any
      other name gives whatever the table object holds under it, and MapPin
      only when that is undefined. */
  function GetIconComponentAsWritten(iconName: Option<string>): (r: Lookup)
    ensures iconName.None? || iconName == Some("") ==> r == IconValue(MapPin)
    ensures iconName.Some? && iconName.value != "" && ParseName(iconName.value).Some? ==>
              r == IconValue(LocationIconMap(ParseName(iconName.value).value))
  {
    if iconName.None? || iconName.value == "" then IconValue(MapPin)
    else
      var icon := TableLookup(iconName.value);
      if icon.Undefined? then IconValue(MapPin) else icon
  }

  /** The name "constructor" is not an icon name, yet the lookup yields the
      object's constructor function instead of the MapPin fallback. */
  lemma ConstructorIsNotAnIcon()
    ensures ParseName("constructor").None?
    ensures !GetIconComponentAsWritten(Some("constructor")).IconValue?
  {
  }

  /** getIconComponent as intended: the table's icon for a known name, MapPin
      for a missing, empty or unknown one. */
  function GetIconComponent(iconName: Option<string>): (r: Icon)
    ensures iconName.Some? && ParseName(iconName.value).Some? ==> r == LocationIconMap(ParseName(iconName.value).value)
    ensures iconName.None? || ParseName(iconName.value).None? ==> r == MapPin
  {
    if iconName.None? || iconName.value == "" then MapPin
    else
      match ParseName(iconName.value)
      case Some(n) => LocationIconMap(n)
      case None => MapPin
  }

  /** The two agree on every name except the inherited ones. */
  lemma AsWrittenAgreesOffPrototype(iconName: Option<string>)
    requires iconName.None? || iconName.value !in InheritedNames
    ensures GetIconComponentAsWritten(iconName) == IconValue(GetIconComponent(iconName))
  {
  }

  // ---------------------------------------------------------------------
  // Catalogue queries
  // ---------------------------------------------------------------------

  /** `find` over the catalogue by name. */
  function FindByName(icons: seq<IconDefinition>, iconName: string): (r: Option<IconDefinition>)
    ensures r.Some? ==> r.value in icons && NameString(r.value.name) == iconName
    ensures r.None? ==> forall i :: 0 <= i < |icons| ==> NameString(icons[i].name) != iconName
  {
    if icons == [] then None
    else if NameString(icons[0].name) == iconName then Some(icons[0])
    else FindByName(icons[1..], iconName)
  }

  /** getIconDefinition: the catalogue entry of a known name, None otherwise. */
  function GetIconDefinition(iconName: string): (r: Option<IconDefinition>)
    ensures r.Some? ==> r.value in AvailableIcons && NameString(r.value.name) == iconName
  {
    FindByName(AvailableIcons, iconName)
  }

  lemma GetIconDefinitionFacts(iconName: string)
    ensures GetIconDefinition(iconName).Some? <==> ParseName(iconName).Some?
    ensures GetIconDefinition(iconName).Some? ==>
              var d := GetIconDefinition(iconName).value;
              d.name == ParseName(iconName).value && d.component == LocationIconMap(d.name)
  {
    var r := GetIconDefinition(iconName);
    if ParseName(iconName).Some? {
      var i := CatalogueIndex(ParseName(iconName).value);
      assert NameString(AvailableIcons[i].name) == iconName;
    }
    if r.Some? {
      ParseNameString(r.value.name);
      var i :| 0 <= i < |AvailableIcons| && AvailableIcons[i] == r.value;
      EntriesAtTheirIndex();
      CatalogueMatchesTable(r.value.name);
    }
  }

  function InCategory(c: Category): IconDefinition -> bool {
    (d: IconDefinition) => d.category == c
  }

  /** getIconsByCategory: the catalogue entries of one category, in order. */
  function GetIconsByCategory(c: Category): (r: seq<IconDefinition>)
    ensures forall d :: d in r <==> d in AvailableIcons && d.category == c
  {
    Filter(AvailableIcons, InCategory(c))
  }

  /** The two categories split any list of entries: each entry is in exactly
      one, and together they hold the whole list, each in list order. */
  lemma CategoriesPartition(icons: seq<IconDefinition>)
    ensures |Filter(icons, InCategory(Basic))| + |Filter(icons, InCategory(Services))| == |icons|
    ensures Subsequence(Filter(icons, InCategory(Basic)), icons)
    ensures Subsequence(Filter(icons, InCategory(Services)), icons)
  {
    var both := (d: IconDefinition) => true;
    CountDisjoint(icons, InCategory(Basic), InCategory(Services), both);
    FilterLength(icons, InCategory(Basic));
    FilterLength(icons, InCategory(Services));
    CountAllIsLength(icons, both);
    FilterIsSubsequence(icons, InCategory(Basic));
    FilterIsSubsequence(icons, InCategory(Services));
  }

  lemma {:induction false} CountAllIsLength<T>(s: seq<T>, p: T -> bool)
    requires forall x :: p(x)
    ensures Count(s, p) == |s|
  {
    if s != [] {
      CountAllIsLength(s[1..], p);
    }
  }

  /** An entry matches a lower-cased query in its label or its description. */
  function MatchesQuery(lowerQuery: string): IconDefinition -> bool {
    (d: IconDefinition) => Includes(ToLower(d.labelText), lowerQuery) || Includes(ToLower(d.description), lowerQuery)
  }

  /** searchIcons: the entries whose label or description contains the query,
      both compared in lower case. */
  function SearchIcons(query: string): (r: seq<IconDefinition>)
    ensures forall d :: d in r <==> d in AvailableIcons && MatchesQuery(ToLower(query))(d)
  {
    Filter(AvailableIcons, MatchesQuery(ToLower(query)))
  }

  /** The search keeps the catalogue order, and the empty query keeps everything. */
  lemma SearchIconsFacts(query: string)
    ensures Subsequence(SearchIcons(query), AvailableIcons)
    ensures query == "" ==> SearchIcons(query) == AvailableIcons
  {
    FilterIsSubsequence(AvailableIcons, MatchesQuery(ToLower(query)));
    if query == "" {
      forall d: IconDefinition ensures MatchesQuery(ToLower(query))(d) {
        IncludesEmpty(ToLower(d.labelText));
      }
      FilterAll(AvailableIcons, MatchesQuery(ToLower(query)));
    }
  }
}
