/**
 * The component data model and the seed catalog (data/PCComponent.kt): a sealed class
 * with three variants, the enums they use, the ten seed entries and the lookup by id.
 */
module Catalog {
  import opened Primitives

  /** The category of a component; `ALL` is only ever a filter selector. */
  datatype ComponentType = ALL | RAM | STORAGE | GRAPHICS_CARD

  datatype RAMType = DDR2 | DDR3 | DDR4 | DDR5

  datatype StorageType = SSD_NVME | SSD_SATA | HDD

  /**
   * The sealed class `PCComponent` and its three data classes. The defaults of
   * `videoUrl` and `componentType` are those of the Kotlin constructors; a caller may
   * still pass any `componentType`.
   */
  datatype PCComponent =
    | RAM(id: Int32, name: string, imageResourceId: Int32,
          size: Int32, manufacturer: string, ramType: RAMType, frequency: Int32, timing: string,
          videoUrl: Option<string> := None, componentType: ComponentType := ComponentType.RAM)
    | Storage(id: Int32, name: string, imageResourceId: Int32,
              storageType: StorageType, capacity: Int32, manufacturer: string,
              readSpeed: Option<Int32>, writeSpeed: Option<Int32>, rpm: Option<Int32>,
              videoUrl: Option<string> := None, componentType: ComponentType := ComponentType.STORAGE)
    | GraphicsCard(id: Int32, name: string, imageResourceId: Int32,
                   manufacturer: string, vramSize: Int32, clockSpeed: Int32,
                   videoUrl: Option<string> := None, componentType: ComponentType := ComponentType.GRAPHICS_CARD)

  /** The category a component belongs to by its variant. */
  function Category(c: PCComponent): (t: ComponentType)
    ensures t != ALL
  {
    match c
    case RAM(_, _, _, _, _, _, _, _, _, _) => ComponentType.RAM
    case Storage(_, _, _, _, _, _, _, _, _, _, _) => STORAGE
    case GraphicsCard(_, _, _, _, _, _, _, _) => GRAPHICS_CARD
  }

  /** The `componentType` field agrees with the variant, as every default does. */
  predicate TagConsistent(c: PCComponent) {
    c.componentType == Category(c)
  }

  /**
   * The storage convention every seed entry follows and no code checks: a hard disk
   * has an `rpm` and no speeds; a solid-state drive has both speeds and no `rpm`.
   */
  predicate StorageConvention(c: PCComponent) {
    c.Storage? ==>
      if c.storageType == HDD then c.rpm.Some? && c.readSpeed.None? && c.writeSpeed.None?
      else c.readSpeed.Some? && c.writeSpeed.Some? && c.rpm.None?
  }

  /** No two entries share an id. */
  predicate UniqueIds(cs: seq<PCComponent>) {
    forall i, j :: 0 <= i < j < |cs| ==> cs[i].id != cs[j].id
  }

  // Drawable resource ids are opaque handles; the model gives the two drawables the
  // seed uses two distinct placeholder values.
  const PLACEHOLDER_RAM_4GB: Int32 := 1
  const PLACEHOLDER_RAM_8GB: Int32 := 2

  /** `PCComponents.components`, in list order. */
  const Components: seq<PCComponent> := [
    PCComponent.RAM(1, "Corsair Vengeance RGB Pro", PLACEHOLDER_RAM_4GB,
                    32, "Corsair", DDR4, 3600, "CL18", videoUrl := Some("testvideo")),
    PCComponent.RAM(2, "G.Skill Trident Z5", PLACEHOLDER_RAM_8GB,
                    32, "G.Skill", DDR5, 6000, "CL36"),
    Storage(3, "Samsung 970 EVO Plus", PLACEHOLDER_RAM_4GB,
            SSD_NVME, 1000, "Samsung", Some(3500), Some(3300), None),
    Storage(4, "Seagate Barracuda", PLACEHOLDER_RAM_4GB,
            HDD, 2000, "Seagate", None, None, Some(7200)),
    GraphicsCard(5, "NVIDIA GeForce RTX 4080", PLACEHOLDER_RAM_4GB,
                 "NVIDIA", 16, 2505),
    PCComponent.RAM(6, "Corsair Dominator Platinum RGB", PLACEHOLDER_RAM_4GB,
                    32, "Corsair", DDR5, 6000, "CL30"),
    PCComponent.RAM(7, "Kingston Fury Beast", PLACEHOLDER_RAM_4GB,
                    64, "Kingston", DDR5, 5200, "CL40"),
    Storage(8, "Samsung 990 PRO", PLACEHOLDER_RAM_4GB,
            SSD_NVME, 2000, "Samsung", Some(7450), Some(6900), None),
    Storage(9, "Seagate IronWolf Pro", PLACEHOLDER_RAM_4GB,
            HDD, 8000, "Seagate", None, None, Some(7200)),
    GraphicsCard(10, "AMD Radeon RX 7800 XT", PLACEHOLDER_RAM_4GB,
                 "AMD", 16, 2430)
  ]

  /**
   * The position of the first entry whose id is `id` (`first { it.id == id }`),
   * or `None` when no entry has it.
   */
  function IndexOfId(cs: seq<PCComponent>, id: Int32): (r: Option<nat>)
    ensures r.Some? ==> r.value < |cs| && cs[r.value].id == id
    ensures r.Some? ==> forall j :: 0 <= j < r.value ==> cs[j].id != id
    ensures r.None? ==> forall j :: 0 <= j < |cs| ==> cs[j].id != id
  {
    if cs == [] then None
    else if cs[0].id == id then Some(0)
    else match IndexOfId(cs[1..], id)
      case None => None
      case Some(k) => Some(k + 1)
  }

  /**
   * `components.first { it.id == id }` over any list: the first entry with that id;
   * `None` stands for the `NoSuchElementException` that `first` throws.
   */
  function FirstWithId(cs: seq<PCComponent>, id: Int32): (r: Option<PCComponent>)
    ensures r.Some? ==> r.value.id == id && r.value in cs
    ensures r.None? <==> forall c :: c in cs ==> c.id != id
  {
    match IndexOfId(cs, id)
    case None => None
    case Some(i) => Some(cs[i])
  }

  /** `PCComponents.getComponentById`. */
  function GetComponentById(id: Int32): (r: Option<PCComponent>)
    ensures r.Some? ==> r.value.id == id && r.value in Components
    ensures r.None? <==> forall c :: c in Components ==> c.id != id
  {
    FirstWithId(Components, id)
  }

  /** When several entries share an id, the earliest one is returned. */
  lemma FirstMatchWins(cs: seq<PCComponent>, i: nat)
    requires i < |cs|
    requires forall j :: 0 <= j < i ==> cs[j].id != cs[i].id
    ensures FirstWithId(cs, cs[i].id) == Some(cs[i])
  {
    var r := IndexOfId(cs, cs[i].id);
    assert r.Some?;
  }

  /** With unique ids, looking up an entry's own id gives back that entry. */
  lemma LookupOwnId(cs: seq<PCComponent>, c: PCComponent)
    requires UniqueIds(cs) && c in cs
    ensures FirstWithId(cs, c.id) == Some(c)
  {
    var i :| 0 <= i < |cs| && cs[i] == c;
    FirstMatchWins(cs, i);
  }

  /** Every constructor left with its default `componentType` is tag-consistent and never `ALL`. */
  lemma DefaultTypesMatchVariant(id: Int32, name: string, image: Int32, manufacturer: string,
                                 size: Int32, ramType: RAMType, frequency: Int32, timing: string,
                                 storageType: StorageType, capacity: Int32,
                                 readSpeed: Option<Int32>, writeSpeed: Option<Int32>, rpm: Option<Int32>,
                                 vramSize: Int32, clockSpeed: Int32, videoUrl: Option<string>)
    ensures var c := PCComponent.RAM(id, name, image, size, manufacturer, ramType, frequency, timing, videoUrl);
      TagConsistent(c) && c.componentType == ComponentType.RAM
    ensures var c := Storage(id, name, image, storageType, capacity, manufacturer, readSpeed, writeSpeed, rpm, videoUrl);
      TagConsistent(c) && c.componentType == STORAGE
    ensures var c := GraphicsCard(id, name, image, manufacturer, vramSize, clockSpeed, videoUrl);
      TagConsistent(c) && c.componentType == GRAPHICS_CARD
  {
  }

  /** The seed ids are 1 to 10 in list order, hence distinct and strictly increasing. */
  lemma SeedIds()
    ensures |Components| == 10
    ensures forall i :: 0 <= i < |Components| ==> Components[i].id as int == i + 1
    ensures UniqueIds(Components)
  {
  }

  /** Lookup in the seed catalog succeeds exactly for ids 1 to 10, and id `k` is the `k`-th entry. */
  lemma SeedLookup(id: Int32)
    ensures GetComponentById(id).Some? <==> 1 <= id <= 10
    ensures 1 <= id <= 10 ==> GetComponentById(id) == Some(Components[id - 1])
  {
    SeedIds();
    if 1 <= id <= 10 {
      LookupOwnId(Components, Components[id - 1]);
    } else {
      forall c | c in Components
        ensures c.id != id
      {
        var k :| 0 <= k < |Components| && Components[k] == c;
      }
    }
  }

  /**
   * The seed list's make-up: memory modules at positions 0, 1, 5, 6; drives at 2, 3, 7, 8,
   * alternating NVMe SSD and hard disk; graphics cards at 4 and 9.
   */
  lemma SeedComposition()
    ensures |Components| == 10
    ensures forall i :: 0 <= i < |Components| ==>
      (Components[i].RAM? <==> i in {0, 1, 5, 6}) &&
      (Components[i].Storage? <==> i in {2, 3, 7, 8}) &&
      (Components[i].GraphicsCard? <==> i in {4, 9})
    ensures Components[2].storageType == SSD_NVME && Components[3].storageType == HDD
    ensures Components[7].storageType == SSD_NVME && Components[8].storageType == HDD
  {
  }

  /** Every seed entry keeps its default `componentType` and follows the storage convention. */
  lemma SeedWellFormed()
    ensures forall i :: 0 <= i < |Components| ==> TagConsistent(Components[i])
    ensures forall i :: 0 <= i < |Components| ==> StorageConvention(Components[i])
  {
  }

  /** Entry 4 is the Seagate Barracuda hard disk. */
  lemma SeedEntry4()
    ensures GetComponentById(4) == Some(Components[3])
    ensures var c := Components[3];
      c.Storage? && c.name == "Seagate Barracuda" && c.storageType == HDD && c.capacity == 2000
      && c.manufacturer == "Seagate" && c.rpm == Some(7200) && c.readSpeed.None? && c.writeSpeed.None?
  {
    SeedLookup(4);
  }

  /** Only the first entry names a video ("testvideo"); every other keeps the `null` default. */
  lemma SeedVideos()
    ensures Components[0].videoUrl == Some("testvideo")
    ensures forall i :: 1 <= i < |Components| ==> Components[i].videoUrl.None?
  {
  }
}
