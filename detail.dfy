/**
 * The detail screen (DetailScreen.kt): the specification rows chosen by variant and,
 * for storage, by drive type, and the video section gated on `videoUrl`.
 */
module Detail {
  import opened Primitives
  import opened Decimal
  import opened Catalog

  /** A `SpecificationItem(label, value)` row. */
  type Row = (string, string)

  /** `RAMType.name`. */
  function RAMTypeName(t: RAMType): string {
    match t
    case DDR2 => "DDR2"
    case DDR3 => "DDR3"
    case DDR4 => "DDR4"
    case DDR5 => "DDR5"
  }

  /** Each memory type shows its own enum name, "DDR" and its generation, and different types show differently. */
  lemma RAMTypeNamesDistinct(a: RAMType, b: RAMType)
    ensures RAMTypeName(DDR2) == "DDR2" && RAMTypeName(DDR3) == "DDR3"
    ensures RAMTypeName(DDR4) == "DDR4" && RAMTypeName(DDR5) == "DDR5"
    ensures |RAMTypeName(a)| == 4 && RAMTypeName(a)[..3] == "DDR"
    ensures RAMTypeName(a) == RAMTypeName(b) <==> a == b
  {
  }

  /** `StorageType.name`. */
  function StorageTypeName(t: StorageType): string {
    match t
    case SSD_NVME => "SSD_NVME"
    case SSD_SATA => "SSD_SATA"
    case HDD => "HDD"
  }

  /** `s.replace(from, to)` for one-character strings: every occurrence, left to right. */
  function ReplaceChar(s: string, from: char, to: char): string {
    seq(|s|, i requires 0 <= i < |s| => if s[i] == from then to else s[i])
  }

  /** The drive type as shown: `type.name.replace("_", " ")`. */
  function StorageTypeLabel(t: StorageType): string {
    ReplaceChar(StorageTypeName(t), '_', ' ')
  }

  /** Kotlin's rendering of an `Int?` in a string template: `null` prints as "null". */
  function NullableIntToString(n: Option<Int32>): string {
    match n
    case None => "null"
    case Some(v) => IntToString(v as int)
  }

  /** A quantity with its unit, as the template `"${n} unit"` renders it. */
  function Quantity(n: Int32, unit: string): string {
    IntToString(n as int) + " " + unit
  }

  /** The same for a nullable field. */
  function NullableQuantity(n: Option<Int32>, unit: string): string {
    NullableIntToString(n) + " " + unit
  }

  // Row labels, as the screen shows them.
  const PRODUCER: string := "Producent"
  const SIZE: string := "Rozmiar"
  const TYPE: string := "Typ"
  const CLOCK: string := "Taktowanie"
  const LATENCY: string := "Opóźnienia"
  const CAPACITY: string := "Pojemność"
  const ROTATION: string := "Obroty"
  const READ_SPEED: string := "Prędkość odczytu"
  const WRITE_SPEED: string := "Prędkość zapisu"
  const VRAM: string := "Pamięć VRAM"

  /** The rows the `when (pcComponent)` block emits, in order. */
  function DetailRows(c: PCComponent): (rows: seq<Row>)
    ensures |rows| >= 3 && rows[0] == (PRODUCER, c.manufacturer)
    ensures c.RAM? ==> |rows| == 5
    ensures c.Storage? ==> |rows| == if c.storageType == HDD then 4 else 5
    ensures c.GraphicsCard? ==> |rows| == 3
  {
    match c
    case RAM(_, _, _, size, manufacturer, ramType, frequency, timing, _, _) =>
      [ (PRODUCER, manufacturer),
        (SIZE, Quantity(size, "GB")),
        (TYPE, RAMTypeName(ramType)),
        (CLOCK, Quantity(frequency, "MHz")),
        (LATENCY, timing) ]
    case Storage(_, _, _, storageType, capacity, manufacturer, readSpeed, writeSpeed, rpm, _, _) =>
      (match storageType
      case HDD =>
        [ (PRODUCER, manufacturer),
          (TYPE, StorageTypeLabel(storageType)),
          (CAPACITY, Quantity(capacity, "GB")),
          (ROTATION, NullableQuantity(rpm, "RPM")) ]
      case _ =>
        [ (PRODUCER, manufacturer),
          (TYPE, StorageTypeLabel(storageType)),
          (CAPACITY, Quantity(capacity, "GB")),
          (READ_SPEED, NullableQuantity(readSpeed, "MB/s")),
          (WRITE_SPEED, NullableQuantity(writeSpeed, "MB/s")) ])
    case GraphicsCard(_, _, _, manufacturer, vramSize, clockSpeed, _, _) =>
      [ (PRODUCER, manufacturer),
        (VRAM, Quantity(vramSize, "GB")),
        (CLOCK, Quantity(clockSpeed, "MHz")) ]
  }

  function Labels(rows: seq<Row>): seq<string> {
    seq(|rows|, i requires 0 <= i < |rows| => rows[i].0)
  }

  /**
   * Reads back the number a value row shows before " unit"; `None` when the text is
   * not a number followed by that unit, as for a `null` field.
   */
  function ReadQuantity(value: string, unit: string): Option<Int32> {
    var suffix := " " + unit;
    if |value| >= |suffix| && value[|value| - |suffix|..] == suffix
    then ParseInt(value[..|value| - |suffix|])
    else None
  }

  /** A rendered nullable quantity reads back as the field it shows, `null` included. */
  lemma ReadNullableQuantity(n: Option<Int32>, unit: string)
    ensures ReadQuantity(NullableQuantity(n, unit), unit) == n
  {
    var text := NullableIntToString(n);
    var value := NullableQuantity(n, unit);
    assert value[..|value| - |" " + unit|] == text;
    assert value[|value| - |" " + unit|..] == " " + unit;
    match n
    case None =>
      ParseIntAcceptsOnlyDigits(text);
    case Some(v) =>
      ParseIntOfIntToString(v);
  }

  lemma ReadQuantityOf(n: Int32, unit: string)
    ensures ReadQuantity(Quantity(n, unit), unit) == Some(n)
  {
    ReadNullableQuantity(Some(n), unit);
  }

  /**
   * A memory module shows five rows: maker, size in GB, type name, frequency in MHz
   * and timings, and each number reads back as the field it shows.
   */
  lemma RamRows(c: PCComponent)
    requires c.RAM?
    ensures var rows := DetailRows(c);
      && Labels(rows) == [PRODUCER, SIZE, TYPE, CLOCK, LATENCY]
      && rows[0].1 == c.manufacturer
      && rows[1].1 == IntToString(c.size as int) + " GB" && ReadQuantity(rows[1].1, "GB") == Some(c.size)
      && rows[2].1 == RAMTypeName(c.ramType)
      && rows[3].1 == IntToString(c.frequency as int) + " MHz" && ReadQuantity(rows[3].1, "MHz") == Some(c.frequency)
      && rows[4].1 == c.timing
  {
    var rows := RamRowList(c);
    ReadQuantityOf(c.size, "GB");
    ReadQuantityOf(c.frequency, "MHz");
    assert Labels(rows) == [rows[0].0, rows[1].0, rows[2].0, rows[3].0, rows[4].0];
  }

  /** A rendered value followed by " " and its unit is the value followed by " unit". */
  lemma UnitText(text: string, unit: string, suffix: string)
    requires suffix == " " + unit
    ensures text + " " + unit == text + suffix
  {
    assert (text + " ") + unit == text + (" " + unit);
  }

  /** Unfolds the rows of a memory module, numbers rendered with their units. */
  lemma RamRowList(c: PCComponent) returns (rows: seq<Row>)
    requires c.RAM?
    ensures rows == DetailRows(c)
    ensures rows == [(PRODUCER, c.manufacturer), (SIZE, IntToString(c.size as int) + " GB"),
                     (TYPE, RAMTypeName(c.ramType)), (CLOCK, IntToString(c.frequency as int) + " MHz"),
                     (LATENCY, c.timing)]
  {
    rows := DetailRows(c);
    UnitText(IntToString(c.size as int), "GB", " GB");
    UnitText(IntToString(c.frequency as int), "MHz", " MHz");
  }

  /** Every drive starts with three rows: maker, type name with spaces for underscores, capacity in GB. */
  lemma StorageRows(c: PCComponent)
    requires c.Storage?
    ensures var rows := DetailRows(c);
      && rows[0] == (PRODUCER, c.manufacturer)
      && rows[1] == (TYPE, StorageTypeLabel(c.storageType))
      && rows[2] == (CAPACITY, IntToString(c.capacity as int) + " GB")
      && ReadQuantity(rows[2].1, "GB") == Some(c.capacity)
  {
    var rows;
    if c.storageType == HDD {
      rows := HardDiskRowList(c);
    } else {
      rows := SolidStateRowList(c);
    }
    ReadQuantityOf(c.capacity, "GB");
  }

  /** A hard disk then shows only its rotation speed in RPM: four rows, no transfer speeds. */
  lemma HardDiskRows(c: PCComponent)
    requires c.Storage? && c.storageType == HDD
    ensures var labels := Labels(DetailRows(c));
      && labels == [PRODUCER, TYPE, CAPACITY, ROTATION]
      && DetailRows(c)[3].1 == NullableIntToString(c.rpm) + " RPM"
      && ReadQuantity(DetailRows(c)[3].1, "RPM") == c.rpm
      && READ_SPEED !in labels && WRITE_SPEED !in labels
  {
    var rows := HardDiskRowList(c);
    ReadNullableQuantity(c.rpm, "RPM");
    var labels := Labels(rows);
    assert labels == [rows[0].0, rows[1].0, rows[2].0, rows[3].0];
    assert forall i :: 0 <= i < 4 ==> labels[i] != READ_SPEED && labels[i] != WRITE_SPEED;
  }

  /** Any other drive then shows only its read and write speeds in MB/s: five rows, no rotation. */
  lemma SolidStateRows(c: PCComponent)
    requires c.Storage? && c.storageType != HDD
    ensures var labels := Labels(DetailRows(c));
      && labels == [PRODUCER, TYPE, CAPACITY, READ_SPEED, WRITE_SPEED]
      && DetailRows(c)[3].1 == NullableIntToString(c.readSpeed) + " MB/s"
      && DetailRows(c)[4].1 == NullableIntToString(c.writeSpeed) + " MB/s"
      && ReadQuantity(DetailRows(c)[3].1, "MB/s") == c.readSpeed
      && ReadQuantity(DetailRows(c)[4].1, "MB/s") == c.writeSpeed
      && ROTATION !in labels
  {
    var rows := SolidStateRowList(c);
    ReadNullableQuantity(c.readSpeed, "MB/s");
    ReadNullableQuantity(c.writeSpeed, "MB/s");
    var labels := Labels(rows);
    assert labels == [rows[0].0, rows[1].0, rows[2].0, rows[3].0, rows[4].0];
    assert forall i :: 0 <= i < 5 ==> labels[i] != ROTATION;
  }

  /** Unfolds the rows of a hard disk, numbers rendered with their units. */
  lemma HardDiskRowList(c: PCComponent) returns (rows: seq<Row>)
    requires c.Storage? && c.storageType == HDD
    ensures rows == DetailRows(c)
    ensures rows == [(PRODUCER, c.manufacturer), (TYPE, StorageTypeLabel(c.storageType)),
                     (CAPACITY, IntToString(c.capacity as int) + " GB"),
                     (ROTATION, NullableIntToString(c.rpm) + " RPM")]
  {
    rows := DetailRows(c);
    UnitText(IntToString(c.capacity as int), "GB", " GB");
    UnitText(NullableIntToString(c.rpm), "RPM", " RPM");
  }

  /** Unfolds the rows of a drive that is not a hard disk, numbers rendered with their units. */
  lemma SolidStateRowList(c: PCComponent) returns (rows: seq<Row>)
    requires c.Storage? && c.storageType != HDD
    ensures rows == DetailRows(c)
    ensures rows == [(PRODUCER, c.manufacturer), (TYPE, StorageTypeLabel(c.storageType)),
                     (CAPACITY, IntToString(c.capacity as int) + " GB"),
                     (READ_SPEED, NullableIntToString(c.readSpeed) + " MB/s"),
                     (WRITE_SPEED, NullableIntToString(c.writeSpeed) + " MB/s")]
  {
    rows := DetailRows(c);
    UnitText(IntToString(c.capacity as int), "GB", " GB");
    UnitText(NullableIntToString(c.readSpeed), "MB/s", " MB/s");
    UnitText(NullableIntToString(c.writeSpeed), "MB/s", " MB/s");
  }

  /** Under the storage convention the speed or rotation rows show numbers, never "null". */
  lemma ConventionalStorageShowsNumbers(c: PCComponent)
    requires c.Storage? && StorageConvention(c)
    ensures forall k :: 3 <= k < |DetailRows(c)| ==>
      ReadQuantity(DetailRows(c)[k].1, if c.storageType == HDD then "RPM" else "MB/s").Some?
  {
    if c.storageType == HDD {
      HardDiskRows(c);
    } else {
      SolidStateRows(c);
    }
  }

  /** A graphics card shows three rows: maker, memory in GB and clock in MHz. */
  lemma GraphicsCardRows(c: PCComponent)
    requires c.GraphicsCard?
    ensures var rows := DetailRows(c);
      && Labels(rows) == [PRODUCER, VRAM, CLOCK]
      && rows[0].1 == c.manufacturer
      && rows[1].1 == IntToString(c.vramSize as int) + " GB" && ReadQuantity(rows[1].1, "GB") == Some(c.vramSize)
      && rows[2].1 == IntToString(c.clockSpeed as int) + " MHz" && ReadQuantity(rows[2].1, "MHz") == Some(c.clockSpeed)
  {
    var rows := GraphicsCardRowList(c);
    ReadQuantityOf(c.vramSize, "GB");
    ReadQuantityOf(c.clockSpeed, "MHz");
    assert Labels(rows) == [rows[0].0, rows[1].0, rows[2].0];
  }

  /** Unfolds the rows of a graphics card, numbers rendered with their units. */
  lemma GraphicsCardRowList(c: PCComponent) returns (rows: seq<Row>)
    requires c.GraphicsCard?
    ensures rows == DetailRows(c)
    ensures rows == [(PRODUCER, c.manufacturer), (VRAM, IntToString(c.vramSize as int) + " GB"),
                     (CLOCK, IntToString(c.clockSpeed as int) + " MHz")]
  {
    rows := DetailRows(c);
    UnitText(IntToString(c.vramSize as int), "GB", " GB");
    UnitText(IntToString(c.clockSpeed as int), "MHz", " MHz");
  }

  /** The drive types as displayed: the underscore becomes a space. */
  lemma StorageTypeLabels()
    ensures StorageTypeLabel(SSD_NVME) == "SSD NVME"
    ensures StorageTypeLabel(SSD_SATA) == "SSD SATA"
    ensures StorageTypeLabel(HDD) == "HDD"
  {
  }

  /** Seed entry 4, the Seagate Barracuda, shows exactly these four rows. */
  lemma SeedEntry4Rows()
    ensures DetailRows(Components[3])
      == [(PRODUCER, "Seagate"), (TYPE, "HDD"), (CAPACITY, "2000 GB"), (ROTATION, "7200 RPM")]
  {
    SeedEntry4();
    BarracudaRows(Components[3]);
  }

  /** The rows of any hard disk with the Barracuda's maker, capacity and rotation speed. */
  lemma BarracudaRows(c: PCComponent)
    requires c.Storage? && c.storageType == HDD && c.manufacturer == "Seagate"
    requires c.capacity == 2000 && c.rpm == Some(7200)
    ensures DetailRows(c)
      == [(PRODUCER, "Seagate"), (TYPE, "HDD"), (CAPACITY, "2000 GB"), (ROTATION, "7200 RPM")]
  {
    StorageTypeLabels();
    SeedEntry4Quantities();
    assert DetailRows(c) == [(PRODUCER, c.manufacturer), (TYPE, StorageTypeLabel(HDD)),
                             (CAPACITY, Quantity(c.capacity, "GB")), (ROTATION, NullableQuantity(c.rpm, "RPM"))];
  }

  lemma SeedEntry4Quantities()
    ensures Quantity(2000, "GB") == "2000 GB"
    ensures NullableQuantity(Some(7200), "RPM") == "7200 RPM"
  {
  }

  /** What the detail screen shows: title, image, rows, and the video when there is one. */
  datatype DetailView = DetailView(title: string, image: Int32, rows: seq<Row>, video: Option<string>)

  /** The `DetailScreen` composable; the video section appears only for a non-null `videoUrl`. */
  function DetailScreen(c: PCComponent): (v: DetailView)
    ensures v.video.Some? <==> c.videoUrl.Some?
    ensures v.video.Some? ==> v.video.value == c.videoUrl.value
    ensures v.title == c.name && v.rows == DetailRows(c)
  {
    DetailView(c.name, c.imageResourceId, DetailRows(c),
               if c.videoUrl.Some? then Some(c.videoUrl.value) else None)
  }

  /** Of the seed entries, only the first plays a video, "testvideo". */
  lemma SeedVideoSections()
    ensures DetailScreen(Components[0]).video == Some("testvideo")
    ensures forall i :: 1 <= i < |Components| ==> DetailScreen(Components[i]).video.None?
  {
    SeedVideos();
  }
}
