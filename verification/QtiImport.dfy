/**
 The import of a QTI package: media files are written to disk first, then the items of the XML
 entries are inserted in one transaction. Whatever stops the import, disk and table are as before.
 Removing a file is taken to succeed.
 */
module QtiImport {
  import opened Wrappers
  import opened QtiParse
  import opened Keyed

  const MAX_PACKAGE := 52_428_800      // 50 MiB
  const MAX_ENTRIES := 1000
  const MAX_EXPANDED := 209_715_200    // 200 MiB
  const MAX_FILE := 20_971_520         // 20 MiB
  const MAX_XML := 5_242_880           // 5 MiB
  const MAX_RATIO := 100
  const HEAD := 512
  const TWO_TO_THE_64 := 0x1_0000_0000_0000_0000

  type uint64 = x: int | 0 <= x < TWO_TO_THE_64

  // The bytes of a media entry, and what goes wrong while they are stored. `fault` is the position
  // at which reading fails.
  datatype Media = Media(opens: bool, creates: bool, content: seq<bv8>, fault: Option<nat>, closes: bool)

  datatype Kind = Svg | MediaFile | Xml | Other

  function KindOf(ext: string): Kind {
    if ext == ".svg" then Svg
    else if ext in {".png", ".jpg", ".jpeg", ".gif", ".mp3", ".mp4"} then MediaFile
    else if ext == ".xml" then Xml
    else Other
  }

  // An entry of the archive with its lower-case extension and what that makes it. `document` is None when reading or
  // decoding the XML fails.
  datatype Entry = Entry(
    ext: string, kind: Kind, uncompressed: uint64, compressed: uint64, media: Media, document: Option<Document>,
        supply: Supply)

  datatype Package = Package(regular: bool, size: int, opens: bool, entries: seq<Entry>)

  // How the database behaves: which of the create statements fail of themselves.
  datatype Database = Database(begins: bool, failsAt: set<nat>, commits: bool)

  datatype ImportError =
    | PackageInvalid | TooManyEntries | TooLarge | SuspiciousRatio | DirectoryFailed | SvgRefused
    | MediaFailed | XmlTooLarge | NoItem | DatabaseFailed

  ghost predicate EntryFits(e: Entry) {
    e.kind == KindOf(e.ext) && (e.document.Some? ==> SupplyFits(e.document.value, e.supply))
  }

  // ---- sizes ----

  function Expanded(entries: seq<Entry>, n: nat): nat
    requires n <= |entries|
  {
    if n == 0 then 0 else Expanded(entries, n - 1) + entries[n - 1].uncompressed
  }

  lemma ExpandedGrows(entries: seq<Entry>, m: nat, n: nat)
    requires m <= n <= |entries|
    ensures Expanded(entries, m) <= Expanded(entries, n)
    decreases n
  {
    if m < n {
      ExpandedGrows(entries, m, n - 1);
    }
  }

  predicate RatioOk(e: Entry) {
    e.compressed > 0 ==> e.uncompressed / e.compressed <= MAX_RATIO
  }

  ghost predicate SizesOk(entries: seq<Entry>) {
    && (forall e | e in entries :: e.uncompressed <= MAX_FILE && RatioOk(e))
    && Expanded(entries, |entries|) <= MAX_EXPANDED
  }

  /** The running total wraps around at 64 bits, and yet exactly the packages within the limits pass. */
  method CheckSizes(entries: seq<Entry>) returns (failure: Option<ImportError>)
    ensures failure.None? <==> SizesOk(entries)
    ensures failure.None? <==>
              && (forall e | e in entries ::
                    && e.uncompressed <= 20 * 1024 * 1024
                    && (e.compressed > 0 ==> e.uncompressed / e.compressed <= 100))
              && Expanded(entries, |entries|) <= 200 * 1024 * 1024
  {
    var totalExpanded: uint64 := 0;
    for i := 0 to |entries|
      invariant totalExpanded == Expanded(entries, i) <= MAX_EXPANDED
      invariant forall k | 0 <= k < i :: entries[k].uncompressed <= MAX_FILE && RatioOk(entries[k])
    {
      var e := entries[i];
      totalExpanded := (totalExpanded + e.uncompressed) % TWO_TO_THE_64;
      if e.uncompressed > MAX_FILE || totalExpanded > MAX_EXPANDED {
        ExpandedGrows(entries, i + 1, |entries|);
        assert e in entries;
        return Some(TooLarge);
      }
      if e.compressed > 0 && e.uncompressed / e.compressed > MAX_RATIO {
        assert e in entries && !RatioOk(e);
        return Some(SuspiciousRatio);
      }
    }
    return None;
  }

  // ---- what a package puts on disk and into the table ----

  predicate Faulty(m: Media) {
    m.fault.Some? && m.fault.value <= |m.content|
  }

  function Head(m: Media): seq<bv8> {
    if |m.content| <= HEAD then m.content else m.content[..HEAD]
  }

  // The media that can be stored under a name that is free.
  predicate Storable(accepts: (string, seq<bv8>) -> bool, e: Entry) {
    var m := e.media;
    m.opens && m.creates && m.closes && m.content != [] && !Faulty(m) && |m.content| <= MAX_FILE
        && accepts(e.ext, Head(m))
  }

  predicate Extracts(accepts: (string, seq<bv8>) -> bool, e: Entry) {
    !e.kind.Svg? && (e.kind.MediaFile? ==> Storable(accepts, e)) && (e.kind.Xml? ==> e.uncompressed <= MAX_XML)
  }

  /** The entries that extract: no SVG, media of a known kind within their limit, XML within its own. */
  lemma ExtractsWithinLimits(accepts: (string, seq<bv8>) -> bool, e: Entry)
    requires EntryFits(e)
    ensures Extracts(accepts, e) <==>
              && e.ext != ".svg"
              && (e.ext == ".xml" ==> e.uncompressed <= 5 * 1024 * 1024)
              && (e.ext in {".png", ".jpg", ".jpeg", ".gif", ".mp3", ".mp4"} ==>
                    var m := e.media;
                    && m.opens && m.creates && m.closes && 0 < |m.content| <= 20 * 1024 * 1024
                    && (m.fault.None? || m.fault.value > |m.content|)
                    && accepts(e.ext, if |m.content| <= 512 then m.content else m.content[..512]))
  {
  }

  // What the media among the first n entries are named, and what they contain.
  function MediaNames(entries: seq<Entry>, names: seq<string>, n: nat): seq<string>
    requires n <= |entries| == |names|
  {
    if n == 0 then []
    else if entries[n - 1].kind.MediaFile? then MediaNames(entries, names, n - 1) + [names[n - 1]]
    else MediaNames(entries, names, n - 1)
  }

  function MediaContents(entries: seq<Entry>, n: nat): seq<seq<bv8>>
    requires n <= |entries|
  {
    if n == 0 then []
    else if entries[n - 1].kind.MediaFile? then MediaContents(entries, n - 1) + [entries[n - 1].media.content]
    else MediaContents(entries, n - 1)
  }

  lemma {:induction false} MediaMatch(entries: seq<Entry>, names: seq<string>, n: nat)
    requires n <= |entries| == |names|
    ensures |MediaNames(entries, names, n)| == |MediaContents(entries, n)|
  {
    if n > 0 {
      MediaMatch(entries, names, n - 1);
    }
  }

  lemma {:induction false} MediaNamesGrow(entries: seq<Entry>, names: seq<string>, m: nat, n: nat)
    requires m <= n <= |entries| == |names|
    ensures MediaNames(entries, names, m) <= MediaNames(entries, names, n)
    decreases n
  {
    if m < n {
      MediaNamesGrow(entries, names, m, n - 1);
    }
  }

  function WithMedia(
      disk: map<string, seq<bv8>>, entries: seq<Entry>, names: seq<string>, n: nat): map<string, seq<bv8>>
    requires n <= |entries| == |names|
  {
    MediaMatch(entries, names, n);
    With(disk, MediaNames(entries, names, n), MediaContents(entries, n))
  }

  // The first n entries extract, and their media have names that are free.
  ghost predicate Extractable(
    accepts: (string, seq<bv8>) -> bool, entries: seq<Entry>, names: seq<string>, n: nat, disk: map<string, seq<bv8>>)
    requires n <= |entries| == |names|
  {
    (forall i | 0 <= i < n :: Extracts(accepts, entries[i])) && Free(disk, MediaNames(entries, names, n))
  }

  // One more entry extracts when its name is not taken by then.
  lemma ExtractsOneMore(
    accepts: (string, seq<bv8>) -> bool, entries: seq<Entry>, names: seq<string>, n: nat, disk: map<string, seq<bv8>>)
    requires n < |entries| == |names| && Extractable(accepts, entries, names, n, disk)
    ensures Extractable(accepts, entries, names, n + 1, disk) <==>
            Extracts(accepts, entries[n])
                && (entries[n].kind.MediaFile? ==> names[n] !in WithMedia(disk, entries, names, n))
    ensures WithMedia(disk, entries, names, n + 1) ==
            if entries[n].kind.MediaFile? then WithMedia(disk, entries, names, n)[names[n] := entries[n].media.content]
            else WithMedia(disk, entries, names, n)
  {
    MediaMatch(entries, names, n);
    if entries[n].kind.MediaFile? {
      OneMore(disk, MediaNames(entries, names, n), MediaContents(entries, n), names[n], entries[n].media.content);
    }
  }

  lemma ExtractablePrefix(
    accepts: (string, seq<bv8>) -> bool, entries: seq<Entry>, names: seq<string>, n: nat, disk: map<string, seq<bv8>>)
    requires n <= |entries| == |names| && Extractable(accepts, entries, names, |entries|, disk)
    ensures Extractable(accepts, entries, names, n, disk)
  {
    MediaNamesGrow(entries, names, n, |entries|);
    FreePrefix(disk, MediaNames(entries, names, n), MediaNames(entries, names, |entries|));
  }

  // An entry that does not extract stops the package.
  lemma ExtractionStops(
    accepts: (string, seq<bv8>) -> bool, entries: seq<Entry>, names: seq<string>, n: nat, disk: map<string, seq<bv8>>)
    requires n < |entries| == |names| && Extractable(accepts, entries, names, n, disk)
    ensures !Extractable(accepts, entries, names, n + 1, disk) ==>
        !Extractable(accepts, entries, names, |entries|, disk)
  {
    if Extractable(accepts, entries, names, |entries|, disk) {
      ExtractablePrefix(accepts, entries, names, n + 1, disk);
    }
  }

  // Removing the created files undoes their creation.
  lemma FilesRemoved(
    accepts: (string, seq<bv8>) -> bool, entries: seq<Entry>, names: seq<string>, n: nat, disk: map<string, seq<bv8>>)
    requires n <= |entries| == |names| && Extractable(accepts, entries, names, n, disk)
    ensures WithMedia(disk, entries, names, n) - (set p | p in MediaNames(entries, names, n)) == disk
  {
    MediaMatch(entries, names, n);
    Undo(disk, MediaNames(entries, names, n), MediaContents(entries, n));
  }

  function XmlEntries(entries: seq<Entry>, n: nat): (xml: seq<Entry>)
    requires n <= |entries|
    ensures forall e | e in xml :: e in entries && e.kind.Xml?
  {
    if n == 0 then []
    else if entries[n - 1].kind.Xml? then XmlEntries(entries, n - 1) + [entries[n - 1]]
    else XmlEntries(entries, n - 1)
  }

  ghost predicate BecomesRow(e: Entry)
    requires EntryFits(e)
  {
    e.document.Some? && Acceptable(e.document.value, e.supply)
  }

  // The rows of the first n XML entries; entries that are no acceptable items are skipped.
  ghost function Rows(xml: seq<Entry>, n: nat): seq<ItemRow>
    requires n <= |xml| && forall e | e in xml :: EntryFits(e)
  {
    if n == 0 then []
    else if BecomesRow(xml[n - 1]) then Rows(xml, n - 1) + [RowFor(xml[n - 1].document.value, xml[n - 1].supply)]
    else Rows(xml, n - 1)
  }

  function Ids(rows: seq<ItemRow>): (ids: seq<string>)
    ensures |ids| == |rows|
  {
    seq(|rows|, k requires 0 <= k < |rows| => rows[k].id)
  }

  function WithRows(items: map<string, ItemRow>, rows: seq<ItemRow>): map<string, ItemRow> {
    With(items, Ids(rows), rows)
  }

  // Every create statement succeeds: none fails of itself and no identifier is taken.
  ghost predicate Creatable(rows: seq<ItemRow>, items: map<string, ItemRow>, database: Database) {
    (forall k: nat | k < |rows| :: k !in database.failsAt) && Free(items, Ids(rows))
  }

  // One more row can be created when its identifier is not taken by then.
  lemma CreatesOneMore(rows: seq<ItemRow>, row: ItemRow, items: map<string, ItemRow>, database: Database)
    requires Creatable(rows, items, database)
    ensures Creatable(rows + [row], items, database) <==>
        |rows| !in database.failsAt && row.id !in WithRows(items, rows)
    ensures WithRows(items, rows + [row]) == WithRows(items, rows)[row.id := row]
  {
    assert Ids(rows + [row]) == Ids(rows) + [row.id];
    OneMore(items, Ids(rows), rows, row.id, row);
  }

  ghost predicate Insertable(rows: seq<ItemRow>, items: map<string, ItemRow>, database: Database) {
    database.begins && database.commits && rows != [] && Creatable(rows, items, database)
  }

  // ---- the importer ----

  class Importer {
    var items: map<string, ItemRow>
    var disk: map<string, seq<bv8>>
    const accepts: (string, seq<bv8>) -> bool   // extension and leading bytes go together

    constructor (accepts: (string, seq<bv8>) -> bool)
      ensures this.accepts == accepts && items == map[] && disk == map[]
    {
      this.accepts := accepts;
      items, disk := map[], map[];
    }

    /** Stores one media entry under a new name, or leaves nothing behind. */
    method SaveMediaFile(e: Entry, name: string) returns (saved: bool)
      modifies this`disk
      ensures saved <==> Storable(accepts, e) && name !in old(disk)
      ensures disk == if saved then old(disk)[name := e.media.content] else old(disk)
    {
      var m := e.media;
      if !m.opens || !m.creates || name in disk {
        return false;
      }
      disk := disk[name := []];
      if m.content == [] || (Faulty(m) && m.fault.value < HEAD) {
        Remove(name);
        return false;
      }
      if !accepts(e.ext, Head(m)) {
        Remove(name);
        return false;
      }
      if Faulty(m) && m.fault.value <= MAX_FILE {
        Remove(name);
        return false;
      }
      var written := if |m.content| > MAX_FILE + 1 then MAX_FILE + 1 else |m.content|;
      disk := disk[name := m.content[..written]];
      if written > MAX_FILE {
        Remove(name);
        return false;
      }
      assert m.content[..written] == m.content;
      if !m.closes {
        Remove(name);
        return false;
      }
      return true;
    }

    method Remove(name: string)
      modifies this`disk
      ensures disk == old(disk) - {name}
    {
      disk := disk - {name};
    }

    method RemoveAll(names: seq<string>)
      modifies this`disk
      ensures disk == old(disk) - (set p | p in names)
    {
      for i := 0 to |names|
        invariant disk == old(disk) - (set k | 0 <= k < i :: names[k])
      {
        Remove(names[i]);
      }
    }

    method ExtractEntry(f: Entry, name: string) returns (failure: Option<ImportError>)
      modifies this`disk
      ensures failure.None? <==> Extracts(accepts, f) && (f.kind.MediaFile? ==> name !in old(disk))
      ensures disk == if failure.None? && f.kind.MediaFile? then old(disk)[name := f.media.content] else old(disk)
    {
      if f.kind.Svg? {
        return Some(SvgRefused);
      }
      if f.kind.MediaFile? {
        var saved := SaveMediaFile(f, name);
        if !saved {
          return Some(MediaFailed);
        }
      } else if f.kind.Xml? {
        if f.uncompressed > MAX_XML {
          return Some(XmlTooLarge);
        }
      }
      return None;
    }

    // The first pass: media to disk, XML entries aside.
    method Extract(entries: seq<Entry>, names: seq<string>)
      returns (failure: Option<ImportError>, created: seq<string>, xmlFiles: seq<Entry>, ghost passed: nat)
      requires |names| == |entries|
      modifies this`disk
      ensures passed <= |entries| && Extractable(accepts, entries, names, passed, old(disk))
      ensures disk == WithMedia(old(disk), entries, names, passed) && created == MediaNames(entries, names, passed)
      ensures failure.None? <==> Extractable(accepts, entries, names, |entries|, old(disk))
      ensures failure.None? ==> passed == |entries| && xmlFiles == XmlEntries(entries, |entries|)
    {
      failure, created, xmlFiles, passed := None, [], [], 0;
      for i := 0 to |entries|
        invariant passed == i && failure.None?
        invariant disk == WithMedia(old(disk), entries, names, i) && created == MediaNames(entries, names, i)
        invariant xmlFiles == XmlEntries(entries, i)
        invariant Extractable(accepts, entries, names, i, old(disk))
      {
        var f := entries[i];
        ExtractsOneMore(accepts, entries, names, i, old(disk));
        ExtractionStops(accepts, entries, names, i, old(disk));
        failure := ExtractEntry(f, names[i]);
        if failure.Some? {
          return;
        }
        if f.kind.MediaFile? {
          created := created + [names[i]];
        }
        if f.kind.Xml? {
          xmlFiles := xmlFiles + [f];
        }
        passed := i + 1;
      }
    }

    // The second pass: one transaction that inserts the items of the XML entries.
    method Insert(xmlFiles: seq<Entry>, database: Database) returns (result: Result<seq<ItemRow>, ImportError>)
      requires forall e | e in xmlFiles :: EntryFits(e)
      modifies this`items
      ensures result.Success? <==> Insertable(Rows(xmlFiles, |xmlFiles|), old(items), database)
      ensures result.Success? ==>
          result.value == Rows(xmlFiles, |xmlFiles|) && items == WithRows(old(items), result.value)
      ensures result.Failure? ==> items == old(items)
    {
      if !database.begins {
        return Failure(DatabaseFailed);
      }
      var pending, importedItems := items, [];
      for i := 0 to |xmlFiles|
        invariant importedItems == Rows(xmlFiles, i) && pending == WithRows(items, importedItems)
        invariant items == old(items) && Creatable(importedItems, items, database)
      {
        if xmlFiles[i].document.None? {
          continue;
        }
        assert EntryFits(xmlFiles[i]);
        var item := ParseItem(xmlFiles[i].document.value, xmlFiles[i].supply);
        if item.Failure? {
          continue;
        }
        CreatesOneMore(importedItems, item.value, items, database);
        if |importedItems| in database.failsAt || item.value.id in pending {
          RefusedRow(xmlFiles, i, items, database);
          return Failure(DatabaseFailed);
        }
        pending := pending[item.value.id := item.value];
        importedItems := importedItems + [item.value];
      }
      if |importedItems| == 0 {
        return Failure(NoItem);
      }
      if !database.commits {
        return Failure(DatabaseFailed);
      }
      items := pending;
      return Success(importedItems);
    }

    /**
     The import succeeds exactly when the package is within the limits, every entry extracts and its
     rows can be inserted. Then it adds the rows it returns to the table and one file for every media
     entry to the disk, and nothing else; otherwise it leaves both as they were.
     */
    method ImportQTIPackage(package: Package, directory: bool, names: seq<string>, database: Database)
      returns (result: Result<seq<ItemRow>, ImportError>)
      requires |names| == |package.entries| && forall e | e in package.entries :: EntryFits(e)
      modifies this
      ensures result.Success? <==>
              && package.regular && 0 < package.size <= 50 * 1024 * 1024 && package.opens && |package.entries| <= 1000
              && SizesOk(package.entries) && directory
              && Extractable(accepts, package.entries, names, |package.entries|, old(disk))
              && Insertable(PackageRows(package), old(items), database)
      ensures result.Success? ==>
                && result.value == PackageRows(package)
                && items == WithRows(old(items), result.value)
                && disk == WithMedia(old(disk), package.entries, names, |package.entries|)
      ensures result.Failure? ==> items == old(items) && disk == old(disk)
      ensures result.Success? ==> result.value != [] && database.begins && database.commits
    {
      if !package.regular || package.size <= 0 || package.size > MAX_PACKAGE || !package.opens {
        return Failure(PackageInvalid);
      }
      if |package.entries| > MAX_ENTRIES {
        return Failure(TooManyEntries);
      }
      var oversize := CheckSizes(package.entries);
      if oversize.Some? {
        return Failure(oversize.value);
      }
      if !directory {
        return Failure(DirectoryFailed);
      }
      var failure, created, xmlFiles, passed := Extract(package.entries, names);
      FilesRemoved(accepts, package.entries, names, passed, old(disk));
      if failure.Some? {
        RemoveAll(created);
        return Failure(failure.value);
      }
      result := Insert(xmlFiles, database);
      if result.Failure? {
        RemoveAll(created);
      }
    }
  }

  ghost function PackageRows(package: Package): seq<ItemRow>
    requires forall e | e in package.entries :: EntryFits(e)
  {
    var xml := XmlEntries(package.entries, |package.entries|);
    Rows(xml, |xml|)
  }

  // The entry's document is acceptable and becomes this row.
  ghost predicate Yields(e: Entry, row: ItemRow) {
    EntryFits(e) && BecomesRow(e) && row == RowFor(e.document.value, e.supply)
  }

  lemma XmlByName(e: Entry)
    requires EntryFits(e)
    ensures e.kind.Xml? <==> e.ext == ".xml"
  {
  }

  /** The rows of a package are those of its XML entries with acceptable documents, and no others. */
  lemma RowsAreThoseOfDocuments(package: Package, row: ItemRow)
    requires forall e | e in package.entries :: EntryFits(e)
    ensures row in PackageRows(package) <==> exists e | e in package.entries :: e.ext == ".xml" && Yields(e, row)
  {
    var entries := package.entries;
    var xml := XmlEntries(entries, |entries|);
    if row in PackageRows(package) {
      var e := DocumentOf(xml, |xml|, row);
      XmlByName(e);
    }
    if e :| e in entries && e.ext == ".xml" && Yields(e, row) {
      XmlByName(e);
      XmlIsKept(entries, |entries|, e);
      RowIsMade(xml, |xml|, e, row);
    }
  }

  lemma {:induction false} XmlIsKept(entries: seq<Entry>, n: nat, e: Entry)
    requires n <= |entries| && e in entries[..n] && e.kind.Xml?
    ensures e in XmlEntries(entries, n)
  {
    if entries[n - 1] != e {
      assert e in entries[..n - 1];
      XmlIsKept(entries, n - 1, e);
    }
  }

  lemma {:induction false} DocumentOf(xml: seq<Entry>, n: nat, row: ItemRow) returns (e: Entry)
    requires n <= |xml| && (forall e | e in xml :: EntryFits(e)) && row in Rows(xml, n)
    ensures e in xml && Yields(e, row)
  {
    if row in Rows(xml, n - 1) {
      e := DocumentOf(xml, n - 1, row);
    } else {
      e := xml[n - 1];
    }
  }

  lemma {:induction false} RowIsMade(xml: seq<Entry>, n: nat, e: Entry, row: ItemRow)
    requires n <= |xml| && (forall e | e in xml :: EntryFits(e)) && e in xml[..n] && Yields(e, row)
    ensures row in Rows(xml, n)
  {
    if xml[n - 1] != e {
      assert e in xml[..n - 1];
      RowIsMade(xml, n - 1, e, row);
    }
  }

  // A row that cannot be created keeps all rows from being inserted.
  lemma RefusedRow(xml: seq<Entry>, i: nat, items: map<string, ItemRow>, database: Database)
    requires i < |xml| && (forall e | e in xml :: EntryFits(e)) && BecomesRow(xml[i])
    requires !Creatable(Rows(xml, i + 1), items, database)
    ensures !Creatable(Rows(xml, |xml|), items, database)
  {
    var before, all := Rows(xml, i + 1), Rows(xml, |xml|);
    RowsGrow(xml, i + 1, |xml|);
    if Free(items, Ids(all)) {
      assert Ids(before) <= Ids(all);
      FreePrefix(items, Ids(before), Ids(all));
    }
  }

  lemma {:induction false} RowsGrow(xml: seq<Entry>, m: nat, n: nat)
    requires m <= n <= |xml| && forall e | e in xml :: EntryFits(e)
    ensures Rows(xml, m) <= Rows(xml, n)
    decreases n
  {
    if m < n {
      RowsGrow(xml, m, n - 1);
    }
  }

  /**
   What a successful import leaves: every returned row under its identifier, every media entry's bytes
   under its name, nothing that was there before changed, and exactly as many rows and files more.
   */
  lemma ImportLeavesExactly(
    accepts: (string, seq<bv8>) -> bool, package: Package, names: seq<string>, database: Database,
    items: map<string, ItemRow>, disk: map<string, seq<bv8>>)
    requires |names| == |package.entries| && forall e | e in package.entries :: EntryFits(e)
    requires Extractable(accepts, package.entries, names, |package.entries|, disk)
    requires Insertable(PackageRows(package), items, database)
    ensures var rows, items' := PackageRows(package), WithRows(items, PackageRows(package));
            && |items'| == |items| + |rows|
            && (forall k | 0 <= k < |rows| :: rows[k].id in items' && items'[rows[k].id] == rows[k])
            && (forall id | id in items :: id in items' && items'[id] == items[id])
    ensures var files := MediaContents(package.entries, |package.entries|);
            var disk' := WithMedia(disk, package.entries, names, |package.entries|);
            && |disk'| == |disk| + |files|
            && (forall i | 0 <= i < |names| && package.entries[i].kind.MediaFile? ::
                  names[i] in disk' && disk'[names[i]] == package.entries[i].media.content)
            && (forall p | p in disk :: p in disk' && disk'[p] == disk[p])
  {
    var rows, entries, n := PackageRows(package), package.entries, |package.entries|;
    WithKeepsOthers(items, Ids(rows), rows);
    forall k | 0 <= k < |rows|
      ensures var items' := WithRows(items, rows); rows[k].id in items' && items'[rows[k].id] == rows[k]
    {
      WithHolds(items, Ids(rows), rows, k);
    }
    MediaMatch(entries, names, n);
    WithKeepsOthers(disk, MediaNames(entries, names, n), MediaContents(entries, n));
    forall i | 0 <= i < n && entries[i].kind.MediaFile?
      ensures var disk' := WithMedia(disk, entries, names, n);
              names[i] in disk' && disk'[names[i]] == entries[i].media.content
    {
      var k := MediaPlace(entries, names, n, i);
      WithHolds(disk, MediaNames(entries, names, n), MediaContents(entries, n), k);
    }
  }

  // Where a media entry stands among the media.
  lemma {:induction false} MediaPlace(entries: seq<Entry>, names: seq<string>, n: nat, i: nat) returns (k: nat)
    requires i < n <= |entries| == |names| && entries[i].kind.MediaFile?
    ensures k < |MediaNames(entries, names, n)| == |MediaContents(entries, n)|
    ensures MediaNames(entries, names, n)[k] == names[i] && MediaContents(entries, n)[k] == entries[i].media.content
  {
    MediaMatch(entries, names, n - 1);
    if i == n - 1 {
      k := |MediaNames(entries, names, n - 1)|;
    } else {
      k := MediaPlace(entries, names, n - 1, i);
    }
  }
}
