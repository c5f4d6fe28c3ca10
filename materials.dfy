/** The materials view of `subjectDetailsHandler`
    (src/handlers/file-search-handlers.js): the message is built line by
    line, notes grouped by unit in ascending unit number, then the four
    file categories in a fixed order. Wording and Markdown are abstracted
    to one `Line` value per line of the message. */
module Materials {
  import opened Js
  import opened Catalog

  datatype Section = Notes | InSem | EndSem | Decodes | Books

  datatype Line =
    | Title(name: string)
    | CodeLine(code: string)
    | PatternLine(patternYear: string)
    | Heading(section: Section)
    | UnitHeading(unitNumber: int)
    | Link(fileName: string, fileId: string)
    | Blank
    | NoMaterials

  // ---------------------------------------------------------------------
  // The stable sort of `[...subject.units].sort((a, b) => a.unitNumber - b.unitNumber)`
  // ---------------------------------------------------------------------

  predicate SortedByUnitNumber(us: seq<Unit>)
  {
    forall i, j :: 0 <= i < j < |us| ==> us[i].unitNumber <= us[j].unitNumber
  }

  /** Places `u` before the first unit whose number is not smaller. */
  function Insert(u: Unit, s: seq<Unit>): seq<Unit>
  {
    if s == [] || u.unitNumber <= s[0].unitNumber then [u] + s
    else [s[0]] + Insert(u, s[1..])
  }

  /** A stable sort by ascending unit number (insertion sort): the result
      is ascending and a permutation of the units. */
  function SortByUnitNumber(us: seq<Unit>): (r: seq<Unit>)
    ensures SortedByUnitNumber(r)
    ensures multiset(r) == multiset(us)
  {
    if us == [] then []
    else
      var rest := SortByUnitNumber(us[1..]);
      InsertSorted(us[0], rest);
      InsertPermutation(us[0], rest);
      assert us == [us[0]] + us[1..];
      Insert(us[0], rest)
  }

  /** The units carrying unit number `n`, in order. */
  function WithNumber(us: seq<Unit>, n: int): seq<Unit>
  {
    if us == [] then []
    else (if us[0].unitNumber == n then [us[0]] else []) + WithNumber(us[1..], n)
  }

  /** The first unit after an insertion is the inserted one or the old first. */
  lemma InsertHead(u: Unit, s: seq<Unit>)
    ensures Insert(u, s) != []
    ensures Insert(u, s)[0] == u || (s != [] && Insert(u, s)[0] == s[0])
  {
  }

  /** Insertion adds exactly the inserted unit. */
  lemma {:induction false} InsertPermutation(u: Unit, s: seq<Unit>)
    ensures multiset(Insert(u, s)) == multiset([u] + s)
  {
    if s == [] || u.unitNumber <= s[0].unitNumber {
    } else {
      InsertPermutation(u, s[1..]);
      assert Insert(u, s) == [s[0]] + Insert(u, s[1..]);
      assert s == [s[0]] + s[1..];
      assert multiset([u] + s) == multiset([s[0]]) + multiset([u] + s[1..]);
    }
  }

  /** Insertion into a sorted list keeps it sorted. */
  lemma {:induction false} InsertSorted(u: Unit, s: seq<Unit>)
    requires SortedByUnitNumber(s)
    ensures SortedByUnitNumber(Insert(u, s))
  {
    if s == [] || u.unitNumber <= s[0].unitNumber {
    } else {
      var r := Insert(u, s[1..]);
      InsertSorted(u, s[1..]);
      InsertHead(u, s[1..]);
      assert Insert(u, s) == [s[0]] + r;
      assert s[0].unitNumber <= r[0].unitNumber;
      forall i, j | 0 <= i < j < |[s[0]] + r|
        ensures ([s[0]] + r)[i].unitNumber <= ([s[0]] + r)[j].unitNumber
      {
        if 0 < i {
          assert ([s[0]] + r)[i] == r[i - 1] && ([s[0]] + r)[j] == r[j - 1];
        } else {
          assert r[0].unitNumber <= r[j - 1].unitNumber;
        }
      }
    }
  }

  lemma {:induction false} InsertKeepsEqualNumbers(u: Unit, s: seq<Unit>, n: int)
    ensures WithNumber(Insert(u, s), n) == WithNumber([u] + s, n)
  {
    if s == [] || u.unitNumber <= s[0].unitNumber {
    } else {
      InsertKeepsEqualNumbers(u, s[1..], n);
      var r := Insert(u, s[1..]);
      assert ([s[0]] + r)[1..] == r;
      assert ([u] + s[1..])[1..] == s[1..];
      assert ([u] + s)[1..] == s;
      assert s[1..] == s[1..];
    }
  }

  /** The sort is stable: units with the same number keep their relative order. */
  lemma {:induction false} SortIsStable(us: seq<Unit>, n: int)
    ensures WithNumber(SortByUnitNumber(us), n) == WithNumber(us, n)
  {
    if us != [] {
      SortIsStable(us[1..], n);
      InsertKeepsEqualNumbers(us[0], SortByUnitNumber(us[1..]), n);
      var s := SortByUnitNumber(us[1..]);
      assert ([us[0]] + s)[1..] == s;
    }
  }

  // ---------------------------------------------------------------------
  // The message, as a specification
  // ---------------------------------------------------------------------

  /** One `• [fileName](link)` line per file. */
  function FileLinks(files: seq<FileRef>): seq<Line>
  {
    if files == [] then []
    else FileLinks(files[..|files| - 1]) + [Link(files[|files| - 1].fileName, files[|files| - 1].id)]
  }

  /** A unit with files: a blank line, the unit heading, its files; otherwise nothing. */
  function UnitLines(u: Unit): seq<Line>
  {
    if u.files == [] then [] else [Blank, UnitHeading(u.unitNumber)] + FileLinks(u.files)
  }

  function UnitsLines(us: seq<Unit>): seq<Line>
  {
    if us == [] then [] else UnitsLines(us[..|us| - 1]) + UnitLines(us[|us| - 1])
  }

  function NotesSection(units: seq<Unit>): seq<Line>
  {
    if units == [] then [] else [Heading(Notes)] + UnitsLines(SortByUnitNumber(units)) + [Blank]
  }

  function FileSection(section: Section, files: seq<FileRef>): seq<Line>
  {
    if files == [] then [] else [Heading(section)] + FileLinks(files) + [Blank]
  }

  function HeaderLines(s: Subject): seq<Line>
  {
    [Title(s.name), CodeLine(s.code), PatternLine(OrElse(s.patternYear, "N/A")), Blank]
  }

  /** The `hasContent` flag: set by any non-empty list, including a units
      list whose units carry no files. */
  predicate HasContent(s: Subject)
  {
    s.units != [] || s.insem != [] || s.endsem != [] || s.decodes != [] || s.books != []
  }

  /** The four file categories, in their fixed order. */
  function FileSections(s: Subject): seq<Line>
  {
    FileSection(InSem, s.insem) + FileSection(EndSem, s.endsem)
    + FileSection(Decodes, s.decodes) + FileSection(Books, s.books)
  }

  /** The message: "No materials" appears exactly when the subject has no
      content. */
  function MaterialsMessage(s: Subject): (r: seq<Line>)
    ensures NoMaterials in r <==> !HasContent(s)
  {
    NotesSectionShows(s.units);
    FileSectionsShow(s);
    HeaderLines(s) + NotesSection(s.units) + FileSections(s)
    + (if HasContent(s) then [] else [NoMaterials])
  }

  // ---------------------------------------------------------------------
  // The message, as the handler builds it
  // ---------------------------------------------------------------------

  /** The `forEach` over a file list, appending one link line per file. */
  method AppendFileLinks(message: seq<Line>, files: seq<FileRef>) returns (r: seq<Line>)
    ensures r == message + FileLinks(files)
  {
    r := message;
    var j := 0;
    while j < |files|
      invariant 0 <= j <= |files|
      invariant r == message + FileLinks(files[..j])
    {
      assert files[..j + 1][..j] == files[..j];
      r := r + [Link(files[j].fileName, files[j].id)];
      j := j + 1;
    }
    assert files[..|files|] == files;
  }

  /** One of the four file categories: heading, links, blank line, and the
      `hasContent` flag set, when the list is non-empty. */
  method AppendFileSection(message: seq<Line>, hasContent: bool, section: Section, files: seq<FileRef>)
    returns (r: seq<Line>, r_hasContent: bool)
    ensures r == message + FileSection(section, files)
    ensures r_hasContent == (hasContent || files != [])
  {
    r, r_hasContent := message, hasContent;
    if |files| > 0 {
      r := r + [Heading(section)];
      r := AppendFileLinks(r, files);
      r := r + [Blank];
      r_hasContent := true;
    }
  }

  /** A unit with files: a blank line, its heading and its file links. */
  method AppendUnit(message: seq<Line>, unit: Unit) returns (r: seq<Line>)
    ensures r == message + UnitLines(unit)
  {
    r := message;
    if |unit.files| > 0 {
      r := r + [Blank, UnitHeading(unit.unitNumber)];
      r := AppendFileLinks(r, unit.files);
    }
  }

  /** The notes block: the heading, then each unit with files in ascending
      unit number, then a blank line, when the subject has units. */
  method AppendNotesSection(message: seq<Line>, units: seq<Unit>) returns (r: seq<Line>)
    ensures r == message + NotesSection(units)
  {
    r := message;
    if |units| > 0 {
      var sortedUnits := SortByUnitNumber(units);
      var body := [];
      var i := 0;
      while i < |sortedUnits|
        invariant 0 <= i <= |sortedUnits|
        invariant body == UnitsLines(sortedUnits[..i])
      {
        assert sortedUnits[..i + 1][..i] == sortedUnits[..i];
        body := AppendUnit(body, sortedUnits[i]);
        i := i + 1;
      }
      assert sortedUnits[..|sortedUnits|] == sortedUnits;
      r := r + ([Heading(Notes)] + body + [Blank]);
    }
  }

  /** The four file categories in order; the flag is set by any non-empty one. */
  method AppendFileSections(message: seq<Line>, hasContent: bool, s: Subject)
    returns (r: seq<Line>, r_hasContent: bool)
    ensures r == message + FileSections(s)
    ensures r_hasContent == (hasContent || s.insem != [] || s.endsem != [] || s.decodes != [] || s.books != [])
  {
    var a, b, c, d;
    a, r_hasContent := AppendFileSection([], hasContent, InSem, s.insem);
    b, r_hasContent := AppendFileSection(a, r_hasContent, EndSem, s.endsem);
    c, r_hasContent := AppendFileSection(b, r_hasContent, Decodes, s.decodes);
    d, r_hasContent := AppendFileSection(c, r_hasContent, Books, s.books);
    assert d == FileSections(s);
    r := message + d;
  }

  /** The message built by `subjectDetailsHandler` with `let message` and `+=`. */
  method BuildMaterialsMessage(s: Subject) returns (message: seq<Line>)
    ensures message == MaterialsMessage(s)
  {
    message := HeaderLines(s);
    message := AppendNotesSection(message, s.units);
    var hasContent := |s.units| > 0;
    message, hasContent := AppendFileSections(message, hasContent, s);
    if !hasContent {
      message := message + [NoMaterials];
    }
  }

  // ---------------------------------------------------------------------
  // What the message shows
  // ---------------------------------------------------------------------

  /** The section headings of a message, in order. */
  function Headings(lines: seq<Line>): seq<Section>
  {
    if lines == [] then []
    else (if lines[0].Heading? then [lines[0].section] else []) + Headings(lines[1..])
  }

  /** The unit numbers of the unit headings of a message, in order. */
  function UnitNumbers(lines: seq<Line>): seq<int>
  {
    if lines == [] then []
    else (if lines[0].UnitHeading? then [lines[0].unitNumber] else []) + UnitNumbers(lines[1..])
  }

  /** The numbers of the units that have files, in order. */
  function NumbersWithFiles(us: seq<Unit>): seq<int>
  {
    if us == [] then []
    else NumbersWithFiles(us[..|us| - 1]) + (if us[|us| - 1].files == [] then [] else [us[|us| - 1].unitNumber])
  }

  lemma {:induction false} HeadingsAppend(a: seq<Line>, b: seq<Line>)
    ensures Headings(a + b) == Headings(a) + Headings(b)
    ensures UnitNumbers(a + b) == UnitNumbers(a) + UnitNumbers(b)
  {
    if a != [] {
      HeadingsAppend(a[1..], b);
      assert (a + b)[1..] == a[1..] + b;
    } else {
      assert a + b == b;
    }
  }

  lemma {:induction false} FileLinksShowNoStructure(files: seq<FileRef>)
    ensures Headings(FileLinks(files)) == [] && UnitNumbers(FileLinks(files)) == []
    ensures NoMaterials !in FileLinks(files)
  {
    if files != [] {
      var last := files[|files| - 1];
      FileLinksShowNoStructure(files[..|files| - 1]);
      HeadingsAppend(FileLinks(files[..|files| - 1]), [Link(last.fileName, last.id)]);
    }
  }

  lemma {:induction false} UnitsLinesShowUnits(us: seq<Unit>)
    ensures Headings(UnitsLines(us)) == []
    ensures UnitNumbers(UnitsLines(us)) == NumbersWithFiles(us)
    ensures NoMaterials !in UnitsLines(us)
  {
    if us != [] {
      var u := us[|us| - 1];
      UnitsLinesShowUnits(us[..|us| - 1]);
      HeadingsAppend(UnitsLines(us[..|us| - 1]), UnitLines(u));
      FileLinksShowNoStructure(u.files);
      if u.files != [] {
        HeadingsAppend([Blank, UnitHeading(u.unitNumber)], FileLinks(u.files));
        assert UnitNumbers([Blank, UnitHeading(u.unitNumber)]) == [u.unitNumber];
      }
    }
  }

  lemma {:induction false} NumbersWithFilesBounded(us: seq<Unit>, bound: int)
    requires forall i :: 0 <= i < |us| ==> us[i].unitNumber <= bound
    ensures forall k :: 0 <= k < |NumbersWithFiles(us)| ==> NumbersWithFiles(us)[k] <= bound
  {
    if us != [] {
      NumbersWithFilesBounded(us[..|us| - 1], bound);
    }
  }

  /** Keeping only the units with files keeps ascending order. */
  lemma {:induction false} NumbersWithFilesSorted(us: seq<Unit>)
    requires SortedByUnitNumber(us)
    ensures forall i, j :: 0 <= i < j < |NumbersWithFiles(us)| ==> NumbersWithFiles(us)[i] <= NumbersWithFiles(us)[j]
  {
    if us != [] {
      var init := us[..|us| - 1];
      NumbersWithFilesSorted(init);
      NumbersWithFilesBounded(init, us[|us| - 1].unitNumber);
    }
  }

  lemma {:induction false} PlainLines(lines: seq<Line>)
    requires forall i :: 0 <= i < |lines| ==> !lines[i].Heading? && !lines[i].UnitHeading?
    ensures Headings(lines) == [] && UnitNumbers(lines) == []
  {
    if lines != [] {
      PlainLines(lines[1..]);
    }
  }

  /** The sections that `MaterialsMessage` shows, in their fixed order. */
  function PresentSections(s: Subject): seq<Section>
  {
    (if s.units != [] then [Notes] else []) + PresentFileSections(s)
  }

  function PresentFileSections(s: Subject): seq<Section>
  {
    (if s.insem != [] then [InSem] else []) + (if s.endsem != [] then [EndSem] else [])
    + (if s.decodes != [] then [Decodes] else []) + (if s.books != [] then [Books] else [])
  }

  lemma FileSectionShows(section: Section, files: seq<FileRef>)
    ensures Headings(FileSection(section, files)) == (if files != [] then [section] else [])
    ensures UnitNumbers(FileSection(section, files)) == []
    ensures NoMaterials !in FileSection(section, files)
  {
    FileLinksShowNoStructure(files);
    if files != [] {
      HeadingsAppend([Heading(section)], FileLinks(files));
      HeadingsAppend([Heading(section)] + FileLinks(files), [Blank]);
    }
  }

  lemma NotesSectionShows(units: seq<Unit>)
    ensures Headings(NotesSection(units)) == (if units != [] then [Notes] else [])
    ensures UnitNumbers(NotesSection(units)) == NumbersWithFiles(SortByUnitNumber(units))
    ensures NoMaterials !in NotesSection(units)
  {
    if units != [] {
      var sorted := SortByUnitNumber(units);
      UnitsLinesShowUnits(sorted);
      HeadingsAppend([Heading(Notes)], UnitsLines(sorted));
      HeadingsAppend([Heading(Notes)] + UnitsLines(sorted), [Blank]);
    }
  }

  lemma FileSectionsShow(s: Subject)
    ensures Headings(FileSections(s)) == PresentFileSections(s)
    ensures UnitNumbers(FileSections(s)) == []
    ensures NoMaterials !in FileSections(s)
  {
    var a := FileSection(InSem, s.insem);
    var b := FileSection(EndSem, s.endsem);
    var c := FileSection(Decodes, s.decodes);
    var d := FileSection(Books, s.books);
    FileSectionShows(InSem, s.insem);
    FileSectionShows(EndSem, s.endsem);
    FileSectionShows(Decodes, s.decodes);
    FileSectionShows(Books, s.books);
    HeadingsAppend(a, b);
    HeadingsAppend(a + b, c);
    HeadingsAppend(a + b + c, d);
  }

  /** The message as its four parts, with what each part shows. */
  lemma MaterialsMessageParts(s: Subject)
    returns (h: seq<Line>, n: seq<Line>, f: seq<Line>, tail: seq<Line>)
    ensures MaterialsMessage(s) == h + n + f + tail
    ensures Headings(h) == [] && UnitNumbers(h) == [] && NoMaterials !in h
    ensures Headings(n) == (if s.units != [] then [Notes] else [])
    ensures UnitNumbers(n) == NumbersWithFiles(SortByUnitNumber(s.units)) && NoMaterials !in n
    ensures Headings(f) == PresentFileSections(s) && UnitNumbers(f) == [] && NoMaterials !in f
    ensures Headings(tail) == [] && UnitNumbers(tail) == []
    ensures tail == (if HasContent(s) then [] else [NoMaterials])
  {
    h := HeaderLines(s);
    n := NotesSection(s.units);
    f := FileSections(s);
    tail := if HasContent(s) then [] else [NoMaterials];
    PlainLines(h);
    PlainLines(tail);
    NotesSectionShows(s.units);
    FileSectionsShow(s);
  }

  /** The headings appear in the order Notes, InSem, EndSem, Decodes, Books,
      each exactly when its list is non-empty. */
  lemma MaterialsHeadingsInOrder(s: Subject)
    ensures Headings(MaterialsMessage(s)) == PresentSections(s)
  {
    var h, n, f, tail := MaterialsMessageParts(s);
    HeadingsAppend(h, n);
    assert Headings(h + n) == Headings(n);
    HeadingsAppend(h + n, f);
    assert Headings(h + n + f) == Headings(n) + Headings(f);
    HeadingsAppend(h + n + f, tail);
    assert Headings(h + n + f + tail) == Headings(h + n + f) + [];
  }

  /** The unit headings list exactly the units that have files, in ascending
      unit number. */
  lemma MaterialsUnitsAscending(s: Subject)
    ensures UnitNumbers(MaterialsMessage(s)) == NumbersWithFiles(SortByUnitNumber(s.units))
    ensures var shown := UnitNumbers(MaterialsMessage(s));
            forall i, j :: 0 <= i < j < |shown| ==> shown[i] <= shown[j]
  {
    var h, n, f, tail := MaterialsMessageParts(s);
    HeadingsAppend(h, n);
    HeadingsAppend(h + n, f);
    HeadingsAppend(h + n + f, tail);
    NumbersWithFilesSorted(SortByUnitNumber(s.units));
  }
}
