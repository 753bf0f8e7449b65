// KoInlineCite: a citation in a text document, kept as a record of
// bibliography fields, loaded from and saved to the attributes of the
// text:bibliography-mark element of OpenDocument (section 8.1.4 of
// OpenDocument 1.2, Part 1).
//
// The citation is a class whose one field is the record the C++ class keeps
// behind its private pointer; every setter and loadOdf assign fields of that
// record one by one. The XML writer is a class that appends events to the
// document it writes, and the element read back from those events is a
// value. The text frame, the font metrics and the painting of the citation
// are not part of this model.

module InlineCite {
  import opened Primitives

  /** The OpenDocument text namespace */
  const TextNs := "urn:oasis:names:tc:opendocument:xmlns:text:1.0"

  /** KoInlineCite::Private, without the text frame */
  datatype Private = Private(
    bibliographyType: string,
    identifier: string,
    address: string,
    annote: string,
    author: string,
    booktitle: string,
    chapter: string,
    edition: string,
    editor: string,
    publicationType: string,
    institution: string,
    journal: string,
    month: string,
    note: string,
    number: string,
    organisation: string,
    pages: string,
    publisher: string,
    school: string,
    series: string,
    title: string,
    reportType: string,
    volume: string,
    year: string,
    url: string,
    isbn: string,
    custom1: string,
    custom2: string,
    custom3: string,
    custom4: string,
    custom5: string)

  /** A newly made citation: every field is the empty string */
  const EmptyRecord := Private("", "", "", "", "", "", "", "", "", "", "", "", "", "", "", "", "", "", "", "", "",
                               "", "", "", "", "", "", "", "", "", "")

  /** The names of the record's fields, to speak of all of them at once */
  datatype Field =
    | BibliographyType | Identifier | Address | Annote | Author | BookTitle | Chapter | Edition | Editor
    | PublicationType | Institution | Journal | Month | Note | Number | Organisation | Pages | Publisher | School
    | Series | Title | ReportType | Volume | Year | Url | Isbn | Custom1 | Custom2 | Custom3 | Custom4 | Custom5

  /** The value of one field of a record */
  function Value(p: Private, f: Field): string {
    match f
    case BibliographyType => p.bibliographyType
    case Identifier => p.identifier
    case Address => p.address
    case Annote => p.annote
    case Author => p.author
    case BookTitle => p.booktitle
    case Chapter => p.chapter
    case Edition => p.edition
    case Editor => p.editor
    case PublicationType => p.publicationType
    case Institution => p.institution
    case Journal => p.journal
    case Month => p.month
    case Note => p.note
    case Number => p.number
    case Organisation => p.organisation
    case Pages => p.pages
    case Publisher => p.publisher
    case School => p.school
    case Series => p.series
    case Title => p.title
    case ReportType => p.reportType
    case Volume => p.volume
    case Year => p.year
    case Url => p.url
    case Isbn => p.isbn
    case Custom1 => p.custom1
    case Custom2 => p.custom2
    case Custom3 => p.custom3
    case Custom4 => p.custom4
    case Custom5 => p.custom5
  }

  /**
   * The local name, in the text namespace, of the attribute loadOdf reads a
   * field from: the field's own name, except that the publication type is
   * read from "howpublished" and the organisation from "organisations".
   */
  function AttributeName(f: Field): string {
    match f
    case BibliographyType => "bibliography-type"
    case Identifier => "identifier"
    case Address => "address"
    case Annote => "annote"
    case Author => "author"
    case BookTitle => "booktitle"
    case Chapter => "chapter"
    case Edition => "edition"
    case Editor => "editor"
    case PublicationType => "howpublished"
    case Institution => "institution"
    case Journal => "journal"
    case Month => "month"
    case Note => "note"
    case Number => "number"
    case Organisation => "organisations"
    case Pages => "pages"
    case Publisher => "publisher"
    case School => "school"
    case Series => "series"
    case Title => "title"
    case ReportType => "report-type"
    case Volume => "volume"
    case Year => "year"
    case Url => "url"
    case Isbn => "isbn"
    case Custom1 => "custom1"
    case Custom2 => "custom2"
    case Custom3 => "custom3"
    case Custom4 => "custom4"
    case Custom5 => "custom5"
  }

  /** The field an attribute name belongs to, if any (looked up by its first letter) */
  function FieldNamed(name: string): Option<Field> {
    if |name| == 0 then None
    else match name[0]
      case 'a' => if name == "address" then Some(Address) else if name == "annote" then Some(Annote) else if name == "author" then Some(Author) else None
      case 'b' => if name == "bibliography-type" then Some(BibliographyType) else if name == "booktitle" then Some(BookTitle) else None
      case 'c' => if name == "chapter" then Some(Chapter) else if name == "custom1" then Some(Custom1) else if name == "custom2" then Some(Custom2) else if name == "custom3" then Some(Custom3) else if name == "custom4" then Some(Custom4) else if name == "custom5" then Some(Custom5) else None
      case 'e' => if name == "edition" then Some(Edition) else if name == "editor" then Some(Editor) else None
      case 'h' => if name == "howpublished" then Some(PublicationType) else None
      case 'i' => if name == "identifier" then Some(Identifier) else if name == "institution" then Some(Institution) else if name == "isbn" then Some(Isbn) else None
      case 'j' => if name == "journal" then Some(Journal) else None
      case 'm' => if name == "month" then Some(Month) else None
      case 'n' => if name == "note" then Some(Note) else if name == "number" then Some(Number) else None
      case 'o' => if name == "organisations" then Some(Organisation) else None
      case 'p' => if name == "pages" then Some(Pages) else if name == "publisher" then Some(Publisher) else None
      case 'r' => if name == "report-type" then Some(ReportType) else None
      case 's' => if name == "school" then Some(School) else if name == "series" then Some(Series) else None
      case 't' => if name == "title" then Some(Title) else None
      case 'u' => if name == "url" then Some(Url) else None
      case 'v' => if name == "volume" then Some(Volume) else None
      case 'y' => if name == "year" then Some(Year) else None
      case _ => None
  }

  /** A field's attribute name names that field. */
  lemma FieldNamedInverse(f: Field)
    ensures FieldNamed(AttributeName(f)) == Some(f)
  {
    match f
    case BibliographyType =>
    case Identifier =>
    case Address =>
    case Annote =>
    case Author =>
    case BookTitle =>
    case Chapter =>
    case Edition =>
    case Editor =>
    case PublicationType =>
    case Institution =>
    case Journal =>
    case Month =>
    case Note =>
    case Number =>
    case Organisation =>
    case Pages =>
    case Publisher =>
    case School =>
    case Series =>
    case Title =>
    case ReportType =>
    case Volume =>
    case Year =>
    case Url =>
    case Isbn =>
    case Custom1 =>
    case Custom2 =>
    case Custom3 =>
    case Custom4 =>
    case Custom5 =>
  }

  /** Every field has an attribute name of its own. */
  lemma AttributeNamesDistinct(f: Field, g: Field)
    ensures AttributeName(f) == AttributeName(g) ==> f == g
  {
    FieldNamedInverse(f);
    FieldNamedInverse(g);
  }


  /** The position of a field in the order in which loadOdf assigns the fields */
  function LoadRank(f: Field): (i: nat)
    ensures i <= 30
  {
    match f
    case Identifier => 0
    case BibliographyType => 1
    case Address => 2
    case Annote => 3
    case Author => 4
    case BookTitle => 5
    case Chapter => 6
    case Edition => 7
    case Editor => 8
    case PublicationType => 9
    case Institution => 10
    case Journal => 11
    case Month => 12
    case Note => 13
    case Number => 14
    case Organisation => 15
    case Pages => 16
    case Publisher => 17
    case School => 18
    case Series => 19
    case Title => 20
    case ReportType => 21
    case Volume => 22
    case Year => 23
    case Url => 24
    case Isbn => 25
    case Custom1 => 26
    case Custom2 => 27
    case Custom3 => 28
    case Custom4 => 29
    case Custom5 => 30
  }

  /** The field at a position of the load order */
  function FieldAt(i: nat): Field
    requires i <= 30
  {
    match i
    case 0 => Identifier
    case 1 => BibliographyType
    case 2 => Address
    case 3 => Annote
    case 4 => Author
    case 5 => BookTitle
    case 6 => Chapter
    case 7 => Edition
    case 8 => Editor
    case 9 => PublicationType
    case 10 => Institution
    case 11 => Journal
    case 12 => Month
    case 13 => Note
    case 14 => Number
    case 15 => Organisation
    case 16 => Pages
    case 17 => Publisher
    case 18 => School
    case 19 => Series
    case 20 => Title
    case 21 => ReportType
    case 22 => Volume
    case 23 => Year
    case 24 => Url
    case 25 => Isbn
    case 26 => Custom1
    case 27 => Custom2
    case 28 => Custom3
    case 29 => Custom4
    case _ => Custom5
  }

  /** The position of the field at a position is that position. */
  lemma RankOfFieldAt(i: nat)
    requires i <= 30
    ensures LoadRank(FieldAt(i)) == i
  {
  }

  /** A position of the load order names the field there. */
  lemma FieldAtRank(f: Field)
    ensures FieldAt(LoadRank(f)) == f
  {
    match f
    case Identifier =>
    case BibliographyType =>
    case Address =>
    case Annote =>
    case Author =>
    case BookTitle =>
    case Chapter =>
    case Edition =>
    case Editor =>
    case PublicationType =>
    case Institution =>
    case Journal =>
    case Month =>
    case Note =>
    case Number =>
    case Organisation =>
    case Pages =>
    case Publisher =>
    case School =>
    case Series =>
    case Title =>
    case ReportType =>
    case Volume =>
    case Year =>
    case Url =>
    case Isbn =>
    case Custom1 =>
    case Custom2 =>
    case Custom3 =>
    case Custom4 =>
    case Custom5 =>
  }

  /** A qualified name: a namespace prefix and a local name */
  datatype QName = QName(prefix: string, localName: string)

  /** An event of the XML writer */
  datatype XmlEvent =
    | StartElement(name: QName)
    | AddAttribute(name: QName, value: string)
    | AddTextNode(text: string)
    | EndElement

  /** KoXmlWriter, reduced to the events it has written */
  class XmlWriter {
    var events: seq<XmlEvent>

    constructor ()
      ensures events == []
    {
      events := [];
    }

    method StartElement(name: QName)
      modifies this
      ensures events == old(events) + [XmlEvent.StartElement(name)]
    {
      events := events + [XmlEvent.StartElement(name)];
    }

    method AddAttribute(name: QName, value: string)
      modifies this
      ensures events == old(events) + [XmlEvent.AddAttribute(name, value)]
    {
      events := events + [XmlEvent.AddAttribute(name, value)];
    }

    method AddTextNode(text: string)
      modifies this
      ensures events == old(events) + [XmlEvent.AddTextNode(text)]
    {
      events := events + [XmlEvent.AddTextNode(text)];
    }

    method EndElement()
      modifies this
      ensures events == old(events) + [XmlEvent.EndElement]
    {
      events := events + [XmlEvent.EndElement];
    }
  }

  /** The name of the element saveOdf writes */
  const MarkName := QName("text", "bibliography-mark")

  /** An attribute of an element read back, with its namespace resolved */
  datatype Attribute = Attribute(namespaceUri: string, localName: string, value: string)

  /** KoXmlElement, reduced to its name, its attributes in document order and its text */
  datatype Element = Element(namespaceUri: string, localName: string, attributes: seq<Attribute>, text: string)

  /** The namespace a prefix stands for; only the text prefix is bound. */
  function NamespaceOf(prefix: string): (ns: string)
    ensures prefix == "text" ==> ns == TextNs
  {
    if prefix == "text" then TextNs else ""
  }

  /** The attributes among the events inside an element, with their namespaces resolved */
  function AttributesOf(events: seq<XmlEvent>): seq<Attribute> {
    if events == [] then []
    else
      var last := events[|events| - 1];
      AttributesOf(events[..|events| - 1]) +
        if last.AddAttribute? then [Attribute(NamespaceOf(last.name.prefix), last.name.localName, last.value)] else []
  }

  /** The text among the events inside an element */
  function TextOf(events: seq<XmlEvent>): string {
    if events == [] then ""
    else
      var last := events[|events| - 1];
      TextOf(events[..|events| - 1]) + if last.AddTextNode? then last.text else ""
  }

  /**
   * The element a reader builds from what the writer wrote: a start tag,
   * then attributes and text, then an end tag. Nested elements are not part
   * of this model.
   */
  function ReadElement(events: seq<XmlEvent>): Option<Element> {
    if |events| >= 2 && events[0].StartElement? && events[|events| - 1].EndElement? then
      var name := events[0].name;
      var inner := events[1..|events| - 1];
      Some(Element(NamespaceOf(name.prefix), name.localName, AttributesOf(inner), TextOf(inner)))
    else
      None
  }

  /** The value of the first attribute with that namespace and local name, if any */
  function Find(attributes: seq<Attribute>, ns: string, localName: string): (v: Option<string>)
    ensures v.Some? ==> exists i :: 0 <= i < |attributes| && attributes[i] == Attribute(ns, localName, v.value)
  {
    if attributes == [] then None
    else if attributes[0].namespaceUri == ns && attributes[0].localName == localName then Some(attributes[0].value)
    else
      var v := Find(attributes[1..], ns, localName);
      if v.Some? then
        var i :| 0 <= i < |attributes[1..]| && attributes[1..][i] == Attribute(ns, localName, v.value);
        assert attributes[i + 1] == Attribute(ns, localName, v.value);
        v
      else v
  }

  /** KoXmlElement::attributeNS: the attribute's value, or the empty string when it is missing */
  function AttributeNS(attributes: seq<Attribute>, ns: string, localName: string): string {
    match Find(attributes, ns, localName)
    case None => ""
    case Some(v) => v
  }

  /** The element loadOdf accepts: bibliography-mark in the text namespace */
  predicate IsBibliographyMark(e: Element) {
    e.namespaceUri == TextNs && e.localName == "bibliography-mark"
  }

  /** What loadOdf stores in a field: the value of the field's attribute in the text namespace */
  function LoadedValue(e: Element, f: Field): string {
    AttributeNS(e.attributes, TextNs, AttributeName(f))
  }

  /** The record loadOdf leaves after reading a bibliography mark */
  function LoadedRecord(e: Element): Private {
    var a := e.attributes;
    Private(
      AttributeNS(a, TextNs, "bibliography-type"),
      AttributeNS(a, TextNs, "identifier"),
      AttributeNS(a, TextNs, "address"),
      AttributeNS(a, TextNs, "annote"),
      AttributeNS(a, TextNs, "author"),
      AttributeNS(a, TextNs, "booktitle"),
      AttributeNS(a, TextNs, "chapter"),
      AttributeNS(a, TextNs, "edition"),
      AttributeNS(a, TextNs, "editor"),
      AttributeNS(a, TextNs, "howpublished"),
      AttributeNS(a, TextNs, "institution"),
      AttributeNS(a, TextNs, "journal"),
      AttributeNS(a, TextNs, "month"),
      AttributeNS(a, TextNs, "note"),
      AttributeNS(a, TextNs, "number"),
      AttributeNS(a, TextNs, "organisations"),
      AttributeNS(a, TextNs, "pages"),
      AttributeNS(a, TextNs, "publisher"),
      AttributeNS(a, TextNs, "school"),
      AttributeNS(a, TextNs, "series"),
      AttributeNS(a, TextNs, "title"),
      AttributeNS(a, TextNs, "report-type"),
      AttributeNS(a, TextNs, "volume"),
      AttributeNS(a, TextNs, "year"),
      AttributeNS(a, TextNs, "url"),
      AttributeNS(a, TextNs, "isbn"),
      AttributeNS(a, TextNs, "custom1"),
      AttributeNS(a, TextNs, "custom2"),
      AttributeNS(a, TextNs, "custom3"),
      AttributeNS(a, TextNs, "custom4"),
      AttributeNS(a, TextNs, "custom5"))
  }

  /** After loading, every field holds the value of its own attribute. */
  lemma LoadedRecordFields(e: Element, f: Field)
    ensures Value(LoadedRecord(e), f) == LoadedValue(e, f)
  {
  }

  /**
   * Whether saveOdf writes an attribute for a field at all: as written it
   * has no statement for the organisation; corrected, it writes every field.
   */
  predicate Saved(corrected: bool, f: Field) {
    corrected || f != Organisation
  }

  /**
   * The value saveOdf writes for a field: as written, the address attribute
   * carries the identifier; corrected, every attribute carries its own field.
   */
  function Written(corrected: bool, p: Private, f: Field): (v: string)
    ensures corrected || f != Address ==> v == Value(p, f)
    ensures !corrected && f == Address ==> v == p.identifier
  {
    if !corrected && f == Address then p.identifier else Value(p, f)
  }

  /** The events after writing an attribute only when the tested field is not empty */
  function WithAttribute(events: seq<XmlEvent>, test: string, localName: string, value: string): seq<XmlEvent> {
    if |test| != 0 then events + [XmlEvent.AddAttribute(QName("text", localName), value)] else events
  }

  /** The events after saveOdf's statement for one field */
  function WriteField(corrected: bool, events: seq<XmlEvent>, p: Private, f: Field): seq<XmlEvent> {
    if Saved(corrected, f) then WithAttribute(events, Value(p, f), AttributeName(f), Written(corrected, p, f))
    else events
  }

  /** The events after saveOdf's statements for the fields from position `i` of the load order on */
  function WriteFrom(corrected: bool, events: seq<XmlEvent>, p: Private, i: nat): seq<XmlEvent>
    decreases 31 - i
  {
    if i > 30 then events
    else WriteFrom(corrected, WriteField(corrected, events, p, FieldAt(i)), p, i + 1)
  }

  /** Everything saveOdf appends to a document for a record */
  function MarkEvents(corrected: bool, events: seq<XmlEvent>, p: Private): seq<XmlEvent> {
    WriteFrom(corrected, events + [XmlEvent.StartElement(MarkName)], p, 0)
      + [XmlEvent.AddTextNode("[" + p.identifier + "]")] + [XmlEvent.EndElement]
  }

  // Proof steps. The lemmas below, one per statement of saveOdf and one per
  // group of statements, model nothing of their own: they unfold the fold
  // WriteFrom a few fields at a time so that SaveStatementsAsWritten stays
  // small enough for the solver.

  /** saveOdf's statement for Identifier is step 0 of the fold. */
  lemma IdentifierStep(events: seq<XmlEvent>, p: Private)
    ensures WriteFrom(false, events, p, 0) == WriteFrom(false, WithAttribute(events, p.identifier, "identifier", p.identifier), p, 1)
  {
    assert FieldAt(0) == Identifier;
    assert WriteField(false, events, p, Identifier) == WithAttribute(events, p.identifier, "identifier", p.identifier);
  }

  /** saveOdf's statement for BibliographyType is step 1 of the fold. */
  lemma BibliographyTypeStep(events: seq<XmlEvent>, p: Private)
    ensures WriteFrom(false, events, p, 1) == WriteFrom(false, WithAttribute(events, p.bibliographyType, "bibliography-type", p.bibliographyType), p, 2)
  {
    assert FieldAt(1) == BibliographyType;
    assert WriteField(false, events, p, BibliographyType) == WithAttribute(events, p.bibliographyType, "bibliography-type", p.bibliographyType);
  }

  /** saveOdf's statement for Address is step 2 of the fold. */
  lemma AddressStep(events: seq<XmlEvent>, p: Private)
    ensures WriteFrom(false, events, p, 2) == WriteFrom(false, WithAttribute(events, p.address, "address", p.identifier), p, 3)
  {
    assert FieldAt(2) == Address;
    assert WriteField(false, events, p, Address) == WithAttribute(events, p.address, "address", p.identifier);
  }

  /** saveOdf's statement for Annote is step 3 of the fold. */
  lemma AnnoteStep(events: seq<XmlEvent>, p: Private)
    ensures WriteFrom(false, events, p, 3) == WriteFrom(false, WithAttribute(events, p.annote, "annote", p.annote), p, 4)
  {
    assert FieldAt(3) == Annote;
    assert WriteField(false, events, p, Annote) == WithAttribute(events, p.annote, "annote", p.annote);
  }

  /** saveOdf's statement for Author is step 4 of the fold. */
  lemma AuthorStep(events: seq<XmlEvent>, p: Private)
    ensures WriteFrom(false, events, p, 4) == WriteFrom(false, WithAttribute(events, p.author, "author", p.author), p, 5)
  {
    assert FieldAt(4) == Author;
    assert WriteField(false, events, p, Author) == WithAttribute(events, p.author, "author", p.author);
  }

  /** saveOdf's statement for BookTitle is step 5 of the fold. */
  lemma BookTitleStep(events: seq<XmlEvent>, p: Private)
    ensures WriteFrom(false, events, p, 5) == WriteFrom(false, WithAttribute(events, p.booktitle, "booktitle", p.booktitle), p, 6)
  {
    assert FieldAt(5) == BookTitle;
    assert WriteField(false, events, p, BookTitle) == WithAttribute(events, p.booktitle, "booktitle", p.booktitle);
  }

  /** saveOdf's statement for Chapter is step 6 of the fold. */
  lemma ChapterStep(events: seq<XmlEvent>, p: Private)
    ensures WriteFrom(false, events, p, 6) == WriteFrom(false, WithAttribute(events, p.chapter, "chapter", p.chapter), p, 7)
  {
    assert FieldAt(6) == Chapter;
    assert WriteField(false, events, p, Chapter) == WithAttribute(events, p.chapter, "chapter", p.chapter);
  }

  /** saveOdf's statement for Edition is step 7 of the fold. */
  lemma EditionStep(events: seq<XmlEvent>, p: Private)
    ensures WriteFrom(false, events, p, 7) == WriteFrom(false, WithAttribute(events, p.edition, "edition", p.edition), p, 8)
  {
    assert FieldAt(7) == Edition;
    assert WriteField(false, events, p, Edition) == WithAttribute(events, p.edition, "edition", p.edition);
  }

  /** saveOdf's statement for Editor is step 8 of the fold. */
  lemma EditorStep(events: seq<XmlEvent>, p: Private)
    ensures WriteFrom(false, events, p, 8) == WriteFrom(false, WithAttribute(events, p.editor, "editor", p.editor), p, 9)
  {
    assert FieldAt(8) == Editor;
    assert WriteField(false, events, p, Editor) == WithAttribute(events, p.editor, "editor", p.editor);
  }

  /** saveOdf's statement for PublicationType is step 9 of the fold. */
  lemma PublicationTypeStep(events: seq<XmlEvent>, p: Private)
    ensures WriteFrom(false, events, p, 9) == WriteFrom(false, WithAttribute(events, p.publicationType, "howpublished", p.publicationType), p, 10)
  {
    assert FieldAt(9) == PublicationType;
    assert WriteField(false, events, p, PublicationType) == WithAttribute(events, p.publicationType, "howpublished", p.publicationType);
  }

  /** saveOdf's statement for Institution is step 10 of the fold. */
  lemma InstitutionStep(events: seq<XmlEvent>, p: Private)
    ensures WriteFrom(false, events, p, 10) == WriteFrom(false, WithAttribute(events, p.institution, "institution", p.institution), p, 11)
  {
    assert FieldAt(10) == Institution;
    assert WriteField(false, events, p, Institution) == WithAttribute(events, p.institution, "institution", p.institution);
  }

  /** saveOdf's statement for Journal is step 11 of the fold. */
  lemma JournalStep(events: seq<XmlEvent>, p: Private)
    ensures WriteFrom(false, events, p, 11) == WriteFrom(false, WithAttribute(events, p.journal, "journal", p.journal), p, 12)
  {
    assert FieldAt(11) == Journal;
    assert WriteField(false, events, p, Journal) == WithAttribute(events, p.journal, "journal", p.journal);
  }

  /** saveOdf's statement for Month is step 12 of the fold. */
  lemma MonthStep(events: seq<XmlEvent>, p: Private)
    ensures WriteFrom(false, events, p, 12) == WriteFrom(false, WithAttribute(events, p.month, "month", p.month), p, 13)
  {
    assert FieldAt(12) == Month;
    assert WriteField(false, events, p, Month) == WithAttribute(events, p.month, "month", p.month);
  }

  /** saveOdf's statement for Note is step 13 of the fold. */
  lemma NoteStep(events: seq<XmlEvent>, p: Private)
    ensures WriteFrom(false, events, p, 13) == WriteFrom(false, WithAttribute(events, p.note, "note", p.note), p, 14)
  {
    assert FieldAt(13) == Note;
    assert WriteField(false, events, p, Note) == WithAttribute(events, p.note, "note", p.note);
  }

  /** saveOdf's statement for Number is step 14 of the fold. */
  lemma NumberStep(events: seq<XmlEvent>, p: Private)
    ensures WriteFrom(false, events, p, 14) == WriteFrom(false, WithAttribute(events, p.number, "number", p.number), p, 15)
  {
    assert FieldAt(14) == Number;
    assert WriteField(false, events, p, Number) == WithAttribute(events, p.number, "number", p.number);
  }

  /** saveOdf has no statement for Organisation: the fold skips it. */
  lemma OrganisationStep(events: seq<XmlEvent>, p: Private)
    ensures WriteFrom(false, events, p, 15) == WriteFrom(false, events, p, 16)
  {
    assert FieldAt(15) == Organisation;
    assert WriteField(false, events, p, Organisation) == events;
  }

  /** saveOdf's statement for Pages is step 16 of the fold. */
  lemma PagesStep(events: seq<XmlEvent>, p: Private)
    ensures WriteFrom(false, events, p, 16) == WriteFrom(false, WithAttribute(events, p.pages, "pages", p.pages), p, 17)
  {
    assert FieldAt(16) == Pages;
    assert WriteField(false, events, p, Pages) == WithAttribute(events, p.pages, "pages", p.pages);
  }

  /** saveOdf's statement for Publisher is step 17 of the fold. */
  lemma PublisherStep(events: seq<XmlEvent>, p: Private)
    ensures WriteFrom(false, events, p, 17) == WriteFrom(false, WithAttribute(events, p.publisher, "publisher", p.publisher), p, 18)
  {
    assert FieldAt(17) == Publisher;
    assert WriteField(false, events, p, Publisher) == WithAttribute(events, p.publisher, "publisher", p.publisher);
  }

  /** saveOdf's statement for School is step 18 of the fold. */
  lemma SchoolStep(events: seq<XmlEvent>, p: Private)
    ensures WriteFrom(false, events, p, 18) == WriteFrom(false, WithAttribute(events, p.school, "school", p.school), p, 19)
  {
    assert FieldAt(18) == School;
    assert WriteField(false, events, p, School) == WithAttribute(events, p.school, "school", p.school);
  }

  /** saveOdf's statement for Series is step 19 of the fold. */
  lemma SeriesStep(events: seq<XmlEvent>, p: Private)
    ensures WriteFrom(false, events, p, 19) == WriteFrom(false, WithAttribute(events, p.series, "series", p.series), p, 20)
  {
    assert FieldAt(19) == Series;
    assert WriteField(false, events, p, Series) == WithAttribute(events, p.series, "series", p.series);
  }

  /** saveOdf's statement for Title is step 20 of the fold. */
  lemma TitleStep(events: seq<XmlEvent>, p: Private)
    ensures WriteFrom(false, events, p, 20) == WriteFrom(false, WithAttribute(events, p.title, "title", p.title), p, 21)
  {
    assert FieldAt(20) == Title;
    assert WriteField(false, events, p, Title) == WithAttribute(events, p.title, "title", p.title);
  }

  /** saveOdf's statement for ReportType is step 21 of the fold. */
  lemma ReportTypeStep(events: seq<XmlEvent>, p: Private)
    ensures WriteFrom(false, events, p, 21) == WriteFrom(false, WithAttribute(events, p.reportType, "report-type", p.reportType), p, 22)
  {
    assert FieldAt(21) == ReportType;
    assert WriteField(false, events, p, ReportType) == WithAttribute(events, p.reportType, "report-type", p.reportType);
  }

  /** saveOdf's statement for Volume is step 22 of the fold. */
  lemma VolumeStep(events: seq<XmlEvent>, p: Private)
    ensures WriteFrom(false, events, p, 22) == WriteFrom(false, WithAttribute(events, p.volume, "volume", p.volume), p, 23)
  {
    assert FieldAt(22) == Volume;
    assert WriteField(false, events, p, Volume) == WithAttribute(events, p.volume, "volume", p.volume);
  }

  /** saveOdf's statement for Year is step 23 of the fold. */
  lemma YearStep(events: seq<XmlEvent>, p: Private)
    ensures WriteFrom(false, events, p, 23) == WriteFrom(false, WithAttribute(events, p.year, "year", p.year), p, 24)
  {
    assert FieldAt(23) == Year;
    assert WriteField(false, events, p, Year) == WithAttribute(events, p.year, "year", p.year);
  }

  /** saveOdf's statement for Url is step 24 of the fold. */
  lemma UrlStep(events: seq<XmlEvent>, p: Private)
    ensures WriteFrom(false, events, p, 24) == WriteFrom(false, WithAttribute(events, p.url, "url", p.url), p, 25)
  {
    assert FieldAt(24) == Url;
    assert WriteField(false, events, p, Url) == WithAttribute(events, p.url, "url", p.url);
  }

  /** saveOdf's statement for Isbn is step 25 of the fold. */
  lemma IsbnStep(events: seq<XmlEvent>, p: Private)
    ensures WriteFrom(false, events, p, 25) == WriteFrom(false, WithAttribute(events, p.isbn, "isbn", p.isbn), p, 26)
  {
    assert FieldAt(25) == Isbn;
    assert WriteField(false, events, p, Isbn) == WithAttribute(events, p.isbn, "isbn", p.isbn);
  }

  /** saveOdf's statement for Custom1 is step 26 of the fold. */
  lemma Custom1Step(events: seq<XmlEvent>, p: Private)
    ensures WriteFrom(false, events, p, 26) == WriteFrom(false, WithAttribute(events, p.custom1, "custom1", p.custom1), p, 27)
  {
    assert FieldAt(26) == Custom1;
    assert WriteField(false, events, p, Custom1) == WithAttribute(events, p.custom1, "custom1", p.custom1);
  }

  /** saveOdf's statement for Custom2 is step 27 of the fold. */
  lemma Custom2Step(events: seq<XmlEvent>, p: Private)
    ensures WriteFrom(false, events, p, 27) == WriteFrom(false, WithAttribute(events, p.custom2, "custom2", p.custom2), p, 28)
  {
    assert FieldAt(27) == Custom2;
    assert WriteField(false, events, p, Custom2) == WithAttribute(events, p.custom2, "custom2", p.custom2);
  }

  /** saveOdf's statement for Custom3 is step 28 of the fold. */
  lemma Custom3Step(events: seq<XmlEvent>, p: Private)
    ensures WriteFrom(false, events, p, 28) == WriteFrom(false, WithAttribute(events, p.custom3, "custom3", p.custom3), p, 29)
  {
    assert FieldAt(28) == Custom3;
    assert WriteField(false, events, p, Custom3) == WithAttribute(events, p.custom3, "custom3", p.custom3);
  }

  /** saveOdf's statement for Custom4 is step 29 of the fold. */
  lemma Custom4Step(events: seq<XmlEvent>, p: Private)
    ensures WriteFrom(false, events, p, 29) == WriteFrom(false, WithAttribute(events, p.custom4, "custom4", p.custom4), p, 30)
  {
    assert FieldAt(29) == Custom4;
    assert WriteField(false, events, p, Custom4) == WithAttribute(events, p.custom4, "custom4", p.custom4);
  }

  /** saveOdf's statement for Custom5 is step 30 of the fold. */
  lemma Custom5Step(events: seq<XmlEvent>, p: Private)
    ensures WriteFrom(false, events, p, 30) == WriteFrom(false, WithAttribute(events, p.custom5, "custom5", p.custom5), p, 31)
  {
    assert FieldAt(30) == Custom5;
    assert WriteField(false, events, p, Custom5) == WithAttribute(events, p.custom5, "custom5", p.custom5);
  }

  /** The events after saveOdf's statements for the fields from Identifier to Annote */
  function SaveIdentifierToAnnote(events: seq<XmlEvent>, p: Private): seq<XmlEvent> {
    var e1 := WithAttribute(events, p.identifier, "identifier", p.identifier);
    var e2 := WithAttribute(e1, p.bibliographyType, "bibliography-type", p.bibliographyType);
    var e3 := WithAttribute(e2, p.address, "address", p.identifier);
    var e4 := WithAttribute(e3, p.annote, "annote", p.annote);
    e4
  }

  /** Those statements are the steps of the fold for those fields. */
  lemma SaveIdentifierToAnnoteSteps(events: seq<XmlEvent>, p: Private)
    ensures WriteFrom(false, events, p, 0) == WriteFrom(false, SaveIdentifierToAnnote(events, p), p, 4)
  {
    var e1 := WithAttribute(events, p.identifier, "identifier", p.identifier);
    IdentifierStep(events, p);
    var e2 := WithAttribute(e1, p.bibliographyType, "bibliography-type", p.bibliographyType);
    BibliographyTypeStep(e1, p);
    var e3 := WithAttribute(e2, p.address, "address", p.identifier);
    AddressStep(e2, p);
    var e4 := WithAttribute(e3, p.annote, "annote", p.annote);
    AnnoteStep(e3, p);
  }

  /** The events after saveOdf's statements for the fields from Author to Edition */
  function SaveAuthorToEdition(events: seq<XmlEvent>, p: Private): seq<XmlEvent> {
    var e1 := WithAttribute(events, p.author, "author", p.author);
    var e2 := WithAttribute(e1, p.booktitle, "booktitle", p.booktitle);
    var e3 := WithAttribute(e2, p.chapter, "chapter", p.chapter);
    var e4 := WithAttribute(e3, p.edition, "edition", p.edition);
    e4
  }

  /** Those statements are the steps of the fold for those fields. */
  lemma SaveAuthorToEditionSteps(events: seq<XmlEvent>, p: Private)
    ensures WriteFrom(false, events, p, 4) == WriteFrom(false, SaveAuthorToEdition(events, p), p, 8)
  {
    var e1 := WithAttribute(events, p.author, "author", p.author);
    AuthorStep(events, p);
    var e2 := WithAttribute(e1, p.booktitle, "booktitle", p.booktitle);
    BookTitleStep(e1, p);
    var e3 := WithAttribute(e2, p.chapter, "chapter", p.chapter);
    ChapterStep(e2, p);
    var e4 := WithAttribute(e3, p.edition, "edition", p.edition);
    EditionStep(e3, p);
  }

  /** The events after saveOdf's statements for the fields from Editor to Journal */
  function SaveEditorToJournal(events: seq<XmlEvent>, p: Private): seq<XmlEvent> {
    var e1 := WithAttribute(events, p.editor, "editor", p.editor);
    var e2 := WithAttribute(e1, p.publicationType, "howpublished", p.publicationType);
    var e3 := WithAttribute(e2, p.institution, "institution", p.institution);
    var e4 := WithAttribute(e3, p.journal, "journal", p.journal);
    e4
  }

  /** Those statements are the steps of the fold for those fields. */
  lemma SaveEditorToJournalSteps(events: seq<XmlEvent>, p: Private)
    ensures WriteFrom(false, events, p, 8) == WriteFrom(false, SaveEditorToJournal(events, p), p, 12)
  {
    var e1 := WithAttribute(events, p.editor, "editor", p.editor);
    EditorStep(events, p);
    var e2 := WithAttribute(e1, p.publicationType, "howpublished", p.publicationType);
    PublicationTypeStep(e1, p);
    var e3 := WithAttribute(e2, p.institution, "institution", p.institution);
    InstitutionStep(e2, p);
    var e4 := WithAttribute(e3, p.journal, "journal", p.journal);
    JournalStep(e3, p);
  }

  /** The events after saveOdf's statements for the fields from Month to Organisation */
  function SaveMonthToOrganisation(events: seq<XmlEvent>, p: Private): seq<XmlEvent> {
    var e1 := WithAttribute(events, p.month, "month", p.month);
    var e2 := WithAttribute(e1, p.note, "note", p.note);
    var e3 := WithAttribute(e2, p.number, "number", p.number);
    e3
  }

  /** Those statements are the steps of the fold for those fields. */
  lemma SaveMonthToOrganisationSteps(events: seq<XmlEvent>, p: Private)
    ensures WriteFrom(false, events, p, 12) == WriteFrom(false, SaveMonthToOrganisation(events, p), p, 16)
  {
    var e1 := WithAttribute(events, p.month, "month", p.month);
    MonthStep(events, p);
    var e2 := WithAttribute(e1, p.note, "note", p.note);
    NoteStep(e1, p);
    var e3 := WithAttribute(e2, p.number, "number", p.number);
    NumberStep(e2, p);
    OrganisationStep(e3, p);
  }

  /** The events after saveOdf's statements for the fields from Pages to Series */
  function SavePagesToSeries(events: seq<XmlEvent>, p: Private): seq<XmlEvent> {
    var e1 := WithAttribute(events, p.pages, "pages", p.pages);
    var e2 := WithAttribute(e1, p.publisher, "publisher", p.publisher);
    var e3 := WithAttribute(e2, p.school, "school", p.school);
    var e4 := WithAttribute(e3, p.series, "series", p.series);
    e4
  }

  /** Those statements are the steps of the fold for those fields. */
  lemma SavePagesToSeriesSteps(events: seq<XmlEvent>, p: Private)
    ensures WriteFrom(false, events, p, 16) == WriteFrom(false, SavePagesToSeries(events, p), p, 20)
  {
    var e1 := WithAttribute(events, p.pages, "pages", p.pages);
    PagesStep(events, p);
    var e2 := WithAttribute(e1, p.publisher, "publisher", p.publisher);
    PublisherStep(e1, p);
    var e3 := WithAttribute(e2, p.school, "school", p.school);
    SchoolStep(e2, p);
    var e4 := WithAttribute(e3, p.series, "series", p.series);
    SeriesStep(e3, p);
  }

  /** The events after saveOdf's statements for the fields from Title to Year */
  function SaveTitleToYear(events: seq<XmlEvent>, p: Private): seq<XmlEvent> {
    var e1 := WithAttribute(events, p.title, "title", p.title);
    var e2 := WithAttribute(e1, p.reportType, "report-type", p.reportType);
    var e3 := WithAttribute(e2, p.volume, "volume", p.volume);
    var e4 := WithAttribute(e3, p.year, "year", p.year);
    e4
  }

  /** Those statements are the steps of the fold for those fields. */
  lemma SaveTitleToYearSteps(events: seq<XmlEvent>, p: Private)
    ensures WriteFrom(false, events, p, 20) == WriteFrom(false, SaveTitleToYear(events, p), p, 24)
  {
    var e1 := WithAttribute(events, p.title, "title", p.title);
    TitleStep(events, p);
    var e2 := WithAttribute(e1, p.reportType, "report-type", p.reportType);
    ReportTypeStep(e1, p);
    var e3 := WithAttribute(e2, p.volume, "volume", p.volume);
    VolumeStep(e2, p);
    var e4 := WithAttribute(e3, p.year, "year", p.year);
    YearStep(e3, p);
  }

  /** The events after saveOdf's statements for the fields from Url to Custom2 */
  function SaveUrlToCustom2(events: seq<XmlEvent>, p: Private): seq<XmlEvent> {
    var e1 := WithAttribute(events, p.url, "url", p.url);
    var e2 := WithAttribute(e1, p.isbn, "isbn", p.isbn);
    var e3 := WithAttribute(e2, p.custom1, "custom1", p.custom1);
    var e4 := WithAttribute(e3, p.custom2, "custom2", p.custom2);
    e4
  }

  /** Those statements are the steps of the fold for those fields. */
  lemma SaveUrlToCustom2Steps(events: seq<XmlEvent>, p: Private)
    ensures WriteFrom(false, events, p, 24) == WriteFrom(false, SaveUrlToCustom2(events, p), p, 28)
  {
    var e1 := WithAttribute(events, p.url, "url", p.url);
    UrlStep(events, p);
    var e2 := WithAttribute(e1, p.isbn, "isbn", p.isbn);
    IsbnStep(e1, p);
    var e3 := WithAttribute(e2, p.custom1, "custom1", p.custom1);
    Custom1Step(e2, p);
    var e4 := WithAttribute(e3, p.custom2, "custom2", p.custom2);
    Custom2Step(e3, p);
  }

  /** The events after saveOdf's statements for the fields from Custom3 to Custom5 */
  function SaveCustom3ToCustom5(events: seq<XmlEvent>, p: Private): seq<XmlEvent> {
    var e1 := WithAttribute(events, p.custom3, "custom3", p.custom3);
    var e2 := WithAttribute(e1, p.custom4, "custom4", p.custom4);
    var e3 := WithAttribute(e2, p.custom5, "custom5", p.custom5);
    e3
  }

  /** Those statements are the steps of the fold for those fields. */
  lemma SaveCustom3ToCustom5Steps(events: seq<XmlEvent>, p: Private)
    ensures WriteFrom(false, events, p, 28) == WriteFrom(false, SaveCustom3ToCustom5(events, p), p, 31)
  {
    var e1 := WithAttribute(events, p.custom3, "custom3", p.custom3);
    Custom3Step(events, p);
    var e2 := WithAttribute(e1, p.custom4, "custom4", p.custom4);
    Custom4Step(e1, p);
    var e3 := WithAttribute(e2, p.custom5, "custom5", p.custom5);
    Custom5Step(e2, p);
  }

  /**
   * saveOdf's attribute statements, run one group after another from `e0`
   * to `e8`, are the fold over the load order with the rules as written.
   */
  lemma SaveStatementsAsWritten(p: Private,
                                  e0: seq<XmlEvent>, e1: seq<XmlEvent>, e2: seq<XmlEvent>, e3: seq<XmlEvent>, e4: seq<XmlEvent>,
                                  e5: seq<XmlEvent>, e6: seq<XmlEvent>, e7: seq<XmlEvent>, e8: seq<XmlEvent>)
    requires e1 == SaveIdentifierToAnnote(e0, p)
      && e2 == SaveAuthorToEdition(e1, p)
      && e3 == SaveEditorToJournal(e2, p)
      && e4 == SaveMonthToOrganisation(e3, p)
      && e5 == SavePagesToSeries(e4, p)
      && e6 == SaveTitleToYear(e5, p)
      && e7 == SaveUrlToCustom2(e6, p)
      && e8 == SaveCustom3ToCustom5(e7, p)
    ensures WriteFrom(false, e0, p, 0) == e8
  {
    SaveIdentifierToAnnoteSteps(e0, p);
    SaveAuthorToEditionSteps(e1, p);
    SaveEditorToJournalSteps(e2, p);
    SaveMonthToOrganisationSteps(e3, p);
    SavePagesToSeriesSteps(e4, p);
    SaveTitleToYearSteps(e5, p);
    SaveUrlToCustom2Steps(e6, p);
    SaveCustom3ToCustom5Steps(e7, p);
  }

  /** Concatenation is associative. */
  lemma AppendAssociative<T>(a: seq<T>, b: seq<T>, c: seq<T>)
    ensures a + b + c == a + (b + c)
  {
  }

  /** The fold appends to what was already written. */
  lemma {:induction false} WriteFromAppends(corrected: bool, events: seq<XmlEvent>, p: Private, i: nat)
    ensures WriteFrom(corrected, events, p, i) == events + WriteFrom(corrected, [], p, i)
    decreases 31 - i
  {
    if i <= 30 {
      var f := FieldAt(i);
      var written := WriteField(corrected, events, p, f);
      var alone := WriteField(corrected, [], p, f);
      assert written == events + alone;
      WriteFromAppends(corrected, written, p, i + 1);
      WriteFromAppends(corrected, alone, p, i + 1);
      var rest := WriteFrom(corrected, [], p, i + 1);
      AppendAssociative(events, alone, rest);
    }
  }

  /** The attributes of two runs of events are those of the first, then those of the second. */
  lemma {:induction false} AttributesOfAppend(a: seq<XmlEvent>, b: seq<XmlEvent>)
    ensures AttributesOf(a + b) == AttributesOf(a) + AttributesOf(b)
    decreases |b|
  {
    if b == [] {
      assert a + b == a;
    } else {
      var c := b[..|b| - 1];
      assert (a + b)[..|a + b| - 1] == a + c;
      assert (a + b)[|a + b| - 1] == b[|b| - 1];
      AttributesOfAppend(a, c);
      var last := b[|b| - 1];
      var tail := if last.AddAttribute? then [Attribute(NamespaceOf(last.name.prefix), last.name.localName, last.value)] else [];
      AppendAssociative(AttributesOf(a), AttributesOf(c), tail);
    }
  }

  /** The text of two runs of events is that of the first, then that of the second. */
  lemma {:induction false} TextOfAppend(a: seq<XmlEvent>, b: seq<XmlEvent>)
    ensures TextOf(a + b) == TextOf(a) + TextOf(b)
    decreases |b|
  {
    if b == [] {
      assert a + b == a;
    } else {
      var c := b[..|b| - 1];
      assert (a + b)[..|a + b| - 1] == a + c;
      assert (a + b)[|a + b| - 1] == b[|b| - 1];
      TextOfAppend(a, c);
      var last := b[|b| - 1];
      var tail := if last.AddTextNode? then last.text else "";
      AppendAssociative(TextOf(a), TextOf(c), tail);
    }
  }

  /** Looking an attribute up in two lists: the first list wins. */
  lemma {:induction false} FindAppend(a: seq<Attribute>, b: seq<Attribute>, ns: string, localName: string)
    ensures Find(a + b, ns, localName) == if Find(a, ns, localName).Some? then Find(a, ns, localName) else Find(b, ns, localName)
    decreases |a|
  {
    if a == [] {
      assert a + b == b;
    } else {
      assert (a + b)[0] == a[0];
      assert (a + b)[1..] == a[1..] + b;
      FindAppend(a[1..], b, ns, localName);
    }
  }

  /** saveOdf's attribute statements write no text. */
  lemma {:induction false} WrittenText(corrected: bool, p: Private, i: nat)
    ensures TextOf(WriteFrom(corrected, [], p, i)) == ""
    decreases 31 - i
  {
    if i <= 30 {
      var alone := WriteField(corrected, [], p, FieldAt(i));
      var rest := WriteFrom(corrected, [], p, i + 1);
      WriteFromAppends(corrected, alone, p, i + 1);
      TextOfAppend(alone, rest);
      WrittenText(corrected, p, i + 1);
      if alone != [] {
        assert alone[..0] == [];
      }
    }
  }

  /** The value saveOdf leaves in a field's attribute, if it writes one */
  function Entry(corrected: bool, p: Private, f: Field): Option<string> {
    if Saved(corrected, f) && |Value(p, f)| != 0 then Some(Written(corrected, p, f)) else None
  }

  /** The attribute, if any, that saveOdf's statement for one field writes */
  function FieldAttribute(corrected: bool, p: Private, f: Field): seq<Attribute> {
    match Entry(corrected, p, f)
    case None => []
    case Some(v) => [Attribute(TextNs, AttributeName(f), v)]
  }

  /** The attributes saveOdf writes for the fields from position `i` of the load order on */
  function AttributesFrom(corrected: bool, p: Private, i: nat): seq<Attribute>
    decreases 31 - i
  {
    if i > 30 then [] else FieldAttribute(corrected, p, FieldAt(i)) + AttributesFrom(corrected, p, i + 1)
  }

  /** One statement's events, read back, are that statement's attribute. */
  lemma AttributesOfField(corrected: bool, p: Private, f: Field)
    ensures AttributesOf(WriteField(corrected, [], p, f)) == FieldAttribute(corrected, p, f)
  {
    var alone := WriteField(corrected, [], p, f);
    if alone != [] {
      assert alone[..0] == [];
    }
  }

  /** The fold's events, read back, are the attributes of the fields in the load order. */
  lemma {:induction false} AttributesOfWritten(corrected: bool, p: Private, i: nat)
    ensures AttributesOf(WriteFrom(corrected, [], p, i)) == AttributesFrom(corrected, p, i)
    decreases 31 - i
  {
    if i <= 30 {
      var alone := WriteField(corrected, [], p, FieldAt(i));
      WriteFromAppends(corrected, alone, p, i + 1);
      AttributesOfAppend(alone, WriteFrom(corrected, [], p, i + 1));
      AttributesOfField(corrected, p, FieldAt(i));
      AttributesOfWritten(corrected, p, i + 1);
    }
  }

  /** A field's name finds one statement's attribute only when that statement is for that field. */
  lemma FindFieldAttribute(corrected: bool, p: Private, f: Field, g: Field)
    ensures Find(FieldAttribute(corrected, p, f), TextNs, AttributeName(g)) == if f == g then Entry(corrected, p, g) else None
  {
    AttributeNamesDistinct(f, g);
  }

  /**
   * Among the attributes written for the fields from position `i` on, a
   * field's name finds that field's entry when the field comes at or after
   * `i`, and nothing otherwise.
   */
  lemma {:induction false} FindWritten(corrected: bool, p: Private, i: nat, g: Field)
    requires i <= 31
    ensures Find(AttributesFrom(corrected, p, i), TextNs, AttributeName(g)) == if i <= LoadRank(g) then Entry(corrected, p, g) else None
    decreases 31 - i
  {
    if i <= 30 {
      var f := FieldAt(i);
      var head, rest := FieldAttribute(corrected, p, f), AttributesFrom(corrected, p, i + 1);
      assert AttributesFrom(corrected, p, i) == head + rest;
      FindAppend(head, rest, TextNs, AttributeName(g));
      FindFieldAttribute(corrected, p, f, g);
      FindWritten(corrected, p, i + 1, g);
      RankOfFieldAt(i);
      FieldAtRank(g);
      assert f == g <==> i == LoadRank(g);
    }
  }

  /** A start tag, then inner events, then an end tag read back as one element */
  lemma ReadFramed(name: QName, inner: seq<XmlEvent>)
    ensures ReadElement([XmlEvent.StartElement(name)] + inner + [XmlEvent.EndElement])
         == Some(Element(NamespaceOf(name.prefix), name.localName, AttributesOf(inner), TextOf(inner)))
  {
    var events := [XmlEvent.StartElement(name)] + inner + [XmlEvent.EndElement];
    assert events[1..|events| - 1] == inner;
  }

  /** A bibliography mark around attribute events and one text node, read back */
  lemma ReadMark(attributes: seq<XmlEvent>, text: string)
    requires TextOf(attributes) == ""
    ensures ReadElement([XmlEvent.StartElement(MarkName)] + (attributes + [XmlEvent.AddTextNode(text)]) + [XmlEvent.EndElement])
         == Some(Element(TextNs, "bibliography-mark", AttributesOf(attributes), text))
  {
    var node := XmlEvent.AddTextNode(text);
    ReadFramed(MarkName, attributes + [node]);
    assert [node][..0] == [];
    AttributesOfAppend(attributes, [node]);
    assert AttributesOf(attributes + [node]) == AttributesOf(attributes) + [];
    TextOfAppend(attributes, [node]);
    assert TextOf(attributes + [node]) == "" + text;
    assert AttributesOf(attributes) + [] == AttributesOf(attributes);
    assert "" + text == text;
    assert NamespaceOf(MarkName.prefix) == TextNs;
  }

  /** What saveOdf writes: a start tag, the attribute statements' events, the text node and an end tag */
  lemma MarkEventsFramed(corrected: bool, p: Private)
    ensures MarkEvents(corrected, [], p)
         == [XmlEvent.StartElement(MarkName)] + (WriteFrom(corrected, [], p, 0) + [XmlEvent.AddTextNode("[" + p.identifier + "]")])
            + [XmlEvent.EndElement]
  {
    var start := XmlEvent.StartElement(MarkName);
    WriteFromAppends(corrected, [start], p, 0);
    assert [] + [start] == [start];
    AppendAssociative([start], WriteFrom(corrected, [], p, 0), [XmlEvent.AddTextNode("[" + p.identifier + "]")]);
  }

  /** The element read back from what saveOdf wrote */
  lemma ReadSavedMark(corrected: bool, p: Private)
    ensures ReadElement(MarkEvents(corrected, [], p))
         == Some(Element(TextNs, "bibliography-mark", AttributesFrom(corrected, p, 0), "[" + p.identifier + "]"))
  {
    MarkEventsFramed(corrected, p);
    WrittenText(corrected, p, 0);
    ReadMark(WriteFrom(corrected, [], p, 0), "[" + p.identifier + "]");
    AttributesOfWritten(corrected, p, 0);
  }

  /**
   * Reading back what saveOdf wrote gives a bibliography mark whose text is
   * the bracketed identifier and whose attribute for a field holds the
   * written value when the field is saved and not empty, and is missing
   * otherwise.
   */
  lemma SaveThenLoad(corrected: bool, p: Private, g: Field)
    ensures ReadElement(MarkEvents(corrected, [], p)).Some?
    ensures var e := ReadElement(MarkEvents(corrected, [], p)).value;
      IsBibliographyMark(e) && e.text == "[" + p.identifier + "]" &&
      LoadedValue(e, g) == if Saved(corrected, g) && |Value(p, g)| != 0 then Written(corrected, p, g) else ""
  {
    var e := Element(TextNs, "bibliography-mark", AttributesFrom(corrected, p, 0), "[" + p.identifier + "]");
    ReadSavedMark(corrected, p);
    assert ReadElement(MarkEvents(corrected, [], p)) == Some(e);
    FindWritten(corrected, p, 0, g);
    assert Find(e.attributes, TextNs, AttributeName(g)) == Entry(corrected, p, g);
  }

  /** What loadOdf stores in a field after reading back what saveOdf wrote */
  lemma SaveThenLoadRecord(corrected: bool, p: Private, g: Field)
    ensures ReadElement(MarkEvents(corrected, [], p)).Some?
    ensures Value(LoadedRecord(ReadElement(MarkEvents(corrected, [], p)).value), g)
         == if Saved(corrected, g) && |Value(p, g)| != 0 then Written(corrected, p, g) else ""
  {
    SaveThenLoad(corrected, p, g);
    LoadedRecordFields(ReadElement(MarkEvents(corrected, [], p)).value, g);
  }

  /**
   * saveOdf as written, then loadOdf: the address comes back as the
   * identifier, the organisation comes back empty, and every other field
   * comes back as it was.
   */
  lemma AsWrittenRoundTrip(p: Private, g: Field)
    ensures ReadElement(MarkEvents(false, [], p)).Some?
    ensures Value(LoadedRecord(ReadElement(MarkEvents(false, [], p)).value), g)
         == if g == Organisation then ""
            else if g == Address && |p.address| != 0 then p.identifier
            else Value(p, g)
  {
    SaveThenLoadRecord(false, p, g);
  }

  /** A citation with an address and an organisation */
  const LostFieldsExample := EmptyRecord.(identifier := "Smith2011", address := "Berlin", organisation := "KDE")

  /** saveOdf as written, then loadOdf, loses that citation's address and organisation. */
  lemma AsWrittenLosesFields()
    ensures ReadElement(MarkEvents(false, [], LostFieldsExample)).Some?
    ensures var e := ReadElement(MarkEvents(false, [], LostFieldsExample)).value;
      LoadedRecord(e).address == "Smith2011" != LostFieldsExample.address &&
      LoadedRecord(e).organisation == "" != LostFieldsExample.organisation
  {
    AsWrittenRoundTrip(LostFieldsExample, Address);
    AsWrittenRoundTrip(LostFieldsExample, Organisation);
  }

  /** saveOdf corrected, then loadOdf: every field comes back as it was. */
  lemma CorrectedRoundTrip(p: Private, g: Field)
    ensures ReadElement(MarkEvents(true, [], p)).Some?
    ensures Value(LoadedRecord(ReadElement(MarkEvents(true, [], p)).value), g) == Value(p, g)
  {
    SaveThenLoadRecord(true, p, g);
    var v := Value(p, g);
    if |v| == 0 {
      assert v == "";
    }
  }

  /** saveOdf's statement for one field: an attribute only when the tested field is not empty */
  method WriteAttributeIfSet(writer: XmlWriter, test: string, localName: string, value: string)
    modifies writer
    ensures writer.events == WithAttribute(old(writer.events), test, localName, value)
  {
    if |test| != 0 {
      writer.AddAttribute(QName("text", localName), value);
    }
  }

  /** KoInlineCite */
  class Cite {
    var d: Private

    constructor ()
      ensures d == EmptyRecord
    {
      d := EmptyRecord;
    }

    /** identifier() */
    function Identifier(): string
      reads this
    {
      d.identifier
    }

    method SetIdentifier(v: string)
      modifies this
      ensures d == old(d).(identifier := v)
    {
      d := d.(identifier := v);
    }

    method SetAddress(v: string)
      modifies this
      ensures d == old(d).(address := v)
    {
      d := d.(address := v);
    }

    method SetAnnotation(v: string)
      modifies this
      ensures d == old(d).(annote := v)
    {
      d := d.(annote := v);
    }

    method SetAuthor(v: string)
      modifies this
      ensures d == old(d).(author := v)
    {
      d := d.(author := v);
    }

    method SetBibliographyType(v: string)
      modifies this
      ensures d == old(d).(bibliographyType := v)
    {
      d := d.(bibliographyType := v);
    }

    method SetBookTitle(v: string)
      modifies this
      ensures d == old(d).(booktitle := v)
    {
      d := d.(booktitle := v);
    }

    method SetChapter(v: string)
      modifies this
      ensures d == old(d).(chapter := v)
    {
      d := d.(chapter := v);
    }

    method SetCustom1(v: string)
      modifies this
      ensures d == old(d).(custom1 := v)
    {
      d := d.(custom1 := v);
    }

    method SetCustom2(v: string)
      modifies this
      ensures d == old(d).(custom2 := v)
    {
      d := d.(custom2 := v);
    }

    method SetCustom3(v: string)
      modifies this
      ensures d == old(d).(custom3 := v)
    {
      d := d.(custom3 := v);
    }

    method SetCustom4(v: string)
      modifies this
      ensures d == old(d).(custom4 := v)
    {
      d := d.(custom4 := v);
    }

    method SetCustom5(v: string)
      modifies this
      ensures d == old(d).(custom5 := v)
    {
      d := d.(custom5 := v);
    }

    method SetEdition(v: string)
      modifies this
      ensures d == old(d).(edition := v)
    {
      d := d.(edition := v);
    }

    method SetEditor(v: string)
      modifies this
      ensures d == old(d).(editor := v)
    {
      d := d.(editor := v);
    }

    method SetInstitution(v: string)
      modifies this
      ensures d == old(d).(institution := v)
    {
      d := d.(institution := v);
    }

    method SetIsbn(v: string)
      modifies this
      ensures d == old(d).(isbn := v)
    {
      d := d.(isbn := v);
    }

    method SetJournal(v: string)
      modifies this
      ensures d == old(d).(journal := v)
    {
      d := d.(journal := v);
    }

    method SetMonth(v: string)
      modifies this
      ensures d == old(d).(month := v)
    {
      d := d.(month := v);
    }

    method SetNote(v: string)
      modifies this
      ensures d == old(d).(note := v)
    {
      d := d.(note := v);
    }

    method SetNumber(v: string)
      modifies this
      ensures d == old(d).(number := v)
    {
      d := d.(number := v);
    }

    method SetOrganisation(v: string)
      modifies this
      ensures d == old(d).(organisation := v)
    {
      d := d.(organisation := v);
    }

    method SetPages(v: string)
      modifies this
      ensures d == old(d).(pages := v)
    {
      d := d.(pages := v);
    }

    method SetPublicationType(v: string)
      modifies this
      ensures d == old(d).(publicationType := v)
    {
      d := d.(publicationType := v);
    }

    method SetPublisher(v: string)
      modifies this
      ensures d == old(d).(publisher := v)
    {
      d := d.(publisher := v);
    }

    method SetReportType(v: string)
      modifies this
      ensures d == old(d).(reportType := v)
    {
      d := d.(reportType := v);
    }

    method SetSchool(v: string)
      modifies this
      ensures d == old(d).(school := v)
    {
      d := d.(school := v);
    }

    method SetSeries(v: string)
      modifies this
      ensures d == old(d).(series := v)
    {
      d := d.(series := v);
    }

    method SetTitle(v: string)
      modifies this
      ensures d == old(d).(title := v)
    {
      d := d.(title := v);
    }

    method SetUrl(v: string)
      modifies this
      ensures d == old(d).(url := v)
    {
      d := d.(url := v);
    }

    method SetVolume(v: string)
      modifies this
      ensures d == old(d).(volume := v)
    {
      d := d.(volume := v);
    }

    method SetYear(v: string)
      modifies this
      ensures d == old(d).(year := v)
    {
      d := d.(year := v);
    }

    /**
     * loadOdf: on a text:bibliography-mark element, every field from its
     * attribute, the empty string for a missing one, and true; on any other
     * element, false and nothing changes.
     */
    method LoadOdf(element: Element) returns (ok: bool)
      modifies this
      ensures ok == IsBibliographyMark(element)
      ensures ok ==> d == LoadedRecord(element)
      ensures !ok ==> d == old(d)
    {
      if element.namespaceUri == TextNs && element.localName == "bibliography-mark" {
        d := d.(identifier := AttributeNS(element.attributes, TextNs, "identifier"));
        d := d.(bibliographyType := AttributeNS(element.attributes, TextNs, "bibliography-type"));
        d := d.(address := AttributeNS(element.attributes, TextNs, "address"));
        d := d.(annote := AttributeNS(element.attributes, TextNs, "annote"));
        d := d.(author := AttributeNS(element.attributes, TextNs, "author"));
        d := d.(booktitle := AttributeNS(element.attributes, TextNs, "booktitle"));
        d := d.(chapter := AttributeNS(element.attributes, TextNs, "chapter"));
        d := d.(edition := AttributeNS(element.attributes, TextNs, "edition"));
        d := d.(editor := AttributeNS(element.attributes, TextNs, "editor"));
        d := d.(publicationType := AttributeNS(element.attributes, TextNs, "howpublished"));
        d := d.(institution := AttributeNS(element.attributes, TextNs, "institution"));
        d := d.(journal := AttributeNS(element.attributes, TextNs, "journal"));
        d := d.(month := AttributeNS(element.attributes, TextNs, "month"));
        d := d.(note := AttributeNS(element.attributes, TextNs, "note"));
        d := d.(number := AttributeNS(element.attributes, TextNs, "number"));
        d := d.(organisation := AttributeNS(element.attributes, TextNs, "organisations"));
        d := d.(pages := AttributeNS(element.attributes, TextNs, "pages"));
        d := d.(publisher := AttributeNS(element.attributes, TextNs, "publisher"));
        d := d.(school := AttributeNS(element.attributes, TextNs, "school"));
        d := d.(series := AttributeNS(element.attributes, TextNs, "series"));
        d := d.(title := AttributeNS(element.attributes, TextNs, "title"));
        d := d.(reportType := AttributeNS(element.attributes, TextNs, "report-type"));
        d := d.(volume := AttributeNS(element.attributes, TextNs, "volume"));
        d := d.(year := AttributeNS(element.attributes, TextNs, "year"));
        d := d.(url := AttributeNS(element.attributes, TextNs, "url"));
        d := d.(isbn := AttributeNS(element.attributes, TextNs, "isbn"));
        d := d.(custom1 := AttributeNS(element.attributes, TextNs, "custom1"));
        d := d.(custom2 := AttributeNS(element.attributes, TextNs, "custom2"));
        d := d.(custom3 := AttributeNS(element.attributes, TextNs, "custom3"));
        d := d.(custom4 := AttributeNS(element.attributes, TextNs, "custom4"));
        d := d.(custom5 := AttributeNS(element.attributes, TextNs, "custom5"));
      } else {
        return false;
      }
      return true;
    }

    /**
     * saveOdf: a text:bibliography-mark element with an attribute for each
     * non-empty field, in the load order, except that the address attribute
     * carries the identifier and the organisation is never written, and the
     * identifier in brackets as its text.
     */
    method SaveOdf(writer: XmlWriter)
      modifies writer
      ensures writer.events == MarkEvents(false, old(writer.events), d)
    {
      var r := d;
      writer.StartElement(MarkName);
      ghost var beforeIdentifier := writer.events;
      WriteAttributeIfSet(writer, r.identifier, "identifier", r.identifier);
      WriteAttributeIfSet(writer, r.bibliographyType, "bibliography-type", r.bibliographyType);
      WriteAttributeIfSet(writer, r.address, "address", r.identifier);
      WriteAttributeIfSet(writer, r.annote, "annote", r.annote);
      ghost var beforeAuthor := writer.events;
      WriteAttributeIfSet(writer, r.author, "author", r.author);
      WriteAttributeIfSet(writer, r.booktitle, "booktitle", r.booktitle);
      WriteAttributeIfSet(writer, r.chapter, "chapter", r.chapter);
      WriteAttributeIfSet(writer, r.edition, "edition", r.edition);
      ghost var beforeEditor := writer.events;
      WriteAttributeIfSet(writer, r.editor, "editor", r.editor);
      WriteAttributeIfSet(writer, r.publicationType, "howpublished", r.publicationType);
      WriteAttributeIfSet(writer, r.institution, "institution", r.institution);
      WriteAttributeIfSet(writer, r.journal, "journal", r.journal);
      ghost var beforeMonth := writer.events;
      WriteAttributeIfSet(writer, r.month, "month", r.month);
      WriteAttributeIfSet(writer, r.note, "note", r.note);
      WriteAttributeIfSet(writer, r.number, "number", r.number);
      // there is no statement for the organisation
      ghost var beforePages := writer.events;
      WriteAttributeIfSet(writer, r.pages, "pages", r.pages);
      WriteAttributeIfSet(writer, r.publisher, "publisher", r.publisher);
      WriteAttributeIfSet(writer, r.school, "school", r.school);
      WriteAttributeIfSet(writer, r.series, "series", r.series);
      ghost var beforeTitle := writer.events;
      WriteAttributeIfSet(writer, r.title, "title", r.title);
      WriteAttributeIfSet(writer, r.reportType, "report-type", r.reportType);
      WriteAttributeIfSet(writer, r.volume, "volume", r.volume);
      WriteAttributeIfSet(writer, r.year, "year", r.year);
      ghost var beforeUrl := writer.events;
      WriteAttributeIfSet(writer, r.url, "url", r.url);
      WriteAttributeIfSet(writer, r.isbn, "isbn", r.isbn);
      WriteAttributeIfSet(writer, r.custom1, "custom1", r.custom1);
      WriteAttributeIfSet(writer, r.custom2, "custom2", r.custom2);
      ghost var beforeCustom3 := writer.events;
      WriteAttributeIfSet(writer, r.custom3, "custom3", r.custom3);
      WriteAttributeIfSet(writer, r.custom4, "custom4", r.custom4);
      WriteAttributeIfSet(writer, r.custom5, "custom5", r.custom5);
      SaveStatementsAsWritten(r, beforeIdentifier, beforeAuthor, beforeEditor, beforeMonth,
                              beforePages, beforeTitle, beforeUrl, beforeCustom3, writer.events);
      writer.AddTextNode("[" + r.identifier + "]");
      writer.EndElement();
    }
  }
}
