/**
 * An architecture decision record: built from a fluent builder that resolves
 * defaults, named `NNNN-slug.md`, rendered from its template, given links to
 * other records, and stored into its document directory.
 */
module Records {
  import opened Wrappers
  import opened Text
  import opened Templates
  import opened Links

  /** A calendar date; how it is written is up to the record's date formatter. */
  datatype LocalDate = LocalDate(year: int, month: int, day: int)

  datatype BuildError =
    | InvalidId
    | InvalidName
    | TemplateNotFound(reference: string)

  /** The status a record gets when none is given. */
  const DefaultStatus: string := "Proposed"

  /** The document directory: file names mapped to their lines. */
  class DocDirectory {
    var files: map<string, seq<string>>

    constructor (files: map<string, seq<string>>)
      ensures this.files == files
    {
      this.files := files;
    }
  }

  /**
   * The builder: the document directory and the date formatter it was created
   * with, and every field the caller has set so far.
   */
  datatype Builder = Builder(
    docPath: DocDirectory,
    format: LocalDate -> string,
    id: Option<int>,
    name: Option<string>,
    date: Option<LocalDate>,
    status: Option<string>,
    author: Option<string>,
    template: Option<string>)
  {
    // Each setter records its value and leaves every other setting as it was.
    function Id(n: int): (b: Builder)
      ensures b.id == Some(n) && b.(id := id) == this
    {
      this.(id := Some(n))
    }
    function Name(s: string): (b: Builder)
      ensures b.name == Some(s) && b.(name := name) == this
    {
      this.(name := Some(s))
    }
    function Date(d: LocalDate): (b: Builder)
      ensures b.date == Some(d) && b.(date := date) == this
    {
      this.(date := Some(d))
    }
    function Status(s: string): (b: Builder)
      ensures b.status == Some(s) && b.(status := status) == this
    {
      this.(status := Some(s))
    }
    function Author(s: string): (b: Builder)
      ensures b.author == Some(s) && b.(author := author) == this
    {
      this.(author := Some(s))
    }
    function Template(reference: string): (b: Builder)
      ensures b.template == Some(reference) && b.(template := template) == this
    {
      this.(template := Some(reference))
    }
  }

  /** A fresh builder: the directory and formatter, nothing else set yet. */
  function NewBuilder(docPath: DocDirectory, format: LocalDate -> string): (b: Builder)
    ensures b.docPath == docPath && b.format == format
    ensures b.id.None? && b.name.None? && b.date.None? && b.status.None? && b.author.None? && b.template.None?
  {
    Builder(docPath, format, None, None, None, None, None, None)
  }

  /** The fields of a built record, every default resolved. */
  datatype Fields = Fields(id: nat, name: string, date: LocalDate, status: string, author: string, template: Template)

  /**
   * Resolves a builder's fields. The id must be positive and the name non-empty;
   * a template reference must name a loadable template. The date defaults to the
   * build day, the status to "Proposed", the author to the current user and the
   * template to the standard one.
   */
  function Resolve(b: Builder, templates: map<string, Template>, today: LocalDate, user: string): (r: Result<Fields, BuildError>)
    ensures r.Success? <==>
      && b.id.Some? && 0 < b.id.value
      && b.name.Some? && b.name.value != ""
      && (b.template.Some? ==> b.template.value in templates)
    ensures (b.id.None? || b.id.value <= 0) ==> r == Failure(InvalidId)
    ensures b.id.Some? && 0 < b.id.value && (b.name.None? || b.name.value == "") ==> r == Failure(InvalidName)
    ensures (b.id.Some? && 0 < b.id.value && b.name.Some? && b.name.value != ""
             && b.template.Some? && b.template.value !in templates)
      ==> r == Failure(TemplateNotFound(b.template.value))
    ensures r.Success? ==> r.value.id == b.id.value && r.value.name == b.name.value
    ensures r.Success? ==> r.value.status == (if b.status.Some? then b.status.value else "Proposed")
    ensures r.Success? ==> r.value.date == (if b.date.Some? then b.date.value else today)
    ensures r.Success? ==> r.value.author == (if b.author.Some? then b.author.value else user)
    ensures r.Success? ==> r.value.template == (if b.template.Some? then templates[b.template.value] else DefaultTemplate)
  {
    if b.id.None? || b.id.value <= 0 then Failure(InvalidId)
    else if b.name.None? || b.name.value == "" then Failure(InvalidName)
    else if b.template.Some? && b.template.value !in templates then Failure(TemplateNotFound(b.template.value))
    else
      var template := match b.template
        case None => DefaultTemplate
        case Some(reference) => templates[reference];
      Success(Fields(
        b.id.value,
        b.name.value,
        b.date.GetOr(today),
        b.status.GetOr(DefaultStatus),
        b.author.GetOr(user),
        template))
  }

  /**
   * A builder given only an id and a name resolves to the defaults: today's
   * date, status "Proposed", the current user and the standard template.
   */
  lemma MinimalBuild(docPath: DocDirectory, format: LocalDate -> string, n: int, name: string,
                     templates: map<string, Template>, today: LocalDate, user: string)
    requires 0 < n && name != ""
    ensures Resolve(NewBuilder(docPath, format).Id(n).Name(name), templates, today, user)
      == Success(Fields(n, name, today, DefaultStatus, user, DefaultTemplate))
  {
  }

  /** The record's file name: the id padded to four digits, a hyphen, the slug of the name, ".md". */
  function FileName(id: nat, name: string): (r: string)
    ensures StartsWith(r, Pad4(id) + "-")
    ensures |r| == |Pad4(id)| + |name| + 4 && r[|r| - 3..] == ".md"
    ensures r[|Pad4(id)| + 1..|r| - 3] == Slug(name)
  {
    Pad4(id) + "-" + Slug(name) + ".md"
  }

  /** The id a file name starts with. */
  function IdOfFileName(f: string): nat {
    Value(LeadingDigits(f))
  }

  /** A record's file name gives back its id. */
  lemma FileNameId(id: nat, name: string)
    ensures LeadingDigits(FileName(id, name)) == Pad4(id)
    ensures IdOfFileName(FileName(id, name)) == id
  {
    var rest := "-" + Slug(name) + ".md";
    assert FileName(id, name) == Pad4(id) + rest;
    LeadingDigitsAfter(Pad4(id), rest);
  }

  /**
   * Looking a link target up by the padded id finds exactly the record with
   * that id, as long as both ids are below 10000 (so both pad to four digits).
   */
  lemma PrefixFindsOnlyThatId(m: nat, n: nat, name: string)
    requires m < 10000 && n < 10000
    ensures StartsWith(FileName(m, name), Pad4(n)) <==> m == n
  {
    Pad4Width(m);
    Pad4Width(n);
    var f := FileName(m, name);
    assert f[..4] == Pad4(m);
  }

  /**
   * Scans the directory for a file whose name starts with the padded id `n`.
   * Which of several matching files is found is not specified.
   */
  method FindTarget(files: map<string, seq<string>>, n: nat) returns (r: Option<string>)
    ensures r.Some? ==> r.value in files && StartsWith(r.value, Pad4(n))
    ensures r.None? <==> forall f :: f in files ==> !StartsWith(f, Pad4(n))
  {
    var prefix := Pad4(n);
    var rest := files.Keys;
    while rest != {}
      invariant rest <= files.Keys
      invariant forall f :: f in files && f !in rest ==> !StartsWith(f, prefix)
      decreases rest
    {
      var f :| f in rest;
      if StartsWith(f, prefix) {
        return Some(f);
      }
      rest := rest - {f};
    }
    return None;
  }

  /** The text each placeholder is replaced by: the id unpadded, the date through the formatter. */
  function Substitutions(f: Fields, format: LocalDate -> string): Values {
    Values(NatStr(f.id), f.name, format(f.date), f.status, f.author)
  }

  /** The lines of a record's file. */
  function Document(f: Fields, format: LocalDate -> string, links: seq<Link>): (r: seq<string>)
    ensures |r| == |f.template| + LinkSlots(f.template) * |links|
  {
    RenderLength(f.template, Substitutions(f, format), Bullets(links));
    Render(f.template, Substitutions(f, format), Bullets(links))
  }

  /**
   * A record on the standard template: `# <id>. <name>`, the formatted date, the
   * status, the link bullets in the order they were added followed by one blank
   * line, and the fixed sections.
   */
  lemma DefaultDocument(f: Fields, format: LocalDate -> string, links: seq<Link>)
    requires f.template == DefaultTemplate
    ensures Document(f, format, links)
      == StandardLines("# " + NatStr(f.id) + ". " + f.name, format(f.date), f.status, Bullets(links))
  {
    DefaultRendering(Substitutions(f, format), Bullets(links));
  }

  /** Every link's bullet is a line of a standard record and so occurs in its joined text. */
  lemma DefaultDocumentHasBullets(f: Fields, format: LocalDate -> string, links: seq<Link>, i: nat)
    requires f.template == DefaultTemplate && i < |links|
    ensures |Document(f, format, links)| == 20 + |links|
    ensures Document(f, format, links)[8 + i] == Bullet(links[i])
    ensures Contains(Join(Document(f, format, links), "\n"), Bullet(links[i]))
  {
    DefaultDocument(f, format, links);
    StandardLinesBullet("# " + NatStr(f.id) + ". " + f.name, format(f.date), f.status, Bullets(links), i);
    JoinContainsLine(Document(f, format, links), "\n", 8 + i);
  }

  /** A template that never refers to the author renders the same whoever the author is. */
  lemma AuthorOnlyWhereReferenced(f: Fields, format: LocalDate -> string, links: seq<Link>, author: string)
    requires !Mentions(f.template, AuthorField)
    ensures Document(f.(author := author), format, links) == Document(f, format, links)
  {
    var v := Substitutions(f, format);
    assert Substitutions(f.(author := author), format) == With(v, AuthorField, author);
    RenderIgnoresUnmentioned(f.template, v, Bullets(links), AuthorField, author);
  }

  /** On the standard template a different date formatter changes the date line and nothing else. */
  lemma FormatterChangesOnlyDateLine(f: Fields, format1: LocalDate -> string, format2: LocalDate -> string, links: seq<Link>)
    requires f.template == DefaultTemplate
    ensures var d1 := Document(f, format1, links);
            var d2 := Document(f, format2, links);
            |d1| == |d2| == 20 + |links|
            && d1[2] == "Date: " + format1(f.date) && d2[2] == "Date: " + format2(f.date)
            && forall i :: 0 <= i < |d1| && i != 2 ==> d1[i] == d2[i]
  {
    DefaultDocument(f, format1, links);
    DefaultDocument(f, format2, links);
  }

  /** A record: its resolved fields, its directory, its date formatter and the links added so far. */
  class Record {
    const docPath: DocDirectory
    const format: LocalDate -> string
    const fields: Fields
    var links: seq<Link>

    constructor (docPath: DocDirectory, format: LocalDate -> string, fields: Fields)
      ensures this.docPath == docPath && this.format == format && this.fields == fields
      ensures links == []
    {
      this.docPath := docPath;
      this.format := format;
      this.fields := fields;
      links := [];
    }

    /** The name of the record's file in its directory. */
    function File(): string {
      FileName(fields.id, fields.name)
    }

    /** What `Store` writes: the record rendered with its current links. */
    function Contents(): seq<string>
      reads this
    {
      Document(fields, format, links)
    }

    /**
     * Registers a link given as `<target id>:<description>`. The target must
     * already be a file of the directory whose name starts with the padded id;
     * otherwise nothing is registered and the error says why.
     */
    method AddLink(spec: string) returns (r: Result<Link, LinkError>)
      modifies this
      ensures ParseLinkSpec(spec).Failure? ==> r == Failure(ParseLinkSpec(spec).error)
      ensures ParseLinkSpec(spec).Success? ==>
        (r.Failure? <==> forall f :: f in docPath.files ==> !StartsWith(f, Pad4(ParseLinkSpec(spec).value.target)))
      ensures ParseLinkSpec(spec).Success? && r.Failure? ==> r.error == TargetNotFound(ParseLinkSpec(spec).value.target)
      ensures r.Failure? ==> links == old(links)
      ensures r.Success? ==>
        && r.value.target == ParseLinkSpec(spec).value.target
        && r.value.description == ParseLinkSpec(spec).value.description
        && r.value.file in docPath.files && StartsWith(r.value.file, Pad4(r.value.target))
        && links == old(links) + [r.value]
    {
      var parsed := ParseLinkSpec(spec);
      if parsed.Failure? {
        return Failure(parsed.error);
      }
      var target := FindTarget(docPath.files, parsed.value.target);
      if target.None? {
        return Failure(TargetNotFound(parsed.value.target));
      }
      var link := Link(parsed.value.target, parsed.value.description, target.value);
      links := links + [link];
      return Success(link);
    }

    /** Writes the current rendering to the record's file, replacing whatever it held. */
    method Store()
      modifies docPath
      ensures docPath.files == old(docPath.files)[File() := Contents()]
    {
      docPath.files := docPath.files[File() := Contents()];
    }
  }

  /**
   * Builds a record from a builder: fails exactly when resolving the fields
   * fails, and otherwise gives a new record with those fields and no links.
   */
  method Build(b: Builder, templates: map<string, Template>, today: LocalDate, user: string)
    returns (r: Result<Record, BuildError>)
    ensures r.Failure? <==> Resolve(b, templates, today, user).Failure?
    ensures r.Failure? ==> r.error == Resolve(b, templates, today, user).error
    ensures r.Success? ==>
      && fresh(r.value)
      && r.value.fields == Resolve(b, templates, today, user).value
      && r.value.docPath == b.docPath && r.value.format == b.format
      && r.value.links == []
  {
    var resolved := Resolve(b, templates, today, user);
    if resolved.Failure? {
      return Failure(resolved.error);
    }
    var record := new Record(b.docPath, b.format, resolved.value);
    return Success(record);
  }
}
