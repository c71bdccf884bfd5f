/**
 * Record templates and their rendering. A template is a sequence of lines;
 * an ordinary line is literal text interleaved with placeholders, and one
 * kind of line marks where the record's link bullets go. Rendering replaces
 * each placeholder by the resolved value of its field and expands the link
 * slot; nothing else is added, removed or reordered.
 */
module Templates {

  /** The record fields a template can refer to. */
  datatype Field = IdField | NameField | DateField | StatusField | AuthorField

  datatype Segment = Lit(text: string) | Hole(field: Field)

  datatype TemplateLine =
    | Line(segments: seq<Segment>)
    | LinkList

  type Template = seq<TemplateLine>

  /** The resolved text of every field, with the id and date already written out. */
  datatype Values = Values(id: string, name: string, date: string, status: string, author: string)

  function ValueOf(v: Values, f: Field): string {
    match f
    case IdField => v.id
    case NameField => v.name
    case DateField => v.date
    case StatusField => v.status
    case AuthorField => v.author
  }

  /** `v` with the text of field `f` replaced by `x`. */
  function With(v: Values, f: Field, x: string): (w: Values)
    ensures ValueOf(w, f) == x
    ensures forall g :: g != f ==> ValueOf(w, g) == ValueOf(v, g)
  {
    match f
    case IdField => v.(id := x)
    case NameField => v.(name := x)
    case DateField => v.(date := x)
    case StatusField => v.(status := x)
    case AuthorField => v.(author := x)
  }

  /** A literal stands for itself, a placeholder for its field's value. */
  function SegmentText(s: Segment, v: Values): string {
    match s
    case Lit(t) => t
    case Hole(f) => ValueOf(v, f)
  }

  function RenderSegments(segs: seq<Segment>, v: Values): string {
    if segs == [] then "" else SegmentText(segs[0], v) + RenderSegments(segs[1..], v)
  }

  /** The lines one template line becomes: one line of text, or the bullets followed by one blank line. */
  function RenderLine(l: TemplateLine, v: Values, bullets: seq<string>): seq<string> {
    match l
    case Line(segs) => [RenderSegments(segs, v)]
    case LinkList => bullets + [""]
  }

  /** The rendered document, line by line. */
  function Render(t: Template, v: Values, bullets: seq<string>): seq<string> {
    if t == [] then [] else RenderLine(t[0], v, bullets) + Render(t[1..], v, bullets)
  }

  predicate SegmentsMention(segs: seq<Segment>, f: Field) {
    Hole(f) in segs
  }

  predicate Mentions(t: Template, f: Field) {
    exists l :: l in t && l.Line? && SegmentsMention(l.segments, f)
  }

  function LinkSlots(t: Template): (n: nat)
    ensures n <= |t|
  {
    if t == [] then 0 else (if t[0].LinkList? then 1 else 0) + LinkSlots(t[1..])
  }

  /** Rendering concatenates: the rendering of a split template is the two renderings joined. */
  lemma {:induction false} RenderAppend(t1: Template, t2: Template, v: Values, bullets: seq<string>)
    ensures Render(t1 + t2, v, bullets) == Render(t1, v, bullets) + Render(t2, v, bullets)
  {
    if t1 == [] {
      assert t1 + t2 == t2;
    } else {
      assert (t1 + t2)[0] == t1[0];
      assert (t1 + t2)[1..] == t1[1..] + t2;
      RenderAppend(t1[1..], t2, v, bullets);
    }
  }

  /** Every ordinary line yields one line and every link slot one line per bullet plus one. */
  lemma {:induction false} RenderLength(t: Template, v: Values, bullets: seq<string>)
    ensures |Render(t, v, bullets)| == |t| + LinkSlots(t) * |bullets|
  {
    if t != [] {
      RenderLength(t[1..], v, bullets);
    }
  }

  /** The link slot between two parts of a template becomes the bullets and one blank line. */
  lemma LinkSlotRendering(head: Template, body: Template, v: Values, bullets: seq<string>)
    ensures Render(head + [LinkList] + body, v, bullets)
      == Render(head, v, bullets) + bullets + [""] + Render(body, v, bullets)
  {
    RenderAppend(head + [LinkList], body, v, bullets);
    RenderAppend(head, [LinkList], v, bullets);
    RenderFrom([LinkList], 0, v, bullets);
    assert [LinkList][1..] == [];
  }

  /** A template without link slots renders line for line. */
  lemma {:induction false} RenderLineForLine(t: Template, v: Values, bullets: seq<string>, i: nat)
    requires LinkSlots(t) == 0 && i < |t|
    ensures t[i].Line?
    ensures |Render(t, v, bullets)| == |t|
    ensures Render(t, v, bullets)[i] == RenderSegments(t[i].segments, v)
  {
    RenderLength(t, v, bullets);
    if i > 0 {
      RenderLineForLine(t[1..], v, bullets, i - 1);
    }
  }

  lemma {:induction false} SegmentsIgnoreUnmentioned(segs: seq<Segment>, v: Values, f: Field, x: string)
    requires !SegmentsMention(segs, f)
    ensures RenderSegments(segs, With(v, f, x)) == RenderSegments(segs, v)
  {
    if segs != [] {
      assert !SegmentsMention(segs[1..], f) by {
        assert forall s :: s in segs[1..] ==> s in segs;
      }
      SegmentsIgnoreUnmentioned(segs[1..], v, f, x);
    }
  }

  /** A field the template never refers to leaves no trace in the output, whatever its value. */
  lemma {:induction false} RenderIgnoresUnmentioned(t: Template, v: Values, bullets: seq<string>, f: Field, x: string)
    requires !Mentions(t, f)
    ensures Render(t, With(v, f, x), bullets) == Render(t, v, bullets)
  {
    if t != [] {
      assert t[0] in t;
      if t[0].Line? {
        SegmentsIgnoreUnmentioned(t[0].segments, v, f, x);
      }
      assert forall l :: l in t[1..] ==> l in t;
      RenderIgnoresUnmentioned(t[1..], v, bullets, f, x);
    }
  }

  // The templates the record tests use.

  /** Heading, date and status of the standard template, up to the link slot. */
  const DefaultHead: Template := [
    Line([Lit("# "), Hole(IdField), Lit(". "), Hole(NameField)]),
    Line([]),
    Line([Lit("Date: "), Hole(DateField)]),
    Line([]),
    Line([Lit("## Status")]),
    Line([]),
    Line([Hole(StatusField)]),
    Line([])
  ]

  /** The boilerplate lines every standard record ends with. */
  const Boilerplate: seq<string> := [
    "## Context",
    "",
    "Record the architectural decisions " + "made on this project.",
    "",
    "## Decision",
    "",
    "We will use Architecture Decision Records, " + "as described by Michael Nygard in this article: "
      + "http://thinkrelevance.com/blog/2011/11/15/" + "documenting-architecture-decisions",
    "",
    "## Consequences",
    "",
    "See Michael Nygard's article, linked above."
  ]

  /** A template of fixed text only, one literal per line. */
  function LiteralTemplate(lines: seq<string>): (t: Template)
    ensures |t| == |lines|
  {
    if lines == [] then [] else [Line([Lit(lines[0])])] + LiteralTemplate(lines[1..])
  }

  /** Fixed text renders to itself. */
  lemma {:induction false} LiteralRendering(lines: seq<string>, v: Values, bullets: seq<string>)
    ensures Render(LiteralTemplate(lines), v, bullets) == lines
  {
    if lines != [] {
      var t := LiteralTemplate(lines);
      assert t[0] == Line([Lit(lines[0])]) && t[1..] == LiteralTemplate(lines[1..]);
      SingleSegment(Lit(lines[0]), v);
      LiteralRendering(lines[1..], v, bullets);
    }
  }

  /** The fixed Context, Decision and Consequences sections of the standard template. */
  const DefaultBody: Template := LiteralTemplate(Boilerplate)

  /** The standard ADR template: heading, date, status, links, then the fixed sections. */
  const DefaultTemplate: Template := DefaultHead + [LinkList] + DefaultBody

  /** A template with the heading and an author line only. */
  const AuthorTemplate: Template := [
    Line([Lit("# "), Hole(IdField), Lit(". "), Hole(NameField)]),
    Line([]),
    Line([Lit("Author: "), Hole(AuthorField)])
  ]

  /** A template holding nothing but the date line. */
  const OnlyDateTemplate: Template := [
    Line([Lit("Date: "), Hole(DateField)])
  ]

  /** One step of rendering a suffix of a template. */
  lemma RenderFrom(t: Template, k: nat, v: Values, bullets: seq<string>)
    requires k < |t|
    ensures Render(t[k..], v, bullets) == RenderLine(t[k], v, bullets) + Render(t[k + 1..], v, bullets)
  {
    assert t[k..][0] == t[k];
    assert t[k..][1..] == t[k + 1..];
  }

  /** One step of rendering a suffix of a line's segments. */
  lemma SegmentsFrom(segs: seq<Segment>, k: nat, v: Values)
    requires k < |segs|
    ensures RenderSegments(segs[k..], v)
      == SegmentText(segs[k], v) + RenderSegments(segs[k + 1..], v)
  {
    assert segs[k..][0] == segs[k];
    assert segs[k..][1..] == segs[k + 1..];
  }

  lemma SingleSegment(s: Segment, v: Values)
    ensures RenderSegments([s], v) == SegmentText(s, v)
  {
    assert [s][1..] == [];
  }

  /** The heading line `# <id>. <name>`. */
  lemma HeadingRendering(v: Values)
    ensures RenderSegments([Lit("# "), Hole(IdField), Lit(". "), Hole(NameField)], v) == "# " + v.id + ". " + v.name
  {
    var s := [Lit("# "), Hole(IdField), Lit(". "), Hole(NameField)];
    SegmentsFrom(s, 3, v);
    SegmentsFrom(s, 2, v);
    SegmentsFrom(s, 1, v);
    SegmentsFrom(s, 0, v);
    assert s[4..] == [];
    assert s[0..] == s;
  }

  /** A line of one literal and one placeholder. */
  lemma LabelRendering(caption: string, f: Field, v: Values)
    ensures RenderSegments([Lit(caption), Hole(f)], v) == caption + ValueOf(v, f)
  {
    var s := [Lit(caption), Hole(f)];
    SegmentsFrom(s, 1, v);
    assert s[2..] == [];
  }

  lemma {:induction false} DefaultHeadRendering(v: Values, bullets: seq<string>)
    ensures Render(DefaultHead, v, bullets)
      == ["# " + v.id + ". " + v.name, "", "Date: " + v.date, "", "## Status", "", v.status, ""]
  {
    var t := DefaultHead;
    HeadingRendering(v);
    LabelRendering("Date: ", DateField, v);
    assert RenderLine(t[0], v, bullets) == ["# " + v.id + ". " + v.name];
    assert RenderLine(t[2], v, bullets) == ["Date: " + v.date];
    SingleSegment(Lit("## Status"), v);
    SingleSegment(Hole(StatusField), v);
    assert RenderLine(Line([]), v, bullets) == [""];
    assert t[8..] == [];
    RenderFrom(t, 7, v, bullets);
    RenderFrom(t, 6, v, bullets);
    RenderFrom(t, 5, v, bullets);
    RenderFrom(t, 4, v, bullets);
    RenderFrom(t, 3, v, bullets);
    RenderFrom(t, 2, v, bullets);
    RenderFrom(t, 1, v, bullets);
    RenderFrom(t, 0, v, bullets);
    assert t[0..] == t;
  }

  /**
   * The lines of a record on the standard template: the heading, the date line,
   * the status, one bullet per link in order followed by a blank line (so a
   * record without links has one extra blank line after the status), and the
   * fixed sections.
   */
  function StandardLines(heading: string, date: string, status: string, bullets: seq<string>): seq<string> {
    [heading, "", "Date: " + date, "", "## Status", "", status, ""] + bullets + [""] + Boilerplate
  }

  /** The bullets of a standard record are its lines from the ninth on, in order. */
  lemma StandardLinesBullet(heading: string, date: string, status: string, bullets: seq<string>, i: nat)
    requires i < |bullets|
    ensures |StandardLines(heading, date, status, bullets)| == 20 + |bullets|
    ensures StandardLines(heading, date, status, bullets)[8 + i] == bullets[i]
  {
    assert |Boilerplate| == 11;
  }

  /** The standard template renders to the standard lines, its heading `# <id>. <name>` with the name as given. */
  lemma DefaultRendering(v: Values, bullets: seq<string>)
    ensures Render(DefaultTemplate, v, bullets) == StandardLines("# " + v.id + ". " + v.name, v.date, v.status, bullets)
  {
    LinkSlotRendering(DefaultHead, DefaultBody, v, bullets);
    DefaultHeadRendering(v, bullets);
    LiteralRendering(Boilerplate, v, bullets);
  }

  /** The author template renders to exactly heading, blank line and author line. */
  lemma AuthorRendering(v: Values, bullets: seq<string>)
    ensures Render(AuthorTemplate, v, bullets) == ["# " + v.id + ". " + v.name, "", "Author: " + v.author]
  {
    var t := AuthorTemplate;
    HeadingRendering(v);
    LabelRendering("Author: ", AuthorField, v);
    RenderFrom(t, 2, v, bullets);
    RenderFrom(t, 1, v, bullets);
    RenderFrom(t, 0, v, bullets);
    assert t[3..] == [] && t[0..] == t;
  }

  /** The date-only template renders to the single date line. */
  lemma OnlyDateRendering(v: Values, bullets: seq<string>)
    ensures Render(OnlyDateTemplate, v, bullets) == ["Date: " + v.date]
  {
    LabelRendering("Date: ", DateField, v);
  }

  /** The standard template has no author placeholder, so an author never shows in a standard record. */
  lemma DefaultOmitsAuthor(v: Values, bullets: seq<string>, author: string)
    ensures Render(DefaultTemplate, With(v, AuthorField, author), bullets) == Render(DefaultTemplate, v, bullets)
  {
    DefaultRendering(v, bullets);
    DefaultRendering(With(v, AuthorField, author), bullets);
  }
}
