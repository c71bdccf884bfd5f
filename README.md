# ADR records, modelled in Dafny

This project models the **Record** component of an Architecture Decision
Record tool (`org.doble.adr.Record`, its `Builder`, `store()` and
`addLink()`). The record tests in `RecordTest.java` pin that behaviour down.
A record is built from a fluent builder. The builder checks the id and the
name, and it fills in defaults for the status ("Proposed"), the date (the
build day), the author (the current user) and the template (the standard
ADR template). The record's file is named `NNNN-slug.md`: the id
zero-padded to four digits, a hyphen, the lower-cased name with spaces
turned into hyphens, and `.md`. Its contents are the template with every
placeholder replaced by the field's value; where the template has a link
slot, one markdown bullet per link stands in it. `addLink("N:description")` finds the existing file in the document
directory whose name starts with the padded `N`. `store()` overwrites the
record's file with the current rendering.

The model has six modules:

- `Text` (`text.dfy`): decimal numerals, the zero padding, the slug, prefixes and line joining.
- `Templates` (`templates.dfy`): templates as lines of literal text and placeholders plus a link slot. It holds rendering and the three templates the tests use.
- `Links` (`links.dfy`): the `N:description` link string and the link bullet.
- `Records` (`records.dfy`): the builder, the resolution of defaults, file names, the target lookup, and the document a record renders to.
  - The document directory is a class `DocDirectory` whose `files` field maps file names to lines.
  - The record is a class `Record` whose `links` field is the list that `AddLink` appends to. `Store` overwrites one entry of the directory.
- `TestStrings` (`test_strings.dfy`): the concrete file names, headings, link strings and bullets of the tests. Each is derived from the model's definitions.
- `RecordTest` (`record_test.dfy`): one method per test. It builds, links and stores as the test does, and its `ensures` states what the test asserts about the directory.

The clock, the user name and the date formatter are inputs. A formatter is
an arbitrary function from dates to strings.

The tests fix two details: the heading shows the id unpadded
(`# 7. This is a new record`), and a record without links has one extra
blank line after the status, where the link bullets go.

## Model

| member | source | states |
|---|---|---|
| Text.NatStr | src/test/java/org/doble/adr/RecordTest.java:54 | the id in a heading or bullet is a plain numeral: non-empty, all digits, one digit exactly when the id is below ten, and no leading zero |
| Text.ValueOfNatStr | src/test/java/org/doble/adr/RecordTest.java:54 | reading the numeral of an id back gives the id |
| Text.PadLeftShape | src/test/java/org/doble/adr/RecordTest.java:82 | left zero padding is all digits, has the requested width when the number fits, and still denotes the number |
| Text.Pad4 | src/test/java/org/doble/adr/RecordTest.java:82 | the padded id is all digits, at least four long, and denotes the id |
| Text.Pad4Width | src/test/java/org/doble/adr/RecordTest.java:131 | the padded id is exactly four digits if and only if the id is below 10000 |
| Text.Pad4Injective | src/test/java/org/doble/adr/RecordTest.java:160-162 | two ids with the same padded form are the same id |
| Text.Slug | src/test/java/org/doble/adr/RecordTest.java:147-152 | the slug has one character per character of the name: a space becomes a hyphen and every other character is lower-cased |
| Text.Lower | src/test/java/org/doble/adr/RecordTest.java:147-152 | an ASCII capital becomes the matching small letter (code point plus 32) and every other character is kept |
| Text.SlugShape | src/test/java/org/doble/adr/RecordTest.java:151 | a slug holds no space and no upper-case letter |
| Text.SlugAppend | src/test/java/org/doble/adr/RecordTest.java:214 | slugging works character by character: the slug of a concatenation is the concatenation of the slugs |
| Text.SlugIdempotent | src/test/java/org/doble/adr/RecordTest.java:151 | slugging a slug gives it back unchanged |
| Text.JoinContainsLine | src/test/java/org/doble/adr/RecordTest.java:181-185 | every line occurs in the text the lines make when joined with a separator |
| Templates.With | src/test/java/org/doble/adr/RecordTest.java:237 | setting one field's text changes that field and no other |
| Templates.RenderAppend | src/test/java/org/doble/adr/RecordTest.java:54-72 | the rendering of two template parts in sequence is the two renderings in sequence |
| Templates.RenderLength | src/test/java/org/doble/adr/RecordTest.java:262 | rendering gives one line per template line plus one line per bullet per link slot, nothing more |
| Templates.LinkSlotRendering | src/test/java/org/doble/adr/RecordTest.java:60-61 | a link slot becomes the bullets in order followed by one blank line, between the renderings of what precedes and follows it |
| Templates.RenderLineForLine | src/test/java/org/doble/adr/RecordTest.java:262-284 | a template without link slots renders line for line, each line to its own segments' text |
| Templates.RenderIgnoresUnmentioned | src/test/java/org/doble/adr/RecordTest.java:198-200 | the value of a field the template never refers to leaves no trace in the output |
| Templates.LiteralRendering | src/test/java/org/doble/adr/RecordTest.java:62-72 | a template of fixed lines renders to exactly those lines |
| Templates.HeadingRendering | src/test/java/org/doble/adr/RecordTest.java:54 | the heading line is `# `, the id text, `. `, and the name as given |
| Templates.LabelRendering | src/test/java/org/doble/adr/RecordTest.java:56 | a caption followed by a placeholder renders to the caption followed by the field's text |
| Templates.DefaultHeadRendering | src/test/java/org/doble/adr/RecordTest.java:54-61 | the standard template up to the link slot renders to heading, blank, `Date: ` line, blank, `## Status`, blank, status, blank |
| Templates.StandardLinesBullet | src/test/java/org/doble/adr/RecordTest.java:184-185 | a standard record has 20 lines plus one per link, and the link bullets are its lines from the ninth on, in order |
| Templates.DefaultRendering | src/test/java/org/doble/adr/RecordTest.java:54-72 | the standard template renders to heading, date, status, the bullets and a blank line, then the fixed Context, Decision and Consequences lines |
| Templates.AuthorRendering | src/test/java/org/doble/adr/RecordTest.java:198-200 | the author template renders to exactly the heading, a blank line and `Author: ` with the author |
| Templates.OnlyDateRendering | src/test/java/org/doble/adr/RecordTest.java:262 | the date-only template renders to exactly the one line `Date: ` with the date text |
| Templates.DefaultOmitsAuthor | src/test/java/org/doble/adr/RecordTest.java:54-72 | a standard record is the same whatever the author is |
| Links.FirstColon | src/test/java/org/doble/adr/RecordTest.java:170-171 | finds the first colon of the link string, or reports that there is none |
| Links.ParseLinkSpec | src/test/java/org/doble/adr/RecordTest.java:170-172 | a string without a colon is rejected; otherwise it is split at its first colon: it is accepted exactly when the text before is a non-empty run of digits with a positive value, which is the target, else that text is reported as an invalid target id; the description is everything after the first colon |
| Links.ParseLinkSpecRoundTrip | src/test/java/org/doble/adr/RecordTest.java:170-172 | parsing `N:description` for any positive N and any description, colons included, gives back N and the description |
| Links.BulletParts | src/test/java/org/doble/adr/RecordTest.java:184-185 | a link bullet opens with `* `, the description and ` [ADR `; the digits that follow are the target id unpadded and read back as the target; `](` comes straight after them, then the target file and `)`, which ends the bullet |
| Links.Bullets | src/test/java/org/doble/adr/RecordTest.java:184-185 | one bullet per link, in the order the links were added |
| Records.Resolve | src/test/java/org/doble/adr/RecordTest.java:123-127 | building succeeds exactly when the id is positive, the name non-empty and a named template exists; a bad id is `InvalidId`, otherwise a missing or empty name is `InvalidName`, otherwise an unknown template reference is `TemplateNotFound` with that reference; unset status, date, author and template become "Proposed", the build day, the user and the standard template, and set ones are kept |
| Records.Builder.Id | src/test/java/org/doble/adr/RecordTest.java:77 | setting the id records it and leaves every other setting as it was |
| Records.Builder.Name | src/test/java/org/doble/adr/RecordTest.java:77 | setting the name records it and leaves every other setting as it was |
| Records.Builder.Date | src/test/java/org/doble/adr/RecordTest.java:125 | setting the date records it and leaves every other setting as it was |
| Records.Builder.Status | src/test/java/org/doble/adr/RecordTest.java:126 | setting the status records it and leaves every other setting as it was |
| Records.Builder.Author | src/test/java/org/doble/adr/RecordTest.java:237 | setting the author records it and leaves every other setting as it was |
| Records.Builder.Template | src/test/java/org/doble/adr/RecordTest.java:208 | setting the template reference records it and leaves every other setting as it was |
| Records.NewBuilder | src/test/java/org/doble/adr/RecordTest.java:77 | a new builder holds the directory and formatter and has nothing else set |
| Records.MinimalBuild | src/test/java/org/doble/adr/RecordTest.java:77 | a builder given only a positive id and a non-empty name resolves to today's date, status "Proposed", the current user and the standard template |
| Records.FileName | src/test/java/org/doble/adr/RecordTest.java:77-82 | a file name is the padded id, a hyphen, the slug of the name (lower-cased, spaces turned into hyphens) and `.md` |
| Text.LeadingDigits | src/test/java/org/doble/adr/RecordTest.java:160-162 | the digits a file name starts with form a prefix of it, and the prefix is the longest such: it ends at the first non-digit |
| Records.FileNameId | src/test/java/org/doble/adr/RecordTest.java:77-82 | the digits a record's file name starts with are its padded id, and they read back as the id |
| Records.PrefixFindsOnlyThatId | src/test/java/org/doble/adr/RecordTest.java:159-172 | for ids below 10000, a record's file name starts with the padded target id exactly when the record is the target |
| Records.FindTarget | src/test/java/org/doble/adr/RecordTest.java:159-172 | the lookup loop returns a file of the directory that starts with the padded id, and returns none only when no file does |
| Records.Document | src/test/java/org/doble/adr/RecordTest.java:54-72 | a record renders to one line per template line plus one line per link for each link slot |
| Records.DefaultDocument | src/test/java/org/doble/adr/RecordTest.java:54-74 | a record on the standard template is heading `# <id>. <name>`, its formatter's text of its date, its status, its link bullets and the fixed sections |
| Records.DefaultDocumentHasBullets | src/test/java/org/doble/adr/RecordTest.java:181-185 | each link's bullet is line 8 plus its position in a standard record and occurs in the joined text |
| Records.AuthorOnlyWhereReferenced | src/test/java/org/doble/adr/RecordTest.java:198-200 | on a template with no author placeholder, the author does not change the document |
| Records.FormatterChangesOnlyDateLine | src/test/java/org/doble/adr/RecordTest.java:259-264 | two formatters give standard records that differ at most in the date line, which each formatter writes |
| Records.Record.constructor | src/test/java/org/doble/adr/RecordTest.java:77 | a new record has the given directory, formatter and fields and no links |
| Records.Record.AddLink | src/test/java/org/doble/adr/RecordTest.java:171-172 | a malformed link string or a missing target is an error and leaves the links unchanged; otherwise one link with the parsed target and description and an existing file starting with the padded id is appended |
| Records.Record.Store | src/test/java/org/doble/adr/RecordTest.java:168-174 | the record's file is overwritten with its current rendering and every other file is kept |
| Records.Build | src/test/java/org/doble/adr/RecordTest.java:123-127 | building fails exactly when resolving fails, with the same error, and otherwise gives a new record with the resolved fields and no links |
| RecordTest.AuthorDocument | src/test/java/org/doble/adr/RecordTest.java:198-200 | a record on the author template is heading, blank line and `Author: ` with its author |
| RecordTest.OnlyDateDocument | src/test/java/org/doble/adr/RecordTest.java:262-264 | a record on the date-only template is one line, `Date: ` with its own formatter's text of its date |
| RecordTest.BasicRecordConstruction | src/test/java/org/doble/adr/RecordTest.java:51-92 | the directory then holds only `0007-this-is-a-new-record.md`, whose lines are the standard record with heading `# 7. This is a new record`, today's date, status "Proposed" and no links |
| RecordTest.ComplexRecordConstruction | src/test/java/org/doble/adr/RecordTest.java:96-141 | the directory then holds only `0042-this-is-a-complex-record.md`, the standard record with the given date and status "Accepted" |
| RecordTest.NameIsLowerCased | src/test/java/org/doble/adr/RecordTest.java:143-152 | `0008-cdr-is-stored-in-a-relational-database.md` exists |
| RecordTest.StoredLinkingRecord | src/test/java/org/doble/adr/RecordTest.java:159-168 | after the target files are created and record 102 is stored, the directory holds exactly the two targets and `0102-contains-some-links.md` |
| RecordTest.AddExistingLink | src/test/java/org/doble/adr/RecordTest.java:171-172 | adding a well-formed link whose target has a file appends that link with a matching file |
| RecordTest.AddFirstTargetLink | src/test/java/org/doble/adr/RecordTest.java:171 | `4:Links to` appends a link to `0004-linked-to.md` |
| RecordTest.AddSecondTargetLink | src/test/java/org/doble/adr/RecordTest.java:172 | `5:Also links to` appends a link to `0005-also-linked-to.md` |
| RecordTest.LinkConstruction | src/test/java/org/doble/adr/RecordTest.java:157-193 | storing again keeps one file for the record, and its joined text contains `* Links to [ADR 4](0004-linked-to.md)` and `* Also links to [ADR 5](0005-also-linked-to.md)` |
| RecordTest.RecordConstructionWithDefaultAuthor | src/test/java/org/doble/adr/RecordTest.java:195-224 | the only file is `0066-this-is-a-new-record-with-default-author.md`, holding the heading, a blank line and `Author: ` with the current user |
| RecordTest.RecordConstructionWithGivenAuthor | src/test/java/org/doble/adr/RecordTest.java:226-255 | the only file is `0067-this-is-a-new-record-with-given-author.md`, holding the heading, a blank line and `Author: Andrew Doble` |
| RecordTest.ExplicitDateFormatter | src/test/java/org/doble/adr/RecordTest.java:257-286 | the only file is `0077-only-date.md`, holding the one line `Date: ` with the record's own formatter's text of today |
| TestStrings.FileNameBasic | src/test/java/org/doble/adr/RecordTest.java:77-82 | id 7 and "This is a new record" name `0007-this-is-a-new-record.md` |
| TestStrings.HeadingBasic | src/test/java/org/doble/adr/RecordTest.java:54 | the heading of record 7 is `# 7. This is a new record` |
| TestStrings.FileNameComplex | src/test/java/org/doble/adr/RecordTest.java:123-131 | id 42 and "This is a complex record" name `0042-this-is-a-complex-record.md` |
| TestStrings.HeadingComplex | src/test/java/org/doble/adr/RecordTest.java:101 | the heading of record 42 is `# 42. This is a complex record` |
| TestStrings.FileNameLowerCased | src/test/java/org/doble/adr/RecordTest.java:147-152 | id 8 and "CDR is stored in a relational database" name `0008-cdr-is-stored-in-a-relational-database.md` |
| TestStrings.FileNameLinking | src/test/java/org/doble/adr/RecordTest.java:167-177 | id 102 and "Contains some links" name `0102-contains-some-links.md` |
| TestStrings.FileNameLinkedTo | src/test/java/org/doble/adr/RecordTest.java:160 | `0004-linked-to.md` is the file name of record 4 "Linked to" |
| TestStrings.FileNameAlsoLinkedTo | src/test/java/org/doble/adr/RecordTest.java:162 | `0005-also-linked-to.md` is the file name of record 5 "Also linked to" |
| TestStrings.ParseFirstLink | src/test/java/org/doble/adr/RecordTest.java:171 | `4:Links to` parses to target 4 and description "Links to" |
| TestStrings.ParseSecondLink | src/test/java/org/doble/adr/RecordTest.java:172 | `5:Also links to` parses to target 5 and description "Also links to" |
| TestStrings.FirstTargetFile | src/test/java/org/doble/adr/RecordTest.java:159-171 | of the link test's three files, exactly `0004-linked-to.md` starts with the padded id 4 |
| TestStrings.SecondTargetFile | src/test/java/org/doble/adr/RecordTest.java:159-172 | of the link test's three files, exactly `0005-also-linked-to.md` starts with the padded id 5 |
| TestStrings.FirstBullet | src/test/java/org/doble/adr/RecordTest.java:184 | the first link's bullet is `* Links to [ADR 4](0004-linked-to.md)` |
| TestStrings.SecondBullet | src/test/java/org/doble/adr/RecordTest.java:185 | the second link's bullet is `* Also links to [ADR 5](0005-also-linked-to.md)` |
| TestStrings.FileNameDefaultAuthor | src/test/java/org/doble/adr/RecordTest.java:205-214 | id 66 and its name give `0066-this-is-a-new-record-with-default-author.md` |
| TestStrings.HeadingDefaultAuthor | src/test/java/org/doble/adr/RecordTest.java:198 | the heading of record 66 is `# 66. This is a new record with default author` |
| TestStrings.FileNameGivenAuthor | src/test/java/org/doble/adr/RecordTest.java:234-244 | id 67 and its name give `0067-this-is-a-new-record-with-given-author.md` |
| TestStrings.HeadingGivenAuthor | src/test/java/org/doble/adr/RecordTest.java:229 | the heading of record 67 is `# 67. This is a new record with given author` |
| TestStrings.FileNameOnlyDate | src/test/java/org/doble/adr/RecordTest.java:267-276 | id 77 and "Only date" name `0077-only-date.md` |
| TestStrings.FileNameInitialRecord | src/test/java/org/doble/adr/CommandInitTest.java:99 | the first record `init` writes, id 1 "Record architecture decisions", is `0001-record-architecture-decisions.md` |

## Left out

- Date formatting: `DateTimeFormatter` (ISO local date, localized short style) is not modelled. A formatter is any function from a date to a string, and the scenarios hold for every such function.
- Clock and user: `LocalDate.now()` and the `user.name` property are parameters of the scenarios.
- File system: the in-memory file system and `Files` I/O become a map from file names to lines. Line splitting by `Files.lines` and a trailing newline are not modelled. The scenarios state the stored lines, and the tests' `"\n"`-joined text is a function of them. A write to the map cannot fail, so `Store` has no error result, and a failing write (an `IOException` from the file system) is out of scope.
- Template files: loading a template resource becomes a lookup in a map from reference to template, and a missing reference is the `TemplateNotFound` error. The text of `template_with_author.md` and `template_only_date.md` is not available. `AuthorTemplate` and `OnlyDateTemplate` have the shapes the tests' expected output implies.
- Placeholder syntax: templates are structured lines of literals and placeholders, so placeholder markers in template text are not parsed.
- Hidden comments and reverse links: the hidden-comment link format and reverse links appear only in commented-out or TODO lines of the link test and are not modelled.
- The `init` command: `CommandInitTest.java` covers directory creation, re-initialisation and console output. It is not part of this model except for the file name of the first record.
- Text.Lower: only ASCII letters are lower-cased. Java's locale-dependent, Unicode-wide `toLowerCase` is not modelled.
- Text.Slug: the slug lower-cases and turns each space into a hyphen, one character for one. Collapsing other punctuation runs and trimming hyphens are not modelled, because every name in the tests is letters and single spaces.
- Records.Resolve: the id is an unbounded integer. Java's 32-bit `int` range is not modelled.
- Links.ParseLinkSpec: the id part must be decimal digits. A sign, which `Integer.parseInt` would accept, is rejected, and ids beyond the `int` range are not modelled.
- Records.FindTarget: when several files start with the padded id, which one is found is left open.
- Records.PrefixFindsOnlyThatId: it covers ids below 10000 only. For larger ids a file name can start with another id's padded form; for example, `10004-…` starts with `1000`.
- Templates.Render: on a template without a link slot, such as the author and date-only templates, the links are not rendered at all. The tests do not show what the tool does there.
- Templates.LinkSlotRendering: the layout with links present (the bullets, then one blank line) is inferred. The tests pin only the record without links (one blank line) and, with links, that each bullet occurs in the text.
- Records.Record.AddLink: a missing target is reported when the link is added. `Store` does not check again whether the target still exists.
