/**
 * The concrete names, file names and headings of the record tests, each
 * established from the model's definitions. A long literal is taken in pieces:
 * the name is split into parts, each part is slugged on its own, and the
 * pieces are joined back.
 *
 * The small lemmas below each state one literal fact (a split, the slug of one
 * piece, one join). They exist because the verifier reasons about long string
 * literals character by character: a concatenation of many long literals in a
 * single proof obligation is far more expensive than the same facts taken a
 * few short pieces at a time. `HeadingOfPieces` and `FileNameOfPieces` only
 * regroup concatenations into that shape.
 */
module TestStrings {
  import opened Wrappers
  import opened Text
  import opened Links
  import opened Records

  /** The file name of a three-part name, part by part. */
  lemma FileNameOfPieces(id: nat, a: string, b: string, c: string)
    ensures FileName(id, a + b + c) == Pad4(id) + "-" + Slug(a) + Slug(b) + Slug(c) + ".md"
  {
    SlugAppend(a + b, c);
    SlugAppend(a, b);
  }

  /** A heading of a three-part name, part by part. */
  lemma HeadingOfPieces(id: nat, a: string, b: string, c: string)
    ensures "# " + NatStr(id) + ". " + (a + b + c) == "# " + NatStr(id) + ". " + a + b + c
  {
  }

  // Basic: "This is a new record"

  lemma SplitBasic()
    ensures "This is a new record" == "This is " + "a new " + "record"
  {
  }

  lemma SlugBasic1()
    ensures Slug("This is ") == "this-is-"
  {
  }

  lemma SlugBasic2()
    ensures Slug("a new ") == "a-new-"
  {
  }

  lemma SlugBasic3()
    ensures Slug("record") == "record"
  {
  }

  lemma FileJoinBasic()
    ensures "0007-this-is-" + "a-new-" + "record" + ".md"
      == "0007-this-is-a-new-record.md"
  {
  }

  lemma FilePrefixBasic()
    ensures "0007" + "-" + "this-is-" == "0007-this-is-"
  {
  }

  lemma FileNameBasic()
    ensures FileName(7, "This is a new record") == "0007-this-is-a-new-record.md"
  {
    SplitBasic();
    FileNameOfPieces(7, "This is ", "a new ", "record");
    SlugBasic1();
    SlugBasic2();
    SlugBasic3();
    assert Pad4(7) == "0007";
    FilePrefixBasic();
    FileJoinBasic();
  }

  lemma HeadingJoinBasic()
    ensures "# 7. This is " + "a new " + "record"
      == "# 7. This is a new record"
  {
  }

  lemma HeadingBasic()
    ensures "# " + NatStr(7) + ". " + "This is a new record"
      == "# 7. This is a new record"
  {
    SplitBasic();
    HeadingOfPieces(7, "This is ", "a new ", "record");
    assert NatStr(7) == "7";
    assert "# " + "7" + ". " == "# 7. ";
    assert "# 7. " + "This is " == "# 7. This is ";
    HeadingJoinBasic();
  }

  // Complex: "This is a complex record"

  lemma SplitComplex()
    ensures "This is a complex record" == "This is " + "a complex " + "record"
  {
  }


  lemma SlugComplex2()
    ensures Slug("a complex ") == "a-complex-"
  {
  }


  lemma FileJoinComplex()
    ensures "0042-this-is-" + "a-complex-" + "record" + ".md"
      == "0042-this-is-a-complex-record.md"
  {
  }

  lemma FilePrefixComplex()
    ensures "0042" + "-" + "this-is-" == "0042-this-is-"
  {
  }

  lemma FileNameComplex()
    ensures FileName(42, "This is a complex record") == "0042-this-is-a-complex-record.md"
  {
    SplitComplex();
    FileNameOfPieces(42, "This is ", "a complex ", "record");
    SlugBasic1();
    SlugComplex2();
    SlugBasic3();
    assert Pad4(42) == "0042";
    FilePrefixComplex();
    FileJoinComplex();
  }

  lemma HeadingJoinComplex()
    ensures "# 42. This is " + "a complex " + "record"
      == "# 42. This is a complex record"
  {
  }

  lemma HeadingComplex()
    ensures "# " + NatStr(42) + ". " + "This is a complex record"
      == "# 42. This is a complex record"
  {
    SplitComplex();
    HeadingOfPieces(42, "This is ", "a complex ", "record");
    assert NatStr(42) == "42";
    assert "# " + "42" + ". " == "# 42. ";
    assert "# 42. " + "This is " == "# 42. This is ";
    HeadingJoinComplex();
  }

  // LowerCased: "CDR is stored in a relational database"

  lemma SplitLowerCased()
    ensures "CDR is stored in a relational database" == "CDR is stored " + "in a relational " + "database"
  {
  }

  lemma SlugLowerCased1()
    ensures Slug("CDR is stored ") == "cdr-is-stored-"
  {
  }

  lemma SlugLowerCased2()
    ensures Slug("in a relational ") == "in-a-relational-"
  {
  }

  lemma SlugLowerCased3()
    ensures Slug("database") == "database"
  {
  }

  lemma FileJoinLowerCased()
    ensures "0008-cdr-is-stored-" + "in-a-relational-" + "database" + ".md"
      == "0008-cdr-is-stored-in-a-relational-database.md"
  {
  }

  lemma FilePrefixLowerCased()
    ensures "0008" + "-" + "cdr-is-stored-" == "0008-cdr-is-stored-"
  {
  }

  lemma FileNameLowerCased()
    ensures FileName(8, "CDR is stored in a relational database") == "0008-cdr-is-stored-in-a-relational-database.md"
  {
    SplitLowerCased();
    FileNameOfPieces(8, "CDR is stored ", "in a relational ", "database");
    SlugLowerCased1();
    SlugLowerCased2();
    SlugLowerCased3();
    assert Pad4(8) == "0008";
    FilePrefixLowerCased();
    FileJoinLowerCased();
  }

  // Linking: "Contains some links"

  lemma SplitLinking()
    ensures "Contains some links" == "Contains " + "some " + "links"
  {
  }

  lemma SlugLinking1()
    ensures Slug("Contains ") == "contains-"
  {
  }

  lemma SlugLinking2()
    ensures Slug("some ") == "some-"
  {
  }

  lemma SlugLinking3()
    ensures Slug("links") == "links"
  {
  }

  lemma FileJoinLinking()
    ensures "0102-contains-" + "some-" + "links" + ".md"
      == "0102-contains-some-links.md"
  {
  }

  lemma FilePrefixLinking()
    ensures "0102" + "-" + "contains-" == "0102-contains-"
  {
  }

  lemma FileNameLinking()
    ensures FileName(102, "Contains some links") == "0102-contains-some-links.md"
  {
    SplitLinking();
    FileNameOfPieces(102, "Contains ", "some ", "links");
    SlugLinking1();
    SlugLinking2();
    SlugLinking3();
    assert Pad4(102) == "0102";
    FilePrefixLinking();
    FileJoinLinking();
  }

  // DefaultAuthor: "This is a new record with default author"

  lemma SplitDefaultAuthor()
    ensures "This is a new record with default author" == "This is a new " + "record with " + "default author"
  {
  }

  lemma SlugDefaultAuthor1()
    ensures Slug("This is a new ") == "this-is-a-new-"
  {
  }

  lemma SlugDefaultAuthor2()
    ensures Slug("record with ") == "record-with-"
  {
  }

  lemma SlugDefaultAuthor3()
    ensures Slug("default author") == "default-author"
  {
  }

  lemma FileJoinDefaultAuthor()
    ensures "0066-this-is-a-new-" + "record-with-" + "default-author" + ".md"
      == "0066-this-is-a-new-record-with-default-author.md"
  {
  }

  lemma FilePrefixDefaultAuthor()
    ensures "0066" + "-" + "this-is-a-new-" == "0066-this-is-a-new-"
  {
  }

  lemma FileNameDefaultAuthor()
    ensures FileName(66, "This is a new record with default author") == "0066-this-is-a-new-record-with-default-author.md"
  {
    SplitDefaultAuthor();
    FileNameOfPieces(66, "This is a new ", "record with ", "default author");
    SlugDefaultAuthor1();
    SlugDefaultAuthor2();
    SlugDefaultAuthor3();
    assert Pad4(66) == "0066";
    FilePrefixDefaultAuthor();
    FileJoinDefaultAuthor();
  }

  lemma HeadingJoinDefaultAuthor()
    ensures "# 66. This is a new " + "record with " + "default author"
      == "# 66. This is a new record with default author"
  {
  }

  lemma HeadingDefaultAuthor()
    ensures "# " + NatStr(66) + ". " + "This is a new record with default author"
      == "# 66. This is a new record with default author"
  {
    SplitDefaultAuthor();
    HeadingOfPieces(66, "This is a new ", "record with ", "default author");
    assert NatStr(66) == "66";
    assert "# " + "66" + ". " == "# 66. ";
    assert "# 66. " + "This is a new " == "# 66. This is a new ";
    HeadingJoinDefaultAuthor();
  }

  // GivenAuthor: "This is a new record with given author"

  lemma SplitGivenAuthor()
    ensures "This is a new record with given author" == "This is a new " + "record with " + "given author"
  {
  }



  lemma SlugGivenAuthor3()
    ensures Slug("given author") == "given-author"
  {
  }

  lemma FileJoinGivenAuthor()
    ensures "0067-this-is-a-new-" + "record-with-" + "given-author" + ".md"
      == "0067-this-is-a-new-record-with-given-author.md"
  {
  }

  lemma FilePrefixGivenAuthor()
    ensures "0067" + "-" + "this-is-a-new-" == "0067-this-is-a-new-"
  {
  }

  lemma FileNameGivenAuthor()
    ensures FileName(67, "This is a new record with given author") == "0067-this-is-a-new-record-with-given-author.md"
  {
    SplitGivenAuthor();
    FileNameOfPieces(67, "This is a new ", "record with ", "given author");
    SlugDefaultAuthor1();
    SlugDefaultAuthor2();
    SlugGivenAuthor3();
    assert Pad4(67) == "0067";
    FilePrefixGivenAuthor();
    FileJoinGivenAuthor();
  }

  lemma HeadingJoinGivenAuthor()
    ensures "# 67. This is a new " + "record with " + "given author"
      == "# 67. This is a new record with given author"
  {
  }

  lemma HeadingGivenAuthor()
    ensures "# " + NatStr(67) + ". " + "This is a new record with given author"
      == "# 67. This is a new record with given author"
  {
    SplitGivenAuthor();
    HeadingOfPieces(67, "This is a new ", "record with ", "given author");
    assert NatStr(67) == "67";
    assert "# " + "67" + ". " == "# 67. ";
    assert "# 67. " + "This is a new " == "# 67. This is a new ";
    HeadingJoinGivenAuthor();
  }

  // InitialRecord: "Record architecture decisions"

  lemma SplitInitialRecord()
    ensures "Record architecture decisions" == "Record " + "architecture " + "decisions"
  {
  }

  lemma SlugInitialRecord1()
    ensures Slug("Record ") == "record-"
  {
  }

  lemma SlugInitialRecord2()
    ensures Slug("architecture ") == "architecture-"
  {
  }

  lemma SlugInitialRecord3()
    ensures Slug("decisions") == "decisions"
  {
  }

  lemma FileJoinInitialRecord()
    ensures "0001-record-" + "architecture-" + "decisions" + ".md"
      == "0001-record-architecture-decisions.md"
  {
  }

  lemma FilePrefixInitialRecord()
    ensures "0001" + "-" + "record-" == "0001-record-"
  {
  }

  lemma FileNameInitialRecord()
    ensures FileName(1, "Record architecture decisions") == "0001-record-architecture-decisions.md"
  {
    SplitInitialRecord();
    FileNameOfPieces(1, "Record ", "architecture ", "decisions");
    SlugInitialRecord1();
    SlugInitialRecord2();
    SlugInitialRecord3();
    assert Pad4(1) == "0001";
    FilePrefixInitialRecord();
    FileJoinInitialRecord();
  }

  // OnlyDate: "Only date"

  lemma SlugOnlyDate()
    ensures Slug("Only date") == "only-date"
  {
  }

  lemma FileJoinOnlyDate()
    ensures "0077" + "-" + "only-date" + ".md" == "0077-only-date.md"
  {
  }

  lemma FileNameOnlyDate()
    ensures FileName(77, "Only date") == "0077-only-date.md"
  {
    SlugOnlyDate();
    assert Pad4(77) == "0077";
    FileJoinOnlyDate();
  }

  // LinkedTo: "Linked to"

  lemma SlugLinkedTo()
    ensures Slug("Linked to") == "linked-to"
  {
  }

  lemma FileJoinLinkedTo()
    ensures "0004" + "-" + "linked-to" + ".md" == "0004-linked-to.md"
  {
  }

  lemma FileNameLinkedTo()
    ensures FileName(4, "Linked to") == "0004-linked-to.md"
  {
    SlugLinkedTo();
    assert Pad4(4) == "0004";
    FileJoinLinkedTo();
  }

  // AlsoLinkedTo: "Also linked to"

  lemma SlugAlsoLinkedTo()
    ensures Slug("Also linked to") == "also-linked-to"
  {
  }

  lemma FileJoinAlsoLinkedTo()
    ensures "0005" + "-" + "also-linked-to" + ".md" == "0005-also-linked-to.md"
  {
  }

  lemma FileNameAlsoLinkedTo()
    ensures FileName(5, "Also linked to") == "0005-also-linked-to.md"
  {
    SlugAlsoLinkedTo();
    assert Pad4(5) == "0005";
    FileJoinAlsoLinkedTo();
  }

  lemma AuthorLineGiven()
    ensures "Author: " + "Andrew Doble" == "Author: Andrew Doble"
  {
  }

  // The link specifications, the target files and the bullets of the link test

  lemma FirstSpecText()
    ensures NatStr(4) + ":" + "Links to" == "4:Links to"
  {
    assert NatStr(4) == "4";
  }

  lemma ParseFirstLink()
    ensures ParseLinkSpec("4:Links to") == Success(LinkSpec(4, "Links to"))
  {
    ParseLinkSpecRoundTrip(4, "Links to");
    FirstSpecText();
  }

  lemma SecondSpecText()
    ensures NatStr(5) + ":" + "Also links to" == "5:Also links to"
  {
    assert NatStr(5) == "5";
  }

  lemma ParseSecondLink()
    ensures ParseLinkSpec("5:Also links to") == Success(LinkSpec(5, "Also links to"))
  {
    ParseLinkSpecRoundTrip(5, "Also links to");
    SecondSpecText();
  }

  /** The files of the link test's directory. */
  const LinkTestFiles: set<string> := {"0004-linked-to.md", "0005-also-linked-to.md", "0102-contains-some-links.md"}

  /** Of the link test's files, only one starts with the padded id 4. */
  lemma FirstTargetFile(f: string)
    requires f in LinkTestFiles
    ensures StartsWith(f, Pad4(4)) <==> f == "0004-linked-to.md"
  {
    FileNameLinkedTo();
    FileNameAlsoLinkedTo();
    FileNameLinking();
    PrefixFindsOnlyThatId(4, 4, "Linked to");
    PrefixFindsOnlyThatId(5, 4, "Also linked to");
    PrefixFindsOnlyThatId(102, 4, "Contains some links");
  }

  /** Of the link test's files, only one starts with the padded id 5. */
  lemma SecondTargetFile(f: string)
    requires f in LinkTestFiles
    ensures StartsWith(f, Pad4(5)) <==> f == "0005-also-linked-to.md"
  {
    FileNameLinkedTo();
    FileNameAlsoLinkedTo();
    FileNameLinking();
    PrefixFindsOnlyThatId(4, 5, "Linked to");
    PrefixFindsOnlyThatId(5, 5, "Also linked to");
    PrefixFindsOnlyThatId(102, 5, "Contains some links");
  }

  lemma FirstBulletHead()
    ensures "* " + "Links to" + " [ADR " + "4" == "* Links to [ADR 4"
  {
  }

  lemma FirstBulletTail()
    ensures "* Links to [ADR 4" + "](" + "0004-linked-to.md" + ")" == "* Links to [ADR 4](0004-linked-to.md)"
  {
  }

  lemma FirstBullet()
    ensures Bullet(Link(4, "Links to", "0004-linked-to.md")) == "* Links to [ADR 4](0004-linked-to.md)"
  {
    assert NatStr(4) == "4";
    FirstBulletHead();
    FirstBulletTail();
  }

  lemma SecondBulletHead()
    ensures "* " + "Also links to" + " [ADR " + "5" == "* Also links to [ADR 5"
  {
  }

  lemma SecondBulletTail()
    ensures "* Also links to [ADR 5" + "](" + "0005-also-linked-to.md" + ")"
      == "* Also links to [ADR 5](0005-also-linked-to.md)"
  {
  }

  lemma SecondBullet()
    ensures Bullet(Link(5, "Also links to", "0005-also-linked-to.md")) == "* Also links to [ADR 5](0005-also-linked-to.md)"
  {
    assert NatStr(5) == "5";
    SecondBulletHead();
    SecondBulletTail();
  }
}
