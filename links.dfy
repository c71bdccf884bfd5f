/**
 * Links between records. A link is registered from a string
 * `<target id>:<description>` and rendered as a markdown bullet naming the
 * target record's file.
 */
module Links {
  import opened Wrappers
  import opened Text

  /** A resolved link: the target id, its description and the target record's file name. */
  datatype Link = Link(target: nat, description: string, file: string)

  /** What a link string asks for, before its target is looked up. */
  datatype LinkSpec = LinkSpec(target: nat, description: string)

  datatype LinkError =
    | MissingSeparator
    | InvalidTargetId(text: string)
    | TargetNotFound(target: nat)

  /** The position of the first colon in `s`, if there is one. */
  function FirstColon(s: string): (r: Option<nat>)
    ensures r.Some? ==> r.value < |s| && s[r.value] == ':' && ':' !in s[..r.value]
    ensures r.None? ==> ':' !in s
  {
    if s == [] then None
    else if s[0] == ':' then Some(0)
    else
      match FirstColon(s[1..])
      case None => None
      case Some(i) =>
        assert s[..i + 1] == [s[0]] + s[1..][..i];
        Some(i + 1)
  }

  /**
   * Splits a link string at its first colon: the part before must be a
   * positive decimal id, the rest (which may hold further colons) is the
   * description.
   */
  function ParseLinkSpec(s: string): (r: Result<LinkSpec, LinkError>)
    ensures ':' !in s ==> r == Failure(MissingSeparator)
    ensures r.Success? ==> 0 < r.value.target
    ensures r.Success? ==> |r.value.description| < |s| && s[|s| - |r.value.description| - 1] == ':'
    ensures r.Success? ==> s[|s| - |r.value.description|..] == r.value.description
    ensures r.Success? ==>
      && FirstColon(s) == Some(|s| - |r.value.description| - 1)
      && AllDigits(s[..FirstColon(s).value])
      && r.value.target == Value(s[..FirstColon(s).value])
    ensures FirstColon(s).Some? ==>
      var idText := s[..FirstColon(s).value];
      && (r.Failure? <==> !(idText != [] && AllDigits(idText) && 0 < Value(idText)))
      && (r.Failure? ==> r.error == InvalidTargetId(idText))
  {
    match FirstColon(s)
    case None => Failure(MissingSeparator)
    case Some(i) =>
      var idText := s[..i];
      if idText != [] && AllDigits(idText) && 0 < Value(idText) then
        Success(LinkSpec(Value(idText), s[i + 1..]))
      else
        Failure(InvalidTargetId(idText))
  }

  /** Writing a link string from a positive id and any description and parsing it gives both back. */
  lemma ParseLinkSpecRoundTrip(n: nat, description: string)
    requires 0 < n
    ensures ParseLinkSpec(NatStr(n) + ":" + description) == Success(LinkSpec(n, description))
  {
    var idText := NatStr(n);
    var s := idText + ":" + description;
    FirstColonAfter(idText, description);
    assert s[..|idText|] == idText;
    ValueOfNatStr(n);
    assert s[|idText| + 1..] == description;
  }

  /** The first colon after a colon-free prefix is the one that ends it. */
  lemma {:induction false} FirstColonAfter(p: string, rest: string)
    requires ':' !in p
    ensures FirstColon(p + ":" + rest) == Some(|p|)
  {
    if p != [] {
      var s := p + ":" + rest;
      assert s[0] == p[0] && s[1..] == p[1..] + ":" + rest;
      assert ':' !in p[1..] by {
        assert forall c :: c in p[1..] ==> c in p;
      }
      FirstColonAfter(p[1..], rest);
    }
  }

  /** The markdown bullet of a link: `* <description> [ADR <id>](<file>)`, the id unpadded. */
  function Bullet(l: Link): string {
    "* " + l.description + " [ADR " + NatStr(l.target) + "](" + l.file + ")"
  }

  /**
   * A bullet opens with the description, the target id can be read back from
   * the digits after `[ADR `, and it closes with the target file in parentheses.
   */
  lemma BulletParts(l: Link)
    ensures StartsWith(Bullet(l), "* " + l.description + " [ADR ")
    ensures |l.description| + 8 <= |Bullet(l)| && Value(LeadingDigits(Bullet(l)[|l.description| + 8..])) == l.target
    ensures |l.description| + 8 <= |Bullet(l)| && LeadingDigits(Bullet(l)[|l.description| + 8..]) == NatStr(l.target)
    ensures |l.file| + 1 <= |Bullet(l)| && Bullet(l)[|Bullet(l)| - |l.file| - 1..] == l.file + ")"
    ensures |l.file| + 3 <= |Bullet(l)| && Bullet(l)[|Bullet(l)| - |l.file| - 3..] == "](" + l.file + ")"
    ensures |Bullet(l)| == |l.description| + |NatStr(l.target)| + |l.file| + 11
    ensures Bullet(l)[|l.description| + 8 + |NatStr(l.target)|..] == "](" + l.file + ")"
  {
    var head := "* " + l.description + " [ADR ";
    var id := NatStr(l.target);
    var tail := "](" + l.file + ")";
    assert Bullet(l) == head + id + tail;
    SplitThree(head, id, tail);
    SplitThree("](", l.file, ")");
    SplitThree(head + id, "](", l.file + ")");
    LeadingDigitsAfter(id, tail);
    assert tail[0] == ']';
    ValueOfNatStr(l.target);
  }

  /** Where the three parts of a concatenation sit. */
  lemma SplitThree(h: string, m: string, t: string)
    ensures (h + m + t)[..|h|] == h
    ensures (h + m + t)[|h|..] == m + t
    ensures (h + m + t)[|h| + |m|..] == t
  {
  }

  /** One bullet per link, in the order the links were added. */
  function Bullets(links: seq<Link>): (r: seq<string>)
    ensures |r| == |links| && forall i :: 0 <= i < |links| ==> r[i] == Bullet(links[i])
  {
    seq(|links|, i requires 0 <= i < |links| => Bullet(links[i]))
  }
}
