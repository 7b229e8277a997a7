/** Rendering of the vector-index matches into the context string that is
    appended to the user's last message. */
module Retrieval {
  import Strings

  /** A match's metadata; each field is held as the text that template
      interpolation produces for it. */
  datatype Metadata = Metadata(review: string, subject: string, stars: string)

  /** One match returned by the vector index, in rank order. */
  datatype Match = Match(id: string, metadata: Metadata)

  /** The fixed header that every rendered context starts with. */
  const Header: string := "\n\nReturned results from vector db (done automatically): "

  /** The indentation that the template literal carries on each line. */
  const Indent: string := "        "

  // The literal pieces of the per-match template, between the fields.
  const Opening: string := "\n" + Indent + "Professor: "
  const ReviewLabel: string := ",\n" + Indent + "Review: "
  const SubjectLabel: string := "\n" + Indent + "Subject: "
  const StarsLabel: string := "\n" + Indent + "Stars: "
  const Closing: string := "\n" + Indent + "\n\n\n" + Indent

  /** The block rendered for one match. */
  function Block(m: Match): string
  {
    Opening + m.id + ReviewLabel + m.metadata.review + SubjectLabel
      + m.metadata.subject + StarsLabel + m.metadata.stars + Closing
  }

  /** The full context string for the given matches. */
  function Context(ms: seq<Match>): (r: string)
    ensures |Header| <= |r| && r[..|Header|] == Header
    ensures ms == [] ==> r == Header
  {
    Header + Strings.Join(ms, Block)
  }

  /** A block lays out the id, review, subject and stars of its match, in
      that order, each after its fixed label, and nothing else varies. */
  lemma BlockLayout(m: Match)
    ensures var r := Block(m);
      var p := |Opening|;
      var q := p + |m.id| + |ReviewLabel|;
      var s := q + |m.metadata.review| + |SubjectLabel|;
      var t := s + |m.metadata.subject| + |StarsLabel|;
      && |r| == t + |m.metadata.stars| + |Closing|
      && r[..p] == Opening
      && r[p..p + |m.id|] == m.id
      && r[p + |m.id|..q] == ReviewLabel
      && r[q..q + |m.metadata.review|] == m.metadata.review
      && r[q + |m.metadata.review|..s] == SubjectLabel
      && r[s..s + |m.metadata.subject|] == m.metadata.subject
      && r[s + |m.metadata.subject|..t] == StarsLabel
      && r[t..t + |m.metadata.stars|] == m.metadata.stars
      && r[t + |m.metadata.stars|..] == Closing
  {
    TemplateLayout(Opening, m.id, ReviewLabel, m.metadata.review, SubjectLabel,
      m.metadata.subject, StarsLabel, m.metadata.stars, Closing);
  }

  /** Where each of nine consecutive pieces sits in their concatenation,
      stated over plain strings so that BlockLayout can use it as a proof
      hint without unfolding the template's literals. */
  lemma TemplateLayout(a: string, b: string, c: string, d: string, e: string,
                       f: string, g: string, h: string, i: string)
    ensures var r := a + b + c + d + e + f + g + h + i;
      var o1 := |a|; var o2 := o1 + |b|; var o3 := o2 + |c|; var o4 := o3 + |d|;
      var o5 := o4 + |e|; var o6 := o5 + |f|; var o7 := o6 + |g|; var o8 := o7 + |h|;
      && |r| == o8 + |i|
      && r[..o1] == a && r[o1..o2] == b && r[o2..o3] == c && r[o3..o4] == d
      && r[o4..o5] == e && r[o5..o6] == f && r[o6..o7] == g && r[o7..o8] == h && r[o8..] == i
  {
  }

  /** Rendering more matches appends their blocks: the blocks keep the
      order in which the index ranked the matches. */
  lemma ContextAppend(a: seq<Match>, b: seq<Match>)
    ensures Context(a + b) == Context(a) + Strings.Join(b, Block)
  {
    Strings.JoinAppend(a, b, Block);
    Strings.AppendAssoc(Header, Strings.Join(a, Block), Strings.Join(b, Block));
  }

  /** The context is the header followed by exactly one block per match,
      the i-th block being that of the i-th match. */
  lemma OneBlockPerMatch(ms: seq<Match>)
    ensures var blocks := Strings.Renderings(ms, Block);
      && |blocks| == |ms|
      && (forall i :: 0 <= i < |ms| ==> blocks[i] == Block(ms[i]))
      && Context(ms) == Header + Strings.Concat(blocks)
  {
    Strings.JoinAsConcat(ms, Block);
  }

  /** The block of the i-th match stands between the blocks of the matches
      ranked before it and those ranked after it. */
  lemma BlockAt(ms: seq<Match>, i: nat)
    requires i < |ms|
    ensures Context(ms) == Context(ms[..i]) + Block(ms[i]) + Strings.Join(ms[i + 1..], Block)
  {
    var before, after := ms[..i], ms[i + 1..];
    assert ms == (before + [ms[i]]) + after;
    Strings.JoinAppend(before + [ms[i]], after, Block);
    Strings.JoinAppend(before, [ms[i]], Block);
    assert [ms[i]][..0] == [];
    assert Strings.Join([ms[i]], Block) == Block(ms[i]);
    var jb := Strings.Join(before, Block);
    var ja := Strings.Join(after, Block);
    Strings.AppendAssoc(Header, jb + Block(ms[i]), ja);
    Strings.AppendAssoc(Header, jb, Block(ms[i]));
  }

  /** Builds the context string as the handler does: start from the header
      and append one block per match, in rank order. */
  method RenderContext(matches: seq<Match>) returns (resultString: string)
    ensures resultString == Context(matches)
  {
    resultString := Header;
    for i := 0 to |matches|
      invariant resultString == Header + Strings.Join(matches[..i], Block)
    {
      assert matches[..i + 1][..i] == matches[..i];
      Strings.AppendAssoc(Header, Strings.Join(matches[..i], Block), Block(matches[i]));
      resultString := resultString + Block(matches[i]);
    }
    assert matches[..|matches|] == matches;
  }
}
