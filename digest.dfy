/** The digest assembler: an ordered list of records becomes one HTML
    document, a fixed header carrying the date, one block per record in
    input order, and a fixed footer. Nothing is escaped. */
module Digest {

  /** One processed entry, as the orchestrator collects it. */
  datatype Record = Record(source: string, title: string, link: string, summary: string)

  const Footer := "</body></html>"

  function Header(today: string): string
  {
    "<html><body><h1>" + today + "のニュースサマリー</h1>"
  }

  /** Python's s.replace('\n', '<br>'). */
  function ReplaceNewlines(s: string): string
  {
    if s == [] then [] else (if s[0] == '\n' then "<br>" else [s[0]]) + ReplaceNewlines(s[1..])
  }

  /** Python's t.replace('<br>', '\n'): left to right, without overlaps. */
  function RestoreNewlines(t: string): string
  {
    if |t| >= 4 && t[..4] == "<br>" then "\n" + RestoreNewlines(t[4..])
    else if t == [] then []
    else [t[0]] + RestoreNewlines(t[1..])
  }

  /** Whether "<br>" occurs anywhere in s. */
  predicate ContainsBreak(s: string)
  {
    |s| >= 4 && (s[..4] == "<br>" || ContainsBreak(s[1..]))
  }

  /** The block one record contributes to the document. */
  function LinkHeading(r: Record): string
  {
    "<h2><a href='" + r.link + "'>" + r.title + "</a></h2>"
  }

  function SourceHeading(r: Record): string
  {
    "<h4>" + r.source + "</h4>"
  }

  function Paragraph(r: Record): string
  {
    "<p>" + ReplaceNewlines(r.summary) + "</p>"
  }

  const Rule := "<hr>"

  function Block(r: Record): string
  {
    LinkHeading(r) + SourceHeading(r) + Paragraph(r) + Rule
  }

  /** The renderings of all items, in order, one after another. */
  function Flatten<T>(xs: seq<T>, render: T -> string): string
  {
    if xs == [] then [] else Flatten(xs[..|xs| - 1], render) + render(xs[|xs| - 1])
  }

  /** The blocks of all records, in input order. */
  function Blocks(rs: seq<Record>): string
  {
    Flatten(rs, Block)
  }

  /** The whole document for a date string and a list of records. */
  function Document(today: string, rs: seq<Record>): string
  {
    Header(today) + Blocks(rs) + Footer
  }

  /** Builds the e-mail body by growing a string, one record at a time. */
  method BuildHtmlContent(today: string, summaries: seq<Record>) returns (html: string)
    ensures html == Document(today, summaries)
  {
    html := Header(today);
    var i := 0;
    while i < |summaries|
      invariant 0 <= i <= |summaries|
      invariant html == Header(today) + Blocks(summaries[..i])
    {
      var item := summaries[i];
      html := html + LinkHeading(item);
      html := html + SourceHeading(item);
      html := html + Paragraph(item);
      html := html + Rule;
      assert summaries[..i + 1][..i] == summaries[..i];
      i := i + 1;
    }
    assert summaries[..i] == summaries;
    html := html + Footer;
  }

  // ---------------------------------------------------------------------
  // Newline substitution

  /** No newline survives the substitution. */
  lemma {:induction false} ReplacedHasNoNewline(s: string)
    ensures '\n' !in ReplaceNewlines(s)
  {
    if s != [] {
      ReplacedHasNoNewline(s[1..]);
    }
  }

  /** Text without newlines is left exactly as it is. */
  lemma {:induction false} ReplaceWithoutNewlines(s: string)
    requires '\n' !in s
    ensures ReplaceNewlines(s) == s
  {
    if s != [] {
      ReplaceWithoutNewlines(s[1..]);
    }
  }

  /** The substitution works piecewise: no character is affected by its
      neighbours. */
  lemma {:induction false} ReplaceConcat(a: string, b: string)
    ensures ReplaceNewlines(a + b) == ReplaceNewlines(a) + ReplaceNewlines(b)
  {
    if a != [] {
      assert (a + b)[1..] == a[1..] + b;
      ReplaceConcat(a[1..], b);
    } else {
      assert a + b == b;
    }
  }

  /** A prefix free of '<' in the substituted text was already in the
      original: the substitution only ever introduces text starting with '<'. */
  lemma {:induction false} ReplacePrefix(u: string, p: string)
    requires '<' !in p
    requires p <= ReplaceNewlines(u)
    ensures p <= u
  {
    if p != [] {
      assert u != [];
      assert ReplaceNewlines(u)[0] == p[0] != '<';
      assert u[0] != '\n';
      assert ReplaceNewlines(u) == [u[0]] + ReplaceNewlines(u[1..]);
      ReplacePrefix(u[1..], p[1..]);
    }
  }

  /** Restoring the breaks recovers the original summary whenever it did
      not itself contain "<br>". */
  lemma {:induction false} RestoreReplace(s: string)
    requires !ContainsBreak(s)
    ensures RestoreNewlines(ReplaceNewlines(s)) == s
  {
    if s != [] {
      var rest := ReplaceNewlines(s[1..]);
      assert !ContainsBreak(s[1..]);
      RestoreReplace(s[1..]);
      var t := ReplaceNewlines(s);
      if s[0] == '\n' {
        assert t == "<br>" + rest;
        assert t[..4] == "<br>" && t[4..] == rest;
      } else {
        assert t == [s[0]] + rest;
        if |t| >= 4 && t[..4] == "<br>" {
          assert t[1..4] == rest[..3] == "br>";
          ReplacePrefix(s[1..], "br>");
          assert false;
        }
        assert t[1..] == rest;
      }
    }
  }

  /** Without the "<br>" condition the round trip fails: a literal "<br>"
      and a newline render alike. */
  lemma ReplaceNotInjective()
    ensures ReplaceNewlines("\n") == ReplaceNewlines("<br>")
    ensures RestoreNewlines(ReplaceNewlines("<br>")) != "<br>"
  {
  }

  // ---------------------------------------------------------------------
  // Blocks and the document

  /** Rendering a concatenation renders each part in turn. */
  lemma {:induction false} FlattenConcat<T>(a: seq<T>, b: seq<T>, render: T -> string)
    ensures Flatten(a + b, render) == Flatten(a, render) + Flatten(b, render)
    decreases |b|
  {
    if b == [] {
      assert a + b == a;
    } else {
      var n := |b| - 1;
      assert (a + b)[..|a + b| - 1] == a + b[..n];
      assert (a + b)[|a + b| - 1] == b[n];
      FlattenConcat(a, b[..n], render);
    }
  }

  /** The i-th item's rendering stands between those of the items before
      it and those of the items after it. */
  lemma {:induction false} FlattenAt<T>(xs: seq<T>, render: T -> string, i: nat)
    requires i < |xs|
    ensures Flatten(xs, render)
         == Flatten(xs[..i], render) + render(xs[i]) + Flatten(xs[i + 1..], render)
  {
    var n := |xs| - 1;
    if i < n {
      var init := xs[..n];
      FlattenAt(init, render, i);
      assert init[..i] == xs[..i] && init[i] == xs[i];
      var post := xs[i + 1..];
      assert post[..|post| - 1] == init[i + 1..] && post[|post| - 1] == xs[n];
    }
  }

  /** The i-th record's block stands at a fixed place: after the header and
      the blocks of the records before it, before those of the records after it. */
  lemma BlockAt(rs: seq<Record>, i: nat)
    requires i < |rs|
    ensures Blocks(rs) == Blocks(rs[..i]) + Block(rs[i]) + Blocks(rs[i + 1..])
  {
    FlattenAt(rs, Block, i);
  }

  /** The document opens with the header carrying the date and closes with
      the footer, whatever the records. */
  lemma DocumentFrame(today: string, rs: seq<Record>)
    ensures var d := Document(today, rs);
            && |d| >= |Header(today)| + |Footer|
            && d[..|Header(today)|] == Header(today)
            && d[|d| - |Footer|..] == Footer
  {
  }

  /** With no records the document is the header followed by the footer. */
  lemma EmptyDocument(today: string)
    ensures Document(today, []) == "<html><body><h1>" + today + "のニュースサマリー</h1></body></html>"
  {
  }

  /** Inside a block, link, title and source are inserted verbatim at fixed
      offsets, and the summary paragraph holds the summary with its newlines
      replaced, so it holds no newline. */
  lemma BlockFields(r: Record)
    ensures var h := LinkHeading(r);
            && h[13..13 + |r.link|] == r.link
            && h[15 + |r.link|..15 + |r.link| + |r.title|] == r.title
    ensures SourceHeading(r)[4..4 + |r.source|] == r.source
    ensures var p := Paragraph(r);
            && p[3..|p| - 4] == ReplaceNewlines(r.summary)
            && '\n' !in p[3..|p| - 4]
    ensures Block(r) == LinkHeading(r) + SourceHeading(r) + Paragraph(r) + "<hr>"
  {
    ReplacedHasNoNewline(r.summary);
  }
}
