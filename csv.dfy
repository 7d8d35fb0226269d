/**
 * The CSV text the test-case view offers for download.  The description
 * column is escaped by quote doubling, as rule 7 of section 2 of RFC 4180
 * asks; the id is written as it is, the standards are quoted but not
 * escaped, and lines are separated by a bare line feed.
 */
module Csv {
  import opened Wrappers
  import Text
  import opened Domain

  /** `['ID', 'Description', 'Compliance Standards'].join(',')`. */
  const Header := "ID,Description,Compliance Standards"

  /** A join of three parts. */
  lemma Join3(a: string, b: string, c: string, sep: string)
    ensures Text.Join([a, b, c], sep) == a + sep + b + sep + c
  {
    assert [a] + [b] == [a, b];
    Text.JoinSnoc([a], sep, b);
    assert [a, b] + [c] == [a, b, c];
    Text.JoinSnoc([a, b], sep, c);
  }

  /** Every quote of `t` is one of an adjacent pair `""`, as rule 7 asks of a quoted field's body. */
  predicate Escaped(t: string) {
    if t == [] then true
    else if t[0] == '"' then |t| >= 2 && t[1] == '"' && Escaped(t[2..])
    else Escaped(t[1..])
  }

  /** `s.replace(/"/g, '""')`: every quote is doubled, and the other characters are kept. */
  function DoubleQuotes(s: string): (r: string)
    ensures forall c :: c != '"' ==> (c in r <==> c in s)
    ensures Escaped(r)
  {
    if s == [] then []
    else
      var rest := DoubleQuotes(s[1..]);
      var head := if s[0] == '"' then "\"\"" else [s[0]];
      assert (head + rest)[|head|..] == rest;
      head + rest
  }

  /** The description field: the escaped text between two quotes. */
  function Quote(s: string): (r: string)
    ensures |r| >= 2 && r[0] == '"' && r[|r| - 1] == '"'
    ensures forall c :: c != '"' ==> (c in r <==> c in s)
    ensures Escaped(r[1..|r| - 1])
  {
    var r := "\"" + DoubleQuotes(s) + "\"";
    assert r[1..|r| - 1] == DoubleQuotes(s);
    r
  }

  /** A reader's view of an escaped body: every `""` stands for one `"`. */
  function Collapse(t: string): string {
    if t == [] then []
    else if |t| >= 2 && t[0] == '"' && t[1] == '"' then "\"" + Collapse(t[2..])
    else [t[0]] + Collapse(t[1..])
  }

  /** A reader's view of a quoted field: strip the outer quotes, then collapse. */
  function Unquote(f: string): (r: Option<string>)
    ensures r.Some? <==> |f| >= 2 && f[0] == '"' && f[|f| - 1] == '"'
  {
    if |f| >= 2 && f[0] == '"' && f[|f| - 1] == '"' then Some(Collapse(f[1..|f| - 1])) else None
  }

  /** Collapsing undoes quote doubling. */
  lemma {:induction false} CollapseDoubled(s: string)
    ensures Collapse(DoubleQuotes(s)) == s
  {
    if s != [] {
      var rest := DoubleQuotes(s[1..]);
      CollapseDoubled(s[1..]);
      if s[0] == '"' {
        var t := "\"\"" + rest;
        assert t[2..] == rest;
      } else {
        var t := [s[0]] + rest;
        assert t[1..] == rest;
      }
      assert s == [s[0]] + s[1..];
    }
  }

  /** Reading the description field back gives the description. */
  lemma UnquoteQuote(s: string)
    ensures Unquote(Quote(s)) == Some(s)
  {
    var f := Quote(s);
    assert f[1..|f| - 1] == DoubleQuotes(s);
    CollapseDoubled(s);
  }

  /** `"${standards.join(', ')}"`: quoted, not escaped. */
  function StandardsField(standards: seq<string>): (r: string)
    ensures |r| >= 2 && r[0] == '"' && r[|r| - 1] == '"' && r[1..|r| - 1] == Text.Join(standards, ", ")
    ensures standards == [] ==> r == "\"\""
  {
    "\"" + Text.Join(standards, ", ") + "\""
  }

  /** One row: the id as it is, the escaped description, the standards. */
  function Row(tc: TestCase): (r: string)
    ensures r == tc.id + "," + Quote(tc.description) + "," + StandardsField(tc.standards)
    ensures r != [] && r[|r| - 1] == '"'
  {
    Join3(tc.id, Quote(tc.description), StandardsField(tc.standards), ",");
    Text.Join([tc.id, Quote(tc.description), StandardsField(tc.standards)], ",")
  }

  function Rows(cases: seq<TestCase>): (r: seq<string>)
    ensures |r| == |cases|
    ensures forall i :: 0 <= i < |cases| ==> r[i] == Row(cases[i])
  {
    if cases == [] then []
    else
      var prefix := cases[..|cases| - 1];
      assert forall i :: 0 <= i < |prefix| ==> prefix[i] == cases[i];
      Rows(prefix) + [Row(cases[|cases| - 1])]
  }

  /** `csvContent`: the header line and the rows, joined by line feeds. */
  function Content(cases: seq<TestCase>): string {
    Text.Join([Header] + Rows(cases), "\n")
  }

  /** Splitting on line feeds, as a reader does. */
  function Lines(s: string): (r: seq<string>)
    ensures |r| >= 1
  {
    if s == [] then [""]
    else
      var prior := Lines(s[..|s| - 1]);
      if s[|s| - 1] == '\n' then prior + [""]
      else prior[..|prior| - 1] + [prior[|prior| - 1] + [s[|s| - 1]]]
  }

  /** A text without line feeds is one line. */
  lemma {:induction false} LinesSingle(p: string)
    requires '\n' !in p
    ensures Lines(p) == [p]
  {
    if p != [] {
      var q := p[..|p| - 1];
      assert '\n' !in q by {
        forall i | 0 <= i < |q| ensures q[i] != '\n' {
          assert q[i] == p[i];
        }
      }
      LinesSingle(q);
      assert p == q + [p[|p| - 1]];
    }
  }

  /** Appending a line feed and a line adds that line. */
  lemma {:induction false} LinesAppend(x: string, p: string)
    requires '\n' !in p
    ensures Lines(x + "\n" + p) == Lines(x) + [p]
  {
    if p == [] {
      assert x + "\n" + p == x + "\n";
      assert (x + "\n")[..|x|] == x;
    } else {
      var q := p[..|p| - 1];
      assert '\n' !in q by {
        forall i | 0 <= i < |q| ensures q[i] != '\n' {
          assert q[i] == p[i];
        }
      }
      LinesAppend(x, q);
      var s := x + "\n" + p;
      assert s[..|s| - 1] == x + "\n" + q;
      assert p == q + [p[|p| - 1]];
    }
  }

  /** Joining line-feed-free parts with line feeds and splitting again gives the parts back. */
  lemma {:induction false} LinesJoin(parts: seq<string>)
    requires parts != []
    requires forall i :: 0 <= i < |parts| ==> '\n' !in parts[i]
    ensures Lines(Text.Join(parts, "\n")) == parts
  {
    if |parts| == 1 {
      LinesSingle(parts[0]);
    } else {
      var init, last := parts[..|parts| - 1], parts[|parts| - 1];
      assert init + [last] == parts;
      LinesJoin(init);
      Text.JoinSnoc(init, "\n", last);
      LinesAppend(Text.Join(init, "\n"), last);
    }
  }

  /** A join of parts avoiding a character, by a separator avoiding it, avoids it too. */
  lemma {:induction false} JoinAvoids(parts: seq<string>, sep: string, c: char)
    requires c !in sep
    requires forall i :: 0 <= i < |parts| ==> c !in parts[i]
    ensures c !in Text.Join(parts, sep)
  {
    if |parts| > 1 {
      JoinAvoids(parts[..|parts| - 1], sep, c);
    }
  }

  /** No field of the test case holds a line feed. */
  predicate SingleLine(tc: TestCase) {
    '\n' !in tc.id && '\n' !in tc.description && forall j :: 0 <= j < |tc.standards| ==> '\n' !in tc.standards[j]
  }

  /**
   * When no field holds a line feed, the file reads back as exactly the
   * header line followed by one row per test case, in order.
   */
  lemma ContentLines(cases: seq<TestCase>)
    requires forall i :: 0 <= i < |cases| ==> SingleLine(cases[i])
    ensures Lines(Content(cases)) == [Header] + Rows(cases)
  {
    HeaderSingleLine();
    HeadedRowsLines(Header, cases);
  }

  /** A line without line feeds followed by the rows reads back as that line and the rows. */
  lemma HeadedRowsLines(h: string, cases: seq<TestCase>)
    requires '\n' !in h
    requires forall i :: 0 <= i < |cases| ==> SingleLine(cases[i])
    ensures Lines(Text.Join([h] + Rows(cases), "\n")) == [h] + Rows(cases)
  {
    RowsSingleLine(cases);
    LinesHeaded(h, Rows(cases));
  }

  /** `LinesJoin` for a first line followed by further lines. */
  lemma LinesHeaded(first: string, rest: seq<string>)
    requires '\n' !in first
    requires forall i :: 0 <= i < |rest| ==> '\n' !in rest[i]
    ensures Lines(Text.Join([first] + rest, "\n")) == [first] + rest
  {
    var parts := [first] + rest;
    forall i | 0 <= i < |parts| ensures '\n' !in parts[i] {
      if i > 0 {
        assert parts[i] == rest[i - 1];
      }
    }
    LinesJoin(parts);
  }

  /** No row holds a line feed when no field does. */
  lemma RowsSingleLine(cases: seq<TestCase>)
    requires forall i :: 0 <= i < |cases| ==> SingleLine(cases[i])
    ensures forall i :: 0 <= i < |cases| ==> '\n' !in Rows(cases)[i]
  {
    forall i | 0 <= i < |cases| ensures '\n' !in Rows(cases)[i] {
      RowSingleLine(cases[i]);
    }
  }

  lemma HeaderSingleLine()
    ensures '\n' !in Header
  {
  }

  /** A row of a test case without line feeds has none. */
  lemma RowSingleLine(tc: TestCase)
    requires SingleLine(tc)
    ensures '\n' !in Row(tc)
  {
    JoinAvoids(tc.standards, ", ", '\n');
  }

  /** The file starts with the header and ends without a line feed. */
  lemma ContentEnds(cases: seq<TestCase>)
    ensures var s := Content(cases);
            && |s| >= |Header| && s[..|Header|] == Header
            && s[|s| - 1] == (if cases == [] then 's' else '"')
  {
    var rows := Rows(cases);
    if cases != [] {
      assert rows[|rows| - 1] == Row(cases[|cases| - 1]);
    }
    JoinedEnds(Header, rows, "\n");
  }

  /** A join of a first part and further parts starts with the first and ends with the last. */
  lemma JoinedEnds(first: string, rest: seq<string>, sep: string)
    requires first != []
    requires rest != [] ==> rest[|rest| - 1] != []
    ensures var s := Text.Join([first] + rest, sep);
            && |s| >= |first| && s[..|first|] == first
            && s[|s| - 1] == (if rest == [] then first[|first| - 1] else rest[|rest| - 1][|rest[|rest| - 1]| - 1])
  {
    var parts := [first] + rest;
    if rest != [] {
      var init := parts[..|parts| - 1];
      Text.JoinSnoc(init, sep, parts[|parts| - 1]);
      assert init + [parts[|parts| - 1]] == parts;
      JoinStarts(init, first, sep);
    } else {
      assert parts == [first];
    }
  }

  /** A join of parts starting with a given first part starts with that part. */
  lemma {:induction false} JoinStarts(parts: seq<string>, first: string, sep: string)
    requires parts != [] && parts[0] == first
    ensures var s := Text.Join(parts, sep); |s| >= |first| && s[..|first|] == first
  {
    if |parts| > 1 {
      JoinStarts(parts[..|parts| - 1], first, sep);
    }
  }
}
