/** Corpora and grounding (app/agents/news.py, product.py and review.py, app/core/grounding.py): printers of search rows,
    a parser of its source lines, a cut in between, and the filters that keep only what the parser found. A line ends at
    a line feed. */
module Corpus {
  import opened Wrappers
  import opened Text

  /** A search row after `str(...)` of each field. */
  datatype Row = Row(title: string, content: string, url: string)

  const PREFIX := "SOURCE: "

  // ------------------------------------------------------------------ the parser

  function Lines(s: string): seq<string> {
    Split(s, '\n')
  }

  predicate IsSource(line: string) {
    PREFIX <= line
  }

  function UrlOf(line: string): string
    requires IsSource(line)
  {
    Strip(line[|PREFIX|..])
  }

  function UrlsIn(lines: seq<string>): set<string> {
    set l | l in lines && IsSource(l) :: UrlOf(l)
  }

  /** `corpus_urls`. */
  function CorpusUrls(corpus: string): set<string> {
    UrlsIn(Lines(corpus))
  }

  lemma {:induction false} SplitAt(a: string, b: string, sep: char)
    ensures Split(a + [sep] + b, sep) == Split(a, sep) + Split(b, sep)
  {
    if a == "" {
      assert "" + [sep] + b == [sep] + b;
      assert ([sep] + b)[1..] == b;
    } else {
      assert (a + [sep] + b)[1..] == a[1..] + [sep] + b;
      SplitAt(a[1..], b, sep);
    }
  }

  lemma UrlsOfBoth(a: seq<string>, b: seq<string>)
    ensures UrlsIn(a + b) == UrlsIn(a) + UrlsIn(b)
  {
  }

  /** The parser takes texts apart at line ends. */
  lemma UrlsOfText(a: string, b: string)
    ensures CorpusUrls(a + "\n" + b) == CorpusUrls(a) + CorpusUrls(b)
  {
    SplitAt(a, b, '\n');
    assert a + "\n" + b == a + ['\n'] + b;
    UrlsOfBoth(Lines(a), Lines(b));
  }

  lemma NoUrlsInNothing()
    ensures CorpusUrls("") == {}
  {
    assert !IsSource("") by {
      assert |PREFIX| == 8;
    }
  }

  lemma {:induction false} OneLine(s: string, sep: char)
    requires sep !in s
    ensures Split(s, sep) == [s]
  {
    if s != "" {
      OneLine(s[1..], sep);
      assert [s[0]] + s[1..] == s;
    }
  }

  lemma SourceLine(url: string)
    requires '\n' !in url
    ensures CorpusUrls(PREFIX + url) == {Strip(url)}
  {
    OneLine(PREFIX + url, '\n');
    assert (PREFIX + url)[|PREFIX|..] == url;
    assert IsSource(PREFIX + url);
    assert UrlsIn([PREFIX + url]) == {UrlOf(PREFIX + url)};
  }

  // ------------------------------------------------------------------ the news printer

  function NewsBlock(r: Row): string {
    var title, content, url := Strip(r.title), Strip(r.content), Strip(r.url);
    title + "\n" + content + "\n" + (if url != "" then PREFIX + url + "\n" else "") + "\n"
  }

  function NewsText(rows: seq<Row>): string {
    if rows == [] then "" else NewsText(rows[..|rows| - 1]) + NewsBlock(rows[|rows| - 1])
  }

  /** `s[:n]`. */
  function Take(s: string, n: nat): (r: string)
    ensures r <= s
    ensures |r| == if |s| <= n then |s| else n
  {
    if |s| <= n then s else s[..n]
  }

  /** `_gather_corpus`, after the searches. */
  method NewsCorpus(rows: seq<Row>, cap: nat) returns (corpus: string)
    ensures corpus == Take(NewsText(rows), cap)
    ensures OneLiners(rows) ==> Finds(corpus, RowUrls(rows) + Hidden(rows), |NewsText(rows)| <= cap)
    ensures OneLiners(rows) ==> forall m :: 0 <= m <= |rows| && |NewsText(rows[..m])| <= cap ==>
      RowUrls(rows[..m]) <= CorpusUrls(corpus)
  {
    corpus := "";
    for i := 0 to |rows|
      invariant corpus == NewsText(rows[..i])
    {
      assert rows[..i + 1][..i] == rows[..i];
      ghost var before := corpus;
      var title, content, url := Strip(rows[i].title), Strip(rows[i].content), Strip(rows[i].url);
      corpus := corpus + (title + "\n" + content + "\n");
      if url != "" {
        corpus := corpus + (PREFIX + url + "\n");
      }
      corpus := corpus + "\n";
      assert corpus == before + NewsBlock(rows[i]);
    }
    assert rows[..|rows|] == rows;
    corpus := Take(corpus, cap);
    NewsCorpusFinds(rows, cap);
  }

  lemma NewsCorpusFinds(rows: seq<Row>, cap: nat)
    ensures var corpus := Take(NewsText(rows), cap);
      OneLiners(rows) ==>
        && Finds(corpus, RowUrls(rows) + Hidden(rows), |NewsText(rows)| <= cap)
        && forall m :: 0 <= m <= |rows| && |NewsText(rows[..m])| <= cap ==> RowUrls(rows[..m]) <= CorpusUrls(corpus)
  {
    if OneLiners(rows) {
      NewsParsed(rows);
      forall m | 0 <= m <= |rows| && |NewsText(rows[..m])| <= cap
        ensures RowUrls(rows[..m]) <= CorpusUrls(Take(NewsText(rows), cap))
      {
        NewsRowsSurvive(rows, m, cap);
      }
    }
  }

  /** If the text was not cut, the parser finds exactly these URLs in it. */
  predicate Finds(corpus: string, urls: set<string>, uncut: bool) {
    uncut ==> CorpusUrls(corpus) == urls
  }

  /** What stands in front of a line end, or makes up the whole text, is parsed the same after a cut behind it. */
  lemma CutBehind(a: string, text: string, n: nat)
    requires a <= text && |a| <= n && (|a| == |text| || text[|a|] == '\n')
    ensures CorpusUrls(a) <= CorpusUrls(Take(text, n))
  {
    var cut := Take(text, n);
    if |a| < |cut| {
      assert cut == a + "\n" + cut[|a| + 1..];
      UrlsOfText(a, cut[|a| + 1..]);
    } else {
      assert cut == a;
    }
  }

  /** A source line that lies wholly within the cap is found, wherever the text is cut behind it. */
  lemma WholeLineIsFound(a: string, line: string, b: string, n: nat)
    requires a == "" || a[|a| - 1] == '\n'
    requires IsSource(line) && '\n' !in line && (b == "" || b[0] == '\n')
    requires |a| + |line| <= n
    ensures UrlOf(line) in CorpusUrls(Take(a + line + b, n))
  {
    EndsLine(a, line);
    OneLine(line, '\n');
    assert line in [line];
    assert |b| > 0 ==> (a + line + b)[|a + line|] == b[0];
    CutBehind(a + line, a + line + b, n);
  }

  lemma {:induction false} NewsTextPrefix(rows: seq<Row>, m: nat)
    requires m <= |rows|
    ensures NewsText(rows[..m]) <= NewsText(rows)
  {
    if m == |rows| {
      assert rows[..m] == rows;
    } else {
      var init := rows[..|rows| - 1];
      NewsTextPrefix(init, m);
      assert init[..m] == rows[..m];
    }
  }

  /** However the corpus is cut, the URLs of the rows that fit are found in it, and so are the lines hidden in them. */
  lemma NewsRowsSurvive(rows: seq<Row>, m: nat, cap: nat)
    requires OneLiners(rows) && m <= |rows| && |NewsText(rows[..m])| <= cap
    ensures RowUrls(rows[..m]) + Hidden(rows[..m]) <= CorpusUrls(Take(NewsText(rows), cap))
  {
    NewsParsed(rows[..m]);
    NewsTextPrefix(rows, m);
    NewsTextEnds(rows[..m]);
    CutBehindLine(NewsText(rows[..m]), NewsText(rows), cap);
  }

  lemma CutBehindLine(line: string, text: string, n: nat)
    requires line <= text && |line| <= n && (line == "" || line[|line| - 1] == '\n')
    ensures CorpusUrls(line) <= CorpusUrls(Take(text, n))
  {
    NoUrlsInNothing();
    if line != "" {
      var a := line[..|line| - 1];
      assert line == a + "\n" + "";
      UrlsOfText(a, "");
      CutBehind(a, text, n);
    }
  }

  /** The URLs that the rows carry, and those that their texts seem to carry. */
  function RowUrls(rows: seq<Row>): set<string> {
    set r | r in rows && Strip(r.url) != "" :: Strip(r.url)
  }

  function HiddenIn(title: string, content: string): set<string> {
    CorpusUrls(title) + CorpusUrls(content)
  }

  function Hidden(rows: seq<Row>): set<string> {
    set r, u | r in rows && u in HiddenIn(Strip(r.title), Strip(r.content)) :: u
  }

  predicate OneLiners(rows: seq<Row>) {
    forall r :: r in rows ==> '\n' !in r.url
  }

  lemma {:induction false} StripKeepsOut(s: string, c: char)
    requires c !in s
    ensures c !in LStrip(s) && c !in RStrip(s) && c !in Strip(s)
  {
    LStripPart(s);
    RStripPart(s);
    RStripPart(LStrip(s));
  }

  lemma {:induction false} LStripPart(s: string)
    ensures |LStrip(s)| <= |s| && LStrip(s) == s[|s| - |LStrip(s)|..]
    ensures LStrip(s) == "" || !IsSpace(LStrip(s)[0])
  {
    if s != "" && IsSpace(s[0]) {
      LStripPart(s[1..]);
    }
  }

  lemma {:induction false} RStripPart(s: string)
    ensures RStrip(s) <= s
    ensures RStrip(s) == "" || !IsSpace(RStrip(s)[|RStrip(s)| - 1])
  {
    if s != "" && IsSpace(s[|s| - 1]) {
      RStripPart(s[..|s| - 1]);
    }
  }

  lemma StripTwice(s: string)
    ensures Strip(Strip(s)) == Strip(s)
  {
    LStripPart(s);
    RStripPart(LStrip(s));
    var t := Strip(s);
    if t != "" {
      assert t[0] == LStrip(s)[0];
      assert LStrip(t) == t;
      assert RStrip(t) == t;
    }
  }

  lemma BlockUrls(r: Row)
    requires '\n' !in r.url
    ensures CorpusUrls(NewsBlock(r)) == HiddenIn(Strip(r.title), Strip(r.content)) +
                                        (if Strip(r.url) != "" then {Strip(r.url)} else {})
  {
    var tail := (if Strip(r.url) != "" then PREFIX + Strip(r.url) + "\n" else "") + "\n";
    assert NewsBlock(r) == Strip(r.title) + "\n" + Strip(r.content) + "\n" + tail;
    ThreeTexts(Strip(r.title), Strip(r.content), tail);
    TailUrls(r.url);
  }

  lemma ThreeTexts(a: string, b: string, c: string)
    ensures CorpusUrls(a + "\n" + b + "\n" + c) == CorpusUrls(a) + CorpusUrls(b) + CorpusUrls(c)
  {
    assert a + "\n" + b + "\n" + c == a + "\n" + (b + "\n" + c);
    UrlsOfText(a, b + "\n" + c);
    UrlsOfText(b, c);
  }

  lemma TailUrls(raw: string)
    requires '\n' !in raw
    ensures var url := Strip(raw);
      CorpusUrls((if url != "" then PREFIX + url + "\n" else "") + "\n") == if url != "" then {url} else {}
  {
    var url := Strip(raw);
    NoUrlsInNothing();
    UrlsOfText("", "");
    assert "" + "\n" + "" == "\n";
    if url != "" {
      StripKeepsOut(raw, '\n');
      SourceLine(url);
      StripTwice(raw);
      UrlsOfText(PREFIX + url, "\n");
    } else {
      assert "" + "\n" == "\n";
    }
  }

  lemma EndsLine(text: string, block: string)
    requires text == "" || text[|text| - 1] == '\n'
    ensures CorpusUrls(text + block) == CorpusUrls(text) + CorpusUrls(block)
  {
    NoUrlsInNothing();
    if text == "" {
      assert "" + block == block;
    } else {
      var n := |text| - 1;
      assert text == text[..n] + "\n" + "" && text + block == text[..n] + "\n" + block;
      UrlsOfText(text[..n], block);
      UrlsOfText(text[..n], "");
    }
  }

  lemma {:induction false} NewsTextEnds(rows: seq<Row>)
    ensures NewsText(rows) == "" || NewsText(rows)[|NewsText(rows)| - 1] == '\n'
  {
    if rows != [] {
      var block := NewsBlock(rows[|rows| - 1]);
      assert block[|block| - 1] == '\n';
    }
  }

  function BlockSays(r: Row): set<string> {
    HiddenIn(Strip(r.title), Strip(r.content)) + (if Strip(r.url) != "" then {Strip(r.url)} else {})
  }

  lemma NewsTextSnoc(rows: seq<Row>, r: Row)
    requires '\n' !in r.url
    ensures CorpusUrls(NewsText(rows + [r])) == CorpusUrls(NewsText(rows)) + BlockSays(r)
  {
    assert (rows + [r])[..|rows|] == rows;
    NewsTextEnds(rows);
    EndsLine(NewsText(rows), NewsBlock(r));
    BlockUrls(r);
  }

  /** Parsing an uncut corpus recovers exactly the URLs of its rows and whatever source lines hide in their texts. */
  lemma {:induction false} NewsParsed(rows: seq<Row>)
    requires OneLiners(rows)
    ensures CorpusUrls(NewsText(rows)) == RowUrls(rows) + Hidden(rows)
  {
    if rows == [] {
      NoUrlsInNothing();
    } else {
      var init, last := rows[..|rows| - 1], rows[|rows| - 1];
      assert rows == init + [last];
      NewsParsed(init);
      NewsTextSnoc(init, last);
      RowUrlsSnoc(init, last);
      HiddenSnoc(init, last);
    }
  }

  lemma RowUrlsSnoc(rows: seq<Row>, r: Row)
    ensures RowUrls(rows + [r]) == RowUrls(rows) + (if Strip(r.url) != "" then {Strip(r.url)} else {})
  {
  }

  lemma HiddenSnoc(rows: seq<Row>, r: Row)
    ensures Hidden(rows + [r]) == Hidden(rows) + HiddenIn(Strip(r.title), Strip(r.content))
  {
    var mine := HiddenIn(Strip(r.title), Strip(r.content));
    forall u ensures u in Hidden(rows + [r]) <==> u in Hidden(rows) || u in mine {
      if u in mine {
        assert r in rows + [r];
      }
      if u in Hidden(rows) {
        var q :| q in rows && u in HiddenIn(Strip(q.title), Strip(q.content));
        assert q in rows + [r];
      }
    }
  }

  /** The round trip: parsing recovers exactly the URLs of the rows if and only if no text hides a source line for
      anything else. */
  lemma NewsRoundTripIff(rows: seq<Row>)
    requires OneLiners(rows)
    ensures CorpusUrls(NewsText(rows)) == RowUrls(rows) <==> Hidden(rows) <= RowUrls(rows)
  {
    NewsParsed(rows);
  }

  // ------------------------------------------------------------------ the product printer

  function ProductPart(r: Row): string {
    r.title + "\n" + r.content + "\n" + PREFIX + r.url + "\n"
  }

  /** The rows that are printed: of those with one URL only the first. */
  function Printed(rows: seq<Row>): seq<Row> {
    if rows == [] then []
    else
      var init, last := Printed(rows[..|rows| - 1]), rows[|rows| - 1];
      if last.url != "" && last.url in Seen(rows[..|rows| - 1]) then init else init + [last]
  }

  function Seen(rows: seq<Row>): set<string> {
    set r | r in rows :: r.url
  }

  function Parts(rows: seq<Row>): seq<string> {
    seq(|rows|, i requires 0 <= i < |rows| => ProductPart(rows[i]))
  }

  /** `"\n".join(parts)`. */
  function JoinLines(parts: seq<string>): string {
    if parts == [] then "" else if |parts| == 1 then parts[0]
    else JoinLines(parts[..|parts| - 1]) + "\n" + parts[|parts| - 1]
  }

  /** `_build_corpus`, after the searches. */
  method ProductCorpus(rows: seq<Row>, cap: nat) returns (corpus: string)
    ensures corpus == Take(JoinLines(Parts(Printed(rows))), cap)
    ensures OneLiners(rows) ==>
      Finds(corpus, StrippedUrls(rows) + RawHidden(Printed(rows)), |JoinLines(Parts(Printed(rows)))| <= cap)
    ensures OneLiners(rows) ==> forall m :: 0 <= m <= |rows| && |JoinLines(Parts(Printed(rows[..m])))| <= cap ==>
      StrippedUrls(rows[..m]) <= CorpusUrls(corpus)
  {
    var seen: set<string>, parts := {}, [];
    for i := 0 to |rows|
      invariant seen == Seen(rows[..i])
      invariant parts == Parts(Printed(rows[..i]))
    {
      OneMoreRow(rows, i);
      var url := rows[i].url;
      if url != "" && url in seen {
        continue;
      }
      seen := seen + {url};
      parts := parts + [ProductPart(rows[i])];
    }
    assert rows[..|rows|] == rows;
    corpus := Take(JoinLines(parts), cap);
    ProductCorpusFinds(rows, cap);
  }

  lemma ProductCorpusFinds(rows: seq<Row>, cap: nat)
    ensures var text := JoinLines(Parts(Printed(rows)));
      OneLiners(rows) ==>
        && Finds(Take(text, cap), StrippedUrls(rows) + RawHidden(Printed(rows)), |text| <= cap)
        && forall m :: 0 <= m <= |rows| && |JoinLines(Parts(Printed(rows[..m])))| <= cap ==>
             StrippedUrls(rows[..m]) <= CorpusUrls(Take(text, cap))
  {
    if OneLiners(rows) {
      ProductParsed(rows);
      forall m | 0 <= m <= |rows| && |JoinLines(Parts(Printed(rows[..m])))| <= cap
        ensures StrippedUrls(rows[..m]) <= CorpusUrls(Take(JoinLines(Parts(Printed(rows))), cap))
      {
        ProductRowsSurvive(rows, m, cap);
      }
    }
  }

  lemma {:induction false} PartsPrefix(rows: seq<Row>, m: nat)
    requires m <= |rows|
    ensures Parts(Printed(rows[..m])) <= Parts(Printed(rows))
  {
    if m == |rows| {
      assert rows[..m] == rows;
    } else {
      var n := |rows| - 1;
      PartsPrefix(rows[..n], m);
      assert rows[..n][..m] == rows[..m] && rows[..n + 1] == rows;
      OneMoreRow(rows, n);
    }
  }

  lemma {:induction false} JoinPrefix(parts: seq<string>, m: nat)
    requires m <= |parts|
    ensures var a, text := JoinLines(parts[..m]), JoinLines(parts);
      a <= text && (|a| == |text| || a == "" || text[|a|] == '\n')
  {
    if m == |parts| {
      assert parts[..m] == parts;
    } else {
      var init, last := parts[..|parts| - 1], parts[|parts| - 1];
      JoinPrefix(init, m);
      assert init[..m] == parts[..m] && parts == init + [last];
      JoinSnoc(init, last);
    }
  }

  /** What is printed of some of the rows stands in front of a line end in what is printed of all. */
  lemma ProductTextPrefix(rows: seq<Row>, m: nat)
    requires m <= |rows|
    ensures var a, text := JoinLines(Parts(Printed(rows[..m]))), JoinLines(Parts(Printed(rows)));
      a <= text && (|a| == |text| || a == "" || text[|a|] == '\n')
  {
    PartsPrefix(rows, m);
    var some, all := Parts(Printed(rows[..m])), Parts(Printed(rows));
    assert all[..|some|] == some;
    JoinPrefix(all, |some|);
  }

  /** The same for the product corpus. */
  lemma ProductRowsSurvive(rows: seq<Row>, m: nat, cap: nat)
    requires OneLiners(rows) && m <= |rows| && |JoinLines(Parts(Printed(rows[..m])))| <= cap
    ensures StrippedUrls(rows[..m]) + RawHidden(Printed(rows[..m]))
         <= CorpusUrls(Take(JoinLines(Parts(Printed(rows))), cap))
  {
    ProductParsed(rows[..m]);
    ProductTextPrefix(rows, m);
    if JoinLines(Parts(Printed(rows[..m]))) == "" {
      NoUrlsInNothing();
    } else {
      CutBehind(JoinLines(Parts(Printed(rows[..m]))), JoinLines(Parts(Printed(rows))), cap);
    }
  }

  lemma PrintedSnoc(rows: seq<Row>, r: Row)
    ensures Printed(rows + [r]) == if r.url != "" && r.url in Seen(rows) then Printed(rows) else Printed(rows) + [r]
    ensures Seen(rows + [r]) == Seen(rows) + {r.url}
  {
    assert (rows + [r])[..|rows|] == rows;
  }

  lemma OneMoreRow(rows: seq<Row>, i: nat)
    requires i < |rows|
    ensures var skip := rows[i].url != "" && rows[i].url in Seen(rows[..i]);
      && Parts(Printed(rows[..i + 1])) == Parts(Printed(rows[..i])) + (if skip then [] else [ProductPart(rows[i])])
      && Seen(rows[..i + 1]) == if skip then Seen(rows[..i]) else Seen(rows[..i]) + {rows[i].url}
  {
    assert rows[..i + 1] == rows[..i] + [rows[i]];
    PrintedSnoc(rows[..i], rows[i]);
    PartsSnoc(Printed(rows[..i]), rows[i]);
  }

  /** Skipping the rows of a URL that was seen before loses no URL. */
  lemma {:induction false} PrintedUrls(rows: seq<Row>)
    ensures Seen(Printed(rows)) == Seen(rows)
    ensures forall r :: r in Printed(rows) ==> r in rows
  {
    if rows != [] {
      var n := |rows| - 1;
      PrintedUrls(rows[..n]);
      assert rows == rows[..n] + [rows[n]];
      assert Seen(rows) == Seen(rows[..n]) + {rows[n].url};
    }
  }

  lemma PartUrls(r: Row)
    requires '\n' !in r.url
    ensures CorpusUrls(ProductPart(r)) == HiddenIn(r.title, r.content) + {Strip(r.url)}
  {
    assert ProductPart(r) == r.title + "\n" + (r.content + "\n" + (PREFIX + r.url + "\n" + ""));
    UrlsOfText(r.title, r.content + "\n" + (PREFIX + r.url + "\n" + ""));
    UrlsOfText(r.content, PREFIX + r.url + "\n" + "");
    UrlsOfText(PREFIX + r.url, "");
    SourceLine(r.url);
    NoUrlsInNothing();
  }

  function StrippedUrls(rows: seq<Row>): set<string> {
    set r | r in rows :: Strip(r.url)
  }

  function RawHidden(rows: seq<Row>): set<string> {
    set r, u | r in rows && u in HiddenIn(r.title, r.content) :: u
  }

  lemma PartsSnoc(rows: seq<Row>, r: Row)
    ensures Parts(rows + [r]) == Parts(rows) + [ProductPart(r)]
  {
  }

  lemma JoinSnoc(parts: seq<string>, part: string)
    ensures JoinLines(parts + [part]) == if parts == [] then part else JoinLines(parts) + "\n" + part
  {
    assert (parts + [part])[..|parts|] == parts;
  }

  lemma JoinedSnoc(rows: seq<Row>, r: Row)
    requires '\n' !in r.url
    ensures CorpusUrls(JoinLines(Parts(rows + [r]))) == CorpusUrls(JoinLines(Parts(rows))) + HiddenIn(r.title, r.content) +
                                                       {Strip(r.url)}
  {
    PartsSnoc(rows, r);
    JoinSnoc(Parts(rows), ProductPart(r));
    PartUrls(r);
    if rows == [] {
      NoUrlsInNothing();
    } else {
      UrlsOfText(JoinLines(Parts(rows)), ProductPart(r));
    }
  }

  lemma {:induction false} JoinedUrls(rows: seq<Row>)
    requires OneLiners(rows)
    ensures CorpusUrls(JoinLines(Parts(rows))) == StrippedUrls(rows) + RawHidden(rows)
  {
    if rows == [] {
      NoUrlsInNothing();
    } else {
      var init, last := rows[..|rows| - 1], rows[|rows| - 1];
      assert rows == init + [last];
      JoinedUrls(init);
      JoinedSnoc(init, last);
      StrippedSnoc(init, last);
      RawHiddenSnoc(init, last);
    }
  }

  lemma StrippedSnoc(rows: seq<Row>, r: Row)
    ensures StrippedUrls(rows + [r]) == StrippedUrls(rows) + {Strip(r.url)}
  {
  }

  lemma RawHiddenSnoc(rows: seq<Row>, r: Row)
    ensures RawHidden(rows + [r]) == RawHidden(rows) + HiddenIn(r.title, r.content)
  {
    var mine := HiddenIn(r.title, r.content);
    forall u ensures u in RawHidden(rows + [r]) <==> u in RawHidden(rows) || u in mine {
      if u in mine {
        assert r in rows + [r];
      }
      if u in RawHidden(rows) {
        var q :| q in rows && u in HiddenIn(q.title, q.content);
        assert q in rows + [r];
      }
    }
  }

  /** Parsing an uncut product corpus recovers the stripped URLs of all rows, the skipped ones included, and the source
      lines hidden in the rows printed. */
  lemma ProductParsed(rows: seq<Row>)
    requires OneLiners(rows)
    ensures CorpusUrls(JoinLines(Parts(Printed(rows)))) == StrippedUrls(rows) + RawHidden(Printed(rows))
  {
    PrintedUrls(rows);
    JoinedUrls(Printed(rows));
    forall r | r in rows ensures Strip(r.url) in StrippedUrls(Printed(rows)) {
      assert r.url in Seen(rows);
      var p :| p in Printed(rows) && p.url == r.url;
    }
  }

  lemma ProductRoundTripIff(rows: seq<Row>)
    requires OneLiners(rows)
    ensures CorpusUrls(JoinLines(Parts(Printed(rows)))) == StrippedUrls(rows)
       <==> RawHidden(Printed(rows)) <= StrippedUrls(rows)
  {
    ProductParsed(rows);
  }

  // ------------------------------------------------------------------ the review printer

  predicate SaysSomething(r: Row) {
    r.url != "" || r.title != "" || r.content != ""
  }

  function ReviewPart(r: Row): string {
    PREFIX + r.url + "\n" + r.title + "\n" + r.content
  }

  /** `"\n\n".join(...)` of the parts of these rows. */
  function ReviewText(rows: seq<Row>): string {
    if rows == [] then "" else if |rows| == 1 then ReviewPart(rows[0])
    else ReviewText(rows[..|rows| - 1]) + "\n" + "" + "\n" + ReviewPart(rows[|rows| - 1])
  }

  lemma ReviewTextSnoc(rows: seq<Row>, r: Row)
    ensures ReviewText(rows + [r]) == if rows == [] then ReviewPart(r)
                                      else ReviewText(rows) + "\n" + "" + "\n" + ReviewPart(r)
  {
    assert (rows + [r])[..|rows|] == rows;
  }

  /** `_build_corpus` of the review agent; the join is done as the parts come. */
  method ReviewCorpus(rows: seq<Row>, cap: nat) returns (corpus: string)
    ensures corpus == Take(ReviewText(Filter(rows, SaysSomething)), cap)
    ensures OneLiners(rows) ==> var said := Filter(rows, SaysSomething);
      && Finds(corpus, StrippedUrls(said) + RawHidden(said), |ReviewText(said)| <= cap)
      && forall m :: 0 <= m <= |said| && |ReviewText(said[..m])| <= cap ==> StrippedUrls(said[..m]) <= CorpusUrls(corpus)
  {
    corpus := "";
    var first := true;
    for i := 0 to |rows|
      invariant corpus == ReviewText(Filter(rows[..i], SaysSomething))
      invariant first <==> Filter(rows[..i], SaysSomething) == []
    {
      assert rows[..i + 1][..i] == rows[..i];
      ReviewTextSnoc(Filter(rows[..i], SaysSomething), rows[i]);
      if SaysSomething(rows[i]) {
        corpus := if first then ReviewPart(rows[i]) else corpus + "\n" + "" + "\n" + ReviewPart(rows[i]);
        first := false;
      }
    }
    assert rows[..|rows|] == rows;
    corpus := Take(corpus, cap);
    ReviewCorpusFinds(rows, cap);
  }

  lemma ReviewCorpusFinds(rows: seq<Row>, cap: nat)
    ensures var said := Filter(rows, SaysSomething);
      var corpus := Take(ReviewText(said), cap);
      OneLiners(rows) ==>
        && Finds(corpus, StrippedUrls(said) + RawHidden(said), |ReviewText(said)| <= cap)
        && forall m :: 0 <= m <= |said| && |ReviewText(said[..m])| <= cap ==> StrippedUrls(said[..m]) <= CorpusUrls(corpus)
  {
    var said := Filter(rows, SaysSomething);
    if OneLiners(rows) {
      ReviewParsed(rows);
      FilterMembers(rows, SaysSomething);
      forall m | 0 <= m <= |said| && |ReviewText(said[..m])| <= cap
        ensures StrippedUrls(said[..m]) <= CorpusUrls(Take(ReviewText(said), cap))
      {
        ReviewRowsSurvive(said, m, cap);
      }
    }
  }

  lemma {:induction false} ReviewTextPrefix(rows: seq<Row>, m: nat)
    requires m <= |rows|
    ensures var a, text := ReviewText(rows[..m]), ReviewText(rows);
      a <= text && (|a| == |text| || a == "" || text[|a|] == '\n')
  {
    if m == |rows| {
      assert rows[..m] == rows;
    } else {
      var init := rows[..|rows| - 1];
      ReviewTextPrefix(init, m);
      assert init[..m] == rows[..m] && rows == init + [rows[|rows| - 1]];
      ReviewTextSnoc(init, rows[|rows| - 1]);
    }
  }

  /** And for the review corpus. */
  lemma ReviewRowsSurvive(rows: seq<Row>, m: nat, cap: nat)
    requires OneLiners(rows) && m <= |rows| && |ReviewText(rows[..m])| <= cap
    ensures StrippedUrls(rows[..m]) + RawHidden(rows[..m]) <= CorpusUrls(Take(ReviewText(rows), cap))
  {
    ReviewUrls(rows[..m]);
    ReviewTextPrefix(rows, m);
    if ReviewText(rows[..m]) == "" {
      NoUrlsInNothing();
    } else {
      CutBehind(ReviewText(rows[..m]), ReviewText(rows), cap);
    }
  }

  lemma ReviewPartUrls(r: Row)
    requires '\n' !in r.url
    ensures CorpusUrls(ReviewPart(r)) == {Strip(r.url)} + HiddenIn(r.title, r.content)
  {
    ThreeTexts(PREFIX + r.url, r.title, r.content);
    SourceLine(r.url);
  }

  lemma {:induction false} ReviewUrls(rows: seq<Row>)
    requires OneLiners(rows)
    ensures CorpusUrls(ReviewText(rows)) == StrippedUrls(rows) + RawHidden(rows)
  {
    NoUrlsInNothing();
    if rows != [] {
      var init, last := rows[..|rows| - 1], rows[|rows| - 1];
      assert rows == init + [last];
      ReviewUrls(init);
      ReviewTextSnoc(init, last);
      ReviewPartUrls(last);
      if init != [] {
        ThreeTexts(ReviewText(init), "", ReviewPart(last));
      }
      StrippedSnoc(init, last);
      RawHiddenSnoc(init, last);
    }
  }

  /** Parsing an uncut review corpus recovers the stripped URLs of all rows that say something, and the source lines hidden
      in their texts. */
  lemma ReviewParsed(rows: seq<Row>)
    requires OneLiners(rows)
    ensures var said := Filter(rows, SaysSomething);
      && CorpusUrls(ReviewText(said)) == StrippedUrls(said) + RawHidden(said)
      && forall r :: r in said <==> r in rows && r != Row("", "", "")
  {
    FilterMembers(rows, SaysSomething);
    ReviewUrls(Filter(rows, SaysSomething));
  }

  // ------------------------------------------------------------------ the cut

  lemma {:induction false} RStripPrefix(x: string, y: string)
    requires x <= y
    ensures RStrip(x) <= RStrip(y)
  {
    if |x| < |y| {
      var y' := y[..|y| - 1];
      RStripPrefix(x, y');
      RStripPart(x);
    } else {
      assert x == y;
    }
  }

  lemma {:induction false} StripPrefix(x: string, y: string)
    requires x <= y
    ensures Strip(x) <= Strip(y)
  {
    if x != "" && IsSpace(y[0]) {
      StripPrefix(x[1..], y[1..]);
    } else if x != "" {
      RStripPrefix(x, y);
    }
  }

  /** One more character in front: it starts a line of its own if it is the separator, else it joins the first one. */
  lemma CutOneMore(c: char, rest: seq<string>, sep: char, k: nat, t: string)
    requires k < |rest| && t <= rest[k]
    ensures var cut, lines := rest[..k] + [t], if c == sep then [""] + rest else [[c] + rest[0]] + rest[1..];
      var cut' := if c == sep then [""] + cut else [[c] + cut[0]] + cut[1..];
      if c == sep then cut' == lines[..k + 1] + [t] && lines[k + 1] == rest[k]
      else if k == 0 then cut' == [[c] + t] && lines[0] == [c] + rest[0]
      else cut' == lines[..k] + [t] && lines[k] == rest[k]
  {
  }

  /** The lines of a prefix are the first lines, and a prefix of the next one; all of it when the cut is at a line end. */
  lemma {:induction false} CutLines(s: string, n: nat, sep: char) returns (k: nat, t: string)
    requires n <= |s|
    ensures k < |Split(s, sep)| && t <= Split(s, sep)[k]
    ensures Split(s[..n], sep) == Split(s, sep)[..k] + [t]
    ensures n == |s| || s[n] == sep ==> t == Split(s, sep)[k]
  {
    if n == 0 {
      k, t := 0, "";
    } else {
      assert s[..n][1..] == s[1..][..n - 1];
      k, t := CutLines(s[1..], n - 1, sep);
      CutOneMore(s[0], Split(s[1..], sep), sep, k, t);
      if s[0] == sep {
        k := k + 1;
      } else if k == 0 {
        t := [s[0]] + t;
      }
    }
  }

  function LastLine(s: string): string {
    Lines(s)[|Lines(s)| - 1]
  }

  /** What the cut leaves of its last line, if that is a source line. */
  function Stump(corpus: string, n: nat): set<string> {
    var t := LastLine(Take(corpus, n));
    if IsSource(t) then {UrlOf(t)} else {}
  }

  /** `p` is what a cut may leave of `u`. */
  predicate IsCut(p: string, u: string) {
    p <= u
  }

  lemma LastIsParsed(s: string)
    ensures IsSource(LastLine(s)) ==> UrlOf(LastLine(s)) in CorpusUrls(s)
  {
    assert LastLine(s) in Lines(s);
  }

  /** A cut anywhere adds at most the stump to what the parser finds, and the stump is a prefix of a URL that it would have
      found; at the end of a line the stump is such a URL itself. */
  lemma CutAddsAtMostOne(corpus: string, n: nat)
    ensures Stump(corpus, n) <= CorpusUrls(Take(corpus, n)) <= CorpusUrls(corpus) + Stump(corpus, n)
    ensures forall p :: p in Stump(corpus, n) ==> exists u :: u in CorpusUrls(corpus) && IsCut(p, u)
    ensures n >= |corpus| || corpus[n] == '\n' ==> Stump(corpus, n) <= CorpusUrls(corpus)
  {
    LastIsParsed(Take(corpus, n));
    if n < |corpus| {
      var k, t := CutLines(corpus, n, '\n');
      var lines := Lines(corpus);
      assert lines[k] in lines && LastLine(Take(corpus, n)) == t;
      UrlsOfBoth(lines[..k], [t]);
      assert UrlsIn(lines[..k]) <= UrlsIn(lines);
      assert UrlsIn([t]) == Stump(corpus, n);
      if IsSource(t) {
        assert IsSource(lines[k]);
        StripPrefix(t[|PREFIX|..], lines[k][|PREFIX|..]);
        assert UrlOf(lines[k]) in CorpusUrls(corpus) && IsCut(UrlOf(t), UrlOf(lines[k]));
      }
    } else {
      assert forall p :: p in Stump(corpus, n) ==> IsCut(p, p);
    }
  }

  /** A cut is harmless if and only if its last line is no source line, or one whose URL was there. */
  lemma CutIsHarmlessIff(corpus: string, n: nat)
    ensures var t := LastLine(Take(corpus, n));
      CorpusUrls(Take(corpus, n)) <= CorpusUrls(corpus) <==> (IsSource(t) ==> UrlOf(t) in CorpusUrls(corpus))
  {
    CutAddsAtMostOne(corpus, n);
  }

  // ------------------------------------------------------------------ the filters

  predicate IsHttp(u: string) {
    "http://" <= u || "https://" <= u
  }

  function Allows(allowed: set<string>): string -> bool {
    u => IsHttp(u) && u in allowed
  }

  function Stripped(sources: seq<string>): seq<string> {
    seq(|sources|, i requires 0 <= i < |sources| => Strip(sources[i]))
  }

  /** The sources that may stand: each the first time it occurs. */
  function Grounded(sources: seq<string>, corpus: string): seq<string> {
    Unique(Filter(Stripped(sources), Allows(CorpusUrls(corpus))))
  }

  /** `ground_sources`. */
  method GroundSources(sources: seq<string>, corpus: string) returns (kept: seq<string>)
    ensures kept == Grounded(sources, corpus)
  {
    var allowed := CorpusUrls(corpus);
    kept := [];
    var seen: set<string> := {};
    for i := 0 to |sources|
      invariant kept == Unique(Filter(Stripped(sources[..i]), Allows(allowed)))
      invariant forall u :: u in seen <==> u in kept
    {
      var u := Strip(sources[i]);
      FilterSnoc(Stripped(sources[..i]), u, Allows(allowed));
      assert Stripped(sources[..i + 1]) == Stripped(sources[..i]) + [u];
      if IsHttp(u) && u in allowed && u !in seen {
        seen := seen + {u};
        kept := kept + [u];
      }
    }
    assert sources[..|sources|] == sources;
  }

  lemma FilterSnoc(xs: seq<string>, x: string, p: string -> bool)
    ensures Filter(xs + [x], p) == if p(x) then Filter(xs, p) + [x] else Filter(xs, p)
    ensures p(x) ==> Unique(Filter(xs + [x], p)) == (if x in Unique(Filter(xs, p)) then Unique(Filter(xs, p))
                                                     else Unique(Filter(xs, p)) + [x])
  {
    assert (xs + [x])[..|xs|] == xs;
    assert (Filter(xs, p) + [x])[..|Filter(xs, p)|] == Filter(xs, p);
  }

  /** Grounding keeps exactly the web addresses that the model named and the parser found, each once. */
  lemma GroundedIff(sources: seq<string>, corpus: string)
    ensures Distinct(Grounded(sources, corpus))
    ensures forall u :: u in Grounded(sources, corpus) <==>
      ("http://" <= u || "https://" <= u) && u in CorpusUrls(corpus) && u in Stripped(sources)
  {
    UniqueIsDistinct(Filter(Stripped(sources), Allows(CorpusUrls(corpus))));
    FilterMembers(Stripped(sources), Allows(CorpusUrls(corpus)));
  }

  datatype NewsItem = NewsItem(event: string, impact: string, url: string, date: string)

  const MAX_ITEMS := 10

  /** `key` folds an event's letter case and white space; `iso` tells the dates that stand. */
  datatype Rules = Rules(key: string -> string, iso: string -> bool)

  function Cleaned(rules: Rules, it: NewsItem): NewsItem {
    it.(url := Strip(it.url), date := if rules.iso(Strip(it.date)) then Strip(it.date) else "")
  }

  predicate Stands(rules: Rules, it: NewsItem, allowed: set<string>) {
    IsHttp(Strip(it.url)) && Strip(it.url) in allowed && rules.key(it.event) != ""
  }

  /** The items that stand, each event the first time it occurs. */
  function Standing(rules: Rules, items: seq<NewsItem>, allowed: set<string>): seq<NewsItem> {
    if items == [] then []
    else
      var init, last := Standing(rules, items[..|items| - 1], allowed), items[|items| - 1];
      if Stands(rules, last, allowed) && rules.key(last.event) !in Events(rules, init)
      then init + [Cleaned(rules, last)] else init
  }

  function Events(rules: Rules, items: seq<NewsItem>): set<string> {
    set it | it in items :: rules.key(it.event)
  }

  /** `_post_filter`. */
  method PostFilter(rules: Rules, items: seq<NewsItem>, corpus: string) returns (kept: seq<NewsItem>)
    ensures var all := Standing(rules, items, CorpusUrls(corpus));
      kept <= all && |kept| == if |all| <= 10 then |all| else 10
  {
    var allowed := CorpusUrls(corpus);
    kept := [];
    var seen: set<string> := {};
    for i := 0 to |items|
      invariant kept == Standing(rules, items[..i], allowed)
      invariant seen == Events(rules, kept)
    {
      assert items[..i + 1][..i] == items[..i];
      var it := items[i];
      var url := Strip(it.url);
      if !IsHttp(url) || url !in allowed {
        continue;
      }
      var key := rules.key(it.event);
      if key == "" || key in seen {
        continue;
      }
      seen := seen + {key};
      var date := Strip(it.date);
      ghost var before := kept;
      kept := kept + [it.(url := url, date := if rules.iso(date) then date else "")];
      assert Events(rules, kept) == Events(rules, before) + {key};
    }
    assert items[..|items|] == items;
    kept := if |kept| <= MAX_ITEMS then kept else kept[..MAX_ITEMS];
  }

  lemma EventsSnoc(rules: Rules, init: seq<NewsItem>, it: NewsItem)
    ensures Events(rules, init + [it]) == Events(rules, init) + {rules.key(it.event)}
  {
  }

  predicate IsGrounded(rules: Rules, it: NewsItem, allowed: set<string>) {
    IsHttp(it.url) && it.url in allowed && rules.key(it.event) != "" && (it.date == "" || rules.iso(it.date))
  }

  lemma CleanedIsGrounded(rules: Rules, it: NewsItem, allowed: set<string>)
    requires Stands(rules, it, allowed)
    ensures IsGrounded(rules, Cleaned(rules, it), allowed) && rules.key(Cleaned(rules, it).event) == rules.key(it.event)
  {
  }

  /** Grounded items, no two of one event. */
  ghost predicate EachOnce(rules: Rules, all: seq<NewsItem>, allowed: set<string>) {
    && (forall i :: 0 <= i < |all| ==> IsGrounded(rules, all[i], allowed))
    && (forall i, j :: 0 <= i < j < |all| ==> rules.key(all[i].event) != rules.key(all[j].event))
  }

  lemma OnceMore(rules: Rules, all: seq<NewsItem>, it: NewsItem, allowed: set<string>)
    requires EachOnce(rules, all, allowed) && IsGrounded(rules, it, allowed)
    ensures rules.key(it.event) !in Events(rules, all) ==> EachOnce(rules, all + [it], allowed)
  {
    forall i | 0 <= i < |all| ensures rules.key(all[i].event) in Events(rules, all) {
      assert all[i] in all;
    }
  }

  lemma {:induction false} EachStandsOnce(rules: Rules, items: seq<NewsItem>, allowed: set<string>)
    ensures EachOnce(rules, Standing(rules, items, allowed), allowed)
  {
    if items != [] {
      var n := |items| - 1;
      EachStandsOnce(rules, items[..n], allowed);
      if Stands(rules, items[n], allowed) {
        CleanedIsGrounded(rules, items[n], allowed);
        OnceMore(rules, Standing(rules, items[..n], allowed), Cleaned(rules, items[n]), allowed);
      }
    }
  }

  lemma {:induction false} NoneIsMissing(rules: Rules, items: seq<NewsItem>, allowed: set<string>, it: NewsItem)
    requires it in items && Stands(rules, it, allowed)
    ensures rules.key(it.event) in Events(rules, Standing(rules, items, allowed))
  {
    var n := |items| - 1;
    assert items == items[..n] + [items[n]];
    EventsSnoc(rules, Standing(rules, items[..n], allowed), Cleaned(rules, items[n]));
    if it in items[..n] {
      NoneIsMissing(rules, items[..n], allowed, it);
    }
  }

  /** Every item that stands carries a web address that the parser found and a date that is blank or well formed, no event
      occurs twice, and every event of a standing item is there. */
  lemma {:induction false} StandingIsGrounded(rules: Rules, items: seq<NewsItem>, allowed: set<string>)
    ensures var all := Standing(rules, items, allowed);
      && (forall i :: 0 <= i < |all| ==> IsHttp(all[i].url) && all[i].url in allowed && rules.key(all[i].event) != ""
                                         && (all[i].date == "" || rules.iso(all[i].date)))
      && (forall i, j :: 0 <= i < j < |all| ==> rules.key(all[i].event) != rules.key(all[j].event))
      && (forall it :: it in items && Stands(rules, it, allowed) ==> rules.key(it.event) in Events(rules, all))
  {
    EachStandsOnce(rules, items, allowed);
    forall it | it in items && Stands(rules, it, allowed)
      ensures rules.key(it.event) in Events(rules, Standing(rules, items, allowed))
    {
      NoneIsMissing(rules, items, allowed, it);
    }
  }

  /** The i-th item stands, and no item of the same event stands before it. */
  predicate FirstOfEvent(rules: Rules, items: seq<NewsItem>, allowed: set<string>, i: nat) {
    && i < |items| && Stands(rules, items[i], allowed)
    && forall j :: 0 <= j < i && Stands(rules, items[j], allowed) ==> rules.key(items[j].event) != rules.key(items[i].event)
  }

  lemma StaysFirst(rules: Rules, items: seq<NewsItem>, allowed: set<string>, i: nat)
    requires items != [] && FirstOfEvent(rules, items[..|items| - 1], allowed, i)
    ensures FirstOfEvent(rules, items, allowed, i)
  {
    assert items[i] == items[..|items| - 1][i];
    forall j | 0 <= j < i && Stands(rules, items[j], allowed)
      ensures rules.key(items[j].event) != rules.key(items[i].event)
    {
      assert items[j] == items[..|items| - 1][j];
    }
  }

  lemma LastIsFirst(rules: Rules, items: seq<NewsItem>, allowed: set<string>)
    requires items != [] && Stands(rules, items[|items| - 1], allowed)
    requires rules.key(items[|items| - 1].event) !in Events(rules, Standing(rules, items[..|items| - 1], allowed))
    ensures FirstOfEvent(rules, items, allowed, |items| - 1)
  {
    var n := |items| - 1;
    StandingIsGrounded(rules, items[..n], allowed);
    forall j | 0 <= j < n && Stands(rules, items[j], allowed)
      ensures rules.key(items[j].event) != rules.key(items[n].event)
    {
      assert items[..n][j] in items[..n];
    }
  }

  /** These items are the cleaned forms of the input items at these places, in order, each the first of its event. */
  ghost predicate ComesFrom(rules: Rules, items: seq<NewsItem>, allowed: set<string>, all: seq<NewsItem>, at: seq<nat>) {
    && |at| == |all|
    && (forall i :: 0 <= i < |at| ==> FirstOfEvent(rules, items, allowed, at[i]) && all[i] == Cleaned(rules, items[at[i]]))
    && (forall i, j :: 0 <= i < j < |at| ==> at[i] < at[j])
  }

  lemma ComesFromMore(rules: Rules, items: seq<NewsItem>, allowed: set<string>, all: seq<NewsItem>, at: seq<nat>)
    requires items != [] && ComesFrom(rules, items[..|items| - 1], allowed, all, at)
    ensures ComesFrom(rules, items, allowed, all, at) && forall i :: 0 <= i < |at| ==> at[i] < |items| - 1
  {
    forall i | 0 <= i < |at| ensures at[i] < |items| - 1 && FirstOfEvent(rules, items, allowed, at[i]) {
      assert FirstOfEvent(rules, items[..|items| - 1], allowed, at[i]);
      StaysFirst(rules, items, allowed, at[i]);
    }
  }

  lemma ComesFromLast(rules: Rules, items: seq<NewsItem>, allowed: set<string>, all: seq<NewsItem>, at: seq<nat>)
    requires ComesFrom(rules, items, allowed, all, at) && items != []
    requires FirstOfEvent(rules, items, allowed, |items| - 1) && forall i :: 0 <= i < |at| ==> at[i] < |items| - 1
    ensures ComesFrom(rules, items, allowed, all + [Cleaned(rules, items[|items| - 1])], at + [|items| - 1])
  {
  }

  /** The standing items are cleaned input items, in their order: each is the first of its event that stands. */
  lemma {:induction false} StandingAreCleaned(rules: Rules, items: seq<NewsItem>, allowed: set<string>)
    returns (at: seq<nat>)
    ensures ComesFrom(rules, items, allowed, Standing(rules, items, allowed), at)
  {
    at := [];
    if items != [] {
      var n := |items| - 1;
      at := StandingAreCleaned(rules, items[..n], allowed);
      var init := Standing(rules, items[..n], allowed);
      ComesFromMore(rules, items, allowed, init, at);
      if Stands(rules, items[n], allowed) && rules.key(items[n].event) !in Events(rules, init) {
        LastIsFirst(rules, items, allowed);
        ComesFromLast(rules, items, allowed, init, at);
        at := at + [n];
      }
    }
  }

  /** What cleaning does to an item: it strips the URL, and keeps the date only if it is well formed. */
  lemma CleanedKeeps(rules: Rules, it: NewsItem)
    ensures var r := Cleaned(rules, it);
      && r.event == it.event && r.impact == it.impact && r.url == Strip(it.url)
      && (rules.iso(Strip(it.date)) ==> r.date == Strip(it.date)) && (!rules.iso(Strip(it.date)) ==> r.date == "")
  {
  }

  // ------------------------------------------------------------------ end to end

  /** Some URL that the corpus does not have gets through the grounding of its cut form, for some answer of the model, if
      and only if the stump is a web address that the corpus does not have. */
  lemma GroundingLeaksIff(corpus: string, n: nat)
    ensures var t := LastLine(Take(corpus, n));
      (exists sources, u :: u in Grounded(sources, Take(corpus, n)) && u !in CorpusUrls(corpus))
      <==> IsSource(t) && IsHttp(UrlOf(t)) && UrlOf(t) !in CorpusUrls(corpus)
  {
    var t := LastLine(Take(corpus, n));
    CutAddsAtMostOne(corpus, n);
    forall sources, u | u in Grounded(sources, Take(corpus, n)) && u !in CorpusUrls(corpus)
      ensures IsSource(t) && u == UrlOf(t) && IsHttp(u)
    {
      GroundedIff(sources, Take(corpus, n));
    }
    if IsSource(t) && IsHttp(UrlOf(t)) && UrlOf(t) !in CorpusUrls(corpus) {
      StripTwice(t[|PREFIX|..]);
      GroundedIff([UrlOf(t)], Take(corpus, n));
      assert Stripped([UrlOf(t)])[0] == UrlOf(t);
      assert UrlOf(t) in Grounded([UrlOf(t)], Take(corpus, n));
    }
  }

  /** The same for the news filter, as long as some event has a key. */
  lemma FilterLeaksIff(rules: Rules, corpus: string, n: nat)
    ensures var t := LastLine(Take(corpus, n));
      (exists items, it :: it in Standing(rules, items, CorpusUrls(Take(corpus, n))) && it.url !in CorpusUrls(corpus))
      <==> IsSource(t) && IsHttp(UrlOf(t)) && UrlOf(t) !in CorpusUrls(corpus) && exists e :: rules.key(e) != ""
  {
    var t, allowed := LastLine(Take(corpus, n)), CorpusUrls(Take(corpus, n));
    CutAddsAtMostOne(corpus, n);
    forall items, it | it in Standing(rules, items, allowed) && it.url !in CorpusUrls(corpus)
      ensures IsSource(t) && it.url == UrlOf(t) && IsHttp(it.url) && rules.key(it.event) != ""
    {
      StandingIsGrounded(rules, items, allowed);
    }
    if IsSource(t) && IsHttp(UrlOf(t)) && UrlOf(t) !in CorpusUrls(corpus) && exists e :: rules.key(e) != "" {
      var e :| rules.key(e) != "";
      StripTwice(t[|PREFIX|..]);
      OneStands(rules, NewsItem(e, "", UrlOf(t), ""), allowed);
    }
  }

  lemma OneStands(rules: Rules, it: NewsItem, allowed: set<string>)
    requires Stands(rules, it, allowed)
    ensures Standing(rules, [it], allowed) == [Cleaned(rules, it)]
    ensures Cleaned(rules, it) in Standing(rules, [it], allowed) && Cleaned(rules, it).url == Strip(it.url)
  {
    assert [it][..0] == [];
    assert Events(rules, []) == {};
  }

  /** The news agent: every item that its filter keeps of what the model answers on a cut corpus carries the URL of a row,
      or one hidden in a row, or the stump, which is a prefix of such a URL. */
  lemma NewsComesFromRows(rules: Rules, rows: seq<Row>, cap: nat, items: seq<NewsItem>, it: NewsItem)
    requires OneLiners(rows) && it in Standing(rules, items, CorpusUrls(Take(NewsText(rows), cap)))
    ensures it.url in RowUrls(rows) + Hidden(rows) ||
            (it.url in Stump(NewsText(rows), cap) && exists u :: u in RowUrls(rows) + Hidden(rows) && IsCut(it.url, u))
  {
    NewsParsed(rows);
    CutAddsAtMostOne(NewsText(rows), cap);
    StandingIsGrounded(rules, items, CorpusUrls(Take(NewsText(rows), cap)));
  }

  /** The product agent: so does every source that grounding keeps of what the model answers on its cut corpus. */
  lemma ProductsComeFromRows(rows: seq<Row>, cap: nat, sources: seq<string>, u: string)
    requires OneLiners(rows) && u in Grounded(sources, Take(JoinLines(Parts(Printed(rows))), cap))
    ensures var known := StrippedUrls(rows) + RawHidden(Printed(rows));
      u in known || (u in Stump(JoinLines(Parts(Printed(rows))), cap) && exists r :: r in known && IsCut(u, r))
  {
    ProductParsed(rows);
    CutAddsAtMostOne(JoinLines(Parts(Printed(rows))), cap);
    GroundedIff(sources, Take(JoinLines(Parts(Printed(rows))), cap));
  }

  /** And the review agent, whose answer keeps the first eight of these sources. */
  lemma ReviewsComeFromRows(rows: seq<Row>, cap: nat, sources: seq<string>, u: string)
    requires OneLiners(rows) && u in Grounded(sources, Take(ReviewText(Filter(rows, SaysSomething)), cap))
    ensures var said := Filter(rows, SaysSomething);
      var known := StrippedUrls(said) + RawHidden(said);
      u in known || (u in Stump(ReviewText(said), cap) && exists r :: r in known && IsCut(u, r))
  {
    ReviewParsed(rows);
    CutAddsAtMostOne(ReviewText(Filter(rows, SaysSomething)), cap);
    GroundedIff(sources, Take(ReviewText(Filter(rows, SaysSomething)), cap));
  }

  /** Nothing good is lost: an item that names an event and the web address of a row that fits the cap stands, it or an
      earlier one of its event. */
  lemma NewsOfRowsStands(rules: Rules, rows: seq<Row>, m: nat, cap: nat, items: seq<NewsItem>, it: NewsItem)
    requires OneLiners(rows) && m <= |rows| && |NewsText(rows[..m])| <= cap
    requires it in items && IsHttp(Strip(it.url)) && Strip(it.url) in RowUrls(rows[..m]) && rules.key(it.event) != ""
    ensures exists kept :: kept in Standing(rules, items, CorpusUrls(Take(NewsText(rows), cap))) &&
                           rules.key(kept.event) == rules.key(it.event)
  {
    NewsRowsSurvive(rows, m, cap);
    NoneIsMissing(rules, items, CorpusUrls(Take(NewsText(rows), cap)), it);
  }

  /** And every source that names such an address is kept, in the product agent and in the review agent. */
  lemma SourcesOfRowsAreKept(rows: seq<Row>, m: nat, cap: nat, sources: seq<string>, u: string)
    requires OneLiners(rows) && m <= |rows| && u in Stripped(sources) && IsHttp(u) && u in StrippedUrls(rows[..m])
    ensures |JoinLines(Parts(Printed(rows[..m])))| <= cap ==> u in Grounded(sources, Take(JoinLines(Parts(Printed(rows))), cap))
    ensures |ReviewText(rows[..m])| <= cap ==> u in Grounded(sources, Take(ReviewText(rows), cap))
  {
    if |JoinLines(Parts(Printed(rows[..m])))| <= cap {
      ProductRowsSurvive(rows, m, cap);
      GroundedIff(sources, Take(JoinLines(Parts(Printed(rows))), cap));
    }
    if |ReviewText(rows[..m])| <= cap {
      ReviewRowsSurvive(rows, m, cap);
      GroundedIff(sources, Take(ReviewText(rows), cap));
    }
  }

  /** A text that is cut inside its only URL. */
  lemma CutInside(text: string, p: string, tail: string)
    requires '\n' !in p && Strip(p) == p && text == "\n\n" + PREFIX + p + tail
    ensures CorpusUrls(Take(text, 10 + |p|)) == {p}
  {
    assert Take(text, 10 + |p|) == "" + "\n" + "" + "\n" + (PREFIX + p);
    ThreeTexts("", "", PREFIX + p);
    NoUrlsInNothing();
    SourceLine(p);
  }

  /** The exception happens in the news agent: when the cap falls inside a URL, an item with what is left of it stands,
      although no row carries it. */
  lemma CutNewsUrlStands(rules: Rules, p: string, rest: string, event: string)
    requires IsHttp(p) && rest != "" && Strip(p) == p && Strip(p + rest) == p + rest && '\n' !in p + rest
    requires rules.key(event) != ""
    ensures var rows, it := [Row("", "", p + rest)], NewsItem(event, "", p, "");
      p !in RowUrls(rows) &&
      Standing(rules, [it], CorpusUrls(Take(NewsText(rows), 10 + |p|))) == [Cleaned(rules, it)] &&
      Cleaned(rules, it).url == p
  {
    var row := Row("", "", p + rest);
    OneBlock(row);
    assert NewsText([row]) == "\n\n" + PREFIX + p + (rest + "\n\n");
    CutInside(NewsText([row]), p, rest + "\n\n");
    OneStands(rules, NewsItem(event, "", p, ""), {p});
    assert |p + rest| > |p|;
  }

  /** And in the product agent. */
  lemma CutProductUrlIsKept(p: string, rest: string)
    requires IsHttp(p) && rest != "" && Strip(p) == p && Strip(p + rest) == p + rest && '\n' !in p + rest
    ensures var rows := [Row("", "", p + rest)];
      p !in StrippedUrls(rows) && p in Grounded([p], Take(JoinLines(Parts(Printed(rows))), 10 + |p|))
  {
    var row := Row("", "", p + rest);
    OnePart(row);
    var text := JoinLines(Parts(Printed([row])));
    assert text == "\n\n" + PREFIX + p + (rest + "\n");
    CutInside(text, p, rest + "\n");
    OneIsGrounded(p, Take(text, 10 + |p|));
    assert |p + rest| > |p|;
  }

  lemma OneIsGrounded(p: string, corpus: string)
    requires IsHttp(p) && Strip(p) == p && p in CorpusUrls(corpus)
    ensures p in Grounded([p], corpus)
  {
    GroundedIff([p], corpus);
    assert Stripped([p])[0] == p;
  }

  lemma OnePart(row: Row)
    ensures JoinLines(Parts(Printed([row]))) == ProductPart(row)
  {
    PrintedSnoc([], row);
    assert [] + [row] == [row] && Printed([]) == [];
    assert Parts([row]) == [ProductPart(row)];
  }

  lemma OneBlock(row: Row)
    ensures NewsText([row]) == NewsBlock(row)
  {
    assert [row][..0] == [];
    assert NewsText([row][..0]) == "";
    assert "" + NewsBlock(row) == NewsBlock(row);
  }
}
