/**
 * The report renderer: SimpleMarkdown in components/ReportSection.tsx, a chain of regular
 * expression rewrites over the model's answer.
 *
 * The four rewrites at :30-33 never look across or produce a line break ('.' and '$' stop at
 * '\n'), so they are modelled as `RewriteLine` on one line. The split/map/join at :34 is
 * `Lines`, `Piece` and `Pieces`; the four unwrap rewrites at :35-36 and the break collapse at
 * :37 act on the joined string and are modelled as literal global replacements, scanning left
 * to right as String.prototype.replace does with the `g` flag.
 *
 * '\n' is the only line terminator, and whitespace (for `trim()` and `\s`) is the ASCII set.
 */
module ReportSection {
  import opened Types

  /** Text inside a tag: no '<', no '*' and no line break. */
  type TagText = s: string | '<' !in s && '*' !in s && '\n' !in s

  // The class attributes are written in short pieces, each checked on its own.
  const H3Class1: TagText := "class=\"text-xl "
  const H3Class2: TagText := "font-bold mt-6 "
  const H3Class3: TagText := "mb-2 text-slate-900 "
  const H3Class4: TagText := "dark:text-white\">"
  const H4Class1: TagText := "class=\"text-base "
  const H4Class2: TagText := "font-semibold mt-4 "
  const H4Class3: TagText := "mb-2 text-indigo-600 "
  const H4Class4: TagText := "dark:text-indigo-400\">"
  const LiClass: TagText := "class=\"ml-5 list-disc\">"

  const H3Open := "<h3 " + (H3Class1 + H3Class2 + H3Class3 + H3Class4)
  const H4Open := "<h4 " + (H4Class1 + H4Class2 + H4Class3 + H4Class4)
  const LiOpen := "<li " + LiClass
  const Br := "<br/>"

  const Whitespace: set<char> := {' ', '\t', '\n', '\r', '\U{B}', '\U{C}'}

  predicate StartsWith(s: string, p: string)
  {
    |p| <= |s| && s[..|p|] == p
  }

  lemma StartsWithAt(s: string, p: string, i: nat)
    requires StartsWith(s, p) && i < |p|
    ensures s[i] == p[i]
  {
    assert s[..|p|][i] == s[i];
  }

  // ---------------------------------------------------------------------------------------
  // Line rules (:30-33)
  // ---------------------------------------------------------------------------------------

  /** `^### (.*$)` becomes an h3 element around the rest of the line. */
  function HeadingThree(line: string): string
  {
    if StartsWith(line, "### ") then H3Open + line[4..] + "</h3>" else line
  }

  /** `^#### (.*$)` becomes an h4 element around the rest of the line. */
  function HeadingFour(line: string): string
  {
    if StartsWith(line, "#### ") then H4Open + line[5..] + "</h4>" else line
  }

  /** `^\* (.*$)` becomes a list item around the rest of the line. */
  function ListItem(line: string): string
  {
    if StartsWith(line, "* ") then LiOpen + line[2..] + "</li>" else line
  }

  /** A "**" starts at position j of s. */
  predicate PairAt(s: string, j: int)
  {
    0 <= j && j + 2 <= |s| && s[j] == '*' && s[j + 1] == '*'
  }

  /** The leftmost "**" at or after position k: what the lazy `(.*?)\*\*` settles on. */
  function FindClose(s: string, k: nat): (r: Option<nat>)
    requires k <= |s|
    ensures r.Some? ==> k <= r.value && PairAt(s, r.value)
    ensures r.Some? ==> forall j | k <= j < r.value :: !PairAt(s, j)
    ensures r.None? ==> forall j | k <= j :: !PairAt(s, j)
    decreases |s| - k
  {
    if k + 2 > |s| then None
    else if PairAt(s, k) then Some(k)
    else FindClose(s, k + 1)
  }

  /**
   * `\*\*(.*?)\*\*` with the `g` flag on one line: at each position, a "**" followed later by
   * another "**" becomes a strong element around what lies between (possibly nothing), and the
   * scan resumes after the closing pair; anywhere else one character is copied.
   */
  function Bold(s: string): string
    decreases |s|
  {
    if s == [] then []
    else if PairAt(s, 0) && FindClose(s, 2).Some? then
      "<strong>" + s[2..FindClose(s, 2).value] + "</strong>" + Bold(s[FindClose(s, 2).value + 2..])
    else [s[0]] + Bold(s[1..])
  }

  /** The rewrites of :30-33, in order, on one line. */
  function RewriteLine(line: string): string
  {
    Bold(ListItem(HeadingFour(HeadingThree(line))))
  }

  // ---------------------------------------------------------------------------------------
  // Split, wrap, join (:34)
  // ---------------------------------------------------------------------------------------

  /** `line.trim()` is empty. */
  predicate Blank(line: string)
  {
    forall i | 0 <= i < |line| :: line[i] in Whitespace
  }

  /** `line.trim() ? `<p>${line}</p>` : '<br/>'`: the line itself, untrimmed, or a break. */
  function Piece(line: string): string
  {
    if Blank(line) then Br else "<p>" + line + "</p>"
  }

  /** `split('\n')`: one more line than there are line breaks. */
  function Lines(s: string): (r: seq<string>)
    ensures |r| >= 1
  {
    if s == [] then [""]
    else
      var rest := Lines(s[1..]);
      if s[0] == '\n' then [""] + rest else [[s[0]] + rest[0]] + rest[1..]
  }

  /** `join('\n')`, the inverse of `Lines`. */
  function JoinLines(lines: seq<string>): string
    requires |lines| >= 1
  {
    if |lines| == 1 then lines[0] else lines[0] + "\n" + JoinLines(lines[1..])
  }

  /** `.map(...).join('')` after the rewrites of :30-33. */
  function Pieces(lines: seq<string>): string
  {
    if lines == [] then "" else Piece(RewriteLine(lines[0])) + Pieces(lines[1..])
  }

  // ---------------------------------------------------------------------------------------
  // Literal global replacement (:35-37)
  // ---------------------------------------------------------------------------------------

  /** The length of the first of `pats` that s starts with, or 0 when none does. */
  function MatchLength(s: string, pats: seq<string>): (n: nat)
    ensures n <= |s|
  {
    if pats == [] then 0
    else if pats[0] != [] && StartsWith(s, pats[0]) then |pats[0]|
    else MatchLength(s, pats[1..])
  }

  /** `s.replace(/p1|p2|.../g, rep)` for literal non-empty patterns p1, p2, ... */
  function ReplaceAll(s: string, pats: seq<string>, rep: string): string
    decreases |s|
  {
    if s == [] then []
    else if MatchLength(s, pats) > 0 then rep + ReplaceAll(s[MatchLength(s, pats)..], pats, rep)
    else [s[0]] + ReplaceAll(s[1..], pats, rep)
  }

  const OpenHeadingPatterns: seq<string> := ["<p><h3>", "<p><h4>"]
  const CloseHeadingPatterns: seq<string> := ["</h3></p>", "</h4></p>"]
  const OpenItemPatterns: seq<string> := ["<p><li>"]
  const CloseItemPatterns: seq<string> := ["</li></p>"]

  /** The four unwrap rewrites of :35-36, in order. */
  function Unwrap(s: string): string
  {
    var a := ReplaceAll(s, OpenHeadingPatterns, "<h");
    var b := ReplaceAll(a, CloseHeadingPatterns, "</h>");
    var c := ReplaceAll(b, OpenItemPatterns, "<li>");
    ReplaceAll(c, CloseItemPatterns, "</li>")
  }

  /** The length of the leading run of whitespace (`\s*`). */
  function WhitespacePrefix(s: string): (n: nat)
    ensures n <= |s|
  {
    if s != [] && s[0] in Whitespace then 1 + WhitespacePrefix(s[1..]) else 0
  }

  /** The greedy `(<br\/>\s*)*` at the start of s: how many breaks it takes and its length. */
  function BreakRun(s: string): (r: (nat, nat))
    ensures r.1 <= |s|
    ensures r.0 > 0 ==> r.1 >= 5
    decreases |s|
  {
    if StartsWith(s, Br) then
      var m := 5 + WhitespacePrefix(s[5..]);
      var rest := BreakRun(s[m..]);
      (rest.0 + 1, m + rest.1)
    else (0, 0)
  }

  /** `replace(/(<br\/>\s*){2,}/g, '<br/>')` (:37). */
  function CollapseBreaks(s: string): string
    decreases |s|
  {
    if s == [] then []
    else if BreakRun(s).0 >= 2 then Br + CollapseBreaks(s[BreakRun(s).1..])
    else [s[0]] + CollapseBreaks(s[1..])
  }

  /** SimpleMarkdown: the HTML string the report pane receives. */
  function Render(content: string): string
  {
    CollapseBreaks(Unwrap(Pieces(Lines(content))))
  }

  // ---------------------------------------------------------------------------------------
  // Splitting and joining lines
  // ---------------------------------------------------------------------------------------

  lemma {:induction false} JoinLinesCons(c: char, lines: seq<string>)
    requires |lines| >= 1
    ensures JoinLines([[c] + lines[0]] + lines[1..]) == [c] + JoinLines(lines)
  {
    var l := [[c] + lines[0]] + lines[1..];
    if |lines| > 1 {
      assert l[1..] == lines[1..];
    }
  }

  /** Joining the split lines gives back the text. */
  lemma {:induction false} JoinOfLines(s: string)
    ensures JoinLines(Lines(s)) == s
  {
    if s != [] {
      var rest := Lines(s[1..]);
      JoinOfLines(s[1..]);
      if s[0] == '\n' {
        assert ([""] + rest)[1..] == rest;
      } else {
        JoinLinesCons(s[0], rest);
      }
    }
  }

  lemma {:induction false} LinesOfPrefix(x: string, t: string)
    requires '\n' !in x
    ensures Lines(x + t) == [x + Lines(t)[0]] + Lines(t)[1..]
  {
    if x == [] {
      assert x + t == t;
      assert x + Lines(t)[0] == Lines(t)[0];
      assert Lines(t) == [Lines(t)[0]] + Lines(t)[1..];
    } else {
      assert (x + t)[0] == x[0];
      assert (x + t)[1..] == x[1..] + t;
      LinesOfPrefix(x[1..], t);
      assert [x[0]] + (x[1..] + Lines(t)[0]) == x + Lines(t)[0];
    }
  }

  /** Splitting joined lines that hold no line break gives back the lines. */
  lemma {:induction false} LinesOfJoin(lines: seq<string>)
    requires |lines| >= 1
    requires forall i | 0 <= i < |lines| :: '\n' !in lines[i]
    ensures Lines(JoinLines(lines)) == lines
  {
    if |lines| == 1 {
      LinesOfPrefix(lines[0], "");
      assert lines[0] + "" == lines[0];
    } else {
      var rest := JoinLines(lines[1..]);
      LinesOfJoin(lines[1..]);
      assert ("\n" + rest)[1..] == rest;
      assert Lines("\n" + rest) == [""] + lines[1..];
      assert lines[0] + "\n" + rest == lines[0] + ("\n" + rest);
      LinesOfPrefix(lines[0], "\n" + rest);
      assert lines[0] + "" == lines[0];
    }
  }

  /** No line `split('\n')` produces holds a line break. */
  lemma {:induction false} LinesHaveNoBreak(s: string)
    ensures forall i | 0 <= i < |Lines(s)| :: '\n' !in Lines(s)[i]
  {
    if s != [] {
      LinesHaveNoBreak(s[1..]);
    }
  }

  // ---------------------------------------------------------------------------------------
  // The bold rule
  // ---------------------------------------------------------------------------------------

  /** Text with no "**" in it is copied unchanged. */
  lemma {:induction false} BoldIdentity(s: string)
    requires forall j :: !PairAt(s, j)
    ensures Bold(s) == s
  {
    if s != [] {
      assert !PairAt(s, 0);
      forall j ensures !PairAt(s[1..], j) {
        assert PairAt(s[1..], j) ==> PairAt(s, j + 1);
      }
      BoldIdentity(s[1..]);
    }
  }

  /** A prefix without '*' is copied and the rule carries on after it. */
  lemma {:induction false} BoldPlainPrefix(x: string, t: string)
    requires '*' !in x
    ensures Bold(x + t) == x + Bold(t)
  {
    if x == [] {
      assert x + t == t;
    } else {
      assert (x + t)[0] == x[0];
      assert (x + t)[1..] == x[1..] + t;
      BoldPlainPrefix(x[1..], t);
      assert [x[0]] + (x[1..] + Bold(t)) == x + Bold(t);
    }
  }

  /**
   * "**x**" with no '*' inside becomes a strong element around x, and the rule carries on
   * after the closing pair; "****" gives an empty strong element.
   */
  lemma BoldSpan(x: string, t: string)
    requires '*' !in x
    ensures Bold("**" + x + "**" + t) == "<strong>" + x + "</strong>" + Bold(t)
  {
    var s := "**" + x + "**" + t;
    var c := 2 + |x|;
    assert PairAt(s, 0);
    assert s[c] == '*' && s[c + 1] == '*';
    assert PairAt(s, c);
    forall j | 2 <= j < c ensures !PairAt(s, j) {
      assert s[j] == x[j - 2];
    }
    assert FindClose(s, 2) == Some(c);
    assert s[2..c] == x;
    assert s[c + 2..] == t;
  }

  /** The bold rule neither creates nor removes the last non-whitespace character of a line. */
  lemma {:induction false} BoldBlank(s: string)
    ensures Blank(Bold(s)) <==> Blank(s)
  {
    if Blank(s) {
      forall j ensures !PairAt(s, j) {
        if 0 <= j < |s| {
          assert s[j] in Whitespace;
        }
      }
      BoldIdentity(s);
    } else {
      var i :| 0 <= i < |s| && s[i] !in Whitespace;
      if PairAt(s, 0) && FindClose(s, 2).Some? {
        assert Bold(s)[0] == '<';
      } else if s[0] !in Whitespace {
        assert Bold(s)[0] == s[0];
      } else {
        assert s[1..][i - 1] == s[i];
        BoldBlank(s[1..]);
        var k :| 0 <= k < |Bold(s[1..])| && Bold(s[1..])[k] !in Whitespace;
        assert Bold(s)[k + 1] == Bold(s[1..])[k];
      }
    }
  }

  /** When a heading or list rule matches, the rewritten line starts with '<'. */
  lemma RuleOutputStartsWithTag(line: string)
    requires ListItem(HeadingFour(HeadingThree(line))) != line
    ensures ListItem(HeadingFour(HeadingThree(line)))[0] == '<'
    ensures line != [] && (line[0] == '#' || line[0] == '*')
  {
    OpenTagFacts();
    var g := HeadingThree(line);
    var h := HeadingFour(g);
    var a := ListItem(h);
    if g != line {
      assert g[0] == H3Open[0];
    }
    if h != g {
      assert h[0] == H4Open[0];
    }
    if a != h {
      assert a[0] == LiOpen[0];
    }
  }

  /** A line becomes a break exactly when it is blank, and otherwise a paragraph. */
  lemma LineBecomesBreak(line: string)
    ensures Piece(RewriteLine(line)) == Br <==> Blank(line)
    ensures !Blank(line) ==> Piece(RewriteLine(line)) == "<p>" + RewriteLine(line) + "</p>"
  {
    var a := ListItem(HeadingFour(HeadingThree(line)));
    var x := RewriteLine(line);
    if a != line {
      RuleOutputStartsWithTag(line);
      assert !Blank(line) by { assert line[0] !in Whitespace; }
      assert x[0] == '<' && x != [] by {
        assert a == [a[0]] + a[1..];
        BoldPlainPrefix([a[0]], a[1..]);
      }
      assert !Blank(x) by { assert x[0] !in Whitespace; }
    } else {
      BoldBlank(line);
    }
    if !Blank(x) {
      assert ("<p>" + x + "</p>")[1] != Br[1];
    }
  }

  // ---------------------------------------------------------------------------------------
  // Scanning past text that no pattern matches
  // ---------------------------------------------------------------------------------------

  lemma Mismatch(s: string, p: string, i: nat)
    requires i < |s| && i < |p| && s[i] != p[i]
    ensures !StartsWith(s, p)
  {
    if StartsWith(s, p) {
      StartsWithAt(s, p, i);
    }
  }

  /**
   * The unwrap patterns: each starts with '<', and none can start at a break or at a strong
   * element's tags ("<br/>", "<strong>", "</strong>").
   */
  predicate TagPatterns(pats: seq<string>)
  {
    forall i | 0 <= i < |pats| ::
      |pats[i]| >= 3 && pats[i][0] == '<' && pats[i][1] != 'b' && pats[i][1] != 's' &&
      (pats[i][1] == '/' ==> pats[i][2] != 's')
  }

  lemma UnwrapPatternsAreTags()
    ensures TagPatterns(OpenHeadingPatterns) && TagPatterns(CloseHeadingPatterns)
    ensures TagPatterns(OpenItemPatterns) && TagPatterns(CloseItemPatterns)
  {
  }

  lemma {:induction false} MatchLengthZero(s: string, pats: seq<string>)
    requires forall i | 0 <= i < |pats| :: !StartsWith(s, pats[i])
    ensures MatchLength(s, pats) == 0
  {
    if pats != [] {
      assert !StartsWith(s, pats[0]);
      forall i | 0 <= i < |pats| - 1 ensures !StartsWith(s, pats[1..][i]) {
        assert pats[1..][i] == pats[i + 1];
      }
      MatchLengthZero(s, pats[1..]);
    }
  }

  /** Where no pattern matches, one character is copied. */
  lemma ReplaceAllCopy(s: string, pats: seq<string>, rep: string)
    requires s != [] && forall i | 0 <= i < |pats| :: !StartsWith(s, pats[i])
    ensures ReplaceAll(s, pats, rep) == [s[0]] + ReplaceAll(s[1..], pats, rep)
  {
    MatchLengthZero(s, pats);
  }

  /** Text without '<' passes through a replacement whose patterns all start with '<'. */
  lemma {:induction false} ReplaceAllPlain(x: string, y: string, pats: seq<string>, rep: string)
    requires TagPatterns(pats) && '<' !in x
    ensures ReplaceAll(x + y, pats, rep) == x + ReplaceAll(y, pats, rep)
  {
    if x == [] {
      assert x + y == y;
    } else {
      var s := x + y;
      forall i | 0 <= i < |pats| ensures !StartsWith(s, pats[i]) {
        Mismatch(s, pats[i], 0);
      }
      var r := ReplaceAll(y, pats, rep);
      assert s[0] == x[0] && s[1..] == x[1..] + y;
      ReplaceAllCopy(s, pats, rep);
      ReplaceAllPlain(x[1..], y, pats, rep);
      assert [x[0]] + (x[1..] + r) == x + r;
    }
  }

  /** A tag that no pattern matches at passes through. */
  lemma ReplaceAllTag(tag: string, y: string, pats: seq<string>, rep: string)
    requires TagPatterns(pats) && tag != [] && '<' !in tag[1..]
    requires forall i | 0 <= i < |pats| :: !StartsWith(tag + y, pats[i])
    ensures ReplaceAll(tag + y, pats, rep) == tag + ReplaceAll(y, pats, rep)
  {
    var s := tag + y;
    var r := ReplaceAll(y, pats, rep);
    assert s[0] == tag[0] && s[1..] == tag[1..] + y;
    ReplaceAllCopy(s, pats, rep);
    ReplaceAllPlain(tag[1..], y, pats, rep);
    assert [tag[0]] + (tag[1..] + r) == tag + r;
  }

  lemma {:induction false} MatchLengthFirst(s: string, pats: seq<string>, i: nat)
    requires i < |pats| && pats[i] != [] && StartsWith(s, pats[i])
    requires forall j | 0 <= j < i :: pats[j] == [] || !StartsWith(s, pats[j])
    ensures MatchLength(s, pats) == |pats[i]|
  {
    if i > 0 {
      assert pats[i] == pats[1..][i - 1];
      forall j | 0 <= j < i - 1 ensures pats[1..][j] == [] || !StartsWith(s, pats[1..][j]) {
        assert pats[1..][j] == pats[j + 1];
      }
      MatchLengthFirst(s, pats[1..], i - 1);
    }
  }

  /** An occurrence of the i-th pattern, with none of the earlier ones there, is replaced. */
  lemma ReplaceAllHit(pats: seq<string>, i: nat, y: string, rep: string)
    requires TagPatterns(pats) && i < |pats|
    requires forall j | 0 <= j < i :: !StartsWith(pats[i] + y, pats[j])
    ensures ReplaceAll(pats[i] + y, pats, rep) == rep + ReplaceAll(y, pats, rep)
  {
    var s := pats[i] + y;
    assert s[..|pats[i]|] == pats[i];
    MatchLengthFirst(s, pats, i);
    assert s[|pats[i]|..] == y;
  }

  /** Where no break starts, one character is copied. */
  lemma CollapseCopy(s: string)
    requires s != [] && !StartsWith(s, Br)
    ensures CollapseBreaks(s) == [s[0]] + CollapseBreaks(s[1..])
  {
    assert BreakRun(s).0 == 0;
  }

  /** Text without '<' passes through the break collapse. */
  lemma {:induction false} CollapsePlain(x: string, y: string)
    requires '<' !in x
    ensures CollapseBreaks(x + y) == x + CollapseBreaks(y)
  {
    if x == [] {
      assert x + y == y;
    } else {
      var s := x + y;
      var r := CollapseBreaks(y);
      Mismatch(s, Br, 0);
      assert s[0] == x[0] && s[1..] == x[1..] + y;
      CollapseCopy(s);
      CollapsePlain(x[1..], y);
      assert [x[0]] + (x[1..] + r) == x + r;
    }
  }

  /** A tag other than a break passes through the break collapse. */
  lemma CollapseTag(tag: string, y: string)
    requires tag != [] && '<' !in tag[1..] && !StartsWith(tag + y, Br)
    ensures CollapseBreaks(tag + y) == tag + CollapseBreaks(y)
  {
    var s := tag + y;
    var r := CollapseBreaks(y);
    assert s[0] == tag[0] && s[1..] == tag[1..] + y;
    CollapseCopy(s);
    CollapsePlain(tag[1..], y);
    assert [tag[0]] + (tag[1..] + r) == tag + r;
  }

  // ---------------------------------------------------------------------------------------
  // Inline text: plain runs and bold spans
  // ---------------------------------------------------------------------------------------

  /** A run of inline text in the model's answer: plain, or between "**" pairs. */
  datatype Span = Text(text: string) | Strong(text: string)

  /** Text with no markup character and no line break. */
  predicate PlainText(s: string)
  {
    '<' !in s && '*' !in s && '\n' !in s
  }

  predicate PlainSpans(spans: seq<Span>)
  {
    forall k | 0 <= k < |spans| :: PlainText(spans[k].text)
  }

  /** The markdown source of a run of spans. */
  function Markup(spans: seq<Span>): string
  {
    if spans == [] then ""
    else
      match spans[0]
      case Text(t) => t + Markup(spans[1..])
      case Strong(t) => "**" + t + "**" + Markup(spans[1..])
  }

  /** The HTML a run of spans should become. */
  function Html(spans: seq<Span>): string
  {
    if spans == [] then ""
    else
      match spans[0]
      case Text(t) => t + Html(spans[1..])
      case Strong(t) => "<strong>" + t + "</strong>" + Html(spans[1..])
  }

  lemma AppendAssoc(a: string, b: string, c: string)
    ensures (a + b) + c == a + (b + c)
  {
  }

  /** The bold rule turns the markup of any run of spans into its HTML. */
  lemma {:induction false} BoldMarkup(spans: seq<Span>, tail: string)
    requires PlainSpans(spans)
    ensures Bold(Markup(spans) + tail) == Html(spans) + Bold(tail)
  {
    if spans == [] {
      assert Markup(spans) + tail == tail;
    } else {
      PlainSpansTail(spans);
      var m := Markup(spans[1..]);
      var h := Html(spans[1..]);
      var b := Bold(tail);
      BoldMarkup(spans[1..], tail);
      match spans[0]
      case Text(t) =>
        AppendAssoc(t, m, tail);
        BoldPlainPrefix(t, m + tail);
        AppendAssoc(t, h, b);
      case Strong(t) =>
        var x := "**" + t + "**";
        var y := "<strong>" + t + "</strong>";
        AppendAssoc(x, m, tail);
        BoldSpan(t, m + tail);
        AppendAssoc(y, h, b);
    }
  }

  lemma PlainSpansTail(spans: seq<Span>)
    requires spans != [] && PlainSpans(spans)
    ensures PlainSpans(spans[1..]) && PlainText(spans[0].text)
  {
    forall k | 0 <= k < |spans| - 1 ensures PlainText(spans[1..][k].text) {
      assert spans[1..][k] == spans[k + 1];
    }
  }

  /** The markup of plain spans holds no line break. */
  lemma {:induction false} MarkupHasNoBreak(spans: seq<Span>)
    requires PlainSpans(spans)
    ensures '\n' !in Markup(spans)
  {
    if spans != [] {
      PlainSpansTail(spans);
      MarkupHasNoBreak(spans[1..]);
    }
  }

  /** The HTML of plain spans passes through each unwrap replacement unchanged. */
  lemma {:induction false} ReplaceAllHtml(spans: seq<Span>, y: string, pats: seq<string>, rep: string)
    requires PlainSpans(spans) && TagPatterns(pats)
    ensures ReplaceAll(Html(spans) + y, pats, rep) == Html(spans) + ReplaceAll(y, pats, rep)
  {
    if spans == [] {
      assert Html(spans) + y == y;
    } else {
      PlainSpansTail(spans);
      var h := Html(spans[1..]);
      var r := ReplaceAll(y, pats, rep);
      ReplaceAllHtml(spans[1..], y, pats, rep);
      match spans[0]
      case Text(t) =>
        AppendAssoc(t, h, y);
        ReplaceAllPlain(t, h + y, pats, rep);
        AppendAssoc(t, h, r);
      case Strong(t) =>
        StrongPassesReplaceAll(t, h + y, pats, rep);
        AppendAssoc("<strong>" + t + "</strong>", h, y);
        AppendAssoc("<strong>" + t + "</strong>", h, r);
    }
  }

  lemma StrongPassesReplaceAll(t: string, y: string, pats: seq<string>, rep: string)
    requires PlainText(t) && TagPatterns(pats)
    ensures ReplaceAll("<strong>" + t + "</strong>" + y, pats, rep)
         == "<strong>" + t + "</strong>" + ReplaceAll(y, pats, rep)
  {
    var open, close := "<strong>", "</strong>";
    var r := ReplaceAll(y, pats, rep);
    assert ReplaceAll(close + y, pats, rep) == close + r by { CloseStrongPassesReplaceAll(y, pats, rep); }
    assert ReplaceAll(t + (close + y), pats, rep) == t + (close + r) by {
      ReplaceAllPlain(t, close + y, pats, rep);
    }
    assert ReplaceAll(open + (t + (close + y)), pats, rep) == open + (t + (close + r)) by {
      OpenStrongPassesReplaceAll(t + (close + y), pats, rep);
    }
    AppendAssoc(open + t, close, y);
    AppendAssoc(open, t, close + y);
    AppendAssoc(open + t, close, r);
    AppendAssoc(open, t, close + r);
  }

  lemma OpenStrongPassesReplaceAll(y: string, pats: seq<string>, rep: string)
    requires TagPatterns(pats)
    ensures ReplaceAll("<strong>" + y, pats, rep) == "<strong>" + ReplaceAll(y, pats, rep)
  {
    var s := "<strong>" + y;
    forall i | 0 <= i < |pats| ensures !StartsWith(s, pats[i]) {
      Mismatch(s, pats[i], 1);
    }
    ReplaceAllTag("<strong>", y, pats, rep);
  }

  lemma CloseStrongPassesReplaceAll(y: string, pats: seq<string>, rep: string)
    requires TagPatterns(pats)
    ensures ReplaceAll("</strong>" + y, pats, rep) == "</strong>" + ReplaceAll(y, pats, rep)
  {
    var s := "</strong>" + y;
    forall i | 0 <= i < |pats| ensures !StartsWith(s, pats[i]) {
      if pats[i][1] == '/' { Mismatch(s, pats[i], 2); } else { Mismatch(s, pats[i], 1); }
    }
    ReplaceAllTag("</strong>", y, pats, rep);
  }

  /** The HTML of plain spans passes through the break collapse unchanged. */
  lemma {:induction false} CollapseHtml(spans: seq<Span>, y: string)
    requires PlainSpans(spans)
    ensures CollapseBreaks(Html(spans) + y) == Html(spans) + CollapseBreaks(y)
  {
    if spans == [] {
      assert Html(spans) + y == y;
    } else {
      PlainSpansTail(spans);
      var h := Html(spans[1..]);
      var r := CollapseBreaks(y);
      CollapseHtml(spans[1..], y);
      match spans[0]
      case Text(t) =>
        AppendAssoc(t, h, y);
        CollapsePlain(t, h + y);
        AppendAssoc(t, h, r);
      case Strong(t) =>
        StrongPassesCollapse(t, h + y);
        AppendAssoc("<strong>" + t + "</strong>", h, y);
        AppendAssoc("<strong>" + t + "</strong>", h, r);
    }
  }

  lemma StrongPassesCollapse(t: string, y: string)
    requires PlainText(t)
    ensures CollapseBreaks("<strong>" + t + "</strong>" + y)
         == "<strong>" + t + "</strong>" + CollapseBreaks(y)
  {
    var open, close := "<strong>", "</strong>";
    var r := CollapseBreaks(y);
    assert CollapseBreaks(close + y) == close + r by { CloseStrongPassesCollapse(y); }
    assert CollapseBreaks(t + (close + y)) == t + (close + r) by { CollapsePlain(t, close + y); }
    assert CollapseBreaks(open + (t + (close + y))) == open + (t + (close + r)) by {
      OpenStrongPassesCollapse(t + (close + y));
    }
    AppendAssoc(open + t, close, y);
    AppendAssoc(open, t, close + y);
    AppendAssoc(open + t, close, r);
    AppendAssoc(open, t, close + r);
  }

  lemma OpenStrongPassesCollapse(y: string)
    ensures CollapseBreaks("<strong>" + y) == "<strong>" + CollapseBreaks(y)
  {
    Mismatch("<strong>" + y, Br, 1);
    CollapseTag("<strong>", y);
  }

  lemma CloseStrongPassesCollapse(y: string)
    ensures CollapseBreaks("</strong>" + y) == "</strong>" + CollapseBreaks(y)
  {
    Mismatch("</strong>" + y, Br, 1);
    CollapseTag("</strong>", y);
  }

  // ---------------------------------------------------------------------------------------
  // Documents built from blocks
  // ---------------------------------------------------------------------------------------

  /** One block of the model's answer, as the rules of :30-34 read it. */
  datatype Block =
    | Heading3(spans: seq<Span>)
    | Heading4(spans: seq<Span>)
    | Item(spans: seq<Span>)
    | Para(spans: seq<Span>)
    | Gap(lines: seq<string>)

  /** The markdown lines of a block. */
  function SourceLines(b: Block): seq<string>
  {
    match b
    case Heading3(sp) => ["### " + Markup(sp)]
    case Heading4(sp) => ["#### " + Markup(sp)]
    case Item(sp) => ["* " + Markup(sp)]
    case Para(sp) => [Markup(sp)]
    case Gap(ls) => ls
  }

  /**
   * A block whose lines read back as that block: plain spans; a paragraph that is not blank
   * and that no heading or list rule matches; a gap of at least one blank line.
   */
  predicate WellFormed(b: Block)
  {
    match b
    case Gap(ls) => |ls| >= 1 && forall i | 0 <= i < |ls| :: Blank(ls[i]) && '\n' !in ls[i]
    case Para(sp) =>
      PlainSpans(sp) && !Blank(Markup(sp)) && !StartsWith(Markup(sp), "### ") &&
      !StartsWith(Markup(sp), "#### ") && !StartsWith(Markup(sp), "* ")
    case _ => PlainSpans(b.spans)
  }

  /** Well-formed blocks, with no two gaps in a row (they would be one gap). */
  predicate WellFormedDocument(bs: seq<Block>)
  {
    |bs| >= 1 && (forall i | 0 <= i < |bs| :: WellFormed(bs[i])) && GapsApart(bs)
  }

  /** No two gaps in a row. */
  predicate GapsApart(bs: seq<Block>)
  {
    forall i | 0 <= i < |bs| - 1 :: !(bs[i].Gap? && bs[i + 1].Gap?)
  }

  function DocumentLines(bs: seq<Block>): (r: seq<string>)
    ensures (forall i | 0 <= i < |bs| :: WellFormed(bs[i])) ==> |r| >= |bs|
  {
    if bs == [] then []
    else
      var rest := DocumentLines(bs[1..]);
      assert (forall i | 0 <= i < |bs| :: WellFormed(bs[i])) ==>
        forall i | 0 <= i < |bs| - 1 :: WellFormed(bs[1..][i]);
      SourceLines(bs[0]) + rest
  }

  /** The text of a document: its lines joined with '\n'. */
  function Document(bs: seq<Block>): string
    requires WellFormedDocument(bs)
  {
    JoinLines(DocumentLines(bs))
  }

  /** n breaks followed by `rest`. */
  function BreaksThen(n: nat, rest: string): string
  {
    if n == 0 then rest else Br + BreaksThen(n - 1, rest)
  }

  /** The pieces :34 makes of a block, followed by `rest`. */
  function PiecesThen(b: Block, rest: string): string
  {
    match b
    case Heading3(sp) => "<p>" + (H3Open + (Html(sp) + ("</h3>" + ("</p>" + rest))))
    case Heading4(sp) => "<p>" + (H4Open + (Html(sp) + ("</h4>" + ("</p>" + rest))))
    case Item(sp) => "<p>" + (LiOpen + (Html(sp) + ("</li>" + ("</p>" + rest))))
    case Para(sp) => "<p>" + (Html(sp) + ("</p>" + rest))
    case Gap(ls) => BreaksThen(|ls|, rest)
  }

  function PiecesOf(bs: seq<Block>): string
  {
    if bs == [] then "" else PiecesThen(bs[0], PiecesOf(bs[1..]))
  }

  lemma {:induction false} PiecesAppend(a: seq<string>, b: seq<string>)
    ensures Pieces(a + b) == Pieces(a) + Pieces(b)
  {
    if a == [] {
      assert a + b == b;
    } else {
      assert (a + b)[0] == a[0] && (a + b)[1..] == a[1..] + b;
      PiecesAppend(a[1..], b);
      AppendAssoc(Piece(RewriteLine(a[0])), Pieces(a[1..]), Pieces(b));
    }
  }

  lemma PiecesCons(l: string, ls: seq<string>)
    ensures Pieces([l] + ls) == Piece(RewriteLine(l)) + Pieces(ls)
  {
    assert ([l] + ls)[0] == l && ([l] + ls)[1..] == ls;
  }

  /** Bold leaves the tags around plain spans alone. */
  lemma BoldFramed(open: string, sp: seq<Span>, close: string)
    requires PlainSpans(sp) && '*' !in open && '*' !in close
    ensures Bold(open + Markup(sp) + close) == open + Html(sp) + close
  {
    var b := Bold(close);
    assert b == close by { BoldPlainPrefix(close, ""); assert close + "" == close; }
    var m, h := Markup(sp), Html(sp);
    assert Bold(open + (m + close)) == open + Bold(m + close) by {
      BoldPlainPrefix(open, m + close);
    }
    assert Bold(m + close) == h + b by { BoldMarkup(sp, close); }
    AppendAssoc(open, m, close);
    AppendAssoc(open, h, close);
  }

  lemma RewriteHeadingThree(sp: seq<Span>)
    requires PlainSpans(sp)
    ensures RewriteLine("### " + Markup(sp)) == H3Open + Html(sp) + "</h3>"
  {
    var line := "### " + Markup(sp);
    var a := H3Open + Markup(sp) + "</h3>";
    assert HeadingThree(line) == a by {
      assert line[..4] == "### " && line[4..] == Markup(sp);
    }
    assert HeadingFour(a) == a by { Mismatch(a, "#### ", 0); }
    assert ListItem(a) == a by { Mismatch(a, "* ", 0); }
    assert Bold(a) == H3Open + Html(sp) + "</h3>" by { OpenTagFacts(); BoldFramed(H3Open, sp, "</h3>"); }
  }

  lemma RewriteHeadingFour(sp: seq<Span>)
    requires PlainSpans(sp)
    ensures RewriteLine("#### " + Markup(sp)) == H4Open + Html(sp) + "</h4>"
  {
    var line := "#### " + Markup(sp);
    var a := H4Open + Markup(sp) + "</h4>";
    assert HeadingThree(line) == line by { Mismatch(line, "### ", 3); }
    assert HeadingFour(line) == a by {
      assert line[..5] == "#### " && line[5..] == Markup(sp);
    }
    assert ListItem(a) == a by { Mismatch(a, "* ", 0); }
    assert Bold(a) == H4Open + Html(sp) + "</h4>" by { OpenTagFacts(); BoldFramed(H4Open, sp, "</h4>"); }
  }

  lemma RewriteItem(sp: seq<Span>)
    requires PlainSpans(sp)
    ensures RewriteLine("* " + Markup(sp)) == LiOpen + Html(sp) + "</li>"
  {
    var line := "* " + Markup(sp);
    var a := LiOpen + Markup(sp) + "</li>";
    assert HeadingThree(line) == line by { Mismatch(line, "### ", 0); }
    assert HeadingFour(line) == line by { Mismatch(line, "#### ", 0); }
    assert ListItem(line) == a by {
      assert line[..2] == "* " && line[2..] == Markup(sp);
    }
    assert Bold(a) == LiOpen + Html(sp) + "</li>" by { OpenTagFacts(); BoldFramed(LiOpen, sp, "</li>"); }
  }

  lemma RewritePara(sp: seq<Span>)
    requires WellFormed(Para(sp))
    ensures RewriteLine(Markup(sp)) == Html(sp)
    ensures Piece(RewriteLine(Markup(sp))) == "<p>" + Html(sp) + "</p>"
  {
    var m := Markup(sp);
    assert ListItem(HeadingFour(HeadingThree(m))) == m;
    assert m + "" == m;
    BoldMarkup(sp, "");
    assert Html(sp) + "" == Html(sp);
    LineBecomesBreak(m);
  }

  /** Every line of a gap becomes a break. */
  lemma {:induction false} GapPieces(ls: seq<string>, rest: seq<string>)
    requires forall i | 0 <= i < |ls| :: Blank(ls[i])
    ensures Pieces(ls + rest) == BreaksThen(|ls|, Pieces(rest))
  {
    if ls == [] {
      assert ls + rest == rest;
    } else {
      assert (ls + rest)[0] == ls[0] && (ls + rest)[1..] == ls[1..] + rest;
      LineBecomesBreak(ls[0]);
      GapPieces(ls[1..], rest);
    }
  }

  /** A line that a rule turned into `x` becomes the paragraph around `x`. */
  lemma OneLinePieces(l: string, x: string, rest: seq<string>)
    requires RewriteLine(l) == x && !Blank(l)
    ensures Pieces([l] + rest) == "<p>" + x + "</p>" + Pieces(rest)
  {
    PiecesCons(l, rest);
    LineBecomesBreak(l);
  }

  lemma Regroup(a: string, b: string, c: string, r: string)
    ensures "<p>" + (a + b + c) + "</p>" + r == "<p>" + (a + (b + (c + ("</p>" + r))))
  {
  }

  /** The lines of a block, followed by more lines, become the block's pieces. */
  lemma BlockPieces(b: Block, rest: seq<string>)
    requires WellFormed(b)
    ensures Pieces(SourceLines(b) + rest) == PiecesThen(b, Pieces(rest))
  {
    var r := Pieces(rest);
    match b
    case Heading3(sp) =>
      var l := "### " + Markup(sp);
      assert RewriteLine(l) == H3Open + Html(sp) + "</h3>" by { RewriteHeadingThree(sp); }
      assert l[0] == '#';
      OneLinePieces(l, H3Open + Html(sp) + "</h3>", rest);
      Regroup(H3Open, Html(sp), "</h3>", r);
    case Heading4(sp) =>
      var l := "#### " + Markup(sp);
      assert RewriteLine(l) == H4Open + Html(sp) + "</h4>" by { RewriteHeadingFour(sp); }
      assert l[0] == '#';
      OneLinePieces(l, H4Open + Html(sp) + "</h4>", rest);
      Regroup(H4Open, Html(sp), "</h4>", r);
    case Item(sp) =>
      var l := "* " + Markup(sp);
      assert RewriteLine(l) == LiOpen + Html(sp) + "</li>" by { RewriteItem(sp); }
      assert l[0] == '*';
      OneLinePieces(l, LiOpen + Html(sp) + "</li>", rest);
      Regroup(LiOpen, Html(sp), "</li>", r);
    case Para(sp) =>
      RewritePara(sp);
      OneLinePieces(Markup(sp), Html(sp), rest);
      AppendAssoc("<p>" + Html(sp), "</p>", r);
      AppendAssoc("<p>", Html(sp), "</p>" + r);
    case Gap(ls) =>
      GapPieces(ls, rest);
  }

  /** The lines of a document become the pieces of its blocks, in order. */
  lemma {:induction false} DocumentPieces(bs: seq<Block>)
    requires forall i | 0 <= i < |bs| :: WellFormed(bs[i])
    ensures Pieces(DocumentLines(bs)) == PiecesOf(bs)
  {
    if bs != [] {
      assert forall i | 0 <= i < |bs| - 1 :: bs[1..][i] == bs[i + 1];
      DocumentPieces(bs[1..]);
      BlockPieces(bs[0], DocumentLines(bs[1..]));
    }
  }

  // ---------------------------------------------------------------------------------------
  // The unwrap passes over each block
  // ---------------------------------------------------------------------------------------

  /** What the unwrap passes of :35-36 make of a block's pieces, followed by `rest`. */
  function UnwrappedThen(b: Block, rest: string): string
  {
    match b
    case Heading3(sp) => "<p>" + (H3Open + (Html(sp) + ("</h>" + rest)))
    case Heading4(sp) => "<p>" + (H4Open + (Html(sp) + ("</h>" + rest)))
    case Item(sp) => "<p>" + (LiOpen + (Html(sp) + ("</li>" + rest)))
    case Para(sp) => "<p>" + (Html(sp) + ("</p>" + rest))
    case Gap(ls) => BreaksThen(|ls|, rest)
  }

  /** The same after the first two passes only: list items are still wrapped. */
  function ClosedThen(b: Block, rest: string): string
  {
    if b.Item? then PiecesThen(b, rest) else UnwrappedThen(b, rest)
  }

  /** A tag that differs from every pattern at position k passes through. */
  lemma SkipTag(tag: string, y: string, pats: seq<string>, rep: string, k: nat)
    requires TagPatterns(pats) && tag != [] && '<' !in tag[1..]
    requires forall i | 0 <= i < |pats| :: k < |pats[i]| && k < |tag + y| && (tag + y)[k] != pats[i][k]
    ensures ReplaceAll(tag + y, pats, rep) == tag + ReplaceAll(y, pats, rep)
  {
    forall i | 0 <= i < |pats| ensures !StartsWith(tag + y, pats[i]) {
      Mismatch(tag + y, pats[i], k);
    }
    ReplaceAllTag(tag, y, pats, rep);
  }

  /** The HTML of plain spans is empty, or starts with a character other than '<', or with "<s". */
  lemma {:induction false} HtmlStart(sp: seq<Span>)
    requires PlainSpans(sp)
    ensures Html(sp) == [] || Html(sp)[0] != '<' || (|Html(sp)| >= 2 && Html(sp)[1] == 's')
  {
    if sp != [] {
      var h := Html(sp[1..]);
      match sp[0]
      case Text(t) =>
        assert Html(sp) == t + h;
        if t != [] {
          assert Html(sp)[0] == t[0];
        } else {
          assert t + h == h;
          assert h == [] || h[0] != '<' || (|h| >= 2 && h[1] == 's') by {
            PlainSpansTail(sp);
            HtmlStart(sp[1..]);
          }
        }
      case Strong(t) =>
        var x := "<strong>" + t + "</strong>";
        assert Html(sp) == x + h;
        assert x[0] == '<' && x[1] == 's';
        assert Html(sp)[1] == x[1];
    }
  }

  /** Breaks pass through each unwrap replacement. */
  lemma {:induction false} BreaksPass(n: nat, R: string, pats: seq<string>, rep: string)
    requires TagPatterns(pats)
    ensures ReplaceAll(BreaksThen(n, R), pats, rep) == BreaksThen(n, ReplaceAll(R, pats, rep))
  {
    if n > 0 {
      BreaksPass(n - 1, R, pats, rep);
      SkipTag(Br, BreaksThen(n - 1, R), pats, rep, 1);
    }
  }

  lemma TagShape(name: string, attr: TagText)
    requires attr != [] && |name| == 4 && name[0] == '<' && '<' !in name[1..] && '*' !in name
    ensures |name + attr| > 4 && (name + attr)[..4] == name
    ensures '<' !in (name + attr)[1..] && '*' !in name + attr
  {
    assert (name + attr)[1..] == name[1..] + attr;
    assert (name + attr)[..4] == name;
  }

  /** The characters of the opening tags that the scans look at. */
  lemma OpenTagFacts()
    ensures |H3Open| > 4 && H3Open[0] == '<' && H3Open[1] == 'h' && H3Open[3] == ' ' && '<' !in H3Open[1..]
    ensures |H4Open| > 4 && H4Open[0] == '<' && H4Open[1] == 'h' && H4Open[3] == ' ' && '<' !in H4Open[1..]
    ensures |LiOpen| > 4 && LiOpen[0] == '<' && LiOpen[1] == 'l' && LiOpen[3] == ' ' && '<' !in LiOpen[1..]
    ensures '*' !in H3Open && '*' !in H4Open && '*' !in LiOpen
  {
    TagShape("<h3 ", H3Class1 + H3Class2 + H3Class3 + H3Class4);
    assert H3Open[1] == H3Open[..4][1] && H3Open[3] == H3Open[..4][3];
    TagShape("<h4 ", H4Class1 + H4Class2 + H4Class3 + H4Class4);
    assert H4Open[1] == H4Open[..4][1] && H4Open[3] == H4Open[..4][3];
    TagShape("<li ", LiClass);
    assert LiOpen[1] == LiOpen[..4][1] && LiOpen[3] == LiOpen[..4][3];
  }

  /** A tag that differs from every pattern at its own position k passes through. */
  lemma SkipLiteral(tag: string, y: string, pats: seq<string>, rep: string, k: nat)
    requires TagPatterns(pats) && tag != [] && '<' !in tag[1..] && k < |tag|
    requires forall i | 0 <= i < |pats| :: k < |pats[i]| && tag[k] != pats[i][k]
    ensures ReplaceAll(tag + y, pats, rep) == tag + ReplaceAll(y, pats, rep)
  {
    forall i | 0 <= i < |pats| ensures !StartsWith(tag + y, pats[i]) {
      assert (tag + y)[k] == tag[k];
      Mismatch(tag + y, pats[i], k);
    }
    ReplaceAllTag(tag, y, pats, rep);
  }

  /** A tag that, with the text `next` after it, differs from every pattern passes through. */
  lemma SkipTagBefore(tag: string, next: string, z: string, pats: seq<string>, rep: string, k: nat)
    requires TagPatterns(pats) && tag != [] && '<' !in tag[1..] && k < |tag + next|
    requires forall i | 0 <= i < |pats| :: k < |pats[i]| && (tag + next)[k] != pats[i][k]
    ensures ReplaceAll(tag + (next + z), pats, rep) == tag + ReplaceAll(next + z, pats, rep)
  {
    forall i | 0 <= i < |pats| ensures !StartsWith(tag + (next + z), pats[i]) {
      assert (tag + (next + z))[k] == (tag + next)[k];
      Mismatch(tag + (next + z), pats[i], k);
    }
    ReplaceAllTag(tag, next + z, pats, rep);
  }

  lemma Heading3Pass1(sp: seq<Span>, R: string)
    requires PlainSpans(sp)
    ensures ReplaceAll(PiecesThen(Heading3(sp), R), OpenHeadingPatterns, "<h")
         == PiecesThen(Heading3(sp), ReplaceAll(R, OpenHeadingPatterns, "<h"))
  {
    UnwrapPatternsAreTags();
    var r := ReplaceAll(R, OpenHeadingPatterns, "<h");
    assert ReplaceAll("</p>" + R, OpenHeadingPatterns, "<h") == "</p>" + r by {
      SkipLiteral("</p>", R, OpenHeadingPatterns, "<h", 1);
    }
    assert ReplaceAll("</h3>" + ("</p>" + R), OpenHeadingPatterns, "<h") == "</h3>" + ("</p>" + r) by {
      SkipLiteral("</h3>", "</p>" + R, OpenHeadingPatterns, "<h", 1);
    }
    assert ReplaceAll(Html(sp) + ("</h3>" + ("</p>" + R)), OpenHeadingPatterns, "<h") == Html(sp) + ("</h3>" + ("</p>" + r)) by {
      ReplaceAllHtml(sp, "</h3>" + ("</p>" + R), OpenHeadingPatterns, "<h");
    }
    assert ReplaceAll(H3Open + (Html(sp) + ("</h3>" + ("</p>" + R))), OpenHeadingPatterns, "<h") == H3Open + (Html(sp) + ("</h3>" + ("</p>" + r))) by {
      OpenTagFacts();
      SkipLiteral(H3Open, Html(sp) + ("</h3>" + ("</p>" + R)), OpenHeadingPatterns, "<h", 1);
    }
    assert ReplaceAll("<p>" + (H3Open + (Html(sp) + ("</h3>" + ("</p>" + R)))), OpenHeadingPatterns, "<h") == "<p>" + (H3Open + (Html(sp) + ("</h3>" + ("</p>" + r)))) by {
      OpenTagFacts();
      SkipTagBefore("<p>", H3Open, Html(sp) + ("</h3>" + ("</p>" + R)), OpenHeadingPatterns, "<h", 6);
    }
  }

  lemma Heading3Pass2(sp: seq<Span>, R: string)
    requires PlainSpans(sp)
    ensures ReplaceAll(PiecesThen(Heading3(sp), R), CloseHeadingPatterns, "</h>")
         == ClosedThen(Heading3(sp), ReplaceAll(R, CloseHeadingPatterns, "</h>"))
  {
    UnwrapPatternsAreTags();
    var r := ReplaceAll(R, CloseHeadingPatterns, "</h>");
    assert ReplaceAll("</h3>" + ("</p>" + R), CloseHeadingPatterns, "</h>") == "</h>" + r by {
      assert "</h3>" + ("</p>" + R) == CloseHeadingPatterns[0] + R;
      ReplaceAllHit(CloseHeadingPatterns, 0, R, "</h>");
    }
    assert ReplaceAll(Html(sp) + ("</h3>" + ("</p>" + R)), CloseHeadingPatterns, "</h>") == Html(sp) + ("</h>" + r) by {
      ReplaceAllHtml(sp, "</h3>" + ("</p>" + R), CloseHeadingPatterns, "</h>");
    }
    assert ReplaceAll(H3Open + (Html(sp) + ("</h3>" + ("</p>" + R))), CloseHeadingPatterns, "</h>") == H3Open + (Html(sp) + ("</h>" + r)) by {
      OpenTagFacts();
      SkipLiteral(H3Open, Html(sp) + ("</h3>" + ("</p>" + R)), CloseHeadingPatterns, "</h>", 1);
    }
    assert ReplaceAll("<p>" + (H3Open + (Html(sp) + ("</h3>" + ("</p>" + R)))), CloseHeadingPatterns, "</h>") == "<p>" + (H3Open + (Html(sp) + ("</h>" + r))) by {
      SkipLiteral("<p>", H3Open + (Html(sp) + ("</h3>" + ("</p>" + R))), CloseHeadingPatterns, "</h>", 1);
    }
  }

  lemma Heading3Pass3(sp: seq<Span>, R: string)
    requires PlainSpans(sp)
    ensures ReplaceAll(ClosedThen(Heading3(sp), R), OpenItemPatterns, "<li>")
         == ClosedThen(Heading3(sp), ReplaceAll(R, OpenItemPatterns, "<li>"))
  {
    UnwrapPatternsAreTags();
    var r := ReplaceAll(R, OpenItemPatterns, "<li>");
    assert ReplaceAll("</h>" + R, OpenItemPatterns, "<li>") == "</h>" + r by {
      SkipLiteral("</h>", R, OpenItemPatterns, "<li>", 1);
    }
    assert ReplaceAll(Html(sp) + ("</h>" + R), OpenItemPatterns, "<li>") == Html(sp) + ("</h>" + r) by {
      ReplaceAllHtml(sp, "</h>" + R, OpenItemPatterns, "<li>");
    }
    assert ReplaceAll(H3Open + (Html(sp) + ("</h>" + R)), OpenItemPatterns, "<li>") == H3Open + (Html(sp) + ("</h>" + r)) by {
      OpenTagFacts();
      SkipLiteral(H3Open, Html(sp) + ("</h>" + R), OpenItemPatterns, "<li>", 1);
    }
    assert ReplaceAll("<p>" + (H3Open + (Html(sp) + ("</h>" + R))), OpenItemPatterns, "<li>") == "<p>" + (H3Open + (Html(sp) + ("</h>" + r))) by {
      OpenTagFacts();
      SkipTagBefore("<p>", H3Open, Html(sp) + ("</h>" + R), OpenItemPatterns, "<li>", 4);
    }
  }

  lemma Heading3Pass4(sp: seq<Span>, R: string)
    requires PlainSpans(sp)
    ensures ReplaceAll(ClosedThen(Heading3(sp), R), CloseItemPatterns, "</li>")
         == UnwrappedThen(Heading3(sp), ReplaceAll(R, CloseItemPatterns, "</li>"))
  {
    UnwrapPatternsAreTags();
    var r := ReplaceAll(R, CloseItemPatterns, "</li>");
    assert ReplaceAll("</h>" + R, CloseItemPatterns, "</li>") == "</h>" + r by {
      SkipLiteral("</h>", R, CloseItemPatterns, "</li>", 2);
    }
    assert ReplaceAll(Html(sp) + ("</h>" + R), CloseItemPatterns, "</li>") == Html(sp) + ("</h>" + r) by {
      ReplaceAllHtml(sp, "</h>" + R, CloseItemPatterns, "</li>");
    }
    assert ReplaceAll(H3Open + (Html(sp) + ("</h>" + R)), CloseItemPatterns, "</li>") == H3Open + (Html(sp) + ("</h>" + r)) by {
      OpenTagFacts();
      SkipLiteral(H3Open, Html(sp) + ("</h>" + R), CloseItemPatterns, "</li>", 1);
    }
    assert ReplaceAll("<p>" + (H3Open + (Html(sp) + ("</h>" + R))), CloseItemPatterns, "</li>") == "<p>" + (H3Open + (Html(sp) + ("</h>" + r))) by {
      SkipLiteral("<p>", H3Open + (Html(sp) + ("</h>" + R)), CloseItemPatterns, "</li>", 1);
    }
  }

  lemma Heading4Pass1(sp: seq<Span>, R: string)
    requires PlainSpans(sp)
    ensures ReplaceAll(PiecesThen(Heading4(sp), R), OpenHeadingPatterns, "<h")
         == PiecesThen(Heading4(sp), ReplaceAll(R, OpenHeadingPatterns, "<h"))
  {
    UnwrapPatternsAreTags();
    var r := ReplaceAll(R, OpenHeadingPatterns, "<h");
    assert ReplaceAll("</p>" + R, OpenHeadingPatterns, "<h") == "</p>" + r by {
      SkipLiteral("</p>", R, OpenHeadingPatterns, "<h", 1);
    }
    assert ReplaceAll("</h4>" + ("</p>" + R), OpenHeadingPatterns, "<h") == "</h4>" + ("</p>" + r) by {
      SkipLiteral("</h4>", "</p>" + R, OpenHeadingPatterns, "<h", 1);
    }
    assert ReplaceAll(Html(sp) + ("</h4>" + ("</p>" + R)), OpenHeadingPatterns, "<h") == Html(sp) + ("</h4>" + ("</p>" + r)) by {
      ReplaceAllHtml(sp, "</h4>" + ("</p>" + R), OpenHeadingPatterns, "<h");
    }
    assert ReplaceAll(H4Open + (Html(sp) + ("</h4>" + ("</p>" + R))), OpenHeadingPatterns, "<h") == H4Open + (Html(sp) + ("</h4>" + ("</p>" + r))) by {
      OpenTagFacts();
      SkipLiteral(H4Open, Html(sp) + ("</h4>" + ("</p>" + R)), OpenHeadingPatterns, "<h", 1);
    }
    assert ReplaceAll("<p>" + (H4Open + (Html(sp) + ("</h4>" + ("</p>" + R)))), OpenHeadingPatterns, "<h") == "<p>" + (H4Open + (Html(sp) + ("</h4>" + ("</p>" + r)))) by {
      OpenTagFacts();
      SkipTagBefore("<p>", H4Open, Html(sp) + ("</h4>" + ("</p>" + R)), OpenHeadingPatterns, "<h", 6);
    }
  }

  lemma Heading4Pass2(sp: seq<Span>, R: string)
    requires PlainSpans(sp)
    ensures ReplaceAll(PiecesThen(Heading4(sp), R), CloseHeadingPatterns, "</h>")
         == ClosedThen(Heading4(sp), ReplaceAll(R, CloseHeadingPatterns, "</h>"))
  {
    UnwrapPatternsAreTags();
    var r := ReplaceAll(R, CloseHeadingPatterns, "</h>");
    assert ReplaceAll("</h4>" + ("</p>" + R), CloseHeadingPatterns, "</h>") == "</h>" + r by {
      assert "</h4>" + ("</p>" + R) == CloseHeadingPatterns[1] + R;
      Mismatch(CloseHeadingPatterns[1] + R, CloseHeadingPatterns[0], 3);
      ReplaceAllHit(CloseHeadingPatterns, 1, R, "</h>");
    }
    assert ReplaceAll(Html(sp) + ("</h4>" + ("</p>" + R)), CloseHeadingPatterns, "</h>") == Html(sp) + ("</h>" + r) by {
      ReplaceAllHtml(sp, "</h4>" + ("</p>" + R), CloseHeadingPatterns, "</h>");
    }
    assert ReplaceAll(H4Open + (Html(sp) + ("</h4>" + ("</p>" + R))), CloseHeadingPatterns, "</h>") == H4Open + (Html(sp) + ("</h>" + r)) by {
      OpenTagFacts();
      SkipLiteral(H4Open, Html(sp) + ("</h4>" + ("</p>" + R)), CloseHeadingPatterns, "</h>", 1);
    }
    assert ReplaceAll("<p>" + (H4Open + (Html(sp) + ("</h4>" + ("</p>" + R)))), CloseHeadingPatterns, "</h>") == "<p>" + (H4Open + (Html(sp) + ("</h>" + r))) by {
      SkipLiteral("<p>", H4Open + (Html(sp) + ("</h4>" + ("</p>" + R))), CloseHeadingPatterns, "</h>", 1);
    }
  }

  lemma Heading4Pass3(sp: seq<Span>, R: string)
    requires PlainSpans(sp)
    ensures ReplaceAll(ClosedThen(Heading4(sp), R), OpenItemPatterns, "<li>")
         == ClosedThen(Heading4(sp), ReplaceAll(R, OpenItemPatterns, "<li>"))
  {
    UnwrapPatternsAreTags();
    var r := ReplaceAll(R, OpenItemPatterns, "<li>");
    assert ReplaceAll("</h>" + R, OpenItemPatterns, "<li>") == "</h>" + r by {
      SkipLiteral("</h>", R, OpenItemPatterns, "<li>", 1);
    }
    assert ReplaceAll(Html(sp) + ("</h>" + R), OpenItemPatterns, "<li>") == Html(sp) + ("</h>" + r) by {
      ReplaceAllHtml(sp, "</h>" + R, OpenItemPatterns, "<li>");
    }
    assert ReplaceAll(H4Open + (Html(sp) + ("</h>" + R)), OpenItemPatterns, "<li>") == H4Open + (Html(sp) + ("</h>" + r)) by {
      OpenTagFacts();
      SkipLiteral(H4Open, Html(sp) + ("</h>" + R), OpenItemPatterns, "<li>", 1);
    }
    assert ReplaceAll("<p>" + (H4Open + (Html(sp) + ("</h>" + R))), OpenItemPatterns, "<li>") == "<p>" + (H4Open + (Html(sp) + ("</h>" + r))) by {
      OpenTagFacts();
      SkipTagBefore("<p>", H4Open, Html(sp) + ("</h>" + R), OpenItemPatterns, "<li>", 4);
    }
  }

  lemma Heading4Pass4(sp: seq<Span>, R: string)
    requires PlainSpans(sp)
    ensures ReplaceAll(ClosedThen(Heading4(sp), R), CloseItemPatterns, "</li>")
         == UnwrappedThen(Heading4(sp), ReplaceAll(R, CloseItemPatterns, "</li>"))
  {
    UnwrapPatternsAreTags();
    var r := ReplaceAll(R, CloseItemPatterns, "</li>");
    assert ReplaceAll("</h>" + R, CloseItemPatterns, "</li>") == "</h>" + r by {
      SkipLiteral("</h>", R, CloseItemPatterns, "</li>", 2);
    }
    assert ReplaceAll(Html(sp) + ("</h>" + R), CloseItemPatterns, "</li>") == Html(sp) + ("</h>" + r) by {
      ReplaceAllHtml(sp, "</h>" + R, CloseItemPatterns, "</li>");
    }
    assert ReplaceAll(H4Open + (Html(sp) + ("</h>" + R)), CloseItemPatterns, "</li>") == H4Open + (Html(sp) + ("</h>" + r)) by {
      OpenTagFacts();
      SkipLiteral(H4Open, Html(sp) + ("</h>" + R), CloseItemPatterns, "</li>", 1);
    }
    assert ReplaceAll("<p>" + (H4Open + (Html(sp) + ("</h>" + R))), CloseItemPatterns, "</li>") == "<p>" + (H4Open + (Html(sp) + ("</h>" + r))) by {
      SkipLiteral("<p>", H4Open + (Html(sp) + ("</h>" + R)), CloseItemPatterns, "</li>", 1);
    }
  }

  lemma ItemPass1(sp: seq<Span>, R: string)
    requires PlainSpans(sp)
    ensures ReplaceAll(PiecesThen(Item(sp), R), OpenHeadingPatterns, "<h")
         == PiecesThen(Item(sp), ReplaceAll(R, OpenHeadingPatterns, "<h"))
  {
    UnwrapPatternsAreTags();
    var r := ReplaceAll(R, OpenHeadingPatterns, "<h");
    assert ReplaceAll("</p>" + R, OpenHeadingPatterns, "<h") == "</p>" + r by {
      SkipLiteral("</p>", R, OpenHeadingPatterns, "<h", 1);
    }
    assert ReplaceAll("</li>" + ("</p>" + R), OpenHeadingPatterns, "<h") == "</li>" + ("</p>" + r) by {
      SkipLiteral("</li>", "</p>" + R, OpenHeadingPatterns, "<h", 1);
    }
    assert ReplaceAll(Html(sp) + ("</li>" + ("</p>" + R)), OpenHeadingPatterns, "<h") == Html(sp) + ("</li>" + ("</p>" + r)) by {
      ReplaceAllHtml(sp, "</li>" + ("</p>" + R), OpenHeadingPatterns, "<h");
    }
    assert ReplaceAll(LiOpen + (Html(sp) + ("</li>" + ("</p>" + R))), OpenHeadingPatterns, "<h") == LiOpen + (Html(sp) + ("</li>" + ("</p>" + r))) by {
      OpenTagFacts();
      SkipLiteral(LiOpen, Html(sp) + ("</li>" + ("</p>" + R)), OpenHeadingPatterns, "<h", 1);
    }
    assert ReplaceAll("<p>" + (LiOpen + (Html(sp) + ("</li>" + ("</p>" + R)))), OpenHeadingPatterns, "<h") == "<p>" + (LiOpen + (Html(sp) + ("</li>" + ("</p>" + r)))) by {
      OpenTagFacts();
      SkipTagBefore("<p>", LiOpen, Html(sp) + ("</li>" + ("</p>" + R)), OpenHeadingPatterns, "<h", 4);
    }
  }

  lemma ItemPass2(sp: seq<Span>, R: string)
    requires PlainSpans(sp)
    ensures ReplaceAll(PiecesThen(Item(sp), R), CloseHeadingPatterns, "</h>")
         == ClosedThen(Item(sp), ReplaceAll(R, CloseHeadingPatterns, "</h>"))
  {
    UnwrapPatternsAreTags();
    var r := ReplaceAll(R, CloseHeadingPatterns, "</h>");
    assert ReplaceAll("</p>" + R, CloseHeadingPatterns, "</h>") == "</p>" + r by {
      SkipLiteral("</p>", R, CloseHeadingPatterns, "</h>", 2);
    }
    assert ReplaceAll("</li>" + ("</p>" + R), CloseHeadingPatterns, "</h>") == "</li>" + ("</p>" + r) by {
      SkipLiteral("</li>", "</p>" + R, CloseHeadingPatterns, "</h>", 2);
    }
    assert ReplaceAll(Html(sp) + ("</li>" + ("</p>" + R)), CloseHeadingPatterns, "</h>") == Html(sp) + ("</li>" + ("</p>" + r)) by {
      ReplaceAllHtml(sp, "</li>" + ("</p>" + R), CloseHeadingPatterns, "</h>");
    }
    assert ReplaceAll(LiOpen + (Html(sp) + ("</li>" + ("</p>" + R))), CloseHeadingPatterns, "</h>") == LiOpen + (Html(sp) + ("</li>" + ("</p>" + r))) by {
      OpenTagFacts();
      SkipLiteral(LiOpen, Html(sp) + ("</li>" + ("</p>" + R)), CloseHeadingPatterns, "</h>", 1);
    }
    assert ReplaceAll("<p>" + (LiOpen + (Html(sp) + ("</li>" + ("</p>" + R)))), CloseHeadingPatterns, "</h>") == "<p>" + (LiOpen + (Html(sp) + ("</li>" + ("</p>" + r)))) by {
      SkipLiteral("<p>", LiOpen + (Html(sp) + ("</li>" + ("</p>" + R))), CloseHeadingPatterns, "</h>", 1);
    }
  }

  lemma ItemPass3(sp: seq<Span>, R: string)
    requires PlainSpans(sp)
    ensures ReplaceAll(ClosedThen(Item(sp), R), OpenItemPatterns, "<li>")
         == ClosedThen(Item(sp), ReplaceAll(R, OpenItemPatterns, "<li>"))
  {
    UnwrapPatternsAreTags();
    var r := ReplaceAll(R, OpenItemPatterns, "<li>");
    assert ReplaceAll("</p>" + R, OpenItemPatterns, "<li>") == "</p>" + r by {
      SkipLiteral("</p>", R, OpenItemPatterns, "<li>", 1);
    }
    assert ReplaceAll("</li>" + ("</p>" + R), OpenItemPatterns, "<li>") == "</li>" + ("</p>" + r) by {
      SkipLiteral("</li>", "</p>" + R, OpenItemPatterns, "<li>", 1);
    }
    assert ReplaceAll(Html(sp) + ("</li>" + ("</p>" + R)), OpenItemPatterns, "<li>") == Html(sp) + ("</li>" + ("</p>" + r)) by {
      ReplaceAllHtml(sp, "</li>" + ("</p>" + R), OpenItemPatterns, "<li>");
    }
    assert ReplaceAll(LiOpen + (Html(sp) + ("</li>" + ("</p>" + R))), OpenItemPatterns, "<li>") == LiOpen + (Html(sp) + ("</li>" + ("</p>" + r))) by {
      OpenTagFacts();
      SkipLiteral(LiOpen, Html(sp) + ("</li>" + ("</p>" + R)), OpenItemPatterns, "<li>", 1);
    }
    assert ReplaceAll("<p>" + (LiOpen + (Html(sp) + ("</li>" + ("</p>" + R)))), OpenItemPatterns, "<li>") == "<p>" + (LiOpen + (Html(sp) + ("</li>" + ("</p>" + r)))) by {
      OpenTagFacts();
      SkipTagBefore("<p>", LiOpen, Html(sp) + ("</li>" + ("</p>" + R)), OpenItemPatterns, "<li>", 6);
    }
  }

  lemma ItemPass4(sp: seq<Span>, R: string)
    requires PlainSpans(sp)
    ensures ReplaceAll(ClosedThen(Item(sp), R), CloseItemPatterns, "</li>")
         == UnwrappedThen(Item(sp), ReplaceAll(R, CloseItemPatterns, "</li>"))
  {
    UnwrapPatternsAreTags();
    var r := ReplaceAll(R, CloseItemPatterns, "</li>");
    assert ReplaceAll("</li>" + ("</p>" + R), CloseItemPatterns, "</li>") == "</li>" + r by {
      assert "</li>" + ("</p>" + R) == CloseItemPatterns[0] + R;
      ReplaceAllHit(CloseItemPatterns, 0, R, "</li>");
    }
    assert ReplaceAll(Html(sp) + ("</li>" + ("</p>" + R)), CloseItemPatterns, "</li>") == Html(sp) + ("</li>" + r) by {
      ReplaceAllHtml(sp, "</li>" + ("</p>" + R), CloseItemPatterns, "</li>");
    }
    assert ReplaceAll(LiOpen + (Html(sp) + ("</li>" + ("</p>" + R))), CloseItemPatterns, "</li>") == LiOpen + (Html(sp) + ("</li>" + r)) by {
      OpenTagFacts();
      SkipLiteral(LiOpen, Html(sp) + ("</li>" + ("</p>" + R)), CloseItemPatterns, "</li>", 1);
    }
    assert ReplaceAll("<p>" + (LiOpen + (Html(sp) + ("</li>" + ("</p>" + R)))), CloseItemPatterns, "</li>") == "<p>" + (LiOpen + (Html(sp) + ("</li>" + r))) by {
      SkipLiteral("<p>", LiOpen + (Html(sp) + ("</li>" + ("</p>" + R))), CloseItemPatterns, "</li>", 1);
    }
  }

  lemma ParaPass1(sp: seq<Span>, R: string)
    requires WellFormed(Para(sp))
    requires Html(sp) != []
    ensures ReplaceAll(PiecesThen(Para(sp), R), OpenHeadingPatterns, "<h")
         == PiecesThen(Para(sp), ReplaceAll(R, OpenHeadingPatterns, "<h"))
  {
    UnwrapPatternsAreTags();
    var r := ReplaceAll(R, OpenHeadingPatterns, "<h");
    assert ReplaceAll("</p>" + R, OpenHeadingPatterns, "<h") == "</p>" + r by {
      SkipLiteral("</p>", R, OpenHeadingPatterns, "<h", 1);
    }
    assert ReplaceAll(Html(sp) + ("</p>" + R), OpenHeadingPatterns, "<h") == Html(sp) + ("</p>" + r) by {
      ReplaceAllHtml(sp, "</p>" + R, OpenHeadingPatterns, "<h");
    }
    assert ReplaceAll("<p>" + (Html(sp) + ("</p>" + R)), OpenHeadingPatterns, "<h") == "<p>" + (Html(sp) + ("</p>" + r)) by {
      HtmlStart(sp);
      if Html(sp)[0] == '<' {
        SkipTag("<p>", Html(sp) + ("</p>" + R), OpenHeadingPatterns, "<h", 4);
      } else {
        SkipTag("<p>", Html(sp) + ("</p>" + R), OpenHeadingPatterns, "<h", 3);
      }
    }
  }

  lemma ParaPass2(sp: seq<Span>, R: string)
    requires WellFormed(Para(sp))
    requires Html(sp) != []
    ensures ReplaceAll(PiecesThen(Para(sp), R), CloseHeadingPatterns, "</h>")
         == ClosedThen(Para(sp), ReplaceAll(R, CloseHeadingPatterns, "</h>"))
  {
    UnwrapPatternsAreTags();
    var r := ReplaceAll(R, CloseHeadingPatterns, "</h>");
    assert ReplaceAll("</p>" + R, CloseHeadingPatterns, "</h>") == "</p>" + r by {
      SkipLiteral("</p>", R, CloseHeadingPatterns, "</h>", 2);
    }
    assert ReplaceAll(Html(sp) + ("</p>" + R), CloseHeadingPatterns, "</h>") == Html(sp) + ("</p>" + r) by {
      ReplaceAllHtml(sp, "</p>" + R, CloseHeadingPatterns, "</h>");
    }
    assert ReplaceAll("<p>" + (Html(sp) + ("</p>" + R)), CloseHeadingPatterns, "</h>") == "<p>" + (Html(sp) + ("</p>" + r)) by {
      SkipLiteral("<p>", Html(sp) + ("</p>" + R), CloseHeadingPatterns, "</h>", 1);
    }
  }

  lemma ParaPass3(sp: seq<Span>, R: string)
    requires WellFormed(Para(sp))
    requires Html(sp) != []
    ensures ReplaceAll(ClosedThen(Para(sp), R), OpenItemPatterns, "<li>")
         == ClosedThen(Para(sp), ReplaceAll(R, OpenItemPatterns, "<li>"))
  {
    UnwrapPatternsAreTags();
    var r := ReplaceAll(R, OpenItemPatterns, "<li>");
    assert ReplaceAll("</p>" + R, OpenItemPatterns, "<li>") == "</p>" + r by {
      SkipLiteral("</p>", R, OpenItemPatterns, "<li>", 1);
    }
    assert ReplaceAll(Html(sp) + ("</p>" + R), OpenItemPatterns, "<li>") == Html(sp) + ("</p>" + r) by {
      ReplaceAllHtml(sp, "</p>" + R, OpenItemPatterns, "<li>");
    }
    assert ReplaceAll("<p>" + (Html(sp) + ("</p>" + R)), OpenItemPatterns, "<li>") == "<p>" + (Html(sp) + ("</p>" + r)) by {
      HtmlStart(sp);
      if Html(sp)[0] == '<' {
        SkipTag("<p>", Html(sp) + ("</p>" + R), OpenItemPatterns, "<li>", 4);
      } else {
        SkipTag("<p>", Html(sp) + ("</p>" + R), OpenItemPatterns, "<li>", 3);
      }
    }
  }

  lemma ParaPass4(sp: seq<Span>, R: string)
    requires WellFormed(Para(sp))
    requires Html(sp) != []
    ensures ReplaceAll(ClosedThen(Para(sp), R), CloseItemPatterns, "</li>")
         == UnwrappedThen(Para(sp), ReplaceAll(R, CloseItemPatterns, "</li>"))
  {
    UnwrapPatternsAreTags();
    var r := ReplaceAll(R, CloseItemPatterns, "</li>");
    assert ReplaceAll("</p>" + R, CloseItemPatterns, "</li>") == "</p>" + r by {
      SkipLiteral("</p>", R, CloseItemPatterns, "</li>", 2);
    }
    assert ReplaceAll(Html(sp) + ("</p>" + R), CloseItemPatterns, "</li>") == Html(sp) + ("</p>" + r) by {
      ReplaceAllHtml(sp, "</p>" + R, CloseItemPatterns, "</li>");
    }
    assert ReplaceAll("<p>" + (Html(sp) + ("</p>" + R)), CloseItemPatterns, "</li>") == "<p>" + (Html(sp) + ("</p>" + r)) by {
      SkipLiteral("<p>", Html(sp) + ("</p>" + R), CloseItemPatterns, "</li>", 1);
    }
  }

  lemma ParaHtmlNonEmpty(sp: seq<Span>)
    requires WellFormed(Para(sp))
    ensures Html(sp) != []
  {
    RewritePara(sp);
    LineBecomesBreak(Markup(sp));
  }

  /** The unwrap passes act on a block's pieces without looking past them. */
  lemma UnwrapBlock(b: Block, R: string)
    requires WellFormed(b)
    ensures Unwrap(PiecesThen(b, R)) == UnwrappedThen(b, Unwrap(R))
  {
    var R1 := ReplaceAll(R, OpenHeadingPatterns, "<h");
    var R2 := ReplaceAll(R1, CloseHeadingPatterns, "</h>");
    var R3 := ReplaceAll(R2, OpenItemPatterns, "<li>");
    var R4 := ReplaceAll(R3, CloseItemPatterns, "</li>");
    assert R4 == Unwrap(R);
    match b
    case Heading3(sp) =>
      assert ReplaceAll(PiecesThen(b, R), OpenHeadingPatterns, "<h") == PiecesThen(b, R1) by { Heading3Pass1(sp, R); }
      assert ReplaceAll(PiecesThen(b, R1), CloseHeadingPatterns, "</h>") == ClosedThen(b, R2) by { Heading3Pass2(sp, R1); }
      assert ReplaceAll(ClosedThen(b, R2), OpenItemPatterns, "<li>") == ClosedThen(b, R3) by { Heading3Pass3(sp, R2); }
      assert ReplaceAll(ClosedThen(b, R3), CloseItemPatterns, "</li>") == UnwrappedThen(b, R4) by { Heading3Pass4(sp, R3); }
    case Heading4(sp) =>
      assert ReplaceAll(PiecesThen(b, R), OpenHeadingPatterns, "<h") == PiecesThen(b, R1) by { Heading4Pass1(sp, R); }
      assert ReplaceAll(PiecesThen(b, R1), CloseHeadingPatterns, "</h>") == ClosedThen(b, R2) by { Heading4Pass2(sp, R1); }
      assert ReplaceAll(ClosedThen(b, R2), OpenItemPatterns, "<li>") == ClosedThen(b, R3) by { Heading4Pass3(sp, R2); }
      assert ReplaceAll(ClosedThen(b, R3), CloseItemPatterns, "</li>") == UnwrappedThen(b, R4) by { Heading4Pass4(sp, R3); }
    case Item(sp) =>
      assert ReplaceAll(PiecesThen(b, R), OpenHeadingPatterns, "<h") == PiecesThen(b, R1) by { ItemPass1(sp, R); }
      assert ReplaceAll(PiecesThen(b, R1), CloseHeadingPatterns, "</h>") == ClosedThen(b, R2) by { ItemPass2(sp, R1); }
      assert ReplaceAll(ClosedThen(b, R2), OpenItemPatterns, "<li>") == ClosedThen(b, R3) by { ItemPass3(sp, R2); }
      assert ReplaceAll(ClosedThen(b, R3), CloseItemPatterns, "</li>") == UnwrappedThen(b, R4) by { ItemPass4(sp, R3); }
    case Para(sp) =>
      ParaHtmlNonEmpty(sp);
      assert ReplaceAll(PiecesThen(b, R), OpenHeadingPatterns, "<h") == PiecesThen(b, R1) by { ParaPass1(sp, R); }
      assert ReplaceAll(PiecesThen(b, R1), CloseHeadingPatterns, "</h>") == ClosedThen(b, R2) by { ParaPass2(sp, R1); }
      assert ReplaceAll(ClosedThen(b, R2), OpenItemPatterns, "<li>") == ClosedThen(b, R3) by { ParaPass3(sp, R2); }
      assert ReplaceAll(ClosedThen(b, R3), CloseItemPatterns, "</li>") == UnwrappedThen(b, R4) by { ParaPass4(sp, R3); }
    case Gap(ls) =>
      UnwrapPatternsAreTags();
      BreaksPass(|ls|, R, OpenHeadingPatterns, "<h");
      BreaksPass(|ls|, R1, CloseHeadingPatterns, "</h>");
      BreaksPass(|ls|, R2, OpenItemPatterns, "<li>");
      BreaksPass(|ls|, R3, CloseItemPatterns, "</li>");
  }

  function UnwrappedOf(bs: seq<Block>): string
  {
    if bs == [] then "" else UnwrappedThen(bs[0], UnwrappedOf(bs[1..]))
  }

  lemma {:induction false} UnwrapDocument(bs: seq<Block>)
    requires forall i | 0 <= i < |bs| :: WellFormed(bs[i])
    ensures Unwrap(PiecesOf(bs)) == UnwrappedOf(bs)
  {
    if bs != [] {
      assert forall i | 0 <= i < |bs| - 1 :: bs[1..][i] == bs[i + 1];
      UnwrapDocument(bs[1..]);
      UnwrapBlock(bs[0], PiecesOf(bs[1..]));
    }
  }

  // ---------------------------------------------------------------------------------------
  // The break collapse over each block, and the whole renderer
  // ---------------------------------------------------------------------------------------

  /** A tag that differs from "<br/>" at its own position k passes through the collapse. */
  lemma CollapseSkip(tag: string, y: string, k: nat)
    requires tag != [] && '<' !in tag[1..] && k < |tag| && k < |Br| && tag[k] != Br[k]
    ensures CollapseBreaks(tag + y) == tag + CollapseBreaks(y)
  {
    assert (tag + y)[k] == tag[k];
    Mismatch(tag + y, Br, k);
    CollapseTag(tag, y);
  }

  lemma {:induction false} BreaksThenSuffix(n: nat, R: string)
    ensures |BreaksThen(n, R)| == 5 * n + |R| && BreaksThen(n, R)[5 * n..] == R
  {
    if n > 0 {
      BreaksThenSuffix(n - 1, R);
    }
  }

  /** After a run of n breaks comes text that is neither whitespace nor another break. */
  predicate EndsRun(R: string)
  {
    R == [] || (R[0] !in Whitespace && !StartsWith(R, Br))
  }

  lemma {:induction false} BreakRunOfBreaks(n: nat, R: string)
    requires EndsRun(R)
    ensures BreakRun(BreaksThen(n, R)) == (n, 5 * n)
  {
    if n > 0 {
      var s := BreaksThen(n, R);
      var t := BreaksThen(n - 1, R);
      assert s == Br + t;
      assert s[..5] == Br && s[5..] == t;
      assert WhitespacePrefix(t) == 0 by {
        if n > 1 {
          assert t[0] == '<';
        }
      }
      BreakRunOfBreaks(n - 1, R);
    } else {
      assert BreaksThen(n, R) == R;
      if R != [] {
        assert !StartsWith(R, Br);
      }
    }
  }

  /** A run of one or more breaks becomes a single break (:37). */
  lemma CollapseRun(n: nat, R: string)
    requires n >= 1 && EndsRun(R)
    ensures CollapseBreaks(BreaksThen(n, R)) == Br + CollapseBreaks(R)
  {
    var s := BreaksThen(n, R);
    BreakRunOfBreaks(n, R);
    BreaksThenSuffix(n, R);
    if n == 1 {
      var r := CollapseBreaks(R);
      assert s == Br + R;
      assert s[0] == '<' && s[1..] == "br/>" + R;
      assert CollapseBreaks("br/>" + R) == "br/>" + r by { CollapsePlain("br/>", R); }
      assert "<" + ("br/>" + r) == Br + r;
    }
  }

  /** Breaks each followed by its own run of whitespace, `ws[i]` after the i-th, then `rest`. */
  function SpacedBreaks(ws: seq<string>, rest: string): string
  {
    if ws == [] then rest else Br + ws[0] + SpacedBreaks(ws[1..], rest)
  }

  lemma {:induction false} WhitespacePrefixOf(w: string, rest: string)
    requires Blank(w) && (rest == [] || rest[0] !in Whitespace)
    ensures WhitespacePrefix(w + rest) == |w|
  {
    if w != [] {
      assert (w + rest)[0] == w[0] && (w + rest)[1..] == w[1..] + rest;
      WhitespacePrefixOf(w[1..], rest);
    } else {
      assert w + rest == rest;
    }
  }

  lemma {:induction false} SpacedBreaksSuffix(ws: seq<string>, R: string)
    ensures |SpacedBreaks(ws, R)| >= |R|
    ensures SpacedBreaks(ws, R)[|SpacedBreaks(ws, R)| - |R|..] == R
  {
    if ws != [] {
      SpacedBreaksSuffix(ws[1..], R);
      var t := SpacedBreaks(ws[1..], R);
      assert SpacedBreaks(ws, R) == (Br + ws[0]) + t;
    }
  }

  /** The greedy `(<br\/>\s*)*` takes every break of the run and the whitespace after each. */
  /** One step of the greedy run: a break, the whitespace after it, then whatever follows. */
  lemma BreakRunStep(w: string, t: string)
    requires Blank(w) && (t == [] || t[0] !in Whitespace)
    ensures BreakRun(Br + (w + t)) == (BreakRun(t).0 + 1, 5 + |w| + BreakRun(t).1)
  {
    var s := Br + (w + t);
    assert StartsWith(s, Br) && s[5..] == w + t;
    assert WhitespacePrefix(w + t) == |w| by { WhitespacePrefixOf(w, t); }
    assert s[5 + |w|..] == t;
  }

  lemma {:induction false} SpacedBreakRun(ws: seq<string>, R: string)
    requires forall w | w in ws :: Blank(w)
    requires EndsRun(R)
    ensures BreakRun(SpacedBreaks(ws, R)) == (|ws|, |SpacedBreaks(ws, R)| - |R|)
  {
    if ws == [] {
      assert SpacedBreaks(ws, R) == R;
      if R != [] {
        assert !StartsWith(R, Br);
      }
    } else {
      var w, t := ws[0], SpacedBreaks(ws[1..], R);
      assert SpacedBreaks(ws, R) == Br + (w + t);
      assert |t| >= |R| by { SpacedBreaksSuffix(ws[1..], R); }
      assert BreakRun(t) == (|ws| - 1, |t| - |R|) by {
        assert forall v | v in ws[1..] :: v in ws;
        SpacedBreakRun(ws[1..], R);
      }
      assert BreakRun(Br + (w + t)) == (BreakRun(t).0 + 1, 5 + |w| + BreakRun(t).1) by {
        assert t == [] || t[0] !in Whitespace by {
          if ws[1..] != [] {
            assert t[0] == '<';
          }
        }
        BreakRunStep(w, t);
      }
    }
  }

  /**
   * `(<br\/>\s*){2,}` (:37) with whitespace between and after the breaks: two or more breaks
   * and all their whitespace become one break; a single break is left alone with its whitespace.
   */
  lemma CollapseSpacedRun(ws: seq<string>, R: string)
    requires |ws| >= 1 && forall w | w in ws :: Blank(w)
    requires EndsRun(R)
    ensures |ws| >= 2 ==> CollapseBreaks(SpacedBreaks(ws, R)) == Br + CollapseBreaks(R)
    ensures |ws| == 1 ==> CollapseBreaks(SpacedBreaks(ws, R)) == Br + ws[0] + CollapseBreaks(R)
  {
    if |ws| == 1 {
      LoneSpacedBreak(ws[0], R);
      assert SpacedBreaks(ws, R) == Br + ws[0] + R by {
        assert SpacedBreaks(ws[1..], R) == R;
      }
    } else {
      var s := SpacedBreaks(ws, R);
      assert BreakRun(s) == (|ws|, |s| - |R|) by { SpacedBreakRun(ws, R); }
      assert s[|s| - |R|..] == R by { SpacedBreaksSuffix(ws, R); }
    }
  }

  /** One break and its whitespace are not a run: the text passes through unchanged. */
  lemma LoneSpacedBreak(w: string, R: string)
    requires Blank(w) && EndsRun(R)
    ensures CollapseBreaks(Br + w + R) == Br + w + CollapseBreaks(R)
  {
    var s := Br + w + R;
    var r := CollapseBreaks(R);
    var x := "br/>" + w;
    assert BreakRun(s).0 == 1 by {
      SpacedBreakRun([w], R);
      assert SpacedBreaks([w], R) == s by {
        assert SpacedBreaks([w][1..], R) == R;
      }
    }
    assert s == "<" + (x + R);
    assert s[0] == '<' && s[1..] == x + R;
    assert '<' !in x;
    assert CollapseBreaks(x + R) == x + r by { CollapsePlain(x, R); }
    assert "<" + (x + r) == Br + w + r;
  }

  /** What SimpleMarkdown returns for a block, followed by `rest`. */
  function RenderedThen(b: Block, rest: string): string
  {
    if b.Gap? then Br + rest else UnwrappedThen(b, rest)
  }

  /** What SimpleMarkdown returns for a document: the blocks' renderings in order. */
  function RenderedDocument(bs: seq<Block>): string
  {
    if bs == [] then "" else RenderedThen(bs[0], RenderedDocument(bs[1..]))
  }

  /** The collapse leaves each rendered block alone and shrinks each gap to one break. */
  lemma CollapseBlock(b: Block, R: string)
    requires WellFormed(b)
    requires b.Gap? ==> EndsRun(R)
    ensures CollapseBreaks(UnwrappedThen(b, R)) == RenderedThen(b, CollapseBreaks(R))
  {
    var r := CollapseBreaks(R);
    match b
    case Gap(ls) =>
      CollapseRun(|ls|, R);
    case Para(sp) =>
      assert CollapseBreaks("</p>" + R) == "</p>" + r by { CollapseSkip("</p>", R, 1); }
      assert CollapseBreaks(Html(sp) + ("</p>" + R)) == Html(sp) + ("</p>" + r) by {
        CollapseHtml(sp, "</p>" + R);
      }
      assert CollapseBreaks("<p>" + (Html(sp) + ("</p>" + R))) == "<p>" + (Html(sp) + ("</p>" + r)) by {
        CollapseSkip("<p>", Html(sp) + ("</p>" + R), 1);
      }
    case Heading3(sp) =>
      CollapseFramed(H3Open, sp, "</h>", R);
    case Heading4(sp) =>
      CollapseFramed(H4Open, sp, "</h>", R);
    case Item(sp) =>
      CollapseFramed(LiOpen, sp, "</li>", R);
  }

  lemma CollapseFramed(open: string, sp: seq<Span>, close: string, R: string)
    requires open == H3Open || open == H4Open || open == LiOpen
    requires close == "</h>" || close == "</li>"
    requires PlainSpans(sp)
    ensures CollapseBreaks("<p>" + (open + (Html(sp) + (close + R))))
         == "<p>" + (open + (Html(sp) + (close + CollapseBreaks(R))))
  {
    var r := CollapseBreaks(R);
    assert CollapseBreaks(close + R) == close + r by { CollapseSkip(close, R, 1); }
    assert CollapseBreaks(Html(sp) + (close + R)) == Html(sp) + (close + r) by {
      CollapseHtml(sp, close + R);
    }
    assert CollapseBreaks(open + (Html(sp) + (close + R))) == open + (Html(sp) + (close + r)) by {
      OpenTagFacts();
      CollapseSkip(open, Html(sp) + (close + R), 1);
    }
    assert CollapseBreaks("<p>" + (open + (Html(sp) + (close + R))))
        == "<p>" + (open + (Html(sp) + (close + r))) by {
      CollapseSkip("<p>", open + (Html(sp) + (close + R)), 1);
    }
  }

  lemma UnwrappedStartsParagraph(bs: seq<Block>)
    requires bs != [] && !bs[0].Gap?
    ensures EndsRun(UnwrappedOf(bs))
  {
    var u := UnwrappedOf(bs);
    assert u[..3] == "<p>";
    assert u[0] == '<' && u[1] == 'p';
    Mismatch(u, Br, 1);
  }

  lemma {:induction false} CollapseDocument(bs: seq<Block>)
    requires (forall i | 0 <= i < |bs| :: WellFormed(bs[i])) && GapsApart(bs)
    ensures CollapseBreaks(UnwrappedOf(bs)) == RenderedDocument(bs)
  {
    if bs != [] {
      var rest := bs[1..];
      assert forall i | 0 <= i < |rest| :: rest[i] == bs[i + 1];
      CollapseDocument(rest);
      if bs[0].Gap? && rest != [] {
        assert !bs[1].Gap?;
        UnwrappedStartsParagraph(rest);
      }
      CollapseBlock(bs[0], UnwrappedOf(rest));
    }
  }

  lemma {:induction false} DocumentLinesHaveNoBreak(bs: seq<Block>)
    requires forall i | 0 <= i < |bs| :: WellFormed(bs[i])
    ensures forall i | 0 <= i < |DocumentLines(bs)| :: '\n' !in DocumentLines(bs)[i]
  {
    if bs != [] {
      assert forall i | 0 <= i < |bs| - 1 :: bs[1..][i] == bs[i + 1];
      DocumentLinesHaveNoBreak(bs[1..]);
      var b := bs[0];
      assert forall i | 0 <= i < |SourceLines(b)| :: '\n' !in SourceLines(b)[i] by {
        if !b.Gap? {
          MarkupHasNoBreak(b.spans);
        }
      }
      var ls := DocumentLines(bs);
      assert ls == SourceLines(b) + DocumentLines(bs[1..]);
      forall i | 0 <= i < |ls| ensures '\n' !in ls[i] {
        if i >= |SourceLines(b)| {
          assert ls[i] == DocumentLines(bs[1..])[i - |SourceLines(b)|];
        }
      }
    }
  }

  /**
   * SimpleMarkdown on any well-formed document returns its blocks' renderings in order: a
   * paragraph is wrapped in <p>, a gap of blank lines is one <br/>, bold spans become <strong>,
   * and a heading or list item keeps the <p> it was wrapped in, because the unwrap patterns
   * of :35-36 expect bare tags while :30-32 emit tags with a class attribute.
   */
  lemma RenderDocument(bs: seq<Block>)
    requires WellFormedDocument(bs)
    ensures Render(Document(bs)) == RenderedDocument(bs)
  {
    DocumentLinesHaveNoBreak(bs);
    LinesOfJoin(DocumentLines(bs));
    DocumentPieces(bs);
    UnwrapDocument(bs);
    CollapseDocument(bs);
  }

  // ---------------------------------------------------------------------------------------
  // The renderer as evidently intended: headings and list items are not left inside <p>
  // ---------------------------------------------------------------------------------------

  /** A line that the heading or list rules of :30-32 rewrite. */
  predicate RuleLine(line: string)
  {
    StartsWith(line, "### ") || StartsWith(line, "#### ") || StartsWith(line, "* ")
  }

  /** :34 as intended: a rewritten heading or list line is emitted without a <p> around it. */
  function CorrectedPiece(line: string): string
  {
    if RuleLine(line) then RewriteLine(line) else Piece(RewriteLine(line))
  }

  function CorrectedPieces(lines: seq<string>): string
  {
    if lines == [] then "" else CorrectedPiece(lines[0]) + CorrectedPieces(lines[1..])
  }

  /** SimpleMarkdown with the unwrap passes of :35-36 replaced by not wrapping in the first place. */
  function CorrectedRender(content: string): string
  {
    CollapseBreaks(CorrectedPieces(Lines(content)))
  }

  /** The corrected rendering of a block, followed by `rest`: each tag closes under its own name. */
  function CorrectedThen(b: Block, rest: string): string
  {
    match b
    case Heading3(sp) => H3Open + (Html(sp) + ("</h3>" + rest))
    case Heading4(sp) => H4Open + (Html(sp) + ("</h4>" + rest))
    case Item(sp) => LiOpen + (Html(sp) + ("</li>" + rest))
    case Para(sp) => "<p>" + (Html(sp) + ("</p>" + rest))
    case Gap(ls) => Br + rest
  }

  function CorrectedDocument(bs: seq<Block>): string
  {
    if bs == [] then "" else CorrectedThen(bs[0], CorrectedDocument(bs[1..]))
  }

  /** The corrected pieces of a block before the break collapse. */
  function CorrectedPiecesThen(b: Block, rest: string): string
  {
    if b.Gap? then PiecesThen(b, rest) else CorrectedThen(b, rest)
  }

  function CorrectedPiecesOf(bs: seq<Block>): string
  {
    if bs == [] then "" else CorrectedPiecesThen(bs[0], CorrectedPiecesOf(bs[1..]))
  }

  lemma CorrectedPiecesCons(l: string, ls: seq<string>)
    ensures CorrectedPieces([l] + ls) == CorrectedPiece(l) + CorrectedPieces(ls)
  {
    assert ([l] + ls)[0] == l && ([l] + ls)[1..] == ls;
  }

  lemma {:induction false} CorrectedGapPieces(ls: seq<string>, rest: seq<string>)
    requires forall i | 0 <= i < |ls| :: Blank(ls[i])
    ensures CorrectedPieces(ls + rest) == BreaksThen(|ls|, CorrectedPieces(rest))
  {
    if ls == [] {
      assert ls + rest == rest;
    } else {
      assert (ls + rest)[0] == ls[0] && (ls + rest)[1..] == ls[1..] + rest;
      assert !RuleLine(ls[0]) by {
        if ls[0] != [] {
          assert ls[0][0] in Whitespace;
        }
      }
      LineBecomesBreak(ls[0]);
      CorrectedGapPieces(ls[1..], rest);
    }
  }

  lemma CorrectedBlockPieces(b: Block, rest: seq<string>)
    requires WellFormed(b)
    ensures CorrectedPieces(SourceLines(b) + rest) == CorrectedPiecesThen(b, CorrectedPieces(rest))
  {
    var r := CorrectedPieces(rest);
    match b
    case Heading3(sp) =>
      var l := "### " + Markup(sp);
      assert RewriteLine(l) == H3Open + Html(sp) + "</h3>" by { RewriteHeadingThree(sp); }
      assert RuleLine(l) by { assert l[..4] == "### "; }
      CorrectedPiecesCons(l, rest);
      AppendAssoc(H3Open + Html(sp), "</h3>", r);
      AppendAssoc(H3Open, Html(sp), "</h3>" + r);
    case Heading4(sp) =>
      var l := "#### " + Markup(sp);
      assert RewriteLine(l) == H4Open + Html(sp) + "</h4>" by { RewriteHeadingFour(sp); }
      assert RuleLine(l) by { assert l[..5] == "#### "; }
      CorrectedPiecesCons(l, rest);
      AppendAssoc(H4Open + Html(sp), "</h4>", r);
      AppendAssoc(H4Open, Html(sp), "</h4>" + r);
    case Item(sp) =>
      var l := "* " + Markup(sp);
      assert RewriteLine(l) == LiOpen + Html(sp) + "</li>" by { RewriteItem(sp); }
      assert RuleLine(l) by { assert l[..2] == "* "; }
      CorrectedPiecesCons(l, rest);
      AppendAssoc(LiOpen + Html(sp), "</li>", r);
      AppendAssoc(LiOpen, Html(sp), "</li>" + r);
    case Para(sp) =>
      RewritePara(sp);
      CorrectedPiecesCons(Markup(sp), rest);
      AppendAssoc("<p>" + Html(sp), "</p>", r);
      AppendAssoc("<p>", Html(sp), "</p>" + r);
    case Gap(ls) =>
      CorrectedGapPieces(ls, rest);
  }

  lemma {:induction false} CorrectedDocumentPieces(bs: seq<Block>)
    requires forall i | 0 <= i < |bs| :: WellFormed(bs[i])
    ensures CorrectedPieces(DocumentLines(bs)) == CorrectedPiecesOf(bs)
  {
    if bs != [] {
      assert forall i | 0 <= i < |bs| - 1 :: bs[1..][i] == bs[i + 1];
      CorrectedDocumentPieces(bs[1..]);
      CorrectedBlockPieces(bs[0], DocumentLines(bs[1..]));
    }
  }

  lemma CorrectedCollapseBlock(b: Block, R: string)
    requires WellFormed(b)
    requires b.Gap? ==> EndsRun(R)
    ensures CollapseBreaks(CorrectedPiecesThen(b, R)) == CorrectedThen(b, CollapseBreaks(R))
  {
    var r := CollapseBreaks(R);
    match b
    case Gap(ls) =>
      CollapseRun(|ls|, R);
    case Para(sp) =>
      CollapseBlock(b, R);
    case Heading3(sp) =>
      CorrectedCollapseFramed(H3Open, sp, "</h3>", R);
    case Heading4(sp) =>
      CorrectedCollapseFramed(H4Open, sp, "</h4>", R);
    case Item(sp) =>
      CorrectedCollapseFramed(LiOpen, sp, "</li>", R);
  }

  lemma CorrectedCollapseFramed(open: string, sp: seq<Span>, close: string, R: string)
    requires open == H3Open || open == H4Open || open == LiOpen
    requires close == "</h3>" || close == "</h4>" || close == "</li>"
    requires PlainSpans(sp)
    ensures CollapseBreaks(open + (Html(sp) + (close + R))) == open + (Html(sp) + (close + CollapseBreaks(R)))
  {
    var r := CollapseBreaks(R);
    assert CollapseBreaks(close + R) == close + r by { CollapseSkip(close, R, 1); }
    assert CollapseBreaks(Html(sp) + (close + R)) == Html(sp) + (close + r) by {
      CollapseHtml(sp, close + R);
    }
    OpenTagFacts();
    CollapseSkip(open, Html(sp) + (close + R), 1);
  }

  lemma CorrectedStartsTag(bs: seq<Block>)
    requires bs != [] && !bs[0].Gap?
    ensures EndsRun(CorrectedPiecesOf(bs))
  {
    var u := CorrectedPiecesOf(bs);
    OpenTagFacts();
    assert u[0] == '<' && u[1] != 'b';
    Mismatch(u, Br, 1);
  }

  lemma {:induction false} CorrectedCollapseDocument(bs: seq<Block>)
    requires (forall i | 0 <= i < |bs| :: WellFormed(bs[i])) && GapsApart(bs)
    ensures CollapseBreaks(CorrectedPiecesOf(bs)) == CorrectedDocument(bs)
  {
    if bs != [] {
      var rest := bs[1..];
      assert forall i | 0 <= i < |rest| :: rest[i] == bs[i + 1];
      CorrectedCollapseDocument(rest);
      if bs[0].Gap? && rest != [] {
        assert !bs[1].Gap?;
        CorrectedStartsTag(rest);
      }
      CorrectedCollapseBlock(bs[0], CorrectedPiecesOf(rest));
    }
  }

  /**
   * The corrected renderer on any well-formed document: every heading and list item comes out
   * as a bare element closed under its own name, paragraphs and gaps as before.
   */
  lemma CorrectedRenderDocument(bs: seq<Block>)
    requires WellFormedDocument(bs)
    ensures CorrectedRender(Document(bs)) == CorrectedDocument(bs)
  {
    DocumentLinesHaveNoBreak(bs);
    LinesOfJoin(DocumentLines(bs));
    CorrectedDocumentPieces(bs);
    CorrectedCollapseDocument(bs);
  }

  /**
   * The two renderers on a one-line heading: as written, the heading stays inside the <p>
   * and is closed by the nameless </h>; corrected, it is a bare, properly closed h3.
   */
  lemma HeadingStaysInParagraph(sp: seq<Span>)
    requires PlainSpans(sp)
    ensures Render("### " + Markup(sp)) == "<p>" + H3Open + Html(sp) + "</h>"
    ensures CorrectedRender("### " + Markup(sp)) == H3Open + Html(sp) + "</h3>"
  {
    var bs := [Heading3(sp)];
    OneHeadingDocument(sp);
    assert Render(Document(bs)) == RenderedDocument(bs) by { RenderDocument(bs); }
    assert CorrectedRender(Document(bs)) == CorrectedDocument(bs) by { CorrectedRenderDocument(bs); }
    OneHeadingRendered(sp);
  }

  /** The document made of one heading is that heading's line. */
  lemma OneHeadingDocument(sp: seq<Span>)
    requires PlainSpans(sp)
    ensures WellFormedDocument([Heading3(sp)])
    ensures Document([Heading3(sp)]) == "### " + Markup(sp)
  {
    var bs := [Heading3(sp)];
    assert WellFormedDocument(bs);
    assert DocumentLines(bs) == ["### " + Markup(sp)];
  }

  /** What the two renderers make of the document holding one heading. */
  lemma OneHeadingRendered(sp: seq<Span>)
    ensures RenderedDocument([Heading3(sp)]) == "<p>" + H3Open + Html(sp) + "</h>"
    ensures CorrectedDocument([Heading3(sp)]) == H3Open + Html(sp) + "</h3>"
  {
    var bs := [Heading3(sp)];
    var o, h := H3Open, Html(sp);
    assert RenderedDocument(bs) == "<p>" + (o + (h + ("</h>" + "")));
    assert CorrectedDocument(bs) == o + (h + ("</h3>" + ""));
  }

  // ---------------------------------------------------------------------------------------
  // Facts about every input
  // ---------------------------------------------------------------------------------------

  /**
   * Which rule of :30-32 catches a line: "### " exactly (so neither "###T" nor "#### T"),
   * "#### ", and "* ", each wrapping the rest of the line.
   */
  lemma LineRules(line: string)
    ensures HeadingThree(line) != line <==> StartsWith(line, "### ")
    ensures StartsWith(line, "### ") ==> HeadingThree(line) == H3Open + line[4..] + "</h3>"
    ensures StartsWith(line, "### ") ==> !StartsWith(line, "#### ")
    ensures HeadingFour(line) != line <==> StartsWith(line, "#### ")
    ensures StartsWith(line, "#### ") ==> HeadingFour(line) == H4Open + line[5..] + "</h4>"
    ensures ListItem(line) != line <==> StartsWith(line, "* ")
    ensures StartsWith(line, "* ") ==> ListItem(line) == LiOpen + line[2..] + "</li>"
  {
    OpenTagFacts();
    if StartsWith(line, "### ") {
      assert |HeadingThree(line)| > |line|;
      StartsWithAt(line, "### ", 3);
      if StartsWith(line, "#### ") {
        StartsWithAt(line, "#### ", 3);
      }
    }
    if StartsWith(line, "#### ") {
      assert |HeadingFour(line)| > |line|;
    }
    if StartsWith(line, "* ") {
      assert |ListItem(line)| > |line|;
    }
  }

  lemma {:induction false} BoldKeepsNoBreak(s: string)
    requires '\n' !in s
    ensures '\n' !in Bold(s)
    decreases |s|
  {
    if s != [] {
      if PairAt(s, 0) && FindClose(s, 2).Some? {
        var j := FindClose(s, 2).value;
        assert forall c | c in s[2..j] :: c in s;
        BoldKeepsNoBreak(s[j + 2..]);
      } else {
        BoldKeepsNoBreak(s[1..]);
      }
    }
  }

  lemma TagKeepsNoBreak(name: string, attr: TagText)
    requires '\n' !in name
    ensures '\n' !in name + attr
  {
  }

  /** The rules of :30-32 wrap part of a line in tags that hold no line break. */
  lemma RuleKeepsNoBreak(open: string, close: string, line: string, k: nat)
    requires '\n' !in open && '\n' !in close && '\n' !in line && k <= |line|
    ensures '\n' !in open + line[k..] + close
  {
    assert forall c | c in line[k..] :: c in line;
  }

  lemma RulesKeepNoBreak(line: string)
    requires '\n' !in line
    ensures '\n' !in ListItem(HeadingFour(HeadingThree(line)))
  {
    TagKeepsNoBreak("<h3 ", H3Class1 + H3Class2 + H3Class3 + H3Class4);
    TagKeepsNoBreak("<h4 ", H4Class1 + H4Class2 + H4Class3 + H4Class4);
    TagKeepsNoBreak("<li ", LiClass);
    var g := HeadingThree(line);
    assert '\n' !in g by {
      if StartsWith(line, "### ") { RuleKeepsNoBreak(H3Open, "</h3>", line, 4); }
    }
    var h := HeadingFour(g);
    assert '\n' !in h by {
      if StartsWith(g, "#### ") { RuleKeepsNoBreak(H4Open, "</h4>", g, 5); }
    }
    if StartsWith(h, "* ") { RuleKeepsNoBreak(LiOpen, "</li>", h, 2); }
  }

  lemma {:induction false} PiecesKeepNoBreak(lines: seq<string>)
    requires forall i | 0 <= i < |lines| :: '\n' !in lines[i]
    ensures '\n' !in Pieces(lines)
  {
    if lines != [] {
      var l := lines[0];
      var a := ListItem(HeadingFour(HeadingThree(l)));
      assert '\n' !in a by { RulesKeepNoBreak(l); }
      BoldKeepsNoBreak(a);
      assert forall i | 0 <= i < |lines| - 1 :: lines[1..][i] == lines[i + 1];
      PiecesKeepNoBreak(lines[1..]);
    }
  }

  lemma {:induction false} ReplaceAllKeepsNoBreak(s: string, pats: seq<string>, rep: string)
    requires '\n' !in s && '\n' !in rep
    ensures '\n' !in ReplaceAll(s, pats, rep)
    decreases |s|
  {
    if s != [] {
      var n := MatchLength(s, pats);
      if n > 0 {
        ReplaceAllKeepsNoBreak(s[n..], pats, rep);
      } else {
        ReplaceAllKeepsNoBreak(s[1..], pats, rep);
      }
    }
  }

  lemma {:induction false} CollapseKeepsNoBreak(s: string)
    requires '\n' !in s
    ensures '\n' !in CollapseBreaks(s)
    decreases |s|
  {
    if s != [] {
      var r := BreakRun(s);
      if r.0 >= 2 {
        CollapseKeepsNoBreak(s[r.1..]);
      } else {
        CollapseKeepsNoBreak(s[1..]);
      }
    }
  }

  /** Whatever the report text, the rendered HTML holds no line break: :34 joins with ''. */
  lemma RenderHasNoLineBreak(content: string)
    ensures '\n' !in Render(content)
  {
    LinesHaveNoBreak(content);
    var p := Pieces(Lines(content));
    PiecesKeepNoBreak(Lines(content));
    var a := ReplaceAll(p, OpenHeadingPatterns, "<h");
    ReplaceAllKeepsNoBreak(p, OpenHeadingPatterns, "<h");
    var b := ReplaceAll(a, CloseHeadingPatterns, "</h>");
    ReplaceAllKeepsNoBreak(a, CloseHeadingPatterns, "</h>");
    var c := ReplaceAll(b, OpenItemPatterns, "<li>");
    ReplaceAllKeepsNoBreak(b, OpenItemPatterns, "<li>");
    ReplaceAllKeepsNoBreak(c, CloseItemPatterns, "</li>");
    CollapseKeepsNoBreak(Unwrap(p));
  }

  /** The lines of a heading, a list item and a bold line. */
  lemma ExampleLines(t: string, m: string, b: string)
    requires PlainText(t) && PlainText(m) && PlainText(b)
    ensures var bs := [Heading3([Text(t)]), Item([Text(m)]), Para([Strong(b)])];
      WellFormedDocument(bs) && DocumentLines(bs) == ["### " + t, "* " + m, "**" + b + "**"] &&
      Document(bs) == ("### " + t) + "\n" + (("* " + m) + "\n" + ("**" + b + "**"))
  {
    var b1, b2, b3 := Heading3([Text(t)]), Item([Text(m)]), Para([Strong(b)]);
    var bs := [b1, b2, b3];
    assert bs[1..] == [b2, b3] && [b2, b3][1..] == [b3] && [b3][1..] == [];
    assert Markup([Text(t)]) == t by { assert t + "" == t; }
    assert Markup([Text(m)]) == m by { assert m + "" == m; }
    var x := "**" + b + "**";
    assert Markup([Strong(b)]) == x by { assert x + "" == x; }
    assert WellFormed(b3) by {
      assert x[0] == '*' && x[1] == '*';
      assert !Blank(x) by { assert x[0] !in Whitespace; }
      assert !StartsWith(x, "### ") by { Mismatch(x, "### ", 0); }
      assert !StartsWith(x, "#### ") by { Mismatch(x, "#### ", 0); }
      assert !StartsWith(x, "* ") by { Mismatch(x, "* ", 1); }
    }
    assert DocumentLines([b3]) == [x];
    assert DocumentLines([b2, b3]) == ["* " + m] + [x];
    var ls := ["### " + t] + ["* " + m, x];
    assert DocumentLines(bs) == ls;
    assert ls[1..] == ["* " + m, x] && ls[1..][1..] == [x];
    assert JoinLines(ls[1..]) == ("* " + m) + "\n" + x;
    assert JoinLines(ls) == ("### " + t) + "\n" + JoinLines(ls[1..]);
  }

  lemma ExampleDocument()
    ensures WellFormedDocument([Heading3([Text("Title")]), Item([Text("item")]), Para([Strong("bold")])])
    ensures Document([Heading3([Text("Title")]), Item([Text("item")]), Para([Strong("bold")])])
         == "### Title\n* item\n**bold**"
  {
    assert PlainText("Title");
    assert PlainText("item");
    assert PlainText("bold");
    ExampleLines("Title", "item", "bold");
    assert ("### " + "Title") + "\n" + (("* " + "item") + "\n" + ("**" + "bold" + "**"))
        == "### Title\n* item\n**bold**";
  }

  /** The blocks of the three-line answer render one after the other. */
  lemma ExampleRendered(t: string, m: string, b: string)
    ensures RenderedDocument([Heading3([Text(t)]), Item([Text(m)]), Para([Strong(b)])])
         == "<p>" + (H3Open + (t + ("</h>" + ("<p>" + (LiOpen + (m + ("</li>" +
            ("<p>" + ("<strong>" + b + "</strong>") + "</p>"))))))))
  {
    var b1, b2, b3 := Heading3([Text(t)]), Item([Text(m)]), Para([Strong(b)]);
    var bs := [b1, b2, b3];
    assert bs[1..] == [b2, b3] && [b2, b3][1..] == [b3] && [b3][1..] == [];
    assert Html([Text(t)]) == t by { assert t + "" == t; }
    assert Html([Text(m)]) == m by { assert m + "" == m; }
    var h := "<strong>" + b + "</strong>";
    assert Html([Strong(b)]) == h by { assert h + "" == h; }
    var r3 := RenderedThen(b3, "");
    assert r3 == "<p>" + h + "</p>" by { assert "<p>" + (h + ("</p>" + "")) == "<p>" + h + "</p>"; }
    assert RenderedDocument([b3]) == r3;
    assert RenderedDocument([b2, b3]) == RenderedThen(b2, r3);
  }

  /**
   * A three-line answer: the heading and the list item each come out inside a paragraph, the
   * heading closed by </h>, and the bold line as a paragraph around a strong element.
   */
  lemma HeadingItemAndBold()
    ensures Render("### Title\n* item\n**bold**")
         == "<p>" + (H3Open + ("Title" + ("</h>" + ("<p>" + (LiOpen + ("item" + ("</li>" +
            ("<p>" + ("<strong>" + "bold" + "</strong>") + "</p>"))))))))
  {
    ExampleDocument();
    RenderDocument([Heading3([Text("Title")]), Item([Text("item")]), Para([Strong("bold")])]);
    ExampleRendered("Title", "item", "bold");
  }
}
