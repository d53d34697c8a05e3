/**
 * Text cleaning (transformers.py): the regular-expression passes of
 * `clean_text_fragment` and `normalize_full_text`, each written as a
 * hand-written scanner, and `extract_text_from_content_elements`.
 */
module TextClean {
  import opened Wrappers
  import opened Strings
  import opened Json

  // ---------------------------------------------------------------------
  // html.unescape, over a fixed table of named and numeric entities
  // ---------------------------------------------------------------------

  const Entities: seq<(string, char)> :=
    [("&amp;", '&'), ("&lt;", '<'), ("&gt;", '>'), ("&quot;", '"'),
     ("&#39;", '\''), ("&apos;", '\''), ("&nbsp;", '\U{A0}')]

  /** The first entity of `table` that `s` starts with: its length and its character. */
  function MatchEntity(s: string, table: seq<(string, char)>): (r: Option<(nat, char)>)
    requires forall i :: 0 <= i < |table| ==> table[i].0 != []
    ensures r.Some? ==> 0 < r.value.0 <= |s|
  {
    if table == [] then None
    else if StartsWith(s, table[0].0) then Some((|table[0].0|, table[0].1))
    else MatchEntity(s, table[1..])
  }

  /** Decodes every entity of the table, scanning left to right, each once. */
  function Unescape(s: string): (r: string)
    ensures |r| <= |s|
    ensures '&' !in s ==> r == s
    decreases |s|
  {
    if s == [] then []
    else if s[0] == '&' then
      match MatchEntity(s, Entities)
      case Some((n, c)) => [c] + Unescape(s[n..])
      case None => "&" + Unescape(s[1..])
    else [s[0]] + Unescape(s[1..])
  }

  /** Text without '&' passes through the decoder untouched. */
  lemma {:induction false} UnescapePlainPrefix(p: string, t: string)
    requires '&' !in p
    ensures Unescape(p + t) == p + Unescape(t)
    decreases |p|
  {
    if p != [] {
      var s := p + t;
      assert s[0] == p[0] && s[0] != '&';
      assert s[1..] == p[1..] + t;
      assert Unescape(s) == [p[0]] + Unescape(p[1..] + t);
      UnescapePlainPrefix(p[1..], t);
      assert [p[0]] + (p[1..] + Unescape(t)) == ([p[0]] + p[1..]) + Unescape(t);
      assert [p[0]] + p[1..] == p;
    } else {
      assert p + t == t;
    }
  }

  /** "&amp;" decodes to a single '&', which is not decoded again. */
  lemma UnescapeAmp(t: string)
    ensures Unescape("&amp;" + t) == "&" + Unescape(t)
  {
    var s := "&amp;" + t;
    assert StartsWith(s, "&amp;") by { assert s[..5] == "&amp;"; }
    assert MatchEntity(s, Entities) == Some((5, '&'));
    assert s[5..] == t;
  }

  // ---------------------------------------------------------------------
  // TAG_RE = <[^>]+>  replaced by ""
  // ---------------------------------------------------------------------

  /** A match of `<[^>]+>` starts at `i`: a '<', then at least one character before the next '>'. */
  predicate TagAt(s: string, i: nat)
    requires i < |s|
  {
    s[i] == '<' && Find(s[i + 1..], '>') > 0
  }

  predicate NoTag(s: string) {
    forall i :: 0 <= i < |s| ==> !TagAt(s, i)
  }

  /** Removes every match of `<[^>]+>`, leftmost first. */
  function StripTags(s: string): (r: string)
    ensures |r| <= |s|
    ensures forall i :: 0 <= i < |r| ==> r[i] in s
    ensures '<' !in s ==> r == s
    ensures s != [] && s[0] != '<' ==> r != [] && r[0] == s[0]
    decreases |s|
  {
    if s == [] then []
    else if s[0] == '<' then
      var k := Find(s[1..], '>');
      if k > 0 then
        var r := StripTags(s[k + 2..]);
        assert forall i :: 0 <= i < |r| ==> r[i] in s[k + 2..];
        r
      else "<" + StripTags(s[1..])
    else [s[0]] + StripTags(s[1..])
  }

  /** Position `i` of `[c] + t` is position `i - 1` of `t`. */
  lemma TagAtShift(c: char, t: string, i: nat)
    requires 0 < i <= |t|
    ensures TagAt([c] + t, i) == TagAt(t, i - 1)
  {
    var s := [c] + t;
    assert s[i] == t[i - 1];
    assert s[i + 1..] == t[i..];
  }

  lemma NoTagCons(c: char, t: string)
    requires NoTag(t)
    requires c == '<' ==> Find(t, '>') <= 0
    ensures NoTag([c] + t)
  {
    var s := [c] + t;
    forall i | 0 <= i < |s|
      ensures !TagAt(s, i)
    {
      if i == 0 {
        assert s[1..] == t;
      } else {
        TagAtShift(c, t, i);
      }
    }
  }

  /** No match of the tag pattern survives the pass. */
  lemma {:induction false} StripTagsLeavesNoTag(s: string)
    ensures NoTag(StripTags(s))
    decreases |s|
  {
    if s == [] {
    } else if s[0] == '<' {
      var k := Find(s[1..], '>');
      if k > 0 {
        StripTagsLeavesNoTag(s[k + 2..]);
      } else {
        var t := s[1..];
        StripTagsLeavesNoTag(t);
        var r := StripTags(t);
        if k == 0 {
          assert r[0] == '>';
        } else {
          assert '>' !in r;
        }
        NoTagCons('<', r);
        assert StripTags(s) == [s[0]] + r;
      }
    } else {
      StripTagsLeavesNoTag(s[1..]);
      NoTagCons(s[0], StripTags(s[1..]));
      assert StripTags(s) == [s[0]] + StripTags(s[1..]);
    }
  }

  /** Text without '<' passes through the tag pass untouched. */
  lemma {:induction false} StripTagsPlainPrefix(p: string, t: string)
    requires '<' !in p
    ensures StripTags(p + t) == p + StripTags(t)
    decreases |p|
  {
    if p != [] {
      var s := p + t;
      assert s[0] == p[0] && s[0] != '<';
      assert s[1..] == p[1..] + t;
      assert StripTags(s) == [p[0]] + StripTags(p[1..] + t);
      StripTagsPlainPrefix(p[1..], t);
      assert [p[0]] + (p[1..] + StripTags(t)) == ([p[0]] + p[1..]) + StripTags(t);
      assert [p[0]] + p[1..] == p;
    } else {
      assert p + t == t;
    }
  }

  /** A tag `<x>` with a non-empty body is erased, and scanning resumes after it. */
  lemma StripTagsErasesTag(x: string, t: string)
    requires x != [] && '>' !in x
    ensures StripTags("<" + x + ">" + t) == StripTags(t)
  {
    var s := "<" + x + ">" + t;
    assert s[1..] == x + ">" + t;
    assert Find(s[1..], '>') == |x| by {
      assert (x + ">" + t)[|x|] == '>';
      assert (x + ">" + t)[..|x|] == x;
    }
    assert s[|x| + 2..] == t;
  }

  // ---------------------------------------------------------------------
  // LINK_PATTERN = \[([^\]]+)\]\([^\)]+\)  replaced by the label
  // ---------------------------------------------------------------------

  /**
   * The length of the markdown link `[label](target)` that starts `s`: a
   * non-empty label without `]`, then `(`, then a non-empty target without
   * `)`. It is 0 when no link starts there.
   */
  function LinkLength(s: string): (n: nat)
    ensures n > 0 ==> n <= |s| && s[0] == '[' && 0 < Find(s[1..], ']') && Find(s[1..], ']') + 4 < n
  {
    if s == [] || s[0] != '[' then 0
    else
      var j := Find(s[1..], ']');          // the label is s[1..j+1], its ']' is s[j+1]
      if j > 0 && j + 2 < |s| && s[j + 2] == '(' then
        var m := Find(s[j + 3..], ')');    // the target is s[j+3..j+3+m]
        if m > 0 then j + 4 + m else 0
      else 0
  }

  /** Replaces every markdown link `[label](target)` by `label`, leftmost first. */
  function CollapseLinks(s: string): (r: string)
    ensures |r| <= |s|
    ensures '[' !in s ==> r == s
    decreases |s|
  {
    if s == [] then []
    else
      var n := LinkLength(s);
      if n > 0 then s[1..Find(s[1..], ']') + 1] + CollapseLinks(s[n..])
      else [s[0]] + CollapseLinks(s[1..])
  }

  /**
   * A markdown link `[l](t)` with a non-empty label without `]` and a
   * non-empty target without `)` becomes its label, and the scan resumes
   * after the closing `)`.
   */
  lemma CollapseLinksKeepsLabel(l: string, t: string, rest: string)
    requires l != [] && ']' !in l && t != [] && ')' !in t
    ensures CollapseLinks("[" + l + "](" + t + ")" + rest) == l + CollapseLinks(rest)
  {
    var s := "[" + l + "](" + t + ")" + rest;
    LinkAtStart(l, t, rest);
    CollapseLinksStep(s);
  }

  /** How `LinkLength` reads a link `[l](t)` followed by `rest`. */
  lemma LinkAtStart(l: string, t: string, rest: string)
    requires l != [] && ']' !in l && t != [] && ')' !in t
    ensures var s := "[" + l + "](" + t + ")" + rest;
      && Find(s[1..], ']') == |l| && LinkLength(s) == |l| + |t| + 4
      && s[1..|l| + 1] == l && s[|l| + |t| + 4..] == rest
  {
    var s := "[" + l + "](" + t + ")" + rest;
    LinkLabelEnd(l, t, rest);
    LinkTargetEnd(l, t, rest);
    LinkPieces(l, t, rest);
    LinkLengthAt(s, |l|, |t|);
  }

  /** The label's `]` is the first one after the `[`. */
  lemma LinkLabelEnd(l: string, t: string, rest: string)
    requires ']' !in l
    ensures var s := "[" + l + "](" + t + ")" + rest; Find(s[1..], ']') == |l|
  {
    var s := "[" + l + "](" + t + ")" + rest;
    assert s[1..] == l + [']'] + ("(" + t + ")" + rest);
    FindFirst(l, ']', "(" + t + ")" + rest);
  }

  /** The target's `)` is the first one after the `(`. */
  lemma LinkTargetEnd(l: string, t: string, rest: string)
    requires ')' !in t
    ensures var s := "[" + l + "](" + t + ")" + rest; Find(s[|l| + 3..], ')') == |t|
  {
    var s := "[" + l + "](" + t + ")" + rest;
    assert s[|l| + 3..] == t + [')'] + rest;
    FindFirst(t, ')', rest);
  }

  /** Where the brackets, the label and the rest sit in `[l](t)` followed by `rest`. */
  lemma LinkPieces(l: string, t: string, rest: string)
    ensures var s := "[" + l + "](" + t + ")" + rest;
      && |s| == |l| + |t| + 4 + |rest| && s[0] == '[' && s[|l| + 2] == '('
      && s[1..|l| + 1] == l && s[|l| + |t| + 4..] == rest
  {
  }

  /** A label of length `j` and a target of length `m` make a link of length `j + m + 4`. */
  lemma LinkLengthAt(s: string, j: int, m: int)
    requires |s| > j + 2 && j > 0 && s[0] == '[' && s[j + 2] == '('
    requires Find(s[1..], ']') == j && Find(s[j + 3..], ')') == m && m > 0
    ensures LinkLength(s) == j + 4 + m
  {
  }

  /** The link case of `CollapseLinks`, one step. */
  lemma CollapseLinksStep(s: string)
    requires LinkLength(s) > 0
    ensures CollapseLinks(s) == s[1..Find(s[1..], ']') + 1] + CollapseLinks(s[LinkLength(s)..])
  {
  }

  /** The first `c` of `p + [c] + q`, when `p` holds none, is right after `p`. */
  lemma FindFirst(p: string, c: char, q: string)
    requires c !in p
    ensures Find(p + [c] + q, c) == |p|
  {
    var w := p + [c] + q;
    assert w[|p|] == c;
    assert w[..|p|] == p;
  }

  // ---------------------------------------------------------------------
  // MULTIPLE_SPACES = ' {2,}'  replaced by ' '
  // ---------------------------------------------------------------------

  predicate NoDoubleSpace(s: string) {
    forall i :: 0 <= i < |s| - 1 ==> !(s[i] == ' ' && s[i + 1] == ' ')
  }

  /** Collapses every run of two or more spaces to one space. */
  function CollapseSpaces(s: string): (r: string)
    ensures |r| <= |s|
    ensures s != [] ==> r != [] && r[0] == s[0]
    ensures NoDoubleSpace(r)
    ensures NoDoubleSpace(s) ==> r == s
    decreases |s|
  {
    if s == [] then []
    else if |s| >= 2 && s[0] == ' ' && s[1] == ' ' then CollapseSpaces(s[1..])
    else
      var t := CollapseSpaces(s[1..]);
      assert NoDoubleSpace(s) ==> NoDoubleSpace(s[1..]) by {
        if NoDoubleSpace(s) {
          forall i | 0 <= i < |s[1..]| - 1 ensures !(s[1..][i] == ' ' && s[1..][i + 1] == ' ') {
            assert s[1..][i] == s[i + 1] && s[1..][i + 1] == s[i + 2];
          }
        }
      }
      [s[0]] + t
  }

  // ---------------------------------------------------------------------
  // clean_text_fragment
  // ---------------------------------------------------------------------

  /** The passes of `clean_text_fragment` on a string, in order. */
  function CleanString(s: string): (r: string)
    ensures Stripped(r) && NoDoubleSpace(r)
  {
    var c := CollapseSpaces(CollapseLinks(StripTags(Unescape(s))));
    StripKeepsNoDoubleSpace(c);
    Strip(c)
  }

  /** Stripping cuts only the ends, so it brings no two spaces together. */
  lemma StripKeepsNoDoubleSpace(c: string)
    requires NoDoubleSpace(c)
    ensures NoDoubleSpace(Strip(c))
  {
    var r := Strip(c);
    var a := LeadingSpaces(c);
    forall i | 0 <= i < |r| - 1 ensures !(r[i] == ' ' && r[i + 1] == ' ') {
      assert r[i] == c[a + i] && r[i + 1] == c[a + i + 1];
    }
  }

  /**
   * `clean_text_fragment(content)`: a falsy value (None, "", 0, [], ...) is "",
   * a string goes through the passes, anything else makes the regex raise.
   */
  function CleanFragment(v: Json): (r: Result<string, Failure>)
    ensures !Truthy(v) ==> r == Ok("")
    ensures Truthy(v) && !v.JStr? ==> r == Err(Malformed)
    ensures r.Ok? ==> Stripped(r.value) && NoDoubleSpace(r.value)
  {
    if !Truthy(v) then Ok("")
    else if v.JStr? then Ok(CleanString(v.s))
    else Err(Malformed)
  }

  /** Text that is already clean comes back unchanged. */
  lemma CleanKeepsCleanText(s: string)
    requires '&' !in s && '<' !in s && '[' !in s
    requires NoDoubleSpace(s) && Stripped(s)
    ensures CleanString(s) == s
  {
    StripStripped(s);
  }

  // ---------------------------------------------------------------------
  // normalize_full_text
  // ---------------------------------------------------------------------

  /** HORIZONTAL_RULE = ^[\*\-]{3,}$ : a whole line of three or more '*' or '-'. */
  predicate IsRule(line: string) {
    |line| >= 3 && forall i :: 0 <= i < |line| ==> line[i] == '*' || line[i] == '-'
  }

  /** The lines of `s`, split at every '\n' (as `s.split("\n")`). */
  function Lines(s: string): (ls: seq<string>)
    ensures ls != []
    ensures forall l :: l in ls ==> '\n' !in l
    decreases |s|
  {
    var k := Find(s, '\n');
    if k < 0 then [s] else [s[..k]] + Lines(s[k + 1..])
  }

  /** One line after the pass: emptied when it is a horizontal rule. */
  function KeepLine(line: string): string {
    if IsRule(line) then "" else line
  }

  /** Empties every line that is a horizontal rule, keeping its line break. */
  function DropRules(s: string): (r: string)
    ensures |r| <= |s|
    decreases |s|
  {
    var k := Find(s, '\n');
    if k < 0 then KeepLine(s)
    else KeepLine(s[..k]) + "\n" + DropRules(s[k + 1..])
  }

  /** No line of `s` is a horizontal rule. */
  predicate NoRuleLines(s: string) {
    forall l :: l in Lines(s) ==> !IsRule(l)
  }

  /** After the pass no line of the text is a horizontal rule. */
  lemma {:induction false} DropRulesLeavesNoRule(s: string)
    ensures NoRuleLines(DropRules(s))
    decreases |s|
  {
    var k := Find(s, '\n');
    if k < 0 {
      var r := KeepLine(s);
      assert DropRules(s) == r;
      LinesOfOneLine(r);
    } else {
      DropRulesLeavesNoRule(s[k + 1..]);
      DropRulesStep(s, k);
    }
  }

  /** The first line, kept or emptied, then the pass over the lines after it. */
  lemma DropRulesStep(s: string, k: int)
    requires k == Find(s, '\n') && k >= 0
    requires NoRuleLines(DropRules(s[k + 1..]))
    ensures NoRuleLines(DropRules(s))
  {
    var line := KeepLine(s[..k]);
    var rest := DropRules(s[k + 1..]);
    NoRuleCons(line, rest);
    assert DropRules(s) == line + "\n" + rest;
  }

  lemma NoRuleCons(line: string, rest: string)
    requires '\n' !in line && !IsRule(line)
    requires NoRuleLines(rest)
    ensures NoRuleLines(line + "\n" + rest)
  {
    LinesCons(line, rest);
  }

  lemma LinesOfOneLine(s: string)
    requires '\n' !in s
    ensures Lines(s) == [s]
  {
  }

  /** A line, a line break, then more lines. */
  lemma LinesCons(line: string, rest: string)
    requires '\n' !in line
    ensures Lines(line + "\n" + rest) == [line] + Lines(rest)
  {
    var r := line + "\n" + rest;
    assert r[|line|] == '\n';
    assert r[..|line|] == line && r[|line| + 1..] == rest;
    assert Find(r, '\n') == |line|;
  }

  predicate NoTripleNewline(s: string) {
    forall i :: 0 <= i < |s| - 2 ==> !(s[i] == '\n' && s[i + 1] == '\n' && s[i + 2] == '\n')
  }

  /** MULTIPLE_NEWLINES = \n{3,} replaced by "\n\n". */
  function CapNewlines(s: string): (r: string)
    ensures |r| <= |s|
    ensures |s| >= 1 ==> |r| >= 1 && r[0] == s[0]
    ensures |s| >= 2 ==> |r| >= 2 && r[1] == s[1]
    ensures NoTripleNewline(r)
    decreases |s|
  {
    if s == [] then []
    else if |s| >= 3 && s[0] == '\n' && s[1] == '\n' && s[2] == '\n' then CapNewlines(s[1..])
    else [s[0]] + CapNewlines(s[1..])
  }

  /** Text without a run of three newlines is left alone by the pass. */
  lemma {:induction false} CapNewlinesKeeps(s: string)
    requires NoTripleNewline(s)
    ensures CapNewlines(s) == s
    decreases |s|
  {
    if s != [] {
      assert NoTripleNewline(s[1..]) by {
        forall i | 0 <= i < |s[1..]| - 2
          ensures !(s[1..][i] == '\n' && s[1..][i + 1] == '\n' && s[1..][i + 2] == '\n')
        {
          assert s[1..][i] == s[i + 1];
        }
      }
      CapNewlinesKeeps(s[1..]);
    }
  }

  lemma NoTripleNewlineInfix(c: string, a: nat, n: nat)
    requires a + n <= |c| && NoTripleNewline(c)
    ensures NoTripleNewline(c[a..a + n])
  {
    var r := c[a..a + n];
    forall i | 0 <= i < |r| - 2
      ensures !(r[i] == '\n' && r[i + 1] == '\n' && r[i + 2] == '\n')
    {
      assert r[i] == c[a + i] && r[i + 1] == c[a + i + 1] && r[i + 2] == c[a + i + 2];
    }
  }

  /** `normalize_full_text`: drop rule lines, cap newline runs at two, strip. */
  function NormalizeFullText(s: string): (r: string)
    ensures Stripped(r) && NoTripleNewline(r)
  {
    if s == [] then []
    else
      var c := CapNewlines(DropRules(s));
      StripKeepsNoTripleNewline(c);
      Strip(c)
  }

  lemma StripKeepsNoTripleNewline(c: string)
    requires NoTripleNewline(c)
    ensures NoTripleNewline(Strip(c))
  {
    NoTripleNewlineInfix(c, LeadingSpaces(c), |Strip(c)|);
  }

  // ---------------------------------------------------------------------
  // extract_text_from_content_elements
  // ---------------------------------------------------------------------

  const Paragraph: string := "\n\n"

  /**
   * What one content element contributes: "" when its `type` is not "text"
   * or its content cleans to nothing; an element that is not a dict raises.
   */
  function ElementFragment(e: Json): (r: Result<string, Failure>)
    ensures e.JObj? && Field(e.fields, "type") != JStr("text") ==> r == Ok("")
    ensures !e.JObj? ==> r.Err?
    ensures r.Ok? ==> Stripped(r.value) && NoDoubleSpace(r.value)
  {
    if !e.JObj? then Err(Malformed)
    else if Field(e.fields, "type") != JStr("text") then Ok("")
    else CleanFragment(if "content" in e.fields then e.fields["content"] else JStr(""))
  }

  /**
   * The loop of the source: `acc` followed by the non-empty fragments of
   * `xs`, in order, `fragment` giving each element's fragment; the first
   * element that fails ends the loop with its error.
   */
  function Collect(acc: seq<string>, xs: seq<Json>, fragment: Json -> Result<string, Failure>): (r: Result<seq<string>, Failure>)
    decreases |xs|
  {
    if xs == [] then Ok(acc)
    else
      var f := fragment(xs[0]);
      if f.Err? then Err(f.error) else Collect(acc + Kept(f.value), xs[1..], fragment)
  }

  /** A fragment is kept only when it is not empty. */
  function Kept(f: string): seq<string> {
    if f == "" then [] else [f]
  }

  /** The cleaned, non-empty fragments of the text elements, in input order. */
  function Fragments(xs: seq<Json>): Result<seq<string>, Failure> {
    Collect([], xs, ElementFragment)
  }

  /** The result of `extract_text_from_content_elements(xs)`. */
  function ExtractedText(xs: seq<Json>): (r: Result<string, Failure>)
    ensures r.Ok? ==> Stripped(r.value) && NoTripleNewline(r.value)
    ensures Fragments(xs) == Ok([]) ==> r == Ok("")
    ensures r.Ok? <==> Fragments(xs).Ok?
  {
    match Fragments(xs)
    case Err(e) => Err(e)
    case Ok(frags) => if frags == [] then Ok("") else Ok(NormalizeFullText(Join(Paragraph, frags)))
  }

  function Prepend(acc: seq<string>, r: Result<seq<string>, Failure>): Result<seq<string>, Failure> {
    if r.Ok? then Ok(acc + r.value) else r
  }

  /** `acc` only ever prefixes what the scan produces. */
  lemma {:induction false} CollectPrefix(acc: seq<string>, xs: seq<Json>, fragment: Json -> Result<string, Failure>)
    ensures Collect(acc, xs, fragment) == Prepend(acc, Collect([], xs, fragment))
    decreases |xs|
  {
    if xs == [] {
      assert acc + [] == acc;
    } else {
      var ef := fragment(xs[0]);
      if ef.Ok? {
        var f0 := Kept(ef.value);
        assert Collect([], xs, fragment) == Collect(f0, xs[1..], fragment) by {
          assert [] + f0 == f0;
        }
        CollectPrefix(acc + f0, xs[1..], fragment);
        CollectPrefix(f0, xs[1..], fragment);
        var rest := Collect([], xs[1..], fragment);
        if rest.Ok? {
          assert (acc + f0) + rest.value == acc + (f0 + rest.value);
        }
      }
    }
  }

  /** Scanning `a + b` is scanning `a`, then `b` from where `a` left off. */
  lemma {:induction false} CollectAppend(acc: seq<string>, a: seq<Json>, b: seq<Json>,
                                         fragment: Json -> Result<string, Failure>)
    ensures Collect(acc, a + b, fragment) ==
            (var ra := Collect(acc, a, fragment); if ra.Err? then ra else Collect(ra.value, b, fragment))
    decreases |a|
  {
    if a == [] {
      assert a + b == b;
    } else {
      assert (a + b)[1..] == a[1..] + b;
      assert (a + b)[0] == a[0];
      var f := fragment(a[0]);
      if f.Ok? {
        CollectAppend(acc + Kept(f.value), a[1..], b, fragment);
      }
    }
  }

  /** Fragments keep input order: those of `a` come before those of `b`. */
  lemma FragmentsAppend(a: seq<Json>, b: seq<Json>)
    ensures Fragments(a).Err? ==> Fragments(a + b) == Fragments(a)
    ensures Fragments(a).Ok? ==> Fragments(a + b) == Prepend(Fragments(a).value, Fragments(b))
  {
    CollectAppend([], a, b, ElementFragment);
    if Fragments(a).Ok? {
      CollectPrefix(Fragments(a).value, b, ElementFragment);
    }
  }

  /** A dict whose `type` is not "text" contributes nothing, wherever it is inserted. */
  lemma NonTextElementIgnored(a: seq<Json>, e: Json, b: seq<Json>)
    requires e.JObj? && Field(e.fields, "type") != JStr("text")
    ensures Fragments(a + [e] + b) == Fragments(a + b)
    ensures ExtractedText(a + [e] + b) == ExtractedText(a + b)
  {
    assert a + [e] + b == a + ([e] + b);
    assert Fragments([e] + b) == Fragments(b) by {
      assert ([e] + b)[1..] == b;
      assert ElementFragment(e) == Ok("");
      assert [] + Kept("") == [];
    }
    FragmentsAppend(a, [e] + b);
    FragmentsAppend(a, b);
  }

  /** One line that is already clean passes `normalize_full_text` unchanged. */
  lemma NormalizeKeepsCleanLine(w: string)
    requires Stripped(w) && '\n' !in w && !IsRule(w)
    ensures NormalizeFullText(w) == w
  {
    if w != [] {
      assert DropRules(w) == w;
      assert NoTripleNewline(w);
      CapNewlinesKeeps(w);
      StripStripped(w);
    }
  }

  /** A single element cleaning to one line of text yields exactly that line. */
  lemma SingleFragmentText(e: Json, w: string)
    requires ElementFragment(e) == Ok(w)
    requires w != [] && '\n' !in w && !IsRule(w)
    ensures ExtractedText([e]) == Ok(w)
  {
    assert Fragments([e]) == Ok([w]) by {
      assert [e][1..] == [] && [e][0] == e;
      assert Kept(w) == [w];
      assert Collect([], [e], ElementFragment) == Collect([] + [w], [], ElementFragment);
      assert [] + [w] == [w];
    }
    assert Join(Paragraph, [w]) == w;
    NormalizeKeepsCleanLine(w);
  }

  /** `extract_text_from_content_elements`, as the loop the source runs. */
  method ExtractText(elements: seq<Json>) returns (r: Result<string, Failure>)
    ensures r == ExtractedText(elements)
  {
    var fragments: seq<string> := [];
    var i := 0;
    while i < |elements|
      invariant 0 <= i <= |elements|
      invariant Collect(fragments, elements[i..], ElementFragment) == Fragments(elements)
    {
      var el := elements[i];
      assert elements[i..][1..] == elements[i + 1..];
      assert elements[i..][0] == el;
      if !el.JObj? {
        return Err(Malformed);
      }
      if Field(el.fields, "type") != JStr("text") {
        assert fragments + Kept("") == fragments;
        i := i + 1;
        continue;
      }
      var content := if "content" in el.fields then el.fields["content"] else JStr("");
      var cleaned := CleanFragment(content);
      assert ElementFragment(el) == cleaned;
      if cleaned.Err? {
        return Err(cleaned.error);
      }
      fragments := fragments + Kept(cleaned.value);
      i := i + 1;
    }
    if fragments == [] {
      return Ok("");
    }
    r := Ok(NormalizeFullText(Join(Paragraph, fragments)));
  }
}
