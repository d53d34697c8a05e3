/**
 * The worked example of `extract_text_from_content_elements`: a paragraph
 * with an entity and nested tags, followed by an image element, yields
 * exactly "Hello & world". The example is proved for any two words, then
 * instantiated; each step is its own lemma so that the solver never has to
 * unfold a scanner over a whole literal.
 */
module TextScenario {
  import opened Wrappers
  import opened Strings
  import opened Json
  import opened TextClean

  /** A word: non-empty, no whitespace and none of the characters the passes act on. */
  predicate Word(w: string) {
    w != [] &&
    forall i :: 0 <= i < |w| ==>
      !IsSpace(w[i]) && w[i] != '&' && w[i] != '<' && w[i] != '>' && w[i] != '[' && w[i] != '\n'
  }

  /** The raw paragraph of the example, around two words. */
  function TaggedPair(x: string, y: string): string {
    "<p>" + x + " &amp; <b>" + y + "</b></p>"
  }

  lemma TaggedPairAroundAmp(x: string, y: string)
    requires Word(x) && Word(y)
    ensures TaggedPair(x, y) == ("<p>" + x + " ") + ("&amp;" + (" <b>" + y + "</b></p>"))
    ensures '&' !in "<p>" + x + " " && '&' !in " <b>" + y + "</b></p>"
  {
    var pre := "<p>" + x + " ";
    var post := " <b>" + y + "</b></p>";
    assert forall i :: 0 <= i < |pre| ==> pre[i] != '&';
    assert forall i :: 0 <= i < |post| ==> post[i] != '&';
  }

  /** An entity between two stretches of plain text is the only thing decoded. */
  lemma UnescapeBetweenPlain(pre: string, post: string)
    requires '&' !in pre && '&' !in post
    ensures Unescape(pre + ("&amp;" + post)) == pre + ("&" + post)
  {
    UnescapePlainPrefix(pre, "&amp;" + post);
    UnescapeAmp(post);
  }

  lemma TaggedPairUnescaped(x: string, y: string)
    requires Word(x) && Word(y)
    ensures Unescape(TaggedPair(x, y)) == "<p>" + x + " & <b>" + y + "</b></p>"
  {
    var pre := "<p>" + x + " ";
    var post := " <b>" + y + "</b></p>";
    TaggedPairAroundAmp(x, y);
    UnescapeBetweenPlain(pre, post);
    AmpLayout(x, y);
  }

  lemma AmpLayout(x: string, y: string)
    ensures ("<p>" + x + " ") + ("&" + (" <b>" + y + "</b></p>")) == "<p>" + x + " & <b>" + y + "</b></p>"
  {
    var head := "<p>" + x;
    var tail := "</b></p>";
    assert " " + ("&" + " <b>") == " & <b>";
    assert "&" + (" <b>" + y + tail) == ("&" + " <b>") + y + tail;
    assert (head + " ") + (("&" + " <b>") + y + tail) == head + (" " + ("&" + " <b>")) + y + tail;
  }

  lemma TaggedPairLayout(x: string, y: string)
    requires Word(x) && Word(y)
    ensures "<p>" + x + " & <b>" + y + "</b></p>"
         == "<" + "p" + ">" + ((x + " & ") + ("<" + "b" + ">" + (y + ("<" + "/b" + ">" + ("<" + "/p" + ">" + "")))))
    ensures '<' !in x + " & " && '<' !in y
  {
    assert forall i :: 0 <= i < |x + " & "| ==> (x + " & ")[i] != '<';
    assert forall i :: 0 <= i < |y| ==> y[i] != '<';
  }

  /** Four tags around two stretches of plain text are all erased. */
  lemma StripFourTags(a: string, y: string)
    requires '<' !in a && '<' !in y
    ensures StripTags("<" + "p" + ">" + (a + ("<" + "b" + ">" + (y + ("<" + "/b" + ">" + ("<" + "/p" + ">" + ""))))))
         == a + y
  {
    var t4 := "<" + "/p" + ">" + "";
    var t3 := "<" + "/b" + ">" + t4;
    var t2 := y + t3;
    var t1 := "<" + "b" + ">" + t2;
    StripTagsErasesTag("p", a + t1);
    StripTagsPlainPrefix(a, t1);
    StripTagsErasesTag("b", t2);
    StripTagsPlainPrefix(y, t3);
    StripTagsErasesTag("/b", t4);
    StripTagsErasesTag("/p", "");
    assert y + "" == y;
  }

  lemma TaggedPairUntagged(x: string, y: string)
    requires Word(x) && Word(y)
    ensures StripTags("<p>" + x + " & <b>" + y + "</b></p>") == x + " & " + y
  {
    TaggedPairLayout(x, y);
    StripFourTags(x + " & ", y);
  }

  /** Two words around " & " form one clean line. */
  lemma JoinedWordsClean(x: string, y: string)
    requires Word(x) && Word(y)
    ensures var w := x + " & " + y;
      '[' !in w && '\n' !in w && NoDoubleSpace(w) && Stripped(w) && !IsRule(w)
  {
    var w := x + " & " + y;
    assert forall i :: 0 <= i < |w| ==> w[i] != '[' && w[i] != '\n';
    forall i | 0 <= i < |w| - 1 ensures !(w[i] == ' ' && w[i + 1] == ' ') {
      if i < |x| { assert w[i] == x[i]; }
      else if i == |x| { assert w[i + 1] == '&'; }
      else if i == |x| + 1 { assert w[i] == '&'; }
      else { assert w[i + 1] == y[i + 1 - |x| - 3]; }
    }
    assert w[0] == x[0] && w[|w| - 1] == y[|y| - 1];
    assert w[|x| + 1] == '&';
  }

  /** Once tags and entities are gone, clean text passes the remaining passes unchanged. */
  lemma CleanAfterTags(s: string, w: string)
    requires StripTags(Unescape(s)) == w
    requires '[' !in w && NoDoubleSpace(w) && Stripped(w)
    ensures CleanString(s) == w
  {
    StripStripped(w);
  }

  lemma TaggedPairCleans(x: string, y: string)
    requires Word(x) && Word(y)
    ensures CleanString(TaggedPair(x, y)) == x + " & " + y
  {
    TaggedPairUnescaped(x, y);
    TaggedPairUntagged(x, y);
    JoinedWordsClean(x, y);
    CleanAfterTags(TaggedPair(x, y), x + " & " + y);
  }

  lemma HelloWorldWords()
    ensures Word("Hello") && Word("world")
  {
  }

  lemma HelloWorldParagraph()
    ensures TaggedPair("Hello", "world") == "<p>Hello &amp; <b>world</b></p>"
  {
  }

  lemma HelloWorldJoined()
    ensures "Hello" + " & " + "world" == "Hello & world"
  {
  }

  /** The paragraph of the example cleans to "Hello & world". */
  lemma HelloWorldCleans()
    ensures CleanString("<p>Hello &amp; <b>world</b></p>") == "Hello & world"
  {
    HelloWorldWords();
    HelloWorldParagraph();
    HelloWorldJoined();
    TaggedPairCleans("Hello", "world");
  }

  /** A content element of type "text" holding `content`. */
  function TextElement(content: string): Json {
    JObj(map["type" := JStr("text"), "content" := JStr(content)])
  }

  /**
   * A text element whose content cleans to one clean line, followed by an
   * element of another type, extracts to exactly that line.
   */
  lemma TextThenOther(content: string, w: string, other: Json)
    requires content != [] && CleanString(content) == w
    requires w != [] && '\n' !in w && !IsRule(w)
    requires other.JObj? && Field(other.fields, "type") != JStr("text")
    ensures ExtractedText([TextElement(content), other]) == Ok(w)
  {
    var e := TextElement(content);
    TextElementFragment(content, w);
    SingleFragmentText(e, w);
    NonTextElementIgnored([e], other, []);
    PairSplit(e, other);
  }

  /** A text element's fragment is its cleaned content. */
  lemma TextElementFragment(content: string, w: string)
    requires content != [] && CleanString(content) == w
    ensures ElementFragment(TextElement(content)) == Ok(w)
  {
    var e := TextElement(content);
    assert Field(e.fields, "type") == JStr("text") && e.fields["content"] == JStr(content);
  }

  /** `[e, other]` is `[e]`, then `[other]`, then nothing. */
  lemma PairSplit(e: Json, other: Json)
    ensures [e, other] == [e] + [other] + [] && [e] + [] == [e]
  {
  }

  const HelloElement: Json := TextElement("<p>Hello &amp; <b>world</b></p>")
  const ImageElement: Json :=
    JObj(map["type" := JStr("image"), "content" := JStr("<img src='foo.jpg' />")])

  /** The paragraph followed by an image element extracts to exactly "Hello & world". */
  lemma HelloWorldScenario()
    ensures ExtractedText([HelloElement, ImageElement]) == Ok("Hello & world")
  {
    HelloWorldCleans();
    HelloWorldWords();
    JoinedWordsClean("Hello", "world");
    HelloWorldJoined();
    assert Field(ImageElement.fields, "type") == JStr("image");
    TextThenOther("<p>Hello &amp; <b>world</b></p>", "Hello & world", ImageElement);
  }
}
