// What the Pascal VOC and CVAT adapters share (src/ir/io_voc_xml.rs,
// src/ir/io_cvat_xml.rs): an XML element tree as the parser hands it over,
// the child lookups both adapters use, `xml_escape` and `normalize_bool_attr`.
// Turning text into a tree (roxmltree) is not part of this model: a tree's
// text and attribute values are already unescaped.
module XmlTree {
  import opened Wrappers
  import opened Text

  /**
   * An element: its tag, its attributes, the text of its first text child
   * (`Node::text`) and its child elements in document order.
   */
  datatype Element = Element(tag: string, attributes: map<string, string>, text: Option<string>,
                             children: seq<Element>)

  /** The position of the first element with `tag`, or `|nodes|` when there is none. */
  function FirstWithTag(nodes: seq<Element>, tag: string): (i: nat)
    ensures i <= |nodes|
    ensures i < |nodes| ==> nodes[i].tag == tag
    ensures forall j :: 0 <= j < i ==> nodes[j].tag != tag
  {
    if |nodes| == 0 then 0
    else if nodes[0].tag == tag then 0
    else 1 + FirstWithTag(nodes[1..], tag)
  }

  /** `child_element`: the first child element with `tag`. */
  function ChildElement(e: Element, tag: string): (r: Option<Element>)
    ensures r.Some? <==> exists j :: 0 <= j < |e.children| && e.children[j].tag == tag
    ensures r.Some? ==> r.value.tag == tag && r.value in e.children
  {
    var i := FirstWithTag(e.children, tag);
    if i < |e.children| then Some(e.children[i]) else None
  }

  /** `optional_child_text`: the trimmed text of the first child with `tag`, when not empty. */
  function OptionalChildText(e: Element, tag: string): (r: Option<string>)
    ensures r.Some? ==> r.value != "" && r.value == Trim(r.value)
  {
    match ChildElement(e, tag)
    case None => None
    case Some(child) =>
      if child.text.None? then None
      else
        var t := Trim(child.text.value);
        TrimIdempotent(child.text.value);
        if t == "" then None else Some(t)
  }

  /** The child elements with `tag`, in document order. */
  function ChildrenWithTag(e: Element, tag: string): (r: seq<Element>)
    ensures forall c :: c in r <==> c in e.children && c.tag == tag
  {
    FilterTag(e.children, tag)
  }

  function FilterTag(nodes: seq<Element>, tag: string): (r: seq<Element>)
    ensures forall c :: c in r <==> c in nodes && c.tag == tag
  {
    if |nodes| == 0 then []
    else
      assert forall c :: c in nodes <==> c == nodes[0] || c in nodes[1..];
      (if nodes[0].tag == tag then [nodes[0]] else []) + FilterTag(nodes[1..], tag)
  }

  // ------------------------------------------------------------ escaping

  /**
   * `xml_escape`: `&` is replaced first, then `<`, `>`, `"` and `'`, so the
   * ampersands the later steps introduce are not escaped again.
   */
  function XmlEscape(raw: string): string {
    ReplaceChar(ReplaceChar(ReplaceChar(ReplaceChar(ReplaceChar(raw, '&', "&amp;"), '<', "&lt;"),
                                        '>', "&gt;"), '"', "&quot;"), '\'', "&apos;")
  }

  /** The entity one character escapes to. */
  function EscapeChar(c: char): string {
    if c == '&' then "&amp;"
    else if c == '<' then "&lt;"
    else if c == '>' then "&gt;"
    else if c == '"' then "&quot;"
    else if c == '\'' then "&apos;"
    else [c]
  }

  /** Escaping character by character. */
  function EscapeEach(s: string): string {
    if |s| == 0 then "" else EscapeChar(s[0]) + EscapeEach(s[1..])
  }

  /** How an XML reader resolves the five predefined entities. */
  function XmlUnescape(s: string): string
    decreases |s|
  {
    if |s| == 0 then ""
    else if StartsWith(s, "&amp;") then "&" + XmlUnescape(s[5..])
    else if StartsWith(s, "&lt;") then "<" + XmlUnescape(s[4..])
    else if StartsWith(s, "&gt;") then ">" + XmlUnescape(s[4..])
    else if StartsWith(s, "&quot;") then "\"" + XmlUnescape(s[6..])
    else if StartsWith(s, "&apos;") then "'" + XmlUnescape(s[6..])
    else [s[0]] + XmlUnescape(s[1..])
  }

  lemma {:induction false} ReplaceCharAbsent(s: string, c: char, repl: string)
    requires forall k :: 0 <= k < |s| ==> s[k] != c
    ensures ReplaceChar(s, c, repl) == s
  {
    if |s| > 0 {
      ReplaceCharAbsent(s[1..], c, repl);
    }
  }

  lemma ReplaceCharSingle(c: char, d: char, repl: string)
    ensures ReplaceChar([c], d, repl) == if c == d then repl else [c]
  {
    assert [c][1..] == [];
  }

  /** The replacement chain applied to one character gives that character's entity. */
  lemma XmlEscapeChar(c: char)
    ensures XmlEscape([c]) == EscapeChar(c)
  {
    if c == '&' {
      EscapeAmpersand();
    } else if c == '<' {
      EscapeLess();
    } else if c == '>' {
      EscapeGreater();
    } else if c == '"' {
      EscapeQuote();
    } else if c == '\'' {
      EscapeApostrophe();
    } else {
      EscapePlain(c);
    }
  }

  /** Text free of the markup characters passes the four steps after the first unchanged. */
  lemma NoMarkupPassesFrom(e: string, from: nat)
    requires 2 <= from <= 5
    requires forall k :: 0 <= k < |e| ==> e[k] != '<' && e[k] != '>' && e[k] != '"' && e[k] != '\''
    ensures from <= 2 ==> ReplaceChar(e, '<', "&lt;") == e
    ensures from <= 3 ==> ReplaceChar(e, '>', "&gt;") == e
    ensures from <= 4 ==> ReplaceChar(e, '"', "&quot;") == e
    ensures ReplaceChar(e, '\'', "&apos;") == e
  {
    ReplaceCharAbsent(e, '<', "&lt;");
    ReplaceCharAbsent(e, '>', "&gt;");
    ReplaceCharAbsent(e, '"', "&quot;");
    ReplaceCharAbsent(e, '\'', "&apos;");
  }

  lemma EscapeAmpersand()
    ensures XmlEscape("&") == "&amp;"
  {
    ReplaceCharSingle('&', '&', "&amp;");
    NoMarkupPassesFrom("&amp;", 2);
  }

  lemma EscapeLess()
    ensures XmlEscape("<") == "&lt;"
  {
    ReplaceCharSingle('<', '&', "&amp;");
    ReplaceCharSingle('<', '<', "&lt;");
    NoMarkupPassesFrom("&lt;", 3);
  }

  lemma EscapeGreater()
    ensures XmlEscape(">") == "&gt;"
  {
    ReplaceCharSingle('>', '&', "&amp;");
    ReplaceCharSingle('>', '<', "&lt;");
    ReplaceCharSingle('>', '>', "&gt;");
    NoMarkupPassesFrom("&gt;", 4);
  }

  lemma EscapeQuote()
    ensures XmlEscape("\"") == "&quot;"
  {
    ReplaceCharSingle('"', '&', "&amp;");
    ReplaceCharSingle('"', '<', "&lt;");
    ReplaceCharSingle('"', '>', "&gt;");
    ReplaceCharSingle('"', '"', "&quot;");
    NoMarkupPassesFrom("&quot;", 5);
  }

  lemma EscapeApostrophe()
    ensures XmlEscape("'") == "&apos;"
  {
    ReplaceCharSingle('\'', '&', "&amp;");
    ReplaceCharSingle('\'', '<', "&lt;");
    ReplaceCharSingle('\'', '>', "&gt;");
    ReplaceCharSingle('\'', '"', "&quot;");
    ReplaceCharSingle('\'', '\'', "&apos;");
  }

  lemma EscapePlain(c: char)
    requires c !in "&<>\"'"
    ensures XmlEscape([c]) == [c]
  {
    ReplaceCharSingle(c, '&', "&amp;");
    ReplaceCharSingle(c, '<', "&lt;");
    ReplaceCharSingle(c, '>', "&gt;");
    ReplaceCharSingle(c, '"', "&quot;");
    ReplaceCharSingle(c, '\'', "&apos;");
  }

  /** The chain of replacements escapes each character independently. */
  lemma {:induction false} XmlEscapeEach(s: string)
    ensures XmlEscape(s) == EscapeEach(s)
  {
    if |s| > 0 {
      var c, rest := s[0], s[1..];
      assert s == [c] + rest;
      XmlEscapeAppend([c], rest);
      XmlEscapeChar(c);
      XmlEscapeEach(rest);
    }
  }

  lemma XmlEscapeAppend(a: string, b: string)
    ensures XmlEscape(a + b) == XmlEscape(a) + XmlEscape(b)
  {
    ReplaceCharAppend(a, b, '&', "&amp;");
    var a1, b1 := ReplaceChar(a, '&', "&amp;"), ReplaceChar(b, '&', "&amp;");
    ReplaceCharAppend(a1, b1, '<', "&lt;");
    var a2, b2 := ReplaceChar(a1, '<', "&lt;"), ReplaceChar(b1, '<', "&lt;");
    ReplaceCharAppend(a2, b2, '>', "&gt;");
    var a3, b3 := ReplaceChar(a2, '>', "&gt;"), ReplaceChar(b2, '>', "&gt;");
    ReplaceCharAppend(a3, b3, '"', "&quot;");
    var a4, b4 := ReplaceChar(a3, '"', "&quot;"), ReplaceChar(b3, '"', "&quot;");
    ReplaceCharAppend(a4, b4, '\'', "&apos;");
  }

  /** The characters `xml_escape` replaces, other than `&`. */
  predicate IsMarkup(ch: char) {
    ch == '<' || ch == '>' || ch == '"' || ch == '\''
  }

  /** An escaped string holds no raw `<`, `>`, `"` or `'`. */
  lemma XmlEscapeNoMarkup(s: string)
    ensures forall k :: 0 <= k < |XmlEscape(s)| ==> !IsMarkup(XmlEscape(s)[k])
  {
    XmlEscapeEach(s);
    EscapeEachNoMarkup(s);
  }

  lemma {:induction false} EscapeEachNoMarkup(s: string)
    ensures forall k :: 0 <= k < |EscapeEach(s)| ==> !IsMarkup(EscapeEach(s)[k])
  {
    if |s| > 0 {
      EscapeEachNoMarkup(s[1..]);
      var head, tail := EscapeChar(s[0]), EscapeEach(s[1..]);
      assert forall k :: 0 <= k < |head| ==> !IsMarkup(head[k]);
      assert EscapeEach(s) == head + tail;
    }
  }

  /** A reader that resolves the predefined entities gets back exactly the escaped text. */
  lemma XmlEscapeRoundTrip(s: string)
    ensures XmlUnescape(XmlEscape(s)) == s
  {
    XmlEscapeEach(s);
    UnescapeEach(s);
  }

  lemma {:induction false} UnescapeEach(s: string)
    ensures XmlUnescape(EscapeEach(s)) == s
  {
    if |s| > 0 {
      UnescapeEach(s[1..]);
      UnescapeHead(s[0], EscapeEach(s[1..]));
      assert [s[0]] + s[1..] == s;
    }
  }

  /** The reader resolves the entity at the front and carries on after it. */
  lemma UnescapeHead(c: char, rest: string)
    ensures XmlUnescape(EscapeChar(c) + rest) == [c] + XmlUnescape(rest)
  {
    var e := EscapeChar(c) + rest;
    var n := |EscapeChar(c)|;
    assert e[n..] == rest;
    if c == '&' {
      assert StartsWith(e, "&amp;");
    } else if c == '<' {
      assert StartsWith(e, "&lt;") && e[1] == 'l';
    } else if c == '>' {
      assert StartsWith(e, "&gt;") && e[1] == 'g';
    } else if c == '"' {
      assert StartsWith(e, "&quot;") && e[1] == 'q';
    } else if c == '\'' {
      assert StartsWith(e, "&apos;") && e[1] == 'a' && e[2] == 'p';
    } else {
      assert e[0] == c;
    }
  }

  // ------------------------------------------------------------ flags

  /**
   * `normalize_bool_attr`: trimmed, case-insensitively, `true`/`yes`/`1`
   * give `"1"` and `false`/`no`/`0` give `"0"`; anything else gives nothing.
   */
  function NormalizeBoolAttr(value: string): (r: Option<string>)
    ensures r.Some? ==> r.value == "1" || r.value == "0"
  {
    var v := AsciiLower(Trim(value));
    if v == "true" || v == "yes" || v == "1" then Some("1")
    else if v == "false" || v == "no" || v == "0" then Some("0")
    else None
  }

  /**
   * The recognised spellings, and only they, normalise; a normalised value
   * normalises to itself.
   */
  lemma NormalizeBoolAttrSpellings(value: string)
    ensures NormalizeBoolAttr(value) == Some("1") <==>
      AsciiLower(Trim(value)) in {"true", "yes", "1"}
    ensures NormalizeBoolAttr(value) == Some("0") <==>
      AsciiLower(Trim(value)) in {"false", "no", "0"}
    ensures NormalizeBoolAttr(value).Some? ==>
      NormalizeBoolAttr(NormalizeBoolAttr(value).value) == NormalizeBoolAttr(value)
  {
    if NormalizeBoolAttr(value).Some? {
      var n := NormalizeBoolAttr(value).value;
      assert Trim(n) == n by { TrimUnpadded(n); }
      assert AsciiLower(n) == n;
    }
  }

  // ------------------------------------------------------------ writing

  /** An element holding only text. */
  function Leaf(tag: string, text: string): Element {
    Element(tag, map[], Some(text), [])
  }

  /**
   * The lines a hand-written pretty-printer emits for `e`: a text-only
   * element on one line with its text escaped, any other element as an
   * opening line, its children indented by two more spaces, and a closing line.
   */
  function Render(e: Element, indent: string): seq<string>
    decreases e
  {
    if |e.children| == 0 then
      [OpenTag(indent, e.tag) + XmlEscape(if e.text.Some? then e.text.value else "") + CloseTag("", e.tag)]
    else
      [OpenTag(indent, e.tag)] + RenderAll(e.children, indent + "  ") + [CloseTag(indent, e.tag)]
  }

  function OpenTag(indent: string, tag: string): string {
    indent + "<" + tag + ">"
  }

  function CloseTag(indent: string, tag: string): string {
    indent + "</" + tag + ">"
  }

  function RenderAll(es: seq<Element>, indent: string): seq<string>
    decreases es
  {
    if |es| == 0 then [] else Render(es[0], indent) + RenderAll(es[1..], indent)
  }

  lemma {:induction false} RenderAllAppend(a: seq<Element>, b: seq<Element>, indent: string)
    ensures RenderAll(a + b, indent) == RenderAll(a, indent) + RenderAll(b, indent)
    decreases |a|
  {
    if |a| > 0 {
      assert (a + b)[0] == a[0] && (a + b)[1..] == a[1..] + b;
      RenderAllAppend(a[1..], b, indent);
    } else {
      assert a + b == b;
    }
  }

  /** Text without `&` or markup characters is left as it is. */
  lemma EscapeInert(s: string)
    requires forall k :: 0 <= k < |s| ==> s[k] != '&' && !IsMarkup(s[k])
    ensures XmlEscape(s) == s
  {
    ReplaceCharAbsent(s, '&', "&amp;");
    NoMarkupPassesFrom(s, 2);
    assert ReplaceChar(s, '&', "&amp;") == s;
    assert XmlEscape(s) == ReplaceChar(ReplaceChar(ReplaceChar(ReplaceChar(s, '<', "&lt;"), '>', "&gt;"), '"', "&quot;"), '\'', "&apos;");
  }

  /** A document: a declaration line, then a root whose children are `header` followed by `rest`. */
  lemma RenderDocument(decl: string, tag: string, header: seq<Element>, rest: seq<Element>)
    requires |header| > 0
    ensures [decl] + Render(Element(tag, map[], None, header + rest), "")
      == [decl, OpenTag("", tag)] + RenderAll(header, "  ") + RenderAll(rest, "  ") + [CloseTag("", tag)]
  {
    var e := Element(tag, map[], None, header + rest);
    assert "" + "  " == "  ";
    RenderParent(e, "");
    RenderAllAppend(header, rest, "  ");
    FrameLines(decl, OpenTag("", tag), RenderAll(header, "  "), RenderAll(rest, "  "), CloseTag("", tag));
  }

  /** An element with children renders as its opening line, its children one level deeper, its closing line. */
  lemma RenderParent(e: Element, indent: string)
    requires |e.children| > 0
    ensures Render(e, indent) == [OpenTag(indent, e.tag)] + RenderAll(e.children, indent + "  ") + [CloseTag(indent, e.tag)]
  {
  }

  lemma FrameLines<T>(first: T, open: T, a: seq<T>, b: seq<T>, close: T)
    ensures [first] + ([open] + (a + b) + [close]) == [first, open] + a + b + [close]
  {
  }
}
