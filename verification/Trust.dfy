/** The wrapper that marks external text as data (runtime/trust.py): a printer of
    labelled blocks and the reader that recovers one block's text by its id. */
module Trust {
  import opened Prelude

  // ---- HTML escaping ------------------------------------------------------

  function ReplaceOne(x: char, c: char, sub: string): string {
    if x == c then sub else [x]
  }

  /** `s.replace(c, sub)` for a one-character pattern. */
  function Replace(s: string, c: char, sub: string): (r: string) {
    if s == "" then "" else ReplaceOne(s[0], c, sub) + Replace(s[1..], c, sub)
  }

  /** html.escape: replacements run one after another, `&` first. */
  function Escape(s: string, quote: bool): (r: string) {
    var t := Replace(Replace(Replace(s, '&', "&amp;"), '<', "&lt;"), '>', "&gt;");
    if quote then Replace(Replace(t, '"', "&quot;"), '\'', "&#x27;") else t
  }

  /** What escaping makes of one character. */
  function Entity(c: char, quote: bool): string {
    if c == '&' then "&amp;"
    else if c == '<' then "&lt;"
    else if c == '>' then "&gt;"
    else if quote && c == '"' then "&quot;"
    else if quote && c == '\'' then "&#x27;"
    else [c]
  }

  /** Escaping as a single pass over the characters. */
  function EscapeEach(s: string, quote: bool): string {
    if s == "" then "" else Entity(s[0], quote) + EscapeEach(s[1..], quote)
  }

  /** The character reference at the start of `s`, with its length, among the five
      that escaping can produce. */
  function EntityAt(s: string): (r: Option<(char, nat)>)
    ensures r.Some? ==> 0 < r.value.1 <= |s|
  {
    if "&amp;" <= s then Some(('&', 5))
    else if "&lt;" <= s then Some(('<', 4))
    else if "&gt;" <= s then Some(('>', 4))
    else if "&quot;" <= s then Some(('"', 6))
    else if "&#x27;" <= s then Some(('\'', 6))
    else None
  }

  /** html.unescape restricted to those five references: one left-to-right pass. */
  function Unescape(s: string): (r: string)
    decreases |s|
  {
    if s == "" then ""
    else
      match EntityAt(s)
      case Some((c, n)) => [c] + Unescape(s[n..])
      case None => [s[0]] + Unescape(s[1..])
  }

  lemma {:induction false} ReplaceConcat(a: string, b: string, c: char, sub: string)
    ensures Replace(a + b, c, sub) == Replace(a, c, sub) + Replace(b, c, sub)
  {
    if a == "" {
      assert a + b == b;
    } else {
      hide ReplaceOne;
      ReplaceConcat(a[1..], b, c, sub);
      assert (a + b)[1..] == a[1..] + b;
      Reassociate(ReplaceOne(a[0], c, sub), Replace(a[1..], c, sub), Replace(b, c, sub));
    }
  }

  lemma Reassociate(x: string, y: string, z: string)
    ensures x + (y + z) == (x + y) + z
  {
  }

  lemma {:induction false} ReplaceAbsent(s: string, c: char, sub: string)
    requires c !in s
    ensures Replace(s, c, sub) == s
  {
    if s != "" { ReplaceAbsent(s[1..], c, sub); }
  }

  lemma ReplaceHead(head: string, tail: string, c: char, sub: string)
    requires c !in head
    ensures Replace(head + tail, c, sub) == head + Replace(tail, c, sub)
  {
    ReplaceConcat(head, tail, c, sub);
    ReplaceAbsent(head, c, sub);
  }

  /** The replacements never rewrite each other's output, so running them in sequence
      is the same as mapping each character once. */
  lemma {:induction false} EscapeIsPerCharacter(s: string, quote: bool)
    ensures Escape(s, quote) == EscapeEach(s, quote)
  {
    if s != "" {
      var c, t := s[0], s[1..];
      EscapeIsPerCharacter(t, quote);
      var h1 := if c == '&' then "&amp;" else [c];
      var t1 := Replace(t, '&', "&amp;");
      var h2 := if c == '<' then "&lt;" else h1;
      var t2 := Replace(t1, '<', "&lt;");
      var h3 := if c == '>' then "&gt;" else h2;
      var t3 := Replace(t2, '>', "&gt;");
      assert Replace(s, '&', "&amp;") == h1 + t1;
      assert Replace(h1 + t1, '<', "&lt;") == h2 + t2 by {
        if c != '<' { ReplaceHead(h1, t1, '<', "&lt;"); }
      }
      assert Replace(h2 + t2, '>', "&gt;") == h3 + t3 by {
        if c != '>' { ReplaceHead(h2, t2, '>', "&gt;"); }
      }
      if quote {
        var h4 := if c == '"' then "&quot;" else h3;
        var t4 := Replace(t3, '"', "&quot;");
        assert Replace(h3 + t3, '"', "&quot;") == h4 + t4 by {
          if c != '"' { ReplaceHead(h3, t3, '"', "&quot;"); }
        }
        if c != '\'' { ReplaceHead(h4, t4, '\'', "&#x27;"); }
      }
    }
  }

  /** Escaped text holds no character that could open or close a tag, and with quotes
      escaped none that could end an attribute. */
  lemma {:induction false} EscapedIsInert(s: string, quote: bool)
    ensures '<' !in Escape(s, quote) && '>' !in Escape(s, quote)
    ensures quote ==> '"' !in Escape(s, quote)
  {
    EscapeIsPerCharacter(s, quote);
    EscapeEachIsInert(s, quote);
  }

  lemma {:induction false} EscapeEachIsInert(s: string, quote: bool)
    ensures '<' !in EscapeEach(s, quote) && '>' !in EscapeEach(s, quote)
    ensures quote ==> '"' !in EscapeEach(s, quote)
  {
    if s != "" { EscapeEachIsInert(s[1..], quote); }
  }

  /** Unescaping undoes escaping, whatever the text held. */
  lemma UnescapeInvertsEscape(s: string, quote: bool)
    ensures Unescape(Escape(s, quote)) == s
  {
    EscapeIsPerCharacter(s, quote);
    UnescapeInvertsEscapeEach(s, quote);
  }

  /** The image of one character is read back as a whole. */
  lemma ReadEntity(c: char, quote: bool, rest: string)
    ensures var e := Entity(c, quote);
            e != [] && EntityAt(e + rest) == (if e == [c] then None else Some((c, |e|)))
            && (e == [c] ==> (e + rest)[0] == c)
  {
    var e := Entity(c, quote);
    if e == [c] {
      assert (e + rest)[0] != '&';
    } else {
      assert e <= e + rest && (e + rest)[1] == e[1];
    }
  }

  lemma {:induction false} UnescapeInvertsEscapeEach(s: string, quote: bool)
    ensures Unescape(EscapeEach(s, quote)) == s
  {
    if s != "" {
      hide EntityAt, Entity;
      var e, rest := Entity(s[0], quote), EscapeEach(s[1..], quote);
      UnescapeInvertsEscapeEach(s[1..], quote);
      ReadEntity(s[0], quote, rest);
      assert (e + rest)[|e|..] == rest;
      assert EscapeEach(s, quote) == e + rest;
    }
  }

  // ---- Printer ------------------------------------------------------------

  const OPEN_ID := "<evidence id=\""
  const OPEN_TOOL := "\" trust=\"untrusted_content\" source_tool=\""
  const OPEN_END := "\">"
  const CLOSE := "</evidence>"
  const PACK_OPEN := "<evidence_pack>"
  const PACK_CLOSE := "</evidence_pack>"

  function WrapUntrusted(content: string, sourceTool: string, evidenceId: string): (r: string) {
    PACK_OPEN + OPEN_ID + Escape(evidenceId, true) + OPEN_TOOL + Escape(sourceTool, true) + OPEN_END
    + Escape(content, false) + CLOSE + PACK_CLOSE
  }

  // ---- Reader -------------------------------------------------------------

  /** One match of the evidence pattern: its two attributes and its body, all still
      escaped, and the text after it. */
  datatype Block = Block(id: string, tool: string, body: string, rest: string)

  /** Length of the longest prefix without a double quote. */
  function QuoteFree(s: string): (n: nat)
    ensures n <= |s|
  {
    if s == "" || s[0] == '"' then 0 else 1 + QuoteFree(s[1..])
  }

  /** Where `pat` first occurs. */
  function FirstOf(pat: string, s: string): (r: Option<nat>)
    ensures r.Some? ==> r.value + |pat| <= |s|
  {
    if pat <= s then Some(0)
    else if s == "" then None
    else
      match FirstOf(pat, s[1..])
      case Some(n) => Some(n + 1)
      case None => None
  }

  /** An attribute: its opening, then its value up to the next quote. */
  function ReadAttribute(opening: string, s: string): (r: Option<(string, string)>)
    ensures r.Some? ==> |r.value.1| + |opening| <= |s|
  {
    if !(opening <= s) then None
    else
      var text := s[|opening|..];
      var n := QuoteFree(text);
      Some((text[..n], text[n..]))
  }

  /** The evidence pattern anchored at the start of `s`. The lazily matched body runs to
      the first closing tag. */
  function BlockAt(s: string): (r: Option<Block>)
    ensures r.Some? ==> OPEN_ID <= s && |r.value.rest| < |s|
  {
    match ReadAttribute(OPEN_ID, s)
    case None => None
    case Some((id, afterId)) =>
      match ReadAttribute(OPEN_TOOL, afterId)
      case None => None
      case Some((tool, afterTool)) =>
        if !(OPEN_END <= afterTool) then None else
        var bodyText := afterTool[|OPEN_END|..];
        match FirstOf(CLOSE, bodyText)
        case None => None
        case Some(k) => Some(Block(id, tool, bodyText[..k], bodyText[k + |CLOSE|..]))
  }

  /** finditer followed by the id test: leftmost, non-overlapping matches in order. */
  function ExtractUntrusted(s: string, evidenceId: string): (r: Option<string>)
    decreases |s|
  {
    if s == "" then None
    else
      match BlockAt(s)
      case Some(b) =>
        if Unescape(b.id) == evidenceId then Some(Unescape(b.body))
        else ExtractUntrusted(b.rest, evidenceId)
      case None => ExtractUntrusted(s[1..], evidenceId)
  }

  // ---- Round trip ---------------------------------------------------------

  datatype Pack = Pack(content: string, tool: string, id: string)

  /** Wrapped packs, each preceded by some host text. */
  function Transcript(packs: seq<(string, Pack)>): string {
    if packs == [] then ""
    else
      var (glue, p) := packs[0];
      glue + WrapUntrusted(p.content, p.tool, p.id) + Transcript(packs[1..])
  }

  /** The content of the first pack bearing `id`. */
  function FirstContent(packs: seq<(string, Pack)>, id: string): Option<string> {
    if packs == [] then None
    else if packs[0].1.id == id then Some(packs[0].1.content)
    else FirstContent(packs[1..], id)
  }

  lemma {:induction false} QuoteFreeStops(a: string, b: string)
    requires '"' !in a && b != "" && b[0] == '"'
    ensures QuoteFree(a + b) == |a|
  {
    if a == "" {
      assert a + b == b;
    } else {
      assert (a + b)[1..] == a[1..] + b;
      QuoteFreeStops(a[1..], b);
    }
  }

  lemma {:induction false} FirstCloseAfter(a: string, b: string)
    requires '<' !in a
    ensures FirstOf(CLOSE, a + (CLOSE + b)) == Some(|a|)
  {
    var s := a + (CLOSE + b);
    if a == "" {
      assert s == CLOSE + b;
    } else {
      assert s[0] == a[0] != CLOSE[0];
      assert s[1..] == a[1..] + (CLOSE + b);
      FirstCloseAfter(a[1..], b);
    }
  }

  lemma {:induction false} SkipText(a: string, s: string, id: string)
    requires '<' !in a
    ensures ExtractUntrusted(a + s, id) == ExtractUntrusted(s, id)
  {
    if a == "" {
      assert a + s == s;
    } else {
      hide Unescape, BlockAt;
      assert (a + s)[0] != OPEN_ID[0];
      assert (a + s)[1..] == a[1..] + s;
      SkipText(a[1..], s, id);
    }
  }

  /** A tag that does not start like a block is skipped. */
  lemma SkipTag(tag: string, s: string, id: string)
    requires tag != "" && '<' !in tag[1..] && !(OPEN_ID <= tag + s)
    ensures ExtractUntrusted(tag + s, id) == ExtractUntrusted(s, id)
  {
    hide Unescape, BlockAt;
    assert BlockAt(tag + s).None?;
    assert (tag + s)[1..] == tag[1..] + s;
    SkipText(tag[1..], s, id);
  }

  lemma SkipPackOpen(s: string, id: string)
    ensures ExtractUntrusted(PACK_OPEN + s, id) == ExtractUntrusted(s, id)
  {
    hide ExtractUntrusted;
    assert (PACK_OPEN + s)[9] == '_' != OPEN_ID[9];
    SkipTag(PACK_OPEN, s, id);
  }

  lemma SkipPackClose(s: string, id: string)
    ensures ExtractUntrusted(PACK_CLOSE + s, id) == ExtractUntrusted(s, id)
  {
    hide ExtractUntrusted;
    assert (PACK_CLOSE + s)[1] == '/' != OPEN_ID[1];
    SkipTag(PACK_CLOSE, s, id);
  }

  lemma ReadsAttribute(opening: string, value: string, rest: string)
    requires '"' !in value && rest != "" && rest[0] == '"'
    ensures ReadAttribute(opening, opening + (value + rest)) == Some((value, rest))
  {
    hide QuoteFree;
    var text := value + rest;
    assert (opening + text)[|opening|..] == text;
    QuoteFreeStops(value, rest);
    assert text[..|value|] == value && text[|value|..] == rest;
  }

  lemma FirstCharacters()
    ensures OPEN_TOOL != "" && OPEN_TOOL[0] == '"' && OPEN_END != "" && OPEN_END[0] == '"'
  {
  }

  /** A printed block, with inert attribute values and body, is read back part by part. */
  lemma ReadsBlock(id: string, tool: string, body: string, tail: string)
    requires '"' !in id && '"' !in tool && '<' !in body
    ensures BlockAt(OPEN_ID + (id + (OPEN_TOOL + (tool + (OPEN_END + (body + (CLOSE + tail)))))))
         == Some(Block(id, tool, body, tail))
  {
    hide FirstOf, ReadAttribute, OPEN_ID, OPEN_TOOL, OPEN_END, CLOSE;
    FirstCharacters();
    var bodyText := body + (CLOSE + tail);
    var afterTool := OPEN_END + bodyText;
    var afterId := OPEN_TOOL + (tool + afterTool);
    assert afterTool[0] == OPEN_END[0] && afterId[0] == OPEN_TOOL[0];
    ReadsAttribute(OPEN_ID, id, afterId);
    ReadsAttribute(OPEN_TOOL, tool, afterTool);
    assert OPEN_END <= afterTool && afterTool[|OPEN_END|..] == bodyText;
    FirstCloseAfter(body, tail);
    assert bodyText[..|body|] == body;
    assert bodyText == (body + CLOSE) + tail;
    assert bodyText[|body| + |CLOSE|..] == tail;
  }

  lemma Regroup(a: string, b: string, c: string, d: string, e: string, f: string, g: string, h: string, i: string,
                j: string)
    ensures a + b + c + d + e + f + g + h + i + j == a + (b + (c + (d + (e + (f + (g + (h + (i + j))))))))
  {
  }

  /** The reader consumes exactly one wrapped pack. */
  lemma ExtractStep(glue: string, p: Pack, tail: string, id: string)
    requires '<' !in glue
    ensures ExtractUntrusted(glue + WrapUntrusted(p.content, p.tool, p.id) + tail, id)
         == if p.id == id then Some(p.content) else ExtractUntrusted(tail, id)
  {
    hide Escape, BlockAt, Unescape, OPEN_ID, OPEN_TOOL, OPEN_END, CLOSE, PACK_OPEN, PACK_CLOSE;
    var eid, tool, body := Escape(p.id, true), Escape(p.tool, true), Escape(p.content, false);
    var block := OPEN_ID + (eid + (OPEN_TOOL + (tool + (OPEN_END + (body + (CLOSE + (PACK_CLOSE + tail)))))));
    assert glue + WrapUntrusted(p.content, p.tool, p.id) + tail == glue + (PACK_OPEN + block) by {
      Regroup(PACK_OPEN, OPEN_ID, eid, OPEN_TOOL, tool, OPEN_END, body, CLOSE, PACK_CLOSE, tail);
    }
    SkipText(glue, PACK_OPEN + block, id);
    SkipPackOpen(block, id);
    EscapedIsInert(p.id, true);
    EscapedIsInert(p.tool, true);
    EscapedIsInert(p.content, false);
    ReadsBlock(eid, tool, body, PACK_CLOSE + tail);
    UnescapeInvertsEscape(p.id, true);
    UnescapeInvertsEscape(p.content, false);
    SkipPackClose(tail, id);
  }

  /** Round trip: from any run of wrapped packs with tag-free text in between, asking
      for an id returns the content of the first pack with that id, and fails exactly
      when no pack has it. Contents, tools and ids are arbitrary strings. */
  lemma {:induction false} RoundTrip(packs: seq<(string, Pack)>, id: string)
    requires forall k :: 0 <= k < |packs| ==> '<' !in packs[k].0
    ensures ExtractUntrusted(Transcript(packs), id) == FirstContent(packs, id)
  {
    if packs != [] {
      var (glue, p) := packs[0];
      RoundTrip(packs[1..], id);
      ExtractStep(glue, p, Transcript(packs[1..]), id);
    }
  }

  lemma {:induction false} FirstContentFails(packs: seq<(string, Pack)>, id: string)
    ensures FirstContent(packs, id).None? <==> forall k :: 0 <= k < |packs| ==> packs[k].1.id != id
  {
    if packs != [] {
      FirstContentFails(packs[1..], id);
      assert forall k :: 1 <= k < |packs| ==> packs[k] == packs[1..][k - 1];
    }
  }

  /** The wrapped text marks its content as untrusted and names its tool. */
  lemma WrapperIsLabelled(content: string, tool: string, id: string)
    ensures var r := WrapUntrusted(content, tool, id);
            && "<evidence_pack><evidence id=\"" + Escape(id, true) + "\" trust=\"untrusted_content\" source_tool=\""
               + Escape(tool, true) + "\">" <= r
            && |r| >= 27 && r[|r| - 27..] == "</evidence></evidence_pack>"
  {
    hide Escape;
    var front := PACK_OPEN + OPEN_ID + Escape(id, true) + OPEN_TOOL + Escape(tool, true) + OPEN_END;
    var r := WrapUntrusted(content, tool, id);
    assert r == front + (Escape(content, false) + CLOSE + PACK_CLOSE);
    assert PACK_OPEN + OPEN_ID == "<evidence_pack><evidence id=\"";
    assert CLOSE + PACK_CLOSE == "</evidence></evidence_pack>";
    assert r == front + Escape(content, false) + (CLOSE + PACK_CLOSE);
  }
}
