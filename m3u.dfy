/**
 * The extended-M3U text both playlist endpoints produce.
 *
 * A playlist is the header line `#EXTM3U` followed, for each entry, by an
 * `#EXTINF:-1` line carrying `key="value"` attributes and a `,title` tail,
 * and then by the entry's URL. Every line, the last included, ends with "\n".
 * The `#EXTM3U` tag is the one of section 4.3.1.1 of RFC 8216; the attribute
 * form of the `#EXTINF` line is the IPTV dialect, not RFC 8216's EXTINF.
 *
 * Serialize is what the endpoints build. SplitLines and Parse are reference
 * readers, used only to state what the text contains.
 */
module M3U {
  import opened Wrappers

  datatype Attr = Attr(key: string, value: string)

  /** One playlist item: the attributes and title of its #EXTINF line, and its URL. */
  datatype Entry = Entry(attrs: seq<Attr>, title: string, url: string)

  const Tag: string := "#EXTM3U"
  const Header: string := Tag + "\n"
  const ExtInfPrefix: string := "#EXTINF:-1"

  /** ` key="value"` for each attribute in turn, with no escaping. */
  function AttrsText(attrs: seq<Attr>): string {
    if |attrs| == 0 then "" else AttrText(attrs[0]) + AttrsText(attrs[1..])
  }

  function AttrText(a: Attr): string {
    " " + a.key + "=\"" + a.value + "\""
  }

  function ExtInfLine(e: Entry): string {
    ExtInfPrefix + AttrsText(e.attrs) + "," + e.title
  }

  /** The two lines of each entry, in order. */
  function EntryLines(es: seq<Entry>): (r: seq<string>)
    ensures |r| == 2 * |es|
  {
    if |es| == 0 then [] else [ExtInfLine(es[0]), es[0].url] + EntryLines(es[1..])
  }

  function Lines(es: seq<Entry>): seq<string> {
    [Tag] + EntryLines(es)
  }

  /** Each line followed by a newline. */
  function Render(ls: seq<string>): string {
    if |ls| == 0 then "" else ls[0] + "\n" + Render(ls[1..])
  }

  function Serialize(es: seq<Entry>): (r: string)
    ensures |Header| <= |r| && r[..|Header|] == Header
  {
    Render(Lines(es))
  }

  // ---------------------------------------------------------------------
  // Shape of the lines

  lemma {:induction false} EntryLinesAt(es: seq<Entry>, i: nat)
    requires i < |es|
    ensures EntryLines(es)[2 * i] == ExtInfLine(es[i])
    ensures EntryLines(es)[2 * i + 1] == es[i].url
  {
    if i > 0 {
      EntryLinesAt(es[1..], i - 1);
    }
  }

  lemma {:induction false} EntryLinesAppend(a: seq<Entry>, b: seq<Entry>)
    ensures EntryLines(a + b) == EntryLines(a) + EntryLines(b)
  {
    if |a| == 0 {
      assert a + b == b;
    } else {
      assert (a + b)[1..] == a[1..] + b;
      EntryLinesAppend(a[1..], b);
    }
  }

  lemma {:induction false} RenderAppend(a: seq<string>, b: seq<string>)
    ensures Render(a + b) == Render(a) + Render(b)
  {
    if |a| == 0 {
      assert a + b == b;
    } else {
      assert (a + b)[1..] == a[1..] + b;
      RenderAppend(a[1..], b);
    }
  }

  /** Adding an entry appends exactly its #EXTINF line and its URL line. */
  lemma SerializeAppend(es: seq<Entry>, e: Entry)
    ensures Serialize(es + [e]) == Serialize(es) + (ExtInfLine(e) + "\n") + (e.url + "\n")
  {
    EntryLinesAppend(es, [e]);
    assert Lines(es + [e]) == Lines(es) + [ExtInfLine(e), e.url];
    RenderAppend(Lines(es), [ExtInfLine(e), e.url]);
    assert [ExtInfLine(e), e.url][1..] == [e.url];
    assert Render([e.url]) == e.url + "\n";
  }

  /** The playlist of a list is a prefix of the playlist of any extension of it. */
  lemma SerializePrefix(a: seq<Entry>, b: seq<Entry>)
    ensures Serialize(a) <= Serialize(a + b)
  {
    EntryLinesAppend(a, b);
    assert Lines(a + b) == Lines(a) + EntryLines(b);
    RenderAppend(Lines(a), EntryLines(b));
  }

  // ---------------------------------------------------------------------
  // Reading lines back

  /** Index of the first c in s, or |s| when there is none. */
  function Find(s: string, c: char): (k: nat)
    ensures k <= |s|
    ensures k < |s| ==> s[k] == c
    ensures forall j :: 0 <= j < k ==> s[j] != c
  {
    if |s| == 0 then 0 else if s[0] == c then 0 else 1 + Find(s[1..], c)
  }

  lemma FindAt(a: string, c: char, b: string)
    requires c !in a
    ensures Find(a + [c] + b, c) == |a|
  {
    var s := a + [c] + b;
    assert s[|a|] == c;
  }

  /** Newline-terminated text cut into its lines; an unterminated tail is a last line. */
  function SplitLines(s: string): seq<string>
    decreases |s|
  {
    if |s| == 0 then []
    else
      var k := Find(s, '\n');
      if k == |s| then [s] else [s[..k]] + SplitLines(s[k + 1..])
  }

  predicate NoNewlines(ls: seq<string>) {
    forall i :: 0 <= i < |ls| ==> '\n' !in ls[i]
  }

  lemma {:induction false} SplitRender(ls: seq<string>)
    requires NoNewlines(ls)
    ensures SplitLines(Render(ls)) == ls
  {
    if |ls| > 0 {
      var s := Render(ls);
      assert s == ls[0] + "\n" + Render(ls[1..]);
      FindAt(ls[0], '\n', Render(ls[1..]));
      assert s[..|ls[0]|] == ls[0];
      assert s[|ls[0]| + 1..] == Render(ls[1..]);
      SplitRender(ls[1..]);
    }
  }

  // ---------------------------------------------------------------------
  // Which entries can be read back

  /** No newline in the key or in the value. */
  predicate NewlineFreeAttr(a: Attr) {
    '\n' !in a.key && '\n' !in a.value
  }

  /** No newline anywhere in the entry: its two lines stay two lines. */
  predicate NewlineFreeEntry(e: Entry) {
    (forall i :: 0 <= i < |e.attrs| ==> NewlineFreeAttr(e.attrs[i]))
    && '\n' !in e.title && '\n' !in e.url
  }

  predicate NewlineFreeEntries(es: seq<Entry>) {
    forall i :: 0 <= i < |es| ==> NewlineFreeEntry(es[i])
  }

  /** No '=' in the key and no '"' in the value: the attribute can be read back. */
  predicate PlainAttr(a: Attr) {
    '=' !in a.key && '"' !in a.value
  }

  /** Newline-free, with every attribute readable. */
  predicate PlainEntry(e: Entry) {
    NewlineFreeEntry(e) && forall i :: 0 <= i < |e.attrs| ==> PlainAttr(e.attrs[i])
  }

  predicate PlainEntries(es: seq<Entry>) {
    forall i :: 0 <= i < |es| ==> PlainEntry(es[i])
  }

  lemma {:induction false} AttrsTextNoNewline(attrs: seq<Attr>)
    requires forall i :: 0 <= i < |attrs| ==> NewlineFreeAttr(attrs[i])
    ensures '\n' !in AttrsText(attrs)
  {
    if |attrs| > 0 {
      assert NewlineFreeAttr(attrs[0]);
      assert '\n' !in AttrText(attrs[0]);
      AttrsTextNoNewline(attrs[1..]);
    }
  }

  lemma LinesNoNewlines(es: seq<Entry>)
    requires NewlineFreeEntries(es)
    ensures NoNewlines(Lines(es))
  {
    var ls := Lines(es);
    forall i | 0 <= i < |ls|
      ensures '\n' !in ls[i]
    {
      if i > 0 {
        var j := (i - 1) / 2;
        EntryLinesAt(es, j);
        assert NewlineFreeEntry(es[j]);
        AttrsTextNoNewline(es[j].attrs);
        assert ls[i] == EntryLines(es)[i - 1];
      }
    }
  }

  /**
   * With no newline in any field, the text has 1 + 2 * |es| lines: the
   * header, then each entry's #EXTINF line followed by its URL, in list order.
   * Quotes and '=' inside fields make no difference to the line count.
   */
  lemma SerializeLines(es: seq<Entry>)
    requires NewlineFreeEntries(es)
    ensures var ls := SplitLines(Serialize(es));
      && |ls| == 1 + 2 * |es|
      && ls[0] == Tag
      && (forall i :: 0 <= i < |es| ==> ls[1 + 2 * i] == ExtInfLine(es[i]) && ls[2 + 2 * i] == es[i].url)
  {
    LinesNoNewlines(es);
    SplitRender(Lines(es));
    forall i | 0 <= i < |es|
      ensures Lines(es)[1 + 2 * i] == ExtInfLine(es[i]) && Lines(es)[2 + 2 * i] == es[i].url
    {
      EntryLinesAt(es, i);
    }
  }

  // ---------------------------------------------------------------------
  // Reference parser

  /** Attributes up to the ',' that starts the title, then the title. */
  function ParseAttrs(s: string): Option<(seq<Attr>, string)>
    decreases |s|
  {
    if |s| == 0 then None
    else if s[0] == ',' then Some(([], s[1..]))
    else if s[0] != ' ' then None
    else
      var t := s[1..];
      var k := Find(t, '=');
      if k + 1 >= |t| || t[k + 1] != '"' then None
      else
        var u := t[k + 2..];
        var m := Find(u, '"');
        if m == |u| then None
        else
          match ParseAttrs(u[m + 1..])
          case None => None
          case Some(p) => Some(([Attr(t[..k], u[..m])] + p.0, p.1))
  }

  function ParseExtInf(line: string): Option<(seq<Attr>, string)> {
    if |ExtInfPrefix| <= |line| && line[..|ExtInfPrefix|] == ExtInfPrefix
    then ParseAttrs(line[|ExtInfPrefix|..])
    else None
  }

  function ParseEntries(ls: seq<string>): Option<seq<Entry>>
    decreases |ls|
  {
    if |ls| == 0 then Some([])
    else if |ls| == 1 then None
    else
      match ParseExtInf(ls[0])
      case None => None
      case Some(p) =>
        match ParseEntries(ls[2..])
        case None => None
        case Some(rest) => Some([Entry(p.0, p.1, ls[1])] + rest)
  }

  function Parse(text: string): Option<seq<Entry>> {
    var ls := SplitLines(text);
    if |ls| == 0 || ls[0] != Tag then None else ParseEntries(ls[1..])
  }

  /** One attribute is read off the front of the text. */
  lemma ParseAttrStep(a: Attr, rest: string)
    requires PlainAttr(a)
    ensures ParseAttrs(AttrText(a) + rest)
      == match ParseAttrs(rest)
         case None => None
         case Some(p) => Some(([a] + p.0, p.1))
  {
    var s := AttrText(a) + rest;
    var v := ['"'] + a.value + ['"'] + rest;
    var t := s[1..];
    assert t == a.key + ['='] + v;
    FindAt(a.key, '=', v);
    var u := t[|a.key| + 2..];
    assert u == a.value + ['"'] + rest;
    FindAt(a.value, '"', rest);
    assert t[..|a.key|] == a.key;
    assert u[..|a.value|] == a.value;
    assert u[|a.value| + 1..] == rest;
  }

  lemma {:induction false} ParseAttrsText(attrs: seq<Attr>, title: string)
    requires forall i :: 0 <= i < |attrs| ==> PlainAttr(attrs[i])
    ensures ParseAttrs(AttrsText(attrs) + "," + title) == Some((attrs, title))
  {
    if |attrs| == 0 {
      assert AttrsText(attrs) + "," + title == [','] + title;
    } else {
      var rest := AttrsText(attrs[1..]) + "," + title;
      assert AttrsText(attrs) + "," + title == AttrText(attrs[0]) + rest;
      assert PlainAttr(attrs[0]);
      ParseAttrStep(attrs[0], rest);
      ParseAttrsText(attrs[1..], title);
      assert [attrs[0]] + attrs[1..] == attrs;
    }
  }

  /** Every attribute and the title are recovered verbatim from an #EXTINF line. */
  lemma ParseExtInfLine(e: Entry)
    requires forall i :: 0 <= i < |e.attrs| ==> PlainAttr(e.attrs[i])
    ensures ParseExtInf(ExtInfLine(e)) == Some((e.attrs, e.title))
  {
    var line := ExtInfLine(e);
    assert line == ExtInfPrefix + (AttrsText(e.attrs) + "," + e.title);
    assert line[|ExtInfPrefix|..] == AttrsText(e.attrs) + "," + e.title;
    ParseAttrsText(e.attrs, e.title);
  }

  lemma {:induction false} ParseEntryLines(es: seq<Entry>)
    requires PlainEntries(es)
    ensures ParseEntries(EntryLines(es)) == Some(es)
  {
    if |es| > 0 {
      var ls := EntryLines(es);
      assert PlainEntry(es[0]);
      ParseExtInfLine(es[0]);
      assert ls[2..] == EntryLines(es[1..]);
      ParseEntryLines(es[1..]);
      assert [es[0]] + es[1..] == es;
    }
  }

  /** Reading the playlist back yields exactly the entries it was built from. */
  lemma ParseSerialize(es: seq<Entry>)
    requires PlainEntries(es)
    ensures Parse(Serialize(es)) == Some(es)
  {
    assert NewlineFreeEntries(es) by {
      forall i | 0 <= i < |es| ensures NewlineFreeEntry(es[i]) {
        assert PlainEntry(es[i]);
      }
    }
    LinesNoNewlines(es);
    SplitRender(Lines(es));
    assert Lines(es)[1..] == EntryLines(es);
    ParseEntryLines(es);
  }
}
