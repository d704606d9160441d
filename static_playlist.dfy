/**
 * The static playlist endpoint: a fixed in-code channel table rendered
 * without any filter, as #EXTINF lines with tvg-name, tvg-logo and
 * group-title (no tvg-id) followed by each channel's URL.
 */
module StaticPlaylist {
  import opened Wrappers
  import Decimal
  import M3U
  import Channels

  /** One row of the in-code table: name, url, logo, group. */
  datatype StaticChannel = StaticChannel(name: string, url: string, logo: string, group: string)

  /** The table the endpoint serves, in its order. */
  const StaticChannels: seq<StaticChannel> := [
    StaticChannel(
      "4tv News",
      "http://51.254.122.232:5005/stream/tata/4tvnews/master.m3u8?u=atech&p=1491fed6b7de88547a8fd33cdb98e457a54e142527b1b59f6c0502a8a87fb6bb",
      "https://99designs-blog.imgix.net/blog/wp-content/uploads/2022/06/attachment_135299869.jpeg",
      "News"),
    StaticChannel(
      "7x Music",
      "http://51.254.122.232:5005/stream/tata/7xmusic/master.m3u8?u=atech&p=1491fed6b7de88547a8fd33cdb98e457a54e142527b1b59f6c0502a8a87fb6bb",
      "https://99designs-blog.imgix.net/blog/wp-content/uploads/2022/06/attachment_135299869.jpeg",
      "News"),
    StaticChannel(
      "9X Jalwa",
      "http://51.254.122.232:5005/stream/tata/9xjalwa/master.m3u8?u=atech&p=1491fed6b7de88547a8fd33cdb98e457a54e142527b1b59f6c0502a8a87fb6bb",
      "https://99designs-blog.imgix.net/blog/wp-content/uploads/2022/06/attachment_135299869.jpeg",
      "News"),
    StaticChannel(
      "AB STAR News",
      "http://51.254.122.232:5005/stream/tata/abstarnews/master.m3u8?u=atech&p=1491fed6b7de88547a8fd33cdb98e457a54e142527b1b59f6c0502a8a87fb6bb",
      "https://99designs-blog.imgix.net/blog/wp-content/uploads/2022/06/attachment_135299869.jpeg",
      "News"),
    StaticChannel(
      "ABC News",
      "http://51.254.122.232:5005/stream/tata/abcnews/master.m3u8?u=atech&p=1491fed6b7de88547a8fd33cdb98e457a54e142527b1b59f6c0502a8a87fb6bb",
      "https://99designs-blog.imgix.net/blog/wp-content/uploads/2022/06/attachment_135299869.jpeg",
      "News"),
    StaticChannel(
      "ABP Asmita",
      "http://51.254.122.232:5005/stream/tata/abpasmita/master.m3u8?u=atech&p=1491fed6b7de88547a8fd33cdb98e457a54e142527b1b59f6c0502a8a87fb6bb",
      "https://99designs-blog.imgix.net/blog/wp-content/uploads/2022/06/attachment_135299869.jpeg",
      "News"),
    StaticChannel(
      "Action Cinema",
      "http://51.254.122.232:5005/stream/tata/actioncinema/master.m3u8?u=atech&p=1491fed6b7de88547a8fd33cdb98e457a54e142527b1b59f6c0502a8a87fb6bb",
      "https://99designs-blog.imgix.net/blog/wp-content/uploads/2022/06/attachment_135299869.jpeg",
      "News"),
    StaticChannel(
      "Al Jazeera",
      "http://51.254.122.232:5005/stream/tata/aljazeera/master.m3u8?u=atech&p=1491fed6b7de88547a8fd33cdb98e457a54e142527b1b59f6c0502a8a87fb6bb",
      "https://99designs-blog.imgix.net/blog/wp-content/uploads/2022/06/attachment_135299869.jpeg",
      "News"),
    StaticChannel(
      "ANN News",
      "http://51.254.122.232:5005/stream/tata/annnews/master.m3u8?u=atech&p=1491fed6b7de88547a8fd33cdb98e457a54e142527b1b59f6c0502a8a87fb6bb",
      "https://99designs-blog.imgix.net/blog/wp-content/uploads/2022/06/attachment_135299869.jpeg",
      "News")
  ]

  function StaticEntry(s: StaticChannel): M3U.Entry {
    M3U.Entry(
      [ M3U.Attr("tvg-name", s.name),
        M3U.Attr("tvg-logo", s.logo),
        M3U.Attr("group-title", s.group) ],
      s.name,
      s.url)
  }

  function Entries(table: seq<StaticChannel>): seq<M3U.Entry> {
    seq(|table|, i requires 0 <= i < |table| => StaticEntry(table[i]))
  }

  /** The playlist text of a table. */
  function Playlist(table: seq<StaticChannel>): string {
    M3U.Serialize(Entries(table))
  }

  /** The endpoint: the builder loop run over the fixed table. */
  method GetStaticM3UPlaylist() returns (m3uContent: string)
    ensures m3uContent == Playlist(StaticChannels)
  {
    m3uContent := BuildStaticPlaylist(StaticChannels);
  }

  /** The builder loop of the endpoint: every row of the table, none skipped. */
  method BuildStaticPlaylist(table: seq<StaticChannel>) returns (m3uContent: string)
    ensures m3uContent == Playlist(table)
  {
    m3uContent := M3U.Header;
    assert [M3U.Tag][1..] == [];
    assert Playlist([]) == M3U.Header;
    for i := 0 to |table|
      invariant m3uContent == Playlist(table[..i])
    {
      var channel := table[i];
      assert table[..i + 1] == table[..i] + [channel];
      assert Entries(table[..i] + [channel]) == Entries(table[..i]) + [StaticEntry(channel)];
      M3U.SerializeAppend(Entries(table[..i]), StaticEntry(channel));
      m3uContent := m3uContent + M3U.ExtInfLine(StaticEntry(channel)) + "\n";
      m3uContent := m3uContent + channel.url + "\n";
    }
    assert table[..|table|] == table;
  }

  // ---------------------------------------------------------------------
  // Properties

  /** No field of the two lines carries a newline. */
  predicate NewlineFree(s: StaticChannel) {
    '\n' !in s.name && '\n' !in s.logo && '\n' !in s.group && '\n' !in s.url
  }

  /** No attribute value carries a double quote. */
  predicate QuoteFree(s: StaticChannel) {
    '"' !in s.name && '"' !in s.logo && '"' !in s.group
  }

  /** Fields that carry neither a double quote nor a newline. */
  predicate Plain(s: StaticChannel) {
    NewlineFree(s) && QuoteFree(s)
  }

  lemma StaticEntryNewlineFree(s: StaticChannel)
    requires NewlineFree(s)
    ensures M3U.NewlineFreeEntry(StaticEntry(s))
  {
    var attrs := StaticEntry(s).attrs;
    assert M3U.NewlineFreeAttr(attrs[0]);
    assert M3U.NewlineFreeAttr(attrs[1]);
    assert M3U.NewlineFreeAttr(attrs[2]);
  }

  lemma StaticAttrsPlain(s: StaticChannel)
    requires QuoteFree(s)
    ensures forall i :: 0 <= i < |StaticEntry(s).attrs| ==> M3U.PlainAttr(StaticEntry(s).attrs[i])
  {
    var attrs := StaticEntry(s).attrs;
    assert M3U.PlainAttr(attrs[0]);
    assert M3U.PlainAttr(attrs[1]);
    assert M3U.PlainAttr(attrs[2]);
  }

  lemma NewlineFreeEntries(table: seq<StaticChannel>)
    requires forall i :: 0 <= i < |table| ==> NewlineFree(table[i])
    ensures M3U.NewlineFreeEntries(Entries(table))
  {
    forall i | 0 <= i < |table|
      ensures M3U.NewlineFreeEntry(Entries(table)[i])
    {
      StaticEntryNewlineFree(table[i]);
    }
  }

  lemma PlainEntries(table: seq<StaticChannel>)
    requires forall i :: 0 <= i < |table| ==> Plain(table[i])
    ensures M3U.PlainEntries(Entries(table))
  {
    forall i | 0 <= i < |table|
      ensures M3U.PlainEntry(Entries(table)[i])
    {
      StaticEntryNewlineFree(table[i]);
      StaticAttrsPlain(table[i]);
    }
  }

  /**
   * With no newline in any field the playlist has 1 + 2 * |table| lines:
   * the header, then for every row, none skipped and in table order, its
   * #EXTINF line and its URL. Quotes in fields do not change this.
   */
  lemma PlaylistLines(table: seq<StaticChannel>)
    requires forall i :: 0 <= i < |table| ==> NewlineFree(table[i])
    ensures var ls := M3U.SplitLines(Playlist(table));
      && |ls| == 1 + 2 * |table|
      && ls[0] == "#EXTM3U"
      && (forall i :: 0 <= i < |table| ==>
            ls[1 + 2 * i] == M3U.ExtInfLine(StaticEntry(table[i])) && ls[2 + 2 * i] == table[i].url)
  {
    NewlineFreeEntries(table);
    M3U.SerializeLines(Entries(table));
    forall i | 0 <= i < |table|
      ensures Entries(table)[i] == StaticEntry(table[i])
    {
    }
  }

  /** Reading the playlist back gives one entry per row of the table, in order. */
  lemma PlaylistRoundTrip(table: seq<StaticChannel>)
    requires forall i :: 0 <= i < |table| ==> Plain(table[i])
    ensures M3U.Parse(Playlist(table)) == Some(Entries(table))
  {
    PlainEntries(table);
    M3U.ParseSerialize(Entries(table));
  }

  /** The served playlist has one entry for each of the nine rows of the table. */
  lemma StaticChannelsCount()
    ensures |Entries(StaticChannels)| == 9
    ensures |M3U.Lines(Entries(StaticChannels))| == 19
  {
  }

  /** The #EXTINF line of a row, character for character: no tvg-id attribute. */
  lemma ExtInfText(s: StaticChannel)
    ensures M3U.ExtInfLine(StaticEntry(s))
      == "#EXTINF:-1 tvg-name=\"" + s.name + "\" tvg-logo=\"" + s.logo
         + "\" group-title=\"" + s.group + "\"," + s.name
  {
    var attrs := StaticEntry(s).attrs;
    var a2 := M3U.AttrsText([attrs[2]]);
    assert a2 == M3U.AttrText(attrs[2]) by {
      assert [attrs[2]][1..] == [];
      assert M3U.AttrsText([]) == [];
      assert a2 == M3U.AttrText(attrs[2]) + M3U.AttrsText([]);
    }
    var a1 := M3U.AttrsText(attrs[1..]);
    assert a1 == M3U.AttrText(attrs[1]) + a2 by { assert attrs[1..][1..] == [attrs[2]]; }
    assert M3U.AttrsText(attrs) == M3U.AttrText(attrs[0]) + a1;
    Regroup(M3U.ExtInfPrefix, " ", "=\"", "\"", "tvg-name", "tvg-logo", "group-title",
            s.name, s.logo, s.group, s.name);
    assert "#EXTINF:-1 tvg-name=\"" == M3U.ExtInfPrefix + " " + "tvg-name" + "=\"";
    assert "\" tvg-logo=\"" == "\"" + " " + "tvg-logo" + "=\"";
    assert "\" group-title=\"" == "\"" + " " + "group-title" + "=\"";
    assert "\"," == "\"" + ",";
  }

  lemma Regroup(pre: string, o: string, c: string, q: string, k0: string, k1: string, k2: string,
                v0: string, v1: string, v2: string, t: string)
    ensures pre + ((o + k0 + c + v0 + q) + ((o + k1 + c + v1 + q) + (o + k2 + c + v2 + q))) + "," + t
      == (pre + o + k0 + c) + v0 + (q + o + k1 + c) + v1 + (q + o + k2 + c) + v2 + (q + ",") + t
  {
  }

  /** The same row as a database channel: its fields, with the given id and premium flag. */
  function AsChannel(s: StaticChannel, id: int, isPremium: bool): Channels.Channel {
    Channels.Channel(id, s.name, s.url, s.logo, isPremium, s.group)
  }

  /**
   * The two endpoints use the same line shape: the dynamic #EXTINF line of a
   * channel is the static one with ` tvg-id="<id>"` inserted after `#EXTINF:-1`.
   */
  lemma DynamicLineAddsId(s: StaticChannel, id: int, isPremium: bool)
    ensures var dynamicLine, staticLine := M3U.ExtInfLine(Channels.ChannelEntry(AsChannel(s, id, isPremium))),
                                   M3U.ExtInfLine(StaticEntry(s));
      && |M3U.ExtInfPrefix| <= |staticLine|
      && staticLine[..|M3U.ExtInfPrefix|] == M3U.ExtInfPrefix
      && dynamicLine == M3U.ExtInfPrefix + " tvg-id=\"" + Decimal.Show(id) + "\"" + staticLine[|M3U.ExtInfPrefix|..]
  {
    var c := AsChannel(s, id, isPremium);
    var da, sa := Channels.ChannelEntry(c).attrs, StaticEntry(s).attrs;
    assert da[1..] == sa;
    var rest := M3U.AttrsText(sa) + "," + s.name;
    var staticLine := M3U.ExtInfLine(StaticEntry(s));
    assert staticLine == M3U.ExtInfPrefix + rest;
    assert staticLine[|M3U.ExtInfPrefix|..] == rest;
    assert M3U.AttrText(da[0]) == " tvg-id=\"" + Decimal.Show(id) + "\"";
  }

  /** Name, logo and group are recovered verbatim from a row's #EXTINF line, and nothing else is there. */
  lemma ExtInfFieldsRecovered(s: StaticChannel)
    requires QuoteFree(s)
    ensures M3U.ParseExtInf(M3U.ExtInfLine(StaticEntry(s)))
      == Some(([M3U.Attr("tvg-name", s.name), M3U.Attr("tvg-logo", s.logo), M3U.Attr("group-title", s.group)], s.name))
  {
    StaticAttrsPlain(s);
    M3U.ParseExtInfLine(StaticEntry(s));
  }
}
