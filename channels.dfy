/**
 * The dynamic playlist endpoint: every channel the user's plan may see,
 * in list order, as an #EXTINF line with tvg-id, tvg-name, tvg-logo and
 * group-title followed by the channel's URL.
 */
module Channels {
  import opened Wrappers
  import Decimal
  import M3U

  /** The channel record fields the playlist reads. */
  datatype Channel = Channel(
    id: int,
    name: string,
    url: string,
    logo: string,
    isPremium: bool,
    m3uGroup: string)

  /** The one plan that is denied premium channels; compared case-sensitively. */
  const FreePlan: string := "free"

  predicate Visible(c: Channel, plan: string) {
    !(c.isPremium && plan == FreePlan)
  }

  /** The channels the loop does not skip, in input order. */
  function VisibleChannels(cs: seq<Channel>, plan: string): seq<Channel> {
    if |cs| == 0 then []
    else (if Visible(cs[0], plan) then [cs[0]] else []) + VisibleChannels(cs[1..], plan)
  }

  function ChannelEntry(c: Channel): M3U.Entry {
    M3U.Entry(
      [ M3U.Attr("tvg-id", Decimal.Show(c.id)),
        M3U.Attr("tvg-name", c.name),
        M3U.Attr("tvg-logo", c.logo),
        M3U.Attr("group-title", c.m3uGroup) ],
      c.name,
      c.url)
  }

  function Entries(cs: seq<Channel>): seq<M3U.Entry> {
    seq(|cs|, i requires 0 <= i < |cs| => ChannelEntry(cs[i]))
  }

  /** The playlist text for the given channel list and subscription plan. */
  function Playlist(cs: seq<Channel>, plan: string): string {
    M3U.Serialize(Entries(VisibleChannels(cs, plan)))
  }

  /** The builder loop of the endpoint; the channel list is what the database query returned. */
  method GetM3UPlaylist(channels: seq<Channel>, subscriptionPlan: string) returns (m3uContent: string)
    ensures m3uContent == Playlist(channels, subscriptionPlan)
  {
    m3uContent := M3U.Header;
    assert [M3U.Tag][1..] == [];
    assert Playlist([], subscriptionPlan) == M3U.Header;
    for i := 0 to |channels|
      invariant m3uContent == Playlist(channels[..i], subscriptionPlan)
    {
      var channel := channels[i];
      ghost var before := VisibleChannels(channels[..i], subscriptionPlan);
      assert channels[..i + 1] == channels[..i] + [channel];
      VisibleChannelsAppend(channels[..i], [channel], subscriptionPlan);
      if channel.isPremium && subscriptionPlan == FreePlan {
        assert VisibleChannels(channels[..i + 1], subscriptionPlan) == before;
        continue;
      }
      assert VisibleChannels(channels[..i + 1], subscriptionPlan) == before + [channel];
      assert Entries(before + [channel]) == Entries(before) + [ChannelEntry(channel)];
      M3U.SerializeAppend(Entries(before), ChannelEntry(channel));
      m3uContent := m3uContent + M3U.ExtInfLine(ChannelEntry(channel)) + "\n";
      m3uContent := m3uContent + channel.url + "\n";
    }
    assert channels[..|channels|] == channels;
  }

  // ---------------------------------------------------------------------
  // The access rule

  /** Filtering distributes over concatenation, so input order is kept. */
  lemma {:induction false} VisibleChannelsAppend(a: seq<Channel>, b: seq<Channel>, plan: string)
    ensures VisibleChannels(a + b, plan) == VisibleChannels(a, plan) + VisibleChannels(b, plan)
  {
    if |a| == 0 {
      assert a + b == b;
    } else {
      assert (a + b)[0] == a[0];
      assert (a + b)[1..] == a[1..] + b;
      VisibleChannelsAppend(a[1..], b, plan);
    }
  }

  /** A channel is listed exactly when it is in the input and the plan may see it. */
  lemma {:induction false} VisibleChannelsMembers(cs: seq<Channel>, plan: string, c: Channel)
    ensures c in VisibleChannels(cs, plan) <==> c in cs && Visible(c, plan)
  {
    if |cs| > 0 {
      VisibleChannelsMembers(cs[1..], plan, c);
      assert cs == [cs[0]] + cs[1..];
    }
  }

  /** On the free plan no premium channel is listed, and every other channel is. */
  lemma FreePlanHidesPremium(cs: seq<Channel>, c: Channel)
    ensures c in VisibleChannels(cs, FreePlan) <==> c in cs && !c.isPremium
  {
    VisibleChannelsMembers(cs, FreePlan, c);
  }

  /** A non-premium channel is listed whatever the plan. */
  lemma NonPremiumAlwaysListed(cs: seq<Channel>, plan: string, c: Channel)
    requires c in cs && !c.isPremium
    ensures c in VisibleChannels(cs, plan)
  {
    VisibleChannelsMembers(cs, plan, c);
  }

  /** Any plan other than exactly "free" sees the whole list, unchanged. */
  lemma {:induction false} OtherPlansSeeAll(cs: seq<Channel>, plan: string)
    requires plan != FreePlan
    ensures VisibleChannels(cs, plan) == cs
  {
    if |cs| > 0 {
      OtherPlansSeeAll(cs[1..], plan);
      assert cs == [cs[0]] + cs[1..];
    }
  }

  // ---------------------------------------------------------------------
  // The text

  /** Every playlist begins with the header line, even with no channels. */
  lemma PlaylistStartsWithHeader(cs: seq<Channel>, plan: string)
    ensures Playlist(cs, plan)[..8] == "#EXTM3U\n"
  {
  }

  /** More channels only append to the playlist. */
  lemma PlaylistPrefix(a: seq<Channel>, b: seq<Channel>, plan: string)
    ensures Playlist(a, plan) <= Playlist(a + b, plan)
  {
    VisibleChannelsAppend(a, b, plan);
    var va, vb := VisibleChannels(a, plan), VisibleChannels(b, plan);
    assert Entries(va + vb) == Entries(va) + Entries(vb);
    M3U.SerializePrefix(Entries(va), Entries(vb));
  }

  /** The #EXTINF line of a channel, character for character. */
  lemma ExtInfText(c: Channel)
    ensures M3U.ExtInfLine(ChannelEntry(c))
      == "#EXTINF:-1 tvg-id=\"" + Decimal.Show(c.id) + "\" tvg-name=\"" + c.name
         + "\" tvg-logo=\"" + c.logo + "\" group-title=\"" + c.m3uGroup + "\"," + c.name
  {
    var attrs := ChannelEntry(c).attrs;
    var a3 := M3U.AttrsText([attrs[3]]);
    assert a3 == M3U.AttrText(attrs[3]) by {
      assert [attrs[3]][1..] == [];
      assert M3U.AttrsText([]) == [];
      assert a3 == M3U.AttrText(attrs[3]) + M3U.AttrsText([]);
    }
    var a2 := M3U.AttrsText([attrs[2], attrs[3]]);
    assert a2 == M3U.AttrText(attrs[2]) + a3 by { assert [attrs[2], attrs[3]][1..] == [attrs[3]]; }
    var a1 := M3U.AttrsText(attrs[1..]);
    assert a1 == M3U.AttrText(attrs[1]) + a2 by { assert attrs[1..][1..] == [attrs[2], attrs[3]]; }
    assert M3U.AttrsText(attrs) == M3U.AttrText(attrs[0]) + a1;
    Regroup(M3U.ExtInfPrefix, " ", "=\"", "\"", "tvg-id", "tvg-name", "tvg-logo", "group-title",
            Decimal.Show(c.id), c.name, c.logo, c.m3uGroup, c.name);
    assert "#EXTINF:-1 tvg-id=\"" == M3U.ExtInfPrefix + " " + "tvg-id" + "=\"";
    assert "\" tvg-name=\"" == "\"" + " " + "tvg-name" + "=\"";
    assert "\" tvg-logo=\"" == "\"" + " " + "tvg-logo" + "=\"";
    assert "\" group-title=\"" == "\"" + " " + "group-title" + "=\"";
    assert "\"," == "\"" + ",";
  }

  lemma Regroup(pre: string, o: string, c: string, q: string, k0: string, k1: string, k2: string, k3: string,
                v0: string, v1: string, v2: string, v3: string, t: string)
    ensures pre + ((o + k0 + c + v0 + q) + ((o + k1 + c + v1 + q) + ((o + k2 + c + v2 + q) + (o + k3 + c + v3 + q)))) + "," + t
      == (pre + o + k0 + c) + v0 + (q + o + k1 + c) + v1 + (q + o + k2 + c) + v2 + (q + o + k3 + c) + v3 + (q + ",") + t
  {
  }

  /** No field of the two lines carries a newline. */
  predicate NewlineFree(c: Channel) {
    '\n' !in c.name && '\n' !in c.logo && '\n' !in c.m3uGroup && '\n' !in c.url
  }

  /** No attribute value carries a double quote. */
  predicate QuoteFree(c: Channel) {
    '"' !in c.name && '"' !in c.logo && '"' !in c.m3uGroup
  }

  /** Fields that carry neither a double quote nor a newline. */
  predicate Plain(c: Channel) {
    NewlineFree(c) && QuoteFree(c)
  }

  lemma ChannelEntryNewlineFree(c: Channel)
    requires NewlineFree(c)
    ensures M3U.NewlineFreeEntry(ChannelEntry(c))
  {
    var attrs := ChannelEntry(c).attrs;
    Decimal.ShowIsPlain(c.id);
    assert M3U.NewlineFreeAttr(attrs[0]);
    assert M3U.NewlineFreeAttr(attrs[1]);
    assert M3U.NewlineFreeAttr(attrs[2]);
    assert M3U.NewlineFreeAttr(attrs[3]);
  }

  lemma ChannelAttrsPlain(c: Channel)
    requires QuoteFree(c)
    ensures forall i :: 0 <= i < |ChannelEntry(c).attrs| ==> M3U.PlainAttr(ChannelEntry(c).attrs[i])
  {
    var attrs := ChannelEntry(c).attrs;
    Decimal.ShowIsPlain(c.id);
    assert M3U.PlainAttr(attrs[0]);
    assert M3U.PlainAttr(attrs[1]);
    assert M3U.PlainAttr(attrs[2]);
    assert M3U.PlainAttr(attrs[3]);
  }

  lemma NewlineFreeEntries(vs: seq<Channel>)
    requires forall i :: 0 <= i < |vs| ==> NewlineFree(vs[i])
    ensures M3U.NewlineFreeEntries(Entries(vs))
  {
    forall i | 0 <= i < |vs|
      ensures M3U.NewlineFreeEntry(Entries(vs)[i])
    {
      ChannelEntryNewlineFree(vs[i]);
    }
  }

  lemma PlainEntries(vs: seq<Channel>)
    requires forall i :: 0 <= i < |vs| ==> Plain(vs[i])
    ensures M3U.PlainEntries(Entries(vs))
  {
    forall i | 0 <= i < |vs|
      ensures M3U.PlainEntry(Entries(vs)[i])
    {
      ChannelEntryNewlineFree(vs[i]);
      ChannelAttrsPlain(vs[i]);
    }
  }

  lemma VisibleNewlineFree(cs: seq<Channel>, plan: string)
    requires forall i :: 0 <= i < |cs| ==> NewlineFree(cs[i])
    ensures forall i :: 0 <= i < |VisibleChannels(cs, plan)| ==> NewlineFree(VisibleChannels(cs, plan)[i])
  {
    var vs := VisibleChannels(cs, plan);
    forall i | 0 <= i < |vs|
      ensures NewlineFree(vs[i])
    {
      assert vs[i] in vs;
      VisibleChannelsMembers(cs, plan, vs[i]);
    }
  }

  lemma VisiblePlain(cs: seq<Channel>, plan: string)
    requires forall i :: 0 <= i < |cs| ==> Plain(cs[i])
    ensures forall i :: 0 <= i < |VisibleChannels(cs, plan)| ==> Plain(VisibleChannels(cs, plan)[i])
  {
    var vs := VisibleChannels(cs, plan);
    forall i | 0 <= i < |vs|
      ensures Plain(vs[i])
    {
      assert vs[i] in vs;
      VisibleChannelsMembers(cs, plan, vs[i]);
    }
  }

  /**
   * With no newline in any field the playlist has 1 + 2 * n lines for n
   * visible channels: the header, then for each visible channel in order
   * its #EXTINF line and its URL. Quotes in fields do not change this.
   */
  lemma PlaylistLines(cs: seq<Channel>, plan: string)
    requires forall i :: 0 <= i < |cs| ==> NewlineFree(cs[i])
    ensures var vs, ls := VisibleChannels(cs, plan), M3U.SplitLines(Playlist(cs, plan));
      && |ls| == 1 + 2 * |vs|
      && ls[0] == "#EXTM3U"
      && (forall i :: 0 <= i < |vs| ==>
            ls[1 + 2 * i] == M3U.ExtInfLine(ChannelEntry(vs[i])) && ls[2 + 2 * i] == vs[i].url)
  {
    var vs := VisibleChannels(cs, plan);
    VisibleNewlineFree(cs, plan);
    NewlineFreeEntries(vs);
    M3U.SerializeLines(Entries(vs));
    forall i | 0 <= i < |vs|
      ensures Entries(vs)[i] == ChannelEntry(vs[i])
    {
    }
  }

  /** A name with double quotes is written unescaped and still yields exactly its two lines. */
  lemma QuotedNameKeepsTwoLines()
    ensures |M3U.SplitLines(Playlist([Channel(1, "A \"B\"", "u", "l", false, "g")], FreePlan))| == 3
  {
    var c := Channel(1, "A \"B\"", "u", "l", false, "g");
    assert [c][1..] == [];
    assert VisibleChannels([c], FreePlan) == [c];
    PlaylistLines([c], FreePlan);
  }

  /** Reading the playlist back gives one entry per visible channel, in order. */
  lemma PlaylistRoundTrip(cs: seq<Channel>, plan: string)
    requires forall i :: 0 <= i < |cs| ==> Plain(cs[i])
    ensures M3U.Parse(Playlist(cs, plan)) == Some(Entries(VisibleChannels(cs, plan)))
  {
    VisiblePlain(cs, plan);
    PlainEntries(VisibleChannels(cs, plan));
    M3U.ParseSerialize(Entries(VisibleChannels(cs, plan)));
  }

  /** The id, name, logo and group are recovered verbatim from a channel's #EXTINF line. */
  lemma ExtInfFieldsRecovered(c: Channel)
    requires QuoteFree(c)
    ensures M3U.ParseExtInf(M3U.ExtInfLine(ChannelEntry(c)))
      == Some(([ M3U.Attr("tvg-id", Decimal.Show(c.id)),
                 M3U.Attr("tvg-name", c.name),
                 M3U.Attr("tvg-logo", c.logo),
                 M3U.Attr("group-title", c.m3uGroup) ], c.name))
    ensures Decimal.Parse(Decimal.Show(c.id)) == Some(c.id)
  {
    ChannelAttrsPlain(c);
    Decimal.ParseShow(c.id);
    M3U.ParseExtInfLine(ChannelEntry(c));
  }
}
