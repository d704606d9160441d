# IPTV backend: M3U playlist serialisers

This project models the two playlist endpoints of the IPTV backend's channel
API and proves what their output contains.

- The **dynamic playlist** (`get_m3u_playlist`) walks the channel list in order.
  It skips every premium channel when the user's subscription plan is exactly
  `"free"`. For each other channel it writes an
  `#EXTINF:-1 tvg-id="…" tvg-name="…" tvg-logo="…" group-title="…",<name>`
  line and then the channel URL.
- The **static playlist** (`get_static_m3u_playlist`) does the same over a
  fixed nine-row table. It applies no filter and writes no `tvg-id` attribute.

Both start with the `#EXTM3U` header of section 4.3.1.1 of RFC 8216. The
attribute form of the `#EXTINF` line is the IPTV extended-M3U dialect, not
the EXTINF of section 4.3.2.1 of RFC 8216. The model follows the code's format.

Files:

- `m3u.dfy`, module `M3U`: the shared line format. It defines an `Entry`
  (attributes, title, URL), the text `Serialize` produces, and the line-level
  facts. It also holds two reference readers, `SplitLines` and `Parse`. They
  are not in the source. They are the inverse the proofs use to say what the
  text contains.
- `channels.dfy`, module `Channels`: the `Channel` record, the premium rule
  `Visible`, the filter `VisibleChannels`, and the builder loop
  `GetM3UPlaylist`, proved equal to `Playlist(channels, plan)`.
- `static_playlist.dfy`, module `StaticPlaylist`: the in-code table
  `StaticChannels`, which holds the endpoint's nine rows in its order, and
  the builder loop, proved equal to `Playlist(table)`.
- `decimal.dfy`, module `Decimal`: how Python's `str()` writes the integer
  channel id inside the f-string, with a reader that inverts it.
- `wrappers.dfy`: the `Option` type.

Both builder methods keep the source's shape. They start from the header,
run a `for` loop that appends two newline-terminated lines per channel, and
(in the dynamic one) `continue` past a premium channel on the free plan. The
loop invariant says that after k channels the text equals the playlist of the
first k channels.

The source does no escaping, so two properties depend on what the fields
contain.

- Counting lines needs only that no field holds a newline (`NewlineFree`,
  `M3U.NewlineFreeEntry`). With a newline in a name, a channel adds extra
  lines. A `"` in a field changes nothing about the line count
  (`Channels.QuotedNameKeepsTwoLines`).
- Reading attribute values back needs also that no value holds a `"`
  (`QuoteFree`, `M3U.PlainAttr`). The round-trip lemmas require both
  conditions (`Plain`, `M3U.PlainEntry`).

Outside these lemmas the model places no such restriction.

## Model

| member | source | states |
|---|---|---|
| `Channels.GetM3UPlaylist` | app/api/v1/endpoints/channels.py:37-44 | The loop's text is exactly the header followed by the two lines of each visible channel in input order. Its invariant says this holds for every prefix of the channel list. |
| `Channels.VisibleChannelsMembers` | app/api/v1/endpoints/channels.py:39-41 | A channel is in the filtered channel list exactly when it is in the input and is not (premium on the `"free"` plan), in both directions. |
| `Channels.FreePlanHidesPremium` | app/api/v1/endpoints/channels.py:40-41 | On the `"free"` plan, a channel is listed if and only if it is in the input and is not premium. |
| `Channels.NonPremiumAlwaysListed` | app/api/v1/endpoints/channels.py:40 | A non-premium channel of the input is listed for every plan. |
| `Channels.OtherPlansSeeAll` | app/api/v1/endpoints/channels.py:40 | For any plan other than exactly `"free"`, the listed channels are the whole input, unchanged and in order. |
| `Channels.VisibleChannelsAppend` | app/api/v1/endpoints/channels.py:39-41 | Filtering a concatenation gives the concatenation of the filtered parts, so relative input order is kept. |
| `Channels.PlaylistPrefix` | app/api/v1/endpoints/channels.py:38-43 | The playlist of a channel list is a prefix of the playlist of any extension of it: the loop only appends. |
| `Channels.PlaylistStartsWithHeader` | app/api/v1/endpoints/channels.py:38 | Every dynamic playlist starts with `#EXTM3U\n`, also for an empty channel list. |
| `Channels.PlaylistLines` | app/api/v1/endpoints/channels.py:38-43 | With no newline in any field (quotes allowed), the text has 1 + 2·n lines for n visible channels. Line 0 is `#EXTM3U`. Lines 1+2i and 2+2i are the i-th visible channel's `#EXTINF` line and its URL. |
| `Channels.QuotedNameKeepsTwoLines` | app/api/v1/endpoints/channels.py:42-43 | A channel named `A "B"` on the free plan gives a three-line playlist: quotes are written unescaped and do not split lines. |
| `Channels.PlaylistRoundTrip` | app/api/v1/endpoints/channels.py:38-43 | With plain fields, reading the playlist back yields exactly one entry per visible channel, in order. |
| `Channels.ExtInfText` | app/api/v1/endpoints/channels.py:42 | The `#EXTINF` line matches the f-string character for character. It embeds the id's decimal text, name, logo and group verbatim and ends with `,` and the name. |
| `Channels.ExtInfFieldsRecovered` | app/api/v1/endpoints/channels.py:42 | With no `"` in name, logo or group, the line's four attributes and title are read back. They give the id (through its decimal text), name, logo, group and name, in that order. |
| `StaticPlaylist.GetStaticM3UPlaylist` | app/api/v1/endpoints/channels.py:47-117 | The endpoint's text is the playlist of the fixed table `StaticChannels`. |
| `StaticPlaylist.BuildStaticPlaylist` | app/api/v1/endpoints/channels.py:111-114 | The static loop's text is the header followed by the two lines of every table row, none skipped, in table order. |
| `StaticPlaylist.PlaylistLines` | app/api/v1/endpoints/channels.py:111-114 | With no newline in any field (quotes allowed), the text has 1 + 2·|table| lines: the header, then each row's `#EXTINF` line and URL, in order. |
| `StaticPlaylist.PlaylistRoundTrip` | app/api/v1/endpoints/channels.py:111-114 | With plain fields, reading the static playlist back yields one entry per table row, in order. |
| `StaticPlaylist.StaticChannelsCount` | app/api/v1/endpoints/channels.py:54-109 | The served table has nine rows, so the playlist has nine entries and nineteen lines. |
| `StaticPlaylist.ExtInfText` | app/api/v1/endpoints/channels.py:113 | The static `#EXTINF` line matches its f-string character for character, with `tvg-name`, `tvg-logo` and `group-title` and no `tvg-id`. |
| `StaticPlaylist.DynamicLineAddsId` | app/api/v1/endpoints/channels.py:113 | A row's dynamic line is its static line with ` tvg-id="<id>"` inserted right after `#EXTINF:-1`. |
| `StaticPlaylist.ExtInfFieldsRecovered` | app/api/v1/endpoints/channels.py:113 | With no `"` in name, logo or group, exactly the three attributes `tvg-name`, `tvg-logo`, `group-title` and the title are read back from a static line. |
| `M3U.Serialize` | app/api/v1/endpoints/channels.py:38-43 | The playlist text always begins with the header `#EXTM3U\n`. |
| `M3U.SerializeAppend` | app/api/v1/endpoints/channels.py:42-43 | Adding an entry appends exactly its `#EXTINF` line plus newline and then its URL plus newline. |
| `M3U.SerializePrefix` | app/api/v1/endpoints/channels.py:39-43 | The text for a list of entries is a prefix of the text for any extension of that list. |
| `M3U.EntryLines` | app/api/v1/endpoints/channels.py:42-43 | Each entry contributes exactly two lines. |
| `M3U.EntryLinesAt` | app/api/v1/endpoints/channels.py:42-43 | Line 2i of the body is entry i's `#EXTINF` line and line 2i+1 is its URL. |
| `M3U.SerializeLines` | app/api/v1/endpoints/channels.py:38-43 | With no newline in any field, cutting the text at newlines gives 1 + 2·|es| lines: header, then each entry's two lines in order. |
| `M3U.SplitRender` | app/api/v1/endpoints/channels.py:42-43 | Newline-terminating lines that contain no newline and then cutting at newlines gives the lines back. |
| `M3U.ParseExtInfLine` | app/api/v1/endpoints/channels.py:42 | Without `"` in values or `=` in keys, an `#EXTINF` line yields its attributes and title verbatim. |
| `M3U.ParseSerialize` | app/api/v1/endpoints/channels.py:38-43 | With plain entries, reading the text back gives exactly the entries it was built from. |
| `Decimal.Show` | app/api/v1/endpoints/channels.py:42 | The id's text is non-empty, all digits except an optional leading `-`, and starts with `-` exactly for a negative id. It is canonical: no leading zero, `0` only as the whole text `"0"`, and no `0` after the `-` of a negative id. |
| `Decimal.ParseShow` | app/api/v1/endpoints/channels.py:42 | The id's text determines the id: reading it back gives the id. |

## Left out

- The database query `get_channels` and its session are foreign calls. The channel list is the input of `GetM3UPlaylist`. The query's default `limit=100` is therefore not modelled. Called as `get_channels(db)`, the real endpoint sees at most the first 100 rows, in whatever order the database returns them.
- The authentication dependency that supplies `current_user` is not modelled. The user enters only through the plan string.
- The `Response` wrapper and its `audio/x-mpegurl` media type are not modelled. The model produces the body text.
- The channel columns `category` and `language` are not modelled: the playlist never reads them.
- Python writes a `None` field as the text `None` inside an f-string, and a `None` `is_premium` counts as not premium. Neither is modelled: fields are plain strings and a boolean.
- `StaticPlaylist.PlaylistLines`: stated for every table whose fields hold no newline, not proved for the nine literal rows of `StaticChannels`. The verifier does not decide character membership in string literals of this length. By inspection, none of the rows contains a newline.
- `StaticPlaylist.PlaylistRoundTrip`: stated for every table whose fields are plain, not proved for the nine literal rows, for the same reason. By inspection, none of the rows contains a `"` or a newline.
- `read_channels`, the user and authentication endpoints, application wiring and settings loading are not modelled. They are database pass-throughs and framework configuration.
- The channel probe script `test_channels.py` is not modelled. It consists of HTTP requests and wall-clock timing.
