/** The channel catalogue and the list that shows all of it, or the first
    `limit` entries of it. */
module ChannelList {
  import opened Wrappers
  import Js

  datatype Channel = Channel(id: string, name: string, description: string, thumbnail: string, url: string)

  const Channels: seq<Channel> := [
    Channel("IAVIC", "IAVIC",
      "Canal dedicado al pensamiento crítico y cultural propio de Europa",
      "https://yt3.googleusercontent.com/ytc/APkrFKY5uBJ0AuKmzEaHlhA_9TnHRaCFGDlBgCR08PnU=s176-c-k-c0x00ffffff-no-rj",
      "https://www.youtube.com/@IAVIC"),
    Channel("LaContraTv", "La Contra TV",
      "Política, filosofía y pensamiento alternativo",
      "https://yt3.googleusercontent.com/ytc/APkrFKbPP9gpcAH7UbG5VIvHdTEP7RWP2hbfH3QKJuua=s176-c-k-c0x00ffffff-no-rj",
      "https://www.youtube.com/@LaContraTV"),
    Channel("IdeasRadicales", "Ideas Radicales",
      "Contenido sobre libertad, economía y política",
      "https://yt3.googleusercontent.com/ytc/APkrFKZzSV9WZyZxP0aqRLFFqsyJQp1YfZKbV_ysLNUm=s176-c-k-c0x00ffffff-no-rj",
      "https://www.youtube.com/@IdeasRadicales"),
    Channel("ElTemplarioModerno", "El Templario Moderno",
      "Historia y tradiciones de Europa",
      "https://yt3.googleusercontent.com/ytc/APkrFKZupQbhTHtjn3ftXcOYxjFcle9Grs4Wg7ZhJIyW=s176-c-k-c0x00ffffff-no-rj",
      "https://www.youtube.com/@eltemplariomoderno"),
    Channel("Un_Abogado_Contra_la_Demagogia", "Un Abogado Contra la Demagogia",
      "Análisis jurídico y político de la actualidad desde una perspectiva crítica",
      "https://yt3.googleusercontent.com/ytc/AL5GRJWDiebjD3o7x7_ERRQIEzBQi9DUlsJx-7LBB6c=s176-c-k-c0x00ffffff-no-rj",
      "https://www.youtube.com/@Un_Abogado_Contra_la_Demagogia"),
    Channel("begonagerpe7757", "Begoña Gerpe",
      "Análisis político independiente sobre la actualidad española y europea",
      "https://yt3.googleusercontent.com/ytc/APkrFKbTOUXZqJNGiXv2tRLyEZHGH-v6u_qK2nuIqT0MuA=s176-c-k-c0x00ffffff-no-rj",
      "https://www.youtube.com/@begonagerpe7757")
  ]

  /** `limit ? channels.slice(0, limit) : channels`; an absent limit is `None`,
      and `0` is falsy like it. */
  function Displayed(limit: Option<int>): seq<Channel> {
    if limit.None? || limit.value == 0 then Channels else Js.Slice(Channels, 0, limit.value)
  }

  /** The link target of a channel's card. */
  function ChannelLink(c: Channel): string {
    "/channel/" + c.id
  }

  /** Without a limit, or with limit 0, the whole catalogue is shown in order. */
  lemma DisplayedWithoutLimit(limit: Option<int>)
    requires limit.None? || limit.value == 0
    ensures Displayed(limit) == Channels && |Displayed(limit)| == 6
  {
  }

  /** A positive limit `k` shows the first `min(k, 6)` channels. */
  lemma DisplayedPositiveLimit(k: int)
    requires k > 0
    ensures Displayed(Some(k)) == Channels[..Js.Min(k, |Channels|)]
  {
  }

  /** A negative limit `-k` drops the last `k` channels (all of them when `k >= 6`). */
  lemma DisplayedNegativeLimit(k: int)
    requires k > 0
    ensures Displayed(Some(-k)) == Channels[..Js.Max(|Channels| - k, 0)]
  {
  }

  /** Whatever the limit, the list is a prefix of the catalogue. */
  lemma DisplayedIsPrefix(limit: Option<int>)
    ensures Displayed(limit) <= Channels
  {
  }

  /** Catalogue ids are pairwise distinct, so they are valid list keys and every
      card links to a page of its own. */
  lemma ChannelIdsDistinct(i: int, j: int)
    requires 0 <= i < j < |Channels|
    ensures Channels[i].id != Channels[j].id
    ensures ChannelLink(Channels[i]) != ChannelLink(Channels[j])
  {
    assert ChannelLink(Channels[i])[|"/channel/"|..] == Channels[i].id;
    assert ChannelLink(Channels[j])[|"/channel/"|..] == Channels[j].id;
  }
}
