/**
 * What the scraper receives from the network, after HTML extraction: one record per page or JSON
 * body, holding exactly the attributes and texts the handlers read. An absent attribute is `None`;
 * the `text()` of a missing element is the empty string. Each endpoint is a function from the URL
 * requested to the extracted body, `None` when the request throws (timeout, connection error,
 * status outside 2xx).
 */
module Upstream {
  import opened Wrappers

  const BASE_URL: string := "https://myflixer.phisherdesicinema.workers.dev/?url=https://myflixerz.to"
  const VIDEOSTR_HOST: string := "videostr.net"
  const VIDEOSTR_SOURCES: string := "https://videostr.net/embed-1/v2/e-1/getSources?id="
  const KEYS_URL: string := "https://raw.githubusercontent.com/yogesh-hacker/MegacloudKeys/refs/heads/main/keys.json"

  /** A `.flw-item` listing card: the anchor's `title` and `href`, the poster's `data-src` and `src`. */
  datatype Card = Card(title: Option<string>, link: Option<string>, dataSrc: Option<string>, src: Option<string>)

  /** A detail page: heading text, poster `src`, description text, IMDb button text, trailer `data-src`, watch-control `data-id`. */
  datatype DetailPage = DetailPage(
    name: string, poster: Option<string>, description: string, imdb: string,
    trailer: Option<string>, watchDataId: Option<string>)

  /** An `a.ss-item` season entry: its `data-id` and its text. */
  datatype SeasonItem = SeasonItem(dataId: Option<string>, text: string)

  /** An `a.eps-item` episode entry: its `title` and `data-id`. */
  datatype EpisodeItem = EpisodeItem(title: Option<string>, dataId: Option<string>)

  /** An `a.link-item` server entry: its `data-linkid` and `data-id`. */
  datatype LinkItem = LinkItem(linkId: Option<string>, dataId: Option<string>)

  /** The source JSON of one server link. */
  datatype SourceData = SourceData(link: Option<string>)

  /** One element of the video host's `tracks` array: an object, or `null`. */
  datatype Track = Track(kind: Option<string>, file: Option<string>, trackLabel: Option<string>) | NullTrack

  /** The video host's JSON: the encrypted `sources` envelope and the `tracks` array. */
  datatype VideoData = VideoData(sources: Option<string>, tracks: Option<seq<Track>>)

  /** The remote key document; only the `vidstr` password is read. */
  datatype KeyDoc = KeyDoc(vidstr: Option<string>)

  datatype Upstream = Upstream(
    listing: string -> Option<seq<Card>>,
    detail: string -> Option<DetailPage>,
    seasonList: string -> Option<seq<SeasonItem>>,
    episodeList: string -> Option<seq<EpisodeItem>>,
    serverList: string -> Option<seq<LinkItem>>,
    source: string -> Option<SourceData>,
    video: string -> Option<VideoData>,
    keys: string -> Option<KeyDoc>)

  /** A value interpolated into a template literal: `undefined` renders as the word. */
  function Render(o: Option<string>): string {
    if o.Some? then o.value else "undefined"
  }

  function DetailUrl(contentType: Option<string>, contentId: Option<string>): string {
    BASE_URL + "/" + Render(contentType) + "/" + Render(contentId)
  }

  function SeasonListUrl(dataId: Option<string>): string {
    BASE_URL + "/ajax/season/list/" + Render(dataId)
  }

  function SeasonEpisodesUrl(seasonId: Option<string>): string {
    BASE_URL + "/ajax/season/episodes/" + Render(seasonId)
  }

  function MovieServersUrl(dataId: Option<string>): string {
    BASE_URL + "/ajax/episode/list/" + Render(dataId)
  }

  function EpisodeServersUrl(dataId: Option<string>): string {
    BASE_URL + "/ajax/episode/servers/" + Render(dataId)
  }

  function SourceUrl(linkId: Option<string>): string {
    BASE_URL + "/ajax/episode/sources/" + Render(linkId)
  }

  function VideoSourcesUrl(videoId: string): string {
    VIDEOSTR_SOURCES + videoId
  }
}
