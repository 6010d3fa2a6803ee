/** The per-guild playlists the queue command appends to. The playlist type
    itself is not part of this model beyond its behaviour as an ordered
    sequence of track metadata: `Playlist::new` is the empty sequence and
    `push_back` appends at the back. */
module Playlists {
  import opened Common

  /** What the resolver reports about one track. */
  datatype Metadata = Metadata(title: Option<string>, duration: Option<nat>, sourceUrl: Option<string>)

  /** A guild's playlist, front first. */
  type Playlist = seq<Metadata>

  /** `Playlist::new`. */
  const NewPlaylist: Playlist := []

  /** The `Playlists` entry of the bot's shared data: guild id to playlist. */
  type Registry = map<GuildId, Playlist>

  /** The guild's playlist, or what a freshly created one would hold. */
  function PlaylistOf(playlists: Registry, guild: GuildId): (p: Playlist)
  {
    if guild in playlists then playlists[guild] else NewPlaylist
  }

  /** The shared, lock-guarded registry; one per bot process. */
  class PlaylistRegistry {
    var playlists: Registry

    /** The registry as bot initialisation hands it over. */
    constructor (initial: Registry)
      ensures playlists == initial
    {
      playlists := initial;
    }
  }
}
