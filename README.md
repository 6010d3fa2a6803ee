# turto playback core: the `queue` command and the track-end handler

This project models two pieces of the turto Discord music bot. Each one works on a map from guild id to per-guild state.

- **The `queue` command** (`src/commands/queue.rs`). It resolves the requested URL with `ytdl`. Then it finds or creates the guild's playlist in the shared `Playlists` map and replies to the user with the track title. Last, it appends the track's metadata at the back of the playlist. Each early return (`?`) is modelled on its own path. A failed reply therefore leaves the playlist created but unchanged.
- **The track-end handler** (`TrackEndHandler::act` in `src/handlers/track_end.rs`). It calls `play_next`. Only when that returns `EmptyPlaylist` does it find or create the guild's `GuildConfig` entry with the default value and read `auto_leave`. When `auto_leave` is set, it asks the voice manager to leave. A failed leave is only logged.

Both shared maps are classes with a map field: `Playlists.PlaylistRegistry` and `TrackEnd.ConfigStore`. Each command is a method with a `modifies` clause. The method's postcondition ties the new map and the result to a pure step function: `QueueCommand.QueueStep` or `TrackEnd.OnTrackEnd`. The step function's contract states the properties, and lemmas carry them over runs of many commands or events. The collaborators are inputs:

- the outcome of `ytdl` (`Resolution`);
- whether `msg.reply` succeeded;
- the outcome of `play_next` (`PlayOutcome`);
- whether `manager.remove` succeeded.

`Common.OrInsert` is the shared find-or-create step, `entry(..).or_insert_with(..)` / `or_default()`. Files: `common.dfy`, `playlist.dfy`, `queue.dfy`, `track_end.dfy`.

The `queue` command never calls `play_next` (src/commands/queue.rs:10-33), so the model has no idle-to-playing start.

## Model

| member | source | states |
|---|---|---|
| Common.OrInsert | src/commands/queue.rs:24-26 | find-or-create: afterwards the key has an entry, an existing entry is kept unchanged (never replaced), a missing one gets the supplied initial value, and no other key changes |
| QueueCommand.QueueStep | src/commands/queue.rs:10-33 | failed resolution: error, map unchanged; otherwise the guild's entry exists (new or reused); its playlist is the old one (or empty) with the metadata appended at the back iff the reply succeeded; a failed reply returns ReplyError; other guilds unchanged; the guild-id `expect` and title `unwrap` panics are the precondition, only on the path after resolution |
| QueueCommand.Queue | src/commands/queue.rs:10-33 | the command as a method on the shared registry, in the source's order (resolve, find-or-create, reply, push_back); the new map and the result are exactly QueueStep's |
| QueueCommand.RunQueueAppendsInOrder | src/commands/queue.rs:24-30 | FIFO: after any run of commands, each guild's playlist is its earlier contents followed by exactly the tracks whose command got past the reply, in command order, so each successful call adds one item at the back and earlier items keep their order |
| QueueCommand.RunQueueKeys | src/commands/queue.rs:24-26 | after any run, the registry's guilds are the earlier ones plus those of the commands whose resolution succeeded; no playlist is ever removed or duplicated |
| TrackEnd.OnTrackEnd | src/handlers/track_end.rs:17-41 | Ok or a non-EmptyPlaylist error: configs unchanged and no leave; on EmptyPlaylist exactly the handler's guild gains an entry if it had none (the default), and existing entries are never replaced or altered; a leave is requested iff play_next returned EmptyPlaylist and the stored (or default) auto_leave is true; a failed leave is logged and nothing else |
| TrackEnd.TrackEndHandler.Act | src/handlers/track_end.rs:17-41 | the handler as a method on the shared config store: the new configs and the reaction are exactly OnTrackEnd's for the handler's own guild |
| TrackEnd.RunTrackEndsKeepsConfigs | src/handlers/track_end.rs:27-31 | over any run of track ends, every guild's effective config (its entry, or the default when it has none) stays the same: the handler only reads fields |
| TrackEnd.RunTrackEndsKeys | src/handlers/track_end.rs:18-29 | over any run, config entries are created only for the guilds whose play_next returned EmptyPlaylist, and none is removed |
| TrackEnd.RunTrackEndsLeaveDecisions | src/handlers/track_end.rs:18-38 | over any run, the i-th track end requests a leave iff its play_next returned EmptyPlaylist and its guild's auto_leave as it stood before the run is true |

## Left out

- Async execution, the `TypeMap` read lock and the `Mutex` guards are not modelled. Each command or handler runs as one sequential step. Holding the playlist lock across `msg.reply` is a concurrency matter and is not captured.
- The `TypeMap` lookups `get::<Playlists>().expect(..)` and `get::<GuildConfigs>().unwrap()`, and `songbird::get(..).unwrap()`, are assumed to succeed. Bot setup installs these entries, and that setup is not part of this model.
- `play_next`, `Playlist`, `Metadata::from`, `songbird::input::ytdl`, `msg.reply` and `manager.remove` are not part of this model. Their outcomes are parameters. The playlist is a plain sequence, `Playlist::new` is the empty sequence, and the resolved metadata is pushed unconverted.
- QueueCommand.QueueStep: the panicking paths (`expect` on the guild id, `unwrap` on the title) are excluded by its precondition. On the title panic the source has already created the guild's entry (src/commands/queue.rs:24-26) and keeps that new empty playlist, because the async lock does not poison; the model does not describe that state.
- The starting contents of the playlist and config maps are set up by bot initialisation, which is not part of this model; the classes' constructors take them as a parameter.
- `GuildConfig` is modelled with only `auto_leave`. Its other fields are not shown. `GuildConfig::default()` is the constant `TrackEnd.DefaultConfig`, whose value is left open.
- `TrackEnd.TrackEndHandler.Act` returns a `Reaction` record, not Rust's `Option<Event>`. The Rust function returns `None` on every path, and every path of the method completes.
- The reply text (`"✅ {title}"`) and the log messages are not modelled. The model records only whether a leave failure was logged.
- `src/main.rs` (logging, environment and config loading, the health-check server, shutdown) and `src/lib.rs` (module declarations) are process plumbing and are not modelled.
