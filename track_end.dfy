/** The track-end handler: when a guild's track finishes it asks the player
    for the next track; only when the playlist turns out to be empty does it
    find or create the guild's config entry and, if that entry's auto-leave
    flag is set, ask the voice manager to leave. The outcomes of `play_next`
    and of the voice manager's `remove` are passed in. */
module TrackEnd {
  import opened Common

  /** Per-guild settings; `auto_leave` is the one the handler reads. */
  datatype GuildConfig = GuildConfig(autoLeave: bool)

  /** `GuildConfig::default()`: a fixed value that this model leaves open. */
  const DefaultConfig: GuildConfig

  /** The `GuildConfigs` entry of the bot's shared data. */
  type GuildConfigs = map<GuildId, GuildConfig>

  /** The guild's config, or the default one a lookup would create. */
  function ConfigOf(configs: GuildConfigs, guild: GuildId): (config: GuildConfig)
  {
    if guild in configs then configs[guild] else DefaultConfig
  }

  /** Errors of `play_next`; the handler only tells `EmptyPlaylist` apart. */
  datatype PlayError = EmptyPlaylist(guild: GuildId) | OtherPlayError

  /** Outcome of `play_next(ctx, guild_id)`. */
  datatype PlayOutcome = Played | PlayFailed(error: PlayError)

  /** `Err(PlayError::EmptyPlaylist(_))`, whichever guild the error names. */
  predicate Exhausted(outcome: PlayOutcome)
  {
    outcome.PlayFailed? && outcome.error.EmptyPlaylist?
  }

  /** What the handler did besides touching the configs: whether it asked
      the voice manager to leave, and whether it logged that leaving failed.
      Either way `act` then returns `None`. */
  datatype Reaction = Reaction(leaveRequested: bool, leaveErrorLogged: bool)

  /** One run of the handler for `guild`, as a function of the configs. */
  function OnTrackEnd(configs: GuildConfigs, guild: GuildId, played: PlayOutcome, removed: bool)
    : (r: (GuildConfigs, Reaction))
    ensures !Exhausted(played) ==> r.0 == configs
    ensures Exhausted(played) ==> r.0.Keys == configs.Keys + {guild}
    ensures forall g :: g in configs ==> g in r.0 && r.0[g] == configs[g]
    ensures guild in r.0 ==> r.0[guild] == ConfigOf(configs, guild)
    ensures r.1.leaveRequested <==> Exhausted(played) && ConfigOf(configs, guild).autoLeave
    ensures r.1.leaveErrorLogged <==> r.1.leaveRequested && !removed
  {
    if !Exhausted(played) then (configs, Reaction(false, false))
    else
      var withEntry := OrInsert(configs, guild, DefaultConfig);
      if withEntry[guild].autoLeave then (withEntry, Reaction(true, !removed))
      else (withEntry, Reaction(false, false))
  }

  /** The shared, lock-guarded config map; one per bot process. */
  class ConfigStore {
    var configs: GuildConfigs

    /** The store as bot initialisation hands it over. */
    constructor (initial: GuildConfigs)
      ensures configs == initial
    {
      configs := initial;
    }
  }

  /** The handler registered with the voice driver for one guild. */
  class TrackEndHandler {
    const guildId: GuildId
    const store: ConfigStore

    constructor (guildId: GuildId, store: ConfigStore)
      ensures this.guildId == guildId && this.store == store
    {
      this.guildId := guildId;
      this.store := store;
    }

    /** `act`: runs once the track has ended. */
    method Act(played: PlayOutcome, removed: bool) returns (reaction: Reaction)
      modifies store
      ensures (store.configs, reaction) == OnTrackEnd(old(store.configs), guildId, played, removed)
    {
      reaction := Reaction(false, false);
      if played.PlayFailed? && played.error.EmptyPlaylist? {
        store.configs := OrInsert(store.configs, guildId, DefaultConfig);
        var autoLeave := store.configs[guildId].autoLeave;
        if autoLeave {
          reaction := Reaction(true, !removed);
        }
      }
    }
  }

  // ---- Runs of several track ends ----

  /** One track end, for some guild, with its collaborators' outcomes. */
  datatype TrackEndEvent = TrackEndEvent(guild: GuildId, played: PlayOutcome, removed: bool)

  /** The configs and the handler's reactions after the events, in order. */
  function RunTrackEnds(configs: GuildConfigs, events: seq<TrackEndEvent>): (r: (GuildConfigs, seq<Reaction>))
    decreases |events|
  {
    if events == [] then (configs, [])
    else
      var e := events[0];
      var step := OnTrackEnd(configs, e.guild, e.played, e.removed);
      var rest := RunTrackEnds(step.0, events[1..]);
      (rest.0, [step.1] + rest.1)
  }

  /** The guilds whose playlist ran dry during the events. */
  function ExhaustedGuilds(events: seq<TrackEndEvent>): (guilds: set<GuildId>)
    decreases |events|
  {
    if events == [] then {}
    else (if Exhausted(events[0].played) then {events[0].guild} else {}) + ExhaustedGuilds(events[1..])
  }

  /** The handler never changes what any guild's config says: however many
      track ends run, every guild's effective config (its entry, or the
      default when it has none) is what it was before. */
  lemma {:induction false} RunTrackEndsKeepsConfigs(configs: GuildConfigs, events: seq<TrackEndEvent>, guild: GuildId)
    ensures ConfigOf(RunTrackEnds(configs, events).0, guild) == ConfigOf(configs, guild)
    decreases |events|
  {
    if events != [] {
      var e := events[0];
      var next := OnTrackEnd(configs, e.guild, e.played, e.removed).0;
      assert ConfigOf(next, guild) == ConfigOf(configs, guild);
      RunTrackEndsKeepsConfigs(next, events[1..], guild);
    }
  }

  /** Entries are created lazily, only for guilds whose playlist ran dry,
      and never removed. */
  lemma {:induction false} RunTrackEndsKeys(configs: GuildConfigs, events: seq<TrackEndEvent>)
    ensures RunTrackEnds(configs, events).0.Keys == configs.Keys + ExhaustedGuilds(events)
    decreases |events|
  {
    if events != [] {
      var e := events[0];
      var next := OnTrackEnd(configs, e.guild, e.played, e.removed).0;
      RunTrackEndsKeys(next, events[1..]);
    }
  }

  /** The auto-leave decision table over a run: the i-th track end asks to
      leave exactly when its playlist was empty and its guild's auto-leave
      flag, as it stood before the run, is set. */
  lemma {:induction false} RunTrackEndsLeaveDecisions(configs: GuildConfigs, events: seq<TrackEndEvent>)
    ensures |RunTrackEnds(configs, events).1| == |events|
    ensures forall i :: 0 <= i < |events| ==>
      (RunTrackEnds(configs, events).1[i].leaveRequested <==>
        Exhausted(events[i].played) && ConfigOf(configs, events[i].guild).autoLeave)
    decreases |events|
  {
    if events != [] {
      var e := events[0];
      var next := OnTrackEnd(configs, e.guild, e.played, e.removed).0;
      RunTrackEndsLeaveDecisions(next, events[1..]);
      var run := RunTrackEnds(configs, events);
      var rest := RunTrackEnds(next, events[1..]);
      forall i | 1 <= i < |events|
        ensures run.1[i].leaveRequested <==> Exhausted(events[i].played) && ConfigOf(configs, events[i].guild).autoLeave
      {
        assert run.1[i] == rest.1[i - 1];
        assert events[1..][i - 1] == events[i];
        assert ConfigOf(next, events[i].guild) == ConfigOf(configs, events[i].guild);
      }
    }
  }
}
