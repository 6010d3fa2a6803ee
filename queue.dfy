/** The `queue` command: resolve the requested URL, find or create the
    guild's playlist, reply to the user with the track title, then append the
    track's metadata at the back of the playlist. The resolver and the reply
    are collaborators whose outcomes are passed in. */
module QueueCommand {
  import opened Common
  import opened Playlists

  /** Outcome of `songbird::input::ytdl(url)`. */
  datatype Resolution = Resolved(metadata: Metadata) | ResolveFailed

  datatype QueueError = ResolveError | ReplyError

  /** The command's `CommandResult`. */
  datatype CommandResult = Ok | Err(error: QueueError)

  /** The part of the invoking message the command reads. */
  datatype Message = Message(guildId: Option<GuildId>)

  /** The command panics (`expect` on the guild id, `unwrap` on the title)
      only once resolution has succeeded: a failed `ytdl` returns first. */
  predicate Panics(guild: Option<GuildId>, resolved: Resolution)
  {
    resolved.Resolved? && (guild.None? || resolved.metadata.title.None?)
  }

  /** One run of the command on the registry, in the source's order:
      resolve, find-or-create, reply, push. */
  function QueueStep(playlists: Registry, guild: Option<GuildId>, resolved: Resolution, replied: bool)
    : (r: (Registry, CommandResult))
    requires !Panics(guild, resolved)
    ensures resolved.ResolveFailed? ==> r.0 == playlists && r.1 == Err(ResolveError)
    ensures resolved.Resolved? ==> r.0.Keys == playlists.Keys + {guild.value}
    ensures forall g :: g in playlists && Some(g) != guild ==> g in r.0 && r.0[g] == playlists[g]
    ensures resolved.Resolved? ==>
      r.0[guild.value] == PlaylistOf(playlists, guild.value) + (if replied then [resolved.metadata] else [])
    ensures r.1.Ok? <==> resolved.Resolved? && replied
    ensures resolved.Resolved? && !replied ==> r.1 == Err(ReplyError)
  {
    match resolved
    case ResolveFailed => (playlists, Err(ResolveError))
    case Resolved(metadata) =>
      var g := guild.value;
      var withEntry := OrInsert(playlists, g, NewPlaylist);
      if !replied then (withEntry, Err(ReplyError))
      else (withEntry[g := withEntry[g] + [metadata]], Ok)
  }

  /** The command as the bot runs it, on the shared registry. */
  method Queue(registry: PlaylistRegistry, msg: Message, resolved: Resolution, replied: bool)
    returns (result: CommandResult)
    requires !Panics(msg.guildId, resolved)
    modifies registry
    ensures (registry.playlists, result) == QueueStep(old(registry.playlists), msg.guildId, resolved, replied)
  {
    if resolved.ResolveFailed? {
      return Err(ResolveError);
    }
    var metadata := resolved.metadata;
    var guild := msg.guildId.value;
    registry.playlists := OrInsert(registry.playlists, guild, NewPlaylist);
    if !replied {
      return Err(ReplyError);
    }
    registry.playlists := registry.playlists[guild := registry.playlists[guild] + [metadata]];
    return Ok;
  }

  // ---- Runs of several commands ----

  /** One invocation of the command, with its collaborators' outcomes. */
  datatype QueueRequest = QueueRequest(guild: Option<GuildId>, resolved: Resolution, replied: bool)

  /** None of the requests reaches a panic. */
  predicate AllSafe(reqs: seq<QueueRequest>)
    decreases |reqs|
  {
    reqs == [] || (!Panics(reqs[0].guild, reqs[0].resolved) && AllSafe(reqs[1..]))
  }

  /** The registry after the requests have run one after another. */
  function RunQueue(playlists: Registry, reqs: seq<QueueRequest>): (after: Registry)
    requires AllSafe(reqs)
    decreases |reqs|
  {
    if reqs == [] then playlists
    else
      RunQueue(Step(playlists, reqs[0]), reqs[1..])
  }

  /** The registry after one request. */
  function Step(playlists: Registry, req: QueueRequest): (after: Registry)
    requires !Panics(req.guild, req.resolved)
  {
    QueueStep(playlists, req.guild, req.resolved, req.replied).0
  }

  /** Whether the request pushes a track onto `guild`'s playlist. */
  predicate Pushes(req: QueueRequest, guild: GuildId)
  {
    req.resolved.Resolved? && req.guild == Some(guild) && req.replied
  }

  /** The tracks the requests push onto `guild`'s playlist, in request order. */
  function Delivered(reqs: seq<QueueRequest>, guild: GuildId): (pushed: seq<Metadata>)
    decreases |reqs|
  {
    if reqs == [] then []
    else (if Pushes(reqs[0], guild) then [reqs[0].resolved.metadata] else []) + Delivered(reqs[1..], guild)
  }

  /** The guilds whose entry the requests find or create: those of the
      requests whose resolution succeeded. */
  function Touched(reqs: seq<QueueRequest>): (guilds: set<GuildId>)
    decreases |reqs|
  {
    if reqs == [] then {}
    else
      (match reqs[0].guild
       case Some(g) => if reqs[0].resolved.Resolved? then {g} else {}
       case None => {})
      + Touched(reqs[1..])
  }

  /** One command, seen from one guild's playlist. */
  lemma StepPlaylistOf(playlists: Registry, req: QueueRequest, guild: GuildId)
    requires !Panics(req.guild, req.resolved)
    ensures PlaylistOf(Step(playlists, req), guild)
      == PlaylistOf(playlists, guild) + (if Pushes(req, guild) then [req.resolved.metadata] else [])
  {
  }

  /** FIFO order of the playlist: after any run of commands, a guild's
      playlist is what it held before followed by exactly the tracks whose
      command got through the reply, in the order the commands ran. */
  lemma {:induction false} RunQueueAppendsInOrder(playlists: Registry, reqs: seq<QueueRequest>, guild: GuildId)
    requires AllSafe(reqs)
    ensures PlaylistOf(RunQueue(playlists, reqs), guild) == PlaylistOf(playlists, guild) + Delivered(reqs, guild)
    decreases |reqs|
  {
    if reqs != [] {
      StepPlaylistOf(playlists, reqs[0], guild);
      RunQueueAppendsInOrder(Step(playlists, reqs[0]), reqs[1..], guild);
    }
  }

  /** Playlists are never removed and at most one exists per guild: after a
      run, the registry's guilds are the old ones plus those of the commands
      that resolved their track. */
  lemma {:induction false} RunQueueKeys(playlists: Registry, reqs: seq<QueueRequest>)
    requires AllSafe(reqs)
    ensures RunQueue(playlists, reqs).Keys == playlists.Keys + Touched(reqs)
    decreases |reqs|
  {
    if reqs != [] {
      RunQueueKeys(Step(playlists, reqs[0]), reqs[1..]);
    }
  }
}
