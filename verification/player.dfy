/**
 The bot's per-guild playback decisions: the `/autoplay` chat command, the
 head-of-queue lookup, and what happens when the audio node reports that a
 player's queue has ended. Every call into the audio client or the chat
 client is represented by an `Effect` value instead of being performed.
 */
module Player {
  import opened Wrappers
  import opened Text
  import opened AutoplayStore

  /** Discord text-channel identifier. */
  type ChannelId = string

  /** An opaque track handle owned by the audio client. */
  datatype Track = Track(uri: string, title: string, author: string)

  /** The fields of the audio client's player that the handlers read. */
  datatype Player = Player(guild: GuildId, textChannel: Option<ChannelId>, queue: seq<Track>)

  /** A chat message as seen by the `messageCreate` handler; direct messages have no guild. */
  datatype Message = Message(content: string, guild: Option<GuildId>, channel: ChannelId)

  /** The fixed texts the bot sends. */
  datatype Notice =
    | AutoplayPlaying          // autoplay on, next song started
    | AutoplayNoMoreSongs      // autoplay on, queue empty
    | QueueEndedStopping       // autoplay off, player about to be destroyed
    | AutoplayNow(enabled: bool) // reply to the toggle command

  /** An externally visible action, in the order the handler issues it. */
  datatype Effect = Play(track: Track) | Destroy | Send(channel: ChannelId, notice: Notice)

  /** Reading `.id` of a missing guild raises before anything is changed. */
  datatype Fault = NoGuild

  /** What a handled event leaves behind. */
  datatype Outcome = Outcome(store: Store, effects: seq<Effect>)

  /** The word the command reply uses for a flag value. */
  function StatusWord(enabled: bool): (w: string)
    ensures w == "enabled" || w == "disabled"
    ensures w == "enabled" <==> enabled
  {
    if enabled then "enabled" else "disabled"
  }

  /** The text of each notice. */
  function NoticeText(n: Notice): string {
    match n
    case AutoplayPlaying => "⏭️ **Autoplay is ON! Playing the next song automatically.**"
    case AutoplayNoMoreSongs => "⚠️ **Autoplay is ON, but no more songs are in the queue.**"
    case QueueEndedStopping => "**Queue ended!** The bot will stop playing as autoplay is OFF."
    case AutoplayNow(enabled) => "Autoplay is now " + StatusWord(enabled) + "!"
  }

  /** The reply to the command mentions `enabled` exactly when the flag is on. */
  lemma ReplyTextStatus(enabled: bool)
    ensures NoticeText(AutoplayNow(enabled)) == "Autoplay is now enabled!" <==> enabled
    ensures NoticeText(AutoplayNow(enabled)) == "Autoplay is now disabled!" <==> !enabled
  {
  }

  /** `getNextTrack`: the head of the queue, if any. The player is not changed. */
  function NextTrack(p: Player): (r: Option<Track>)
    ensures r.Some? <==> |p.queue| > 0
    ensures r.Some? ==> r.value == p.queue[0]
    ensures r.None? <==> p.queue == []
  {
    if |p.queue| > 0 then Some(p.queue[0]) else None
  }

  /** `channels.cache.get(player.textChannel)`: the channel when the client knows it. */
  function ResolveChannel(cache: set<ChannelId>, id: Option<ChannelId>): (r: Option<ChannelId>)
    ensures r.Some? <==> id.Some? && id.value in cache
    ensures r.Some? ==> r == id
  {
    match id
    case Some(c) => if c in cache then Some(c) else None
    case None => None
  }

  /**
   The `queueEnd` handler's decision, as the list of actions it issues.
   Nothing happens without a known text channel; the player is destroyed
   exactly when autoplay reads off; a track is played exactly when autoplay
   reads on and the queue is non-empty, and it is the head of the queue.
   */
  function QueueEnd(store: Store, cache: set<ChannelId>, p: Player): (effects: seq<Effect>)
    ensures ResolveChannel(cache, p.textChannel).None? ==> effects == []
    ensures Destroy in effects <==>
      ResolveChannel(cache, p.textChannel).Some? && !Observed(store, p.guild)
    ensures forall t :: Play(t) in effects <==>
      ResolveChannel(cache, p.textChannel).Some? && Observed(store, p.guild) &&
      p.queue != [] && t == p.queue[0]
    ensures forall e :: e in effects && e.Send? ==> Some(e.channel) == p.textChannel
  {
    match ResolveChannel(cache, p.textChannel)
    case None => []
    case Some(channel) =>
      if Observed(store, p.guild) then
        match NextTrack(p)
        case Some(t) => [Play(t), Send(channel, AutoplayPlaying)]
        case None => [Send(channel, AutoplayNoMoreSongs)]
      else
        [Send(channel, QueueEndedStopping), Destroy]
  }

  // Views of an effect list, used to state what a handler did.

  function Plays(es: seq<Effect>): (ts: seq<Track>)
    ensures |ts| <= |es|
  {
    if es == [] then []
    else (if es[0].Play? then [es[0].track] else []) + Plays(es[1..])
  }

  function Notices(es: seq<Effect>): (ns: seq<Notice>)
    ensures |ns| <= |es|
  {
    if es == [] then []
    else (if es[0].Send? then [es[0].notice] else []) + Notices(es[1..])
  }

  function Destroys(es: seq<Effect>): (n: nat)
    ensures n <= |es|
  {
    if es == [] then 0 else (if es[0].Destroy? then 1 else 0) + Destroys(es[1..])
  }

  /**
   What a queue end does, stated by kind of action: with no known text
   channel nothing at all; with autoplay off (or never set) one stop notice
   and one destroy, never a play; with autoplay on never a destroy, one
   notice, and a play of the queue head exactly when the queue is non-empty.
   */
  lemma QueueEndEffects(store: Store, cache: set<ChannelId>, p: Player)
    ensures var es := QueueEnd(store, cache, p);
      var present := ResolveChannel(cache, p.textChannel).Some?;
      && (!present ==> es == [])
      && (present && !Observed(store, p.guild) ==>
            Destroys(es) == 1 && Plays(es) == [] && Notices(es) == [QueueEndedStopping])
      && (present && Observed(store, p.guild) && p.queue != [] ==>
            Destroys(es) == 0 && Plays(es) == [p.queue[0]] && Notices(es) == [AutoplayPlaying])
      && (present && Observed(store, p.guild) && p.queue == [] ==>
            Destroys(es) == 0 && Plays(es) == [] && Notices(es) == [AutoplayNoMoreSongs])
  {
  }

  /** The order of actions: a play precedes its notice, the stop notice precedes the destroy. */
  lemma QueueEndOrder(store: Store, cache: set<ChannelId>, p: Player)
    ensures var es := QueueEnd(store, cache, p);
      forall i, j :: 0 <= i < j < |es| ==> !es[i].Destroy? && !es[j].Play?
  {
  }

  /** The `messageCreate` handler. */
  function HandleMessage(store: Store, m: Message): (r: Result<Outcome, Fault>)
    ensures !IsAutoplayCommand(m.content) ==> r == Ok(Outcome(store, []))
    ensures IsAutoplayCommand(m.content) && m.guild.None? ==> r == Err(NoGuild)
    ensures IsAutoplayCommand(m.content) && m.guild.Some? ==>
      && r.Ok?
      && (forall h :: Observed(r.value.store, h) ==
            (if h == m.guild.value then !Observed(store, h) else Observed(store, h)))
      && r.value.effects == [Send(m.channel, AutoplayNow(!Observed(store, m.guild.value)))]
  {
    if !IsAutoplayCommand(m.content) then Ok(Outcome(store, []))
    else
      match m.guild
      case None => Err(NoGuild)
      case Some(g) =>
        var store' := Toggle(store, g);
        Ok(Outcome(store', [Send(m.channel, AutoplayNow(Observed(store', g)))]))
  }

  /** The events the bot reacts to, handled one at a time. */
  datatype Event = MessageCreated(message: Message) | QueueEnded(player: Player)

  /**
   What one event issues: a queue end issues the queue-end decision taken on
   the current store; a message issues its handler's reply, or, when the
   handler raised (a toggle command without a guild), nothing, with the
   store left as it was.
   */
  lemma StepEffects(store: Store, cache: set<ChannelId>, e: Event)
    ensures e.QueueEnded? ==> Step(store, cache, e).effects == QueueEnd(store, cache, e.player)
    ensures e.MessageCreated? && HandleMessage(store, e.message).Ok? ==>
      Step(store, cache, e) == HandleMessage(store, e.message).value
    ensures e.MessageCreated? && HandleMessage(store, e.message).Err? ==>
      Step(store, cache, e) == Outcome(store, [])
  {
  }

  /** A run of one event is that event's handling. */
  lemma RunSingle(store: Store, cache: set<ChannelId>, e: Event)
    ensures Run(store, cache, [e]) == Step(store, cache, e)
  {
  }

  /**
   Running `a` then `b` is running `b` on the store `a` left behind, and the
   actions issued are those of `a` followed by those of `b`.
   */
  lemma {:induction false} RunAppend(store: Store, cache: set<ChannelId>, a: seq<Event>, b: seq<Event>)
    ensures var ra := Run(store, cache, a);
      var rb := Run(ra.store, cache, b);
      Run(store, cache, a + b) == Outcome(rb.store, ra.effects + rb.effects)
    decreases |a|
  {
    if a == [] {
      assert a + b == b;
    } else {
      var o := Step(store, cache, a[0]);
      assert (a + b)[0] == a[0];
      assert (a + b)[1..] == a[1..] + b;
      RunAppend(o.store, cache, a[1..], b);
      var tail := Run(o.store, cache, a[1..]);
      var rb := Run(tail.store, cache, b);
      assert o.effects + (tail.effects + rb.effects) == (o.effects + tail.effects) + rb.effects;
    }
  }

  /** Does this event toggle guild `g`? */
  predicate TogglesGuild(e: Event, g: GuildId) {
    e.MessageCreated? && IsAutoplayCommand(e.message.content) && e.message.guild == Some(g)
  }

  /**
   Handle one event. A handler that raised leaves the store as it was and
   issues nothing. Only a toggle command changes a flag, and only its own
   guild's; a queue end only reads the store.
   */
  function Step(store: Store, cache: set<ChannelId>, e: Event): (o: Outcome)
    ensures forall h :: Observed(o.store, h) == (Observed(store, h) != TogglesGuild(e, h))
    ensures e.QueueEnded? ==> o.store == store
  {
    match e
    case MessageCreated(m) =>
      (match HandleMessage(store, m)
       case Ok(o) => o
       case Err(_) => Outcome(store, []))
    case QueueEnded(p) => Outcome(store, QueueEnd(store, cache, p))
  }

  /**
   Handle a sequence of events in order; the final store and every action
   issued. A guild none of whose events is its toggle command keeps its flag.
   */
  function Run(store: Store, cache: set<ChannelId>, events: seq<Event>): (r: Outcome)
    ensures forall h :: (forall e :: e in events ==> !TogglesGuild(e, h)) ==>
      Observed(r.store, h) == Observed(store, h)
    decreases |events|
  {
    if events == [] then Outcome(store, [])
    else
      var o := Step(store, cache, events[0]);
      var rest := Run(o.store, cache, events[1..]);
      Outcome(rest.store, o.effects + rest.effects)
  }

  /** Number of toggle commands for guild `g` among the events. */
  function ToggleCount(events: seq<Event>, g: GuildId): nat
    decreases |events|
  {
    if events == [] then 0
    else (if TogglesGuild(events[0], g) then 1 else 0) + ToggleCount(events[1..], g)
  }

  /**
   After any sequence of events, a guild's flag is its starting flag flipped
   once per toggle command from that guild: queue ends, other messages and
   other guilds' commands never change it.
   */
  lemma {:induction false} RunParity(store: Store, cache: set<ChannelId>, events: seq<Event>, g: GuildId)
    ensures Observed(Run(store, cache, events).store, g) ==
      (Observed(store, g) != (ToggleCount(events, g) % 2 == 1))
    decreases |events|
  {
    if events != [] {
      var o := Step(store, cache, events[0]);
      assert Run(store, cache, events).store == Run(o.store, cache, events[1..]).store;
      RunParity(o.store, cache, events[1..], g);
      assert Observed(o.store, g) == (Observed(store, g) != TogglesGuild(events[0], g));
    }
  }

  /**
   A guild that has toggled autoplay an even number of times since start-up
   (including never) gets the stop-and-destroy outcome at a queue end.
   */
  lemma EvenTogglesStop(events: seq<Event>, cache: set<ChannelId>, p: Player)
    requires ToggleCount(events, p.guild) % 2 == 0
    requires ResolveChannel(cache, p.textChannel).Some?
    ensures QueueEnd(Run(Empty, cache, events).store, cache, p) ==
      [Send(p.textChannel.value, QueueEndedStopping), Destroy]
  {
    RunParity(Empty, cache, events, p.guild);
  }

  /**
   The same, at the level of the whole event loop: when such a guild's queue
   ends, the last actions the bot issues are the stop notice on the player's
   text channel and then the destroy.
   */
  lemma EvenTogglesStopRun(events: seq<Event>, cache: set<ChannelId>, p: Player)
    requires ToggleCount(events, p.guild) % 2 == 0
    requires ResolveChannel(cache, p.textChannel).Some?
    ensures var es := Run(Empty, cache, events + [QueueEnded(p)]).effects;
      |es| >= 2 && es[|es| - 2..] == [Send(p.textChannel.value, QueueEndedStopping), Destroy]
  {
    var ra := Run(Empty, cache, events);
    RunAppend(Empty, cache, events, [QueueEnded(p)]);
    RunSingle(ra.store, cache, QueueEnded(p));
    EvenTogglesStop(events, cache, p);
  }
}
