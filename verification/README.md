# Autoplay state machine of a Discord music bot

This project models the only decision logic of the bot's `player.js` that is
not a call into the audio-node client (Riffy), discord.js or the music-card
renderer:

- the in-memory **autoplay flag store**, a map from guild id to boolean in
  which a guild with no entry reads as `false`, and the `/autoplay` chat
  command that flips a guild's flag and replies `Autoplay is now enabled!` or
  `... disabled!`;
- **`getNextTrack`**, the head of the player's queue or nothing;
- the **`queueEnd` decision**: no known text channel means nothing happens;
  autoplay off means a stop notice and then the player is destroyed; autoplay
  on means the queue head is played with a notice, or only a "no more songs"
  notice when the queue is empty.

Every call into an external library (`player.play`, `player.destroy`,
`channel.send`, `sendEmbed`) is an `Effect` value (`Play`, `Destroy`,
`Send(channel, notice)`), so each handler is a pure function from the flag
store and its inputs to a new store and a list of effects, in issue order.
The chat client's channel cache is a parameter (`set<ChannelId>`). Events
are handled one at a time (`Step`, `Run`), as in the host event loop.

Modules: `Wrappers` (Option, Result), `Text` (lower-casing and the command
test), `AutoplayStore` (the flag map), `Player` (the handlers).

## Model

| member | source | states |
|---|---|---|
| Text.Lower | player.js:96 | lower-casing keeps the length, maps each character by itself, and leaves no upper-case letter |
| Text.LowerIdempotent | player.js:96 | lower-casing an already lower-cased text changes nothing |
| Text.CommandSpelling | player.js:96 | `IsAutoplayCommand`, the test `content.toLowerCase() === '/autoplay'`, holds exactly when the message has nine characters, each being the lower- or upper-case spelling of `/autoplay` at that position |
| Text.CommandExamples | player.js:96 | `/AutoPlay` and `/AUTOPLAY` match the command |
| Text.NonCommandExamples | player.js:96 | `/autoplay now`, ` /autoplay` and `autoplay` do not match |
| Text.WrongLetterExample | player.js:96 | `/aut0play`, nine characters with one wrong letter, does not match |
| AutoplayStore.Toggle | player.js:97-99 | the toggled guild gets an entry holding the negation of its flag as `Observed` reads it (the map's value, or false when the guild has no entry, as on lines 79 and 98); every other entry, and every absence, is unchanged |
| AutoplayStore.ToggleUnsetEnables | player.js:98-99 | toggling a guild that was never set stores `true` |
| AutoplayStore.ToggleFlips | player.js:98-99 | after a toggle the flag read for that guild is the opposite of before |
| AutoplayStore.ToggleFrame | player.js:97-99 | a toggle leaves every other guild's observed flag unchanged |
| AutoplayStore.ToggleTwiceObserved | player.js:98-99 | two toggles of one guild restore every guild's observed flag |
| AutoplayStore.ToggleTwiceMap | player.js:98-99 | two toggles give back the identical map exactly when the guild already had an entry; otherwise a `false` entry remains |
| Player.StatusWord | player.js:101 | the status word is `enabled` or `disabled`, and `enabled` exactly when the flag is on |
| Player.ReplyTextStatus | player.js:101-102 | `NoticeText`, which holds the bot's fixed texts, makes the reply read `Autoplay is now enabled!` exactly when the new flag is on, `... disabled!` exactly when it is off |
| Player.HandleMessage | player.js:95-104 | a non-command message changes nothing and sends nothing; a command without a guild raises; a command from guild g flips g's observed flag only and replies once, on the message's channel, with the new flag |
| Player.NextTrack | player.js:107-109 | the result is present exactly when the queue is non-empty, and is then the queue's first track; the player is an immutable value, so the queue is not changed |
| Player.ResolveChannel | player.js:72 | a channel is found exactly when the player names one that the client's cache holds |
| Player.QueueEnd | player.js:71-92 | no known channel gives no action; every notice goes to the player's text channel; the player is destroyed exactly when autoplay reads off; a track is played exactly when autoplay reads on and the queue is non-empty, and it is the queue head |
| Player.QueueEndEffects | player.js:79-91 | autoplay off: one stop notice, one destroy, no play; autoplay on: no destroy, one notice, and one play of the head exactly when the queue is non-empty |
| Player.QueueEndOrder | player.js:82-90 | no action follows a destroy and no action precedes a play |
| Player.Step | player.js:71-103 | handling one event flips exactly the flag of the guild whose toggle command it is; a queue end leaves the store unchanged |
| Player.StepEffects | player.js:71-104 | one event issues exactly what its handler issues: a queue end the queue-end decision taken on the current store, a message its handler's reply, and a message whose handler raised nothing, with the store left as it was |
| Player.Run | player.js:71-103 | a guild none of whose events is its own toggle command ends the run with the flag it started with |
| Player.RunSingle | player.js:71-104 | a run of one event is exactly that event's handling |
| Player.RunAppend | player.js:71-104 | running two event sequences one after the other handles the second on the store the first left, and issues the first's actions followed by the second's, in order |
| Player.RunParity | player.js:71-103 | after any event sequence a guild's flag is its starting flag flipped once per toggle command from that guild |
| Player.EvenTogglesStop | player.js:79-90 | a guild that has sent an even number of toggle commands since start-up gets the stop notice and destroy at a queue end |
| Player.EvenTogglesStopRun | player.js:79-90 | in the whole event loop, a queue end for such a guild makes the last two actions issued the stop notice on the player's text channel and then the destroy |

## Left out

- Riffy node configuration and the voice-payload relay (player.js:12-32): connection set-up for an external client, with no decision logic.
- The `trackStart` handler (player.js:34-69): image rendering, a file write and an embed send, all external I/O. `AttachmentBuilder` is never imported, so line 54 always throws into the catch at line 66 and no card is ever sent; this is noted, not modelled.
- `sendEmbed` (player.js:111-114) and the chat sends at lines 84-89 and 102: modelled only as `Send(channel, notice)` effects; `NoticeText` gives the text, and embed colour and layout are left out.
- `async`/`await` and promise ordering: `sendEmbed` is not awaited, so the actual delivery order of a notice and a play or destroy is up to the libraries; the effect list records the order in which the handler issues them.
- Text.Lower: covers only the ASCII letters `A`-`Z`, not full Unicode `toLowerCase`. No other character lower-cases to a character of `/autoplay`, so the command test is the same.
- Player.HandleMessage: a `/autoplay` message without a guild (a direct message) reads `.id` of `null` (player.js:97) and raises inside an `async` listener whose promise nothing awaits; the model returns `Err(NoGuild)` with the store untouched. `Step` and `Run` then carry on with the next event on the same store, which assumes the bot survives the rejected handler, for example because a process-level handler outside this file catches it; without one, Node (version 15 onwards) ends the process on the unhandled rejection and the flags of player.js:9 start again empty.
- Player.QueueEnd: `player.guild.id` (player.js:76) is taken to be the guild id of the player; the Riffy player class is not part of this model. If the player object had no `guild`, line 76 would raise before line 79 and nothing would be sent or destroyed; `QueueEnd` models only the case where the guild id is readable.
- `player.play` is abstract: whether it removes the track from the queue is the audio client's business, so the queue after a queue end is not modelled.
- Search-based autoplay, volume clamping, control buttons and interaction collectors: `player.js` has none of them. Its autoplay plays the current queue head and nothing more, so there is nothing of the kind to model.
