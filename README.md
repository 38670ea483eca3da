# Music and AI relay bot: playback session model

This project models the state-handling core of a chat bot that plays music in
a guild's voice channel through a streaming backend and relays messages to a
language-model service. It covers:

- the guild's voice player, with its connection, playing and paused flags,
  current track, FIFO queue, panel channel, last control-panel message, volume
  and active filter;
- the `/play`, `/volume`, `/filter`, `/skip`, `/queue` and `/stop` commands;
- the Pause/Resume, Skip, Stop and Queue buttons of the control panel;
- the track-started and track-ended handlers;
- the formatting of a track's duration and of the two queue listings;
- the per-guild channel configuration written by `/setup`, the test that
  decides whether a message gets an AI answer, and the splitting of answers
  into replies of at most 2000 characters.

Modules:

- `Text` (text.dfy): decimal printing and parsing, `Pad2` (`:02d`), `Split`,
  `Join` and the round-trip lemmas between them.
- `Duration` (duration.dfy): the hours/minutes/seconds split and the `MM:SS`
  or `HH:MM:SS` text, with a parser that reads it back.
- `Listing` (listing.dfy): `Track`; the "Up Next" loop, with its ten-entry cap
  and remainder note; the Queue button listing cut to 1900 characters.
- `Playback` (playback.dfy): each command, button and event handler as a step
  function `Player -> Transition`, giving the user-visible outcome, the new
  player and the calls made outside the bot (`Effect`). Next to them are the
  invariant `Inv` every step keeps and lemmas about runs of steps. The class
  `Session` performs the same operations in place on its fields, logs the calls
  it makes, and is proved to follow the step functions exactly.
- `Relay` (relay.dfy): the channel configuration as a `map<string, int>` keyed
  by `str(guild_id)`, the `ChannelConfig` object that `/setup` rewrites, the
  answer test of `on_message`, and the reply-chunking loop.

The player's flags follow the voice library's behaviour that the source
relies on:

- `playing` means "connected with a track loaded", so it stays true while
  paused. This is why the Pause/Resume button can resume.
- Playing a new track keeps the pause flag as it was.
- The backend clears the current track before the track-ended handler runs.
- `/skip` only asks the backend to end the track. The queue moves on when the
  resulting track-ended event arrives (`TrackEndStep`).
- `/stop` and the Stop button drop the player: its queue and panel reference
  are discarded. The next `/play` connects a fresh player with volume 100 and
  no filter.

Two behaviours of the code are kept as written:

- The remainder note follows the tenth entry as soon as it is listed, so a
  queue of exactly ten tracks shows "... and 0 more" even though nothing more
  is waiting (`TenQueuedSaysZeroMore`).
- The controller message is never cleared after its deletion is attempted
  (`TrackEndAdvances`: `controllerMessage` is unchanged).

Under the model's one-handler-at-a-time reading, a track waits in the queue
only while another is playing (`Inv`). As a result, the "or tracks are queued"
half of the `/skip` test never decides the outcome (`SkipNeedsPlayingTrack`).

## Model

| member | source | states |
|---|---|---|
| `Duration.ClockOf` | main.py:113-115 | `length // 1000` seconds split into hours, minutes < 60 and seconds < 60 that add back up to it |
| `Duration.FormatDuration` | main.py:116 | the text is five characters (`MM:SS`) exactly when the track is under an hour, eight or more (`HH:MM:SS`) otherwise; its fields are stated by `DurationFields` |
| `Duration.DurationFields` | main.py:113-116 | the text has three `:`-separated fields exactly when hours > 0, two otherwise; every field has at least two digits and is the zero-padded hour, minute or second; the minute and second fields are exactly two characters |
| `Duration.DurationRoundTrip` | main.py:113-116 | reading the displayed duration back gives exactly `length // 1000` seconds |
| `Text.Pad2Reads` | main.py:116 | `:02d` yields two characters below ten and the plain digits from ten on, so exactly two for any number under 100; the digits read back as the number |
| `Text.IntToStringInjective` | main.py:161-163 | distinct guild ids give distinct `str(guild_id)` keys |
| `Listing.UpNextText` | main.py:252-262 | empty exactly when the queue is empty; its lines are stated by `UpNextLines` |
| `Listing.UpNext` | main.py:256-262 | the listing loop with its `break` builds exactly the ten-capped listing plus remainder note |
| `Listing.UpNextLines` | main.py:256-262 | split at newlines, the listing is `1. title`, `2. title`, ... for the first min(len, 10) tracks in queue order, then "... and {len-10} more" iff len >= 10 |
| `Listing.TenQueuedSaysZeroMore` | main.py:260-261 | a queue of exactly ten entries is followed by "... and 0 more" |
| `Listing.QueueButtonText` | main.py:85-86 | the heading followed by at most 1900 characters; the exact value is stated by `QueueButtonListing` |
| `Listing.QueueButtonListing` | main.py:85-86 | the Queue button text is the heading plus exactly the first min(len, 1900) characters of the full listing; when the listing fits and no title holds a newline, it splits back into every numbered entry in order |
| `Playback.PlayStep` | main.py:173-196 | keeps the player invariant `Inv`; its cases are stated by `PlayDecides` |
| `Playback.PlayDecides` | main.py:173-196 | not in voice: error, nothing changes; a connect failure changes nothing; otherwise connected and the panel channel is the invoking channel; on a live player volume, filter, pause flag and panel are kept, and a fresh connection starts from a new player's defaults; no results: NotFound with queue, current and playing unchanged; playing: the first result is appended to the queue, current unchanged; idle: the first result is played, queue unchanged |
| `Playback.NowPlaying` | main.py:132 | the panel shows the track's title, author and artwork, and its duration text reads back as `length // 1000` seconds |
| `Playback.TrackStartStep` | main.py:127-134 | with a panel channel, a Now Playing panel is posted there and becomes the controller message; nothing else changes |
| `Playback.TrackEndStep` | main.py:137-149 | keeps the player invariant `Inv`; its effect is stated by `TrackEndAdvances` |
| `Playback.TrackEndAdvances` | main.py:137-149 | deletion of the old panel is attempted first and the panel stays recorded; a non-empty queue loses exactly its front track, which becomes current and is the one track played; an empty queue plays nothing and leaves no current track; nothing else of the player changes |
| `Playback.VolumeStep` | main.py:202-211 | accepted iff connected and 0 <= level <= 100, then the volume becomes the level and one set-volume call is made; otherwise NotConnected or InvalidVolume with nothing changed and no call |
| `Playback.ParseFilter` | main.py:219-232 | a selected filter's keyword is the lower-cased name; a rejected name's lower-case form is none of the three keywords |
| `Playback.ParseFilterExactly` | main.py:219-232 | a name selects filter f iff its lower-case form is f's keyword, and is accepted iff its lower-case form is one of `bassboost`, `nightcore`, `clear` |
| `Playback.ParseFilterIgnoresCase` | main.py:220 | upper-case spellings select the same filter |
| `Playback.FilterStep` | main.py:214-235 | not connected: error; unknown name: UnknownFilter, filter unchanged, no call; otherwise the selected filter (none for `clear`) becomes active with one set-filters call |
| `Playback.SkipStep` | main.py:238-244 | skips iff connected and (playing or queue non-empty), issuing one skip call; otherwise NothingPlaying with no change |
| `Playback.SkipNeedsPlayingTrack` | main.py:240 | on reachable players the skip test holds iff connected with a track loaded |
| `Playback.QueueDescription` | main.py:252-264 | the reply is "Nothing in queue." exactly when nothing plays and nothing is queued |
| `Playback.QueueDescriptionShape` | main.py:249-264 | past the emptiness test a track is playing and the reply starts with its title under "Currently Playing", never the fallback text |
| `Playback.StopStep` | main.py:267-273 | a connected player is disconnected, dropping queue and current track; without one the reply is NotConnected and nothing changes |
| `Playback.NothingSurvivesStop` | main.py:267-273 | after a stop, volume, filter and stop report NotConnected, skip reports NothingPlaying and `/queue` reports an empty queue |
| `Playback.TogglePauseStep` | main.py:55-62 | nothing playing: error, no change; otherwise the pause flag flips, one set-pause call is made and the reply says paused or resumed accordingly |
| `Playback.TogglePauseTwice` | main.py:60-61 | two presses restore the player and give opposite replies |
| `Playback.SkipButtonStep` | main.py:65-71 | skips iff a track is playing; otherwise NothingPlaying with no change |
| `Playback.StopButtonStep` | main.py:74-77 | always disconnects, whatever the state |
| `Playback.QueueButtonReply` | main.py:82-86 | the reply is "queue is empty" exactly when the queue is empty |
| `Playback.PlayWhilePlaying` | main.py:188-189 | a `/play` while a track is playing appends the found track to the queue, keeps the current track and starts nothing |
| `Playback.PlayEachQueuesInOrder` | main.py:188-189 | while playing, successive `/play` calls append their tracks in call order and play nothing |
| `Playback.EndTracksLeavesRest` | main.py:147-149 | after n track endings the queue is the original queue minus its first n tracks, order kept |
| `Playback.EndTracksPlaysInOrder` | main.py:147-149 | n track endings play exactly the first n queued tracks, in queue order |
| `Playback.ThreePlaysThenEnd` | main.py:186-196 | idle, play A, B, C: A plays and B, C queue; when A ends, B plays and only C is queued |
| `Playback.Session.Play` | main.py:173-196 | in place, follows `PlayStep` |
| `Playback.Session.OnTrackStart` | main.py:127-134 | in place, follows `TrackStartStep` |
| `Playback.Session.OnTrackEnd` | main.py:137-149 | in place, follows `TrackEndStep` |
| `Playback.Session.SetVolumeLevel` | main.py:202-211 | in place, follows `VolumeStep` |
| `Playback.Session.ApplyFilter` | main.py:214-235 | in place, follows `FilterStep` |
| `Playback.Session.Skip` | main.py:238-244 | in place, follows `SkipStep` |
| `Playback.Session.ShowQueue` | main.py:247-264 | reports an empty queue iff not connected or nothing playing and nothing queued; otherwise the playing title and the Up Next listing |
| `Playback.Session.Stop` | main.py:267-273 | in place, follows `StopStep` |
| `Playback.Session.TogglePause` | main.py:55-62 | in place, follows `TogglePauseStep` |
| `Playback.Session.SkipButton` | main.py:65-71 | in place, follows `SkipButtonStep` |
| `Playback.Session.StopButton` | main.py:74-77 | in place, follows `StopButtonStep` |
| `Playback.Session.QueueButton` | main.py:80-86 | the Queue button reply for the session's queue |
| `Relay.Saved` | main.py:158-163 | the guild's key is present exactly when a channel is given, and then maps to it; every other key is kept with its value |
| `Relay.SavedLookup` | main.py:158-163 | after saving, the guild maps to the given channel (no entry for None) and every other guild's entry is unchanged |
| `Relay.ChannelConfig.constructor` | main.py:151-156 | a missing or unreadable configuration has no entries |
| `Relay.ChannelConfig.Save` | main.py:158-165 | the stored configuration becomes the saved map |
| `Relay.ShouldRespond` | main.py:296 | a mention is always answered; a channel id of 0 never matches; without a configured channel only mentions are answered |
| `Relay.SetupDecidesResponses` | main.py:293-296 | after setup in channel c, unmentioned messages are answered exactly in c; after removal only mentions are answered; other guilds are unaffected |
| `Relay.ReplyChunks` | main.py:300-301 | the replies concatenate to the response, each is 1 to 2000 characters, all but the last are exactly 2000, and there are ceil(len / 2000) of them (none for an empty response) |
| `Relay.OnMessage` | main.py:292-302 | bot messages get nothing and skip command processing; others are answered iff the channel test or a mention holds, with the completion or "AI Error: ..." in ceil(len / 2000) chunks of 1 to 2000 characters, all but the last exactly 2000, and are then passed to command processing |

## Left out

- The keep-alive web server, its thread, and the reading of tokens from the environment: process I/O.
- The language-model request: the completion is an input, either the answer text or the error text that becomes "AI Error: ...". The removal of mention tokens from the message before it is sent is part of that request and is not modelled.
- Mention detection: whether the bot is mentioned is an input. Messages outside a guild are not modelled.
- The backend connection and `setup_hook`, searching and audio playback. Search results are an input `seq<Track>`, and whether joining the voice channel succeeds is an input. An exception raised by the search itself is not modelled.
- The numeric parameters of the filters (equalizer bands, nightcore pitch and speed 1.2). Filters are an enumeration.
- Embeds, colours, emojis, ephemeral flags and the defer/follow-up plumbing. Replies are the `Outcome` values, and panels are `Panel` values holding the title, author, formatted duration and artwork. The "Added to Queue" embed is covered only by the `Queued` outcome.
- Posting the Now Playing panel is assumed to succeed. The id the platform gives the new message is an input.
- JSON file reading and writing: the configuration file is the `channels` map of `ChannelConfig`, and a failed read is the empty map.
- Asynchrony. Each handler and command runs as one atomic step. The bot can interleave a command with the track-ended handler while that handler waits on the panel deletion. During that window a track can be queued while none plays, and the model's `Inv` does not describe that state.
- Session registry: the model has one `Session` per guild. A control panel left over from a dropped player acts, in the model, on the guild's current session.
- Track-lifecycle events are only delivered for a connected player (`TrackStartStep` and `TrackEndStep` require `connected`). The backend's inactivity disconnect (300 seconds) is not modelled.
- `Playback.ParseFilter`: lower-cases only the letters A to Z. Python's `str.lower` also maps other letters. The one non-ASCII character whose lower case contains a letter of the three keywords is U+0130, which lower-cases to `i` plus a combining dot, so the accepted names are the same.
