/**
 * The per-guild playback session: the fields the bot reads and writes on its
 * voice player, the slash commands `/play`, `/volume`, `/filter`, `/skip`,
 * `/queue` and `/stop`, the four buttons of the control panel, and the two
 * track-lifecycle handlers.
 *
 * Each operation is given first as a step function on a `Player` value, which
 * returns the outcome shown to the user, the new player and the calls made to
 * the streaming backend or to the chat platform; the `Session` class at the end
 * performs the same operations in place and is proved to follow the steps.
 */
module Playback {
  import opened Wrappers
  import opened Text
  import opened Duration
  import opened Listing

  type ChannelId = int
  type MessageId = int

  /** The active audio filter; `clear` selects `NoFilter`. */
  datatype Filter = NoFilter | Bassboost | Nightcore

  /**
   * A guild's voice player. `playing` holds while a track is loaded on a live
   * connection, paused or not; `homeChannel` is where the now-playing panel is
   * posted and `controllerMessage` is the last panel posted there.
   */
  datatype Player = Player(
    connected: bool,
    playing: bool,
    paused: bool,
    current: Option<Track>,
    queue: seq<Track>,
    homeChannel: Option<ChannelId>,
    controllerMessage: Option<MessageId>,
    volume: int,
    filter: Filter)

  /** The "Now Playing" / "Added to Queue" embed. */
  datatype Panel = Panel(heading: string, title: string, author: string, duration: string, artwork: Option<string>)

  /** A call the bot makes outside itself. */
  datatype Effect =
    | PlayTrack(track: Track)
    | SetVolume(level: int)
    | SetFilters(filter: Filter)
    | SetPause(pause: bool)
    | SkipTrack
    | Disconnect
    | SendPanel(channel: ChannelId, panel: Panel)
    | DeleteMessage(message: MessageId)

  /** What the user is told. */
  datatype Outcome =
    | Started          // `/play` on an idle player: playback begins, no reply until the panel
    | Queued           // "Added to Queue"
    | Ok
    | Paused
    | Resumed
    | NotInVoice       // "You need to join a voice channel first!"
    | ConnectFailed    // "An error occurred" while joining the voice channel
    | NotFound         // "No tracks found for: ..."
    | NotConnected     // "I'm not connected to any voice channel."
    | InvalidVolume    // "Please provide a volume level between 0 and 100."
    | UnknownFilter    // "Available filters: `bassboost`, `nightcore`, `clear`"
    | NothingPlaying
    | QueueEmpty

  datatype Transition = Transition(outcome: Outcome, after: Player, effects: seq<Effect>)

  /** The platform's default volume, which a new player starts with. */
  const DefaultVolume: int := 100

  /** The guild has no player. */
  const Detached: Player := Player(false, false, false, None, [], None, None, DefaultVolume, NoFilter)

  /** A player just connected to a voice channel. */
  const Joined: Player := Detached.(connected := true)

  /** The filter names the error reply lists, which are exactly the accepted ones. */
  const FilterKeywords: seq<string> := ["bassboost", "nightcore", "clear"]

  /**
   * What every reachable player satisfies: `playing` is "connected with a track
   * loaded", the volume stays within 0..100, and a track waits in the queue only
   * while another is playing (each handler runs to completion before the next).
   */
  ghost predicate Inv(p: Player) {
    && p.playing == (p.connected && p.current.Some?)
    && (p.current.Some? ==> p.connected)
    && 0 <= p.volume <= 100
    && (p.queue != [] ==> p.playing)
  }

  function Stay(p: Player, outcome: Outcome): Transition {
    Transition(outcome, p, [])
  }

  /** The track an effect hands to the backend for playing, if any. */
  function PlayOf(e: Effect): seq<Track> {
    if e.PlayTrack? then [e.track] else []
  }

  /** The tracks handed to the backend for playing, in order. */
  function Plays(effects: seq<Effect>): seq<Track>
  {
    if effects == [] then [] else PlayOf(effects[0]) + Plays(effects[1..])
  }

  lemma {:induction false} PlaysAppend(a: seq<Effect>, b: seq<Effect>)
    ensures Plays(a + b) == Plays(a) + Plays(b)
  {
    if a == [] {
      assert a + b == b;
    } else {
      var ab := a + b;
      assert ab[0] == a[0];
      assert ab[1..] == a[1..] + b;
      PlaysAppend(a[1..], b);
      var x, y, z := PlayOf(a[0]), Plays(a[1..]), Plays(b);
      assert Plays(ab) == x + (y + z);
      assert x + (y + z) == (x + y) + z;
    }
  }

  // ---------------------------------------------------------------- /play

  /**
   * `/play`: the caller must be in a voice channel; the guild's player is reused
   * or a new one connected; the invoking channel becomes the panel channel; the
   * first search result is queued behind a playing track or played at once.
   */
  function PlayStep(p: Player, inVoice: bool, channel: ChannelId, canConnect: bool, results: seq<Track>): (t: Transition)
    requires Inv(p)
    ensures Inv(t.after)
  {
    if !inVoice then Stay(p, NotInVoice)
    else if !p.connected && !canConnect then Stay(p, ConnectFailed)
    else
      var vc := (if p.connected then p else Joined).(homeChannel := Some(channel));
      if results == [] then Transition(NotFound, vc, [])
      else if vc.playing then Transition(Queued, vc.(queue := vc.queue + [results[0]]), [])
      else Transition(Started, vc.(current := Some(results[0]), playing := true), [PlayTrack(results[0])])
  }

  /**
   * What `/play` does in each case. Without a voice channel, or when joining
   * fails, nothing changes. Otherwise the player is connected and the invoking
   * channel becomes the panel channel even when the search finds nothing, in
   * which case queue, current track and playing flag stay as they were. Only
   * the first result is used: appended behind a playing track, leaving the
   * current one alone, or else played at once with the queue untouched.
   */
  lemma PlayDecides(p: Player, inVoice: bool, channel: ChannelId, canConnect: bool, results: seq<Track>)
    requires Inv(p)
    ensures var t := PlayStep(p, inVoice, channel, canConnect, results);
      && (!inVoice ==> t == Stay(p, NotInVoice))
      && (inVoice && !p.connected && !canConnect ==> t == Stay(p, ConnectFailed))
      && (inVoice && (p.connected || canConnect) ==>
            t.after.connected && t.after.homeChannel == Some(channel))
      && (inVoice && p.connected ==>
            t.after == p.(homeChannel := Some(channel), queue := t.after.queue,
                          current := t.after.current, playing := t.after.playing))
      && (inVoice && !p.connected && canConnect ==>
            t.after == Joined.(homeChannel := Some(channel), queue := t.after.queue,
                               current := t.after.current, playing := t.after.playing))
      && (inVoice && (p.connected || canConnect) && results == [] ==>
            && t.outcome == NotFound && t.effects == []
            && t.after.queue == p.queue && t.after.current == p.current && t.after.playing == p.playing)
      && (inVoice && results != [] && p.playing ==>
            && t.outcome == Queued && t.effects == []
            && t.after.queue == p.queue + [results[0]] && t.after.current == p.current)
      && (inVoice && (p.connected || canConnect) && results != [] && !p.playing ==>
            && t.outcome == Started && t.effects == [PlayTrack(results[0])]
            && t.after.queue == p.queue && t.after.current == Some(results[0]))
  {
  }

  // ---------------------------------------------------------------- track lifecycle

  /** The "Now Playing" panel posted when a track starts. */
  function NowPlaying(track: Track): (panel: Panel)
    ensures panel.title == track.title && panel.author == track.author && panel.artwork == track.artwork
    ensures ParseClock(panel.duration) == Some(track.length / 1000)
  {
    DurationRoundTrip(track.length);
    Panel("Now Playing", track.title, track.author, FormatDuration(track.length), track.artwork)
  }

  /**
   * Track started: with a panel channel, post a fresh panel there and remember it
   * as the controller message; without one, nothing happens.
   */
  function TrackStartStep(p: Player, track: Track, posted: MessageId): (t: Transition)
    requires p.connected && Inv(p)
    ensures Inv(t.after)
    ensures t.after == p.(controllerMessage := t.after.controllerMessage)
    ensures p.homeChannel.Some? ==>
              t.after.controllerMessage == Some(posted) && t.effects == [SendPanel(p.homeChannel.value, NowPlaying(track))]
    ensures p.homeChannel.None? ==> t == Stay(p, Ok)
  {
    match p.homeChannel
    case Some(home) => Transition(Ok, p.(controllerMessage := Some(posted)), [SendPanel(home, NowPlaying(track))])
    case None => Stay(p, Ok)
  }

  /**
   * Track ended (the backend has already cleared the current track): try to
   * delete the old panel, whose outcome is ignored and which stays recorded as
   * the controller message; then play the front of the queue, if any.
   */
  function TrackEndStep(p: Player): (t: Transition)
    requires p.connected && Inv(p)
    ensures Inv(t.after)
  {
    var cleanup := if p.controllerMessage.Some? then [DeleteMessage(p.controllerMessage.value)] else [];
    var ended := p.(current := None, playing := false);
    if p.queue == [] then
      Transition(Ok, ended, cleanup)
    else
      var next := p.queue[0];
      Transition(Ok, ended.(current := Some(next), playing := true, queue := p.queue[1..]), cleanup + [PlayTrack(next)])
  }

  /**
   * What a track ending does: deletion of the old panel is attempted first and
   * the panel stays recorded; with tracks queued, exactly the front one leaves
   * the queue and is the one track played, the rest keeping their order; with
   * none queued, nothing is played and no track is current. Nothing else of
   * the player changes.
   */
  lemma {:induction false} TrackEndAdvances(p: Player)
    requires p.connected && Inv(p)
    ensures var t := TrackEndStep(p);
      && t.after.controllerMessage == p.controllerMessage
      && (p.controllerMessage.Some? ==> |t.effects| >= 1 && t.effects[0] == DeleteMessage(p.controllerMessage.value))
      && |t.effects| == |Plays(t.effects)| + (if p.controllerMessage.Some? then 1 else 0)
      && (p.queue != [] ==>
            && Plays(t.effects) == [p.queue[0]]
            && t.after.current == Some(p.queue[0]) && t.after.playing
            && t.after.queue == p.queue[1..])
      && (p.queue == [] ==>
            && Plays(t.effects) == []
            && t.after.current == None && !t.after.playing && t.after.queue == [])
      && t.after == p.(current := t.after.current, playing := t.after.playing, queue := t.after.queue)
  {
    var t := TrackEndStep(p);
    var cleanup := if p.controllerMessage.Some? then [DeleteMessage(p.controllerMessage.value)] else [];
    assert Plays(cleanup) == [] by {
      if cleanup != [] { assert cleanup[1..] == []; }
    }
    if p.queue != [] {
      var next := p.queue[0];
      assert t.effects == cleanup + [PlayTrack(next)];
      PlaysAppend(cleanup, [PlayTrack(next)]);
      assert [PlayTrack(next)][1..] == [];
      assert Plays([PlayTrack(next)]) == [next];
    } else {
      assert t.effects == cleanup;
    }
  }

  // ---------------------------------------------------------------- /volume, /filter

  /** `/volume`: levels 0 to 100 inclusive are applied; others are rejected, not clamped. */
  function VolumeStep(p: Player, level: int): (t: Transition)
    requires Inv(p)
    ensures Inv(t.after)
    ensures t.outcome == Ok <==> p.connected && 0 <= level <= 100
    ensures !p.connected ==> t == Stay(p, NotConnected)
    ensures p.connected && !(0 <= level <= 100) ==> t == Stay(p, InvalidVolume)
    ensures t.outcome == Ok ==> t.after.volume == level && t.effects == [SetVolume(level)]
    ensures t.after == p.(volume := t.after.volume)
  {
    if !p.connected then Stay(p, NotConnected)
    else if !(0 <= level <= 100) then Stay(p, InvalidVolume)
    else Transition(Ok, p.(volume := level), [SetVolume(level)])
  }

  function LowerChar(c: char): char {
    if 'A' <= c <= 'Z' then (c as int - 'A' as int + 'a' as int) as char else c
  }

  /** `name.lower()` on the letters A to Z. */
  function Lower(s: string): (r: string)
    ensures |r| == |s|
  {
    seq(|s|, i requires 0 <= i < |s| => LowerChar(s[i]))
  }

  function UpperChar(c: char): char {
    if 'a' <= c <= 'z' then (c as int - 'a' as int + 'A' as int) as char else c
  }

  function Upper(s: string): (r: string)
    ensures |r| == |s|
  {
    seq(|s|, i requires 0 <= i < |s| => UpperChar(s[i]))
  }

  /** The filter a name selects, if it names one; case is ignored. */
  function ParseFilter(name: string): (selected: Option<Filter>)
    ensures selected.Some? ==> Keyword(selected.value) == Lower(name)
    ensures selected.None? ==> Lower(name) !in FilterKeywords
  {
    var n := Lower(name);
    if n == "bassboost" then Some(Bassboost)
    else if n == "nightcore" then Some(Nightcore)
    else if n == "clear" then Some(NoFilter)
    else None
  }

  /** The name that selects each filter. */
  function Keyword(f: Filter): string {
    match f
    case Bassboost => "bassboost"
    case Nightcore => "nightcore"
    case NoFilter => "clear"
  }

  lemma LowerKeyword(f: Filter)
    ensures Lower(Keyword(f)) == Keyword(f)
  {
    var k := Keyword(f);
    assert forall i :: 0 <= i < |k| ==> 'a' <= k[i] <= 'z';
  }

  /**
   * A name selects filter `f` exactly when, lower-cased, it is `f`'s keyword;
   * a name is accepted exactly when, lower-cased, it is one of the three
   * keywords the error reply lists.
   */
  lemma ParseFilterExactly(name: string, f: Filter)
    ensures ParseFilter(name) == Some(f) <==> Lower(name) == Keyword(f)
    ensures ParseFilter(name).Some? <==> Lower(name) in FilterKeywords
  {
    LowerKeyword(f);
    assert Keyword(f) in FilterKeywords;
  }

  /** Case does not matter: the upper-case spelling selects the same filter. */
  lemma ParseFilterIgnoresCase(name: string)
    ensures ParseFilter(Upper(name)) == ParseFilter(name)
  {
    assert Lower(Upper(name)) == Lower(name) by {
      forall i | 0 <= i < |name|
        ensures Lower(Upper(name))[i] == Lower(name)[i]
      {
        var c := name[i];
        if 'a' <= c <= 'z' {
          assert UpperChar(c) as int == c as int - 32;
        }
      }
    }
  }

  /** `/filter`: the named filter replaces the active one; unknown names change nothing. */
  function FilterStep(p: Player, name: string): (t: Transition)
    requires Inv(p)
    ensures Inv(t.after)
    ensures !p.connected ==> t == Stay(p, NotConnected)
    ensures p.connected && ParseFilter(name).None? ==> t == Stay(p, UnknownFilter)
    ensures p.connected && ParseFilter(name).Some? ==>
              var f := ParseFilter(name).value;
              t.outcome == Ok && t.after.filter == f && t.effects == [SetFilters(f)]
    ensures t.after == p.(filter := t.after.filter)
  {
    if !p.connected then Stay(p, NotConnected)
    else
      match ParseFilter(name)
      case None => Stay(p, UnknownFilter)
      case Some(f) => Transition(Ok, p.(filter := f), [SetFilters(f)])
  }

  // ---------------------------------------------------------------- /skip, /queue, /stop

  /** `/skip` proceeds on a connected player that is playing or has tracks queued. */
  predicate CanSkip(p: Player) {
    p.connected && (p.playing || p.queue != [])
  }

  /**
   * `/skip`: asks the backend to end the current track; the queue advances only
   * when the resulting track-ended event arrives.
   */
  function SkipStep(p: Player): (t: Transition)
    requires Inv(p)
    ensures t.after == p
    ensures t.outcome == Ok <==> CanSkip(p)
    ensures CanSkip(p) ==> t.effects == [SkipTrack]
    ensures !CanSkip(p) ==> t == Stay(p, NothingPlaying)
  {
    if CanSkip(p) then Transition(Ok, p, [SkipTrack]) else Stay(p, NothingPlaying)
  }

  /**
   * With each handler run to completion, a track is queued only while another
   * plays, so the "tracks queued" half of the `/skip` test never decides it.
   */
  lemma SkipNeedsPlayingTrack(p: Player)
    requires Inv(p)
    ensures CanSkip(p) <==> p.connected && p.current.Some?
  {
  }

  /** `/queue` reports an empty queue when there is no player, or nothing playing and nothing queued. */
  predicate QueueLooksEmpty(p: Player) {
    !p.connected || (!p.playing && p.queue == [])
  }

  /** The `/queue` reply text: the playing title, then "Up Next" with at most ten entries. */
  function QueueDescription(p: Player): (description: string)
    requires Inv(p)
    ensures description == "Nothing in queue." <==> !p.playing && p.queue == []
  {
    var playingPart := if p.playing then "**Currently Playing:**\n" + p.current.value.title + "\n\n" else "";
    var nextPart := if p.queue != [] then "**Up Next:**\n" + UpNextText(p.queue) else "";
    var description := playingPart + nextPart;
    assert p.playing || p.queue != [] ==> description[0] == '*';
    if description == "" then "Nothing in queue." else description
  }

  /**
   * Whenever `/queue` gets past its emptiness test a track is playing (queued
   * tracks wait only behind a playing one), so the reply opens with the playing
   * title and never falls back to "Nothing in queue.".
   */
  lemma QueueDescriptionShape(p: Player)
    requires Inv(p) && !QueueLooksEmpty(p)
    ensures p.playing
    ensures var head := "**Currently Playing:**\n" + p.current.value.title + "\n\n";
            QueueDescription(p)[..|head|] == head
    ensures QueueDescription(p) != "Nothing in queue."
  {
    var head := "**Currently Playing:**\n" + p.current.value.title + "\n\n";
    var nextPart := if p.queue != [] then "**Up Next:**\n" + UpNextText(p.queue) else "";
    assert (head + nextPart)[..|head|] == head;
    assert (head + nextPart)[0] == '*';
  }

  /** `/stop`: disconnects a connected player, discarding its queue and panel. */
  function StopStep(p: Player): (t: Transition)
    requires Inv(p)
    ensures Inv(t.after)
    ensures p.connected ==> t == Transition(Ok, Detached, [Disconnect])
    ensures !p.connected ==> t == Stay(p, NotConnected)
  {
    if p.connected then Transition(Ok, Detached, [Disconnect]) else Stay(p, NotConnected)
  }

  /**
   * After a stop, every command that needs a player reports that there is none,
   * and nothing is left to play.
   */
  lemma NothingSurvivesStop(p: Player, level: int, name: string)
    requires Inv(p) && p.connected
    ensures var q := StopStep(p).after;
            && VolumeStep(q, level).outcome == NotConnected
            && FilterStep(q, name).outcome == NotConnected
            && SkipStep(q).outcome == NothingPlaying
            && StopStep(q).outcome == NotConnected
            && QueueLooksEmpty(q)
            && q.current == None && q.queue == []
  {
  }

  // ---------------------------------------------------------------- control panel buttons

  /** Pause/Resume: flips the pause state of a playing player. */
  function TogglePauseStep(p: Player): (t: Transition)
    requires Inv(p)
    ensures Inv(t.after)
    ensures !p.playing ==> t == Stay(p, NothingPlaying)
    ensures p.playing ==>
              && t.after == p.(paused := !p.paused)
              && t.effects == [SetPause(!p.paused)]
              && t.outcome == (if p.paused then Resumed else Paused)
  {
    if !p.playing then Stay(p, NothingPlaying)
    else
      var pause := !p.paused;
      Transition(if pause then Paused else Resumed, p.(paused := pause), [SetPause(pause)])
  }

  /** Two presses of Pause/Resume on a playing player restore its pause state. */
  lemma TogglePauseTwice(p: Player)
    requires Inv(p) && p.playing
    ensures var once := TogglePauseStep(p);
            var twice := TogglePauseStep(once.after);
            twice.after == p && once.outcome != twice.outcome
  {
  }

  /** Skip button: like `/skip`, but only while a track is playing. */
  function SkipButtonStep(p: Player): (t: Transition)
    requires Inv(p)
    ensures t.after == p
    ensures t.outcome == Ok <==> p.playing
    ensures p.playing ==> t.effects == [SkipTrack]
    ensures !p.playing ==> t == Stay(p, NothingPlaying)
  {
    if !p.playing then Stay(p, NothingPlaying) else Transition(Ok, p, [SkipTrack])
  }

  /** Stop button: disconnects without checking anything first. */
  function StopButtonStep(p: Player): (t: Transition)
    requires Inv(p)
    ensures Inv(t.after)
    ensures t == Transition(Ok, Detached, [Disconnect])
  {
    Transition(Ok, Detached, [Disconnect])
  }

  /** Queue button: the full numbered listing, or "The queue is empty." */
  function QueueButtonReply(p: Player): (r: Option<string>)
    ensures r.None? <==> p.queue == []
  {
    if p.queue == [] then None else Some(QueueButtonText(p.queue))
  }

  // ---------------------------------------------------------------- runs of steps

  /** `/play` from the panel channel once per search, each search finding one track. */
  function PlayEach(p: Player, channel: ChannelId, found: seq<Track>): (t: Transition)
    requires Inv(p)
    ensures Inv(t.after)
    decreases |found|
  {
    if found == [] then Stay(p, Ok)
    else
      var first := PlayStep(p, true, channel, true, [found[0]]);
      var rest := PlayEach(first.after, channel, found[1..]);
      Transition(rest.outcome, rest.after, first.effects + rest.effects)
  }

  /** One `/play` while a track is playing only appends the found track to the queue. */
  lemma PlayWhilePlaying(p: Player, channel: ChannelId, track: Track)
    requires Inv(p) && p.playing
    ensures var t := PlayStep(p, true, channel, true, [track]);
            && t.after.queue == p.queue + [track] && t.after.playing
            && t.after.current == p.current && t.effects == []
  {
  }

  /** While a track is playing, successive `/play` calls queue their tracks in call order. */
  lemma {:induction false} PlayEachQueuesInOrder(p: Player, channel: ChannelId, found: seq<Track>)
    requires Inv(p) && p.playing
    ensures var t := PlayEach(p, channel, found);
            t.after.queue == p.queue + found && t.after.current == p.current && t.effects == []
    decreases |found|
  {
    if found != [] {
      var first := PlayStep(p, true, channel, true, [found[0]]);
      PlayWhilePlaying(p, channel, found[0]);
      PlayEachQueuesInOrder(first.after, channel, found[1..]);
      var rest := PlayEach(first.after, channel, found[1..]);
      assert PlayEach(p, channel, found) == Transition(rest.outcome, rest.after, first.effects + rest.effects);
      assert (p.queue + [found[0]]) + found[1..] == p.queue + found;
    }
  }

  /** `n` track-ended events in a row. */
  function EndTracks(p: Player, n: nat): (t: Transition)
    requires p.connected && Inv(p)
    ensures Inv(t.after) && t.after.connected
    decreases n
  {
    if n == 0 then Stay(p, Ok)
    else
      var first := TrackEndStep(p);
      var rest := EndTracks(first.after, n - 1);
      Transition(rest.outcome, rest.after, first.effects + rest.effects)
  }

  /** One ending with tracks queued: the front track is the one played and leaves the queue. */
  lemma TrackEndPops(p: Player)
    requires p.connected && Inv(p) && p.queue != []
    ensures var t := TrackEndStep(p);
            Plays(t.effects) == [p.queue[0]] && t.after.queue == p.queue[1..]
  {
    TrackEndAdvances(p);
  }

  /** `n` track endings leave all but the first `n` queued tracks queued, in order. */
  lemma {:induction false} EndTracksLeavesRest(p: Player, n: nat)
    requires p.connected && Inv(p) && n <= |p.queue|
    ensures EndTracks(p, n).after.queue == p.queue[n..]
    decreases n
  {
    if n > 0 {
      var first := TrackEndStep(p);
      TrackEndPops(p);
      EndTracksLeavesRest(first.after, n - 1);
      assert p.queue[n..] == p.queue[1..][n - 1..];
    }
  }

  /**
   * First in, first out: `n` track endings play exactly the first `n` queued
   * tracks, in queue order, and leave the rest queued.
   */
  lemma {:induction false} EndTracksPlaysInOrder(p: Player, n: nat)
    requires p.connected && Inv(p) && n <= |p.queue|
    ensures Plays(EndTracks(p, n).effects) == p.queue[..n]
    decreases n
  {
    if n > 0 {
      var first := TrackEndStep(p);
      TrackEndPops(p);
      EndTracksPlaysInOrder(first.after, n - 1);
      var rest := EndTracks(first.after, n - 1);
      assert EndTracks(p, n).effects == first.effects + rest.effects;
      PlaysAppend(first.effects, rest.effects);
      assert p.queue[..n] == [p.queue[0]] + p.queue[1..][..n - 1];
    }
  }

  /**
   * Three `/play` calls on an idle player: the first track plays, the other two
   * queue; when the first ends the second plays and only the third is queued.
   */
  lemma ThreePlaysThenEnd(channel: ChannelId, a: Track, b: Track, c: Track)
    ensures var s1 := PlayStep(Joined, true, channel, true, [a]);
            var s2 := PlayStep(s1.after, true, channel, true, [b]);
            var s3 := PlayStep(s2.after, true, channel, true, [c]);
            var s4 := TrackEndStep(s3.after);
            && s1.outcome == Started && s1.effects == [PlayTrack(a)]
            && s2.outcome == Queued && s3.outcome == Queued
            && Plays(s4.effects) == [b]
            && s4.after.current == Some(b) && s4.after.queue == [c]
  {
    var s3 := PlayStep(PlayStep(PlayStep(Joined, true, channel, true, [a]).after, true, channel, true, [b]).after, true, channel, true, [c]);
    TrackEndAdvances(s3.after);
    assert s3.after.queue == [b, c];
    assert [b, c][1..] == [c];
  }

  // ---------------------------------------------------------------- the session object

  /** A guild's player as the bot mutates it, with the calls it has made so far. */
  class Session {
    var connected: bool
    var playing: bool
    var paused: bool
    var current: Option<Track>
    var queue: seq<Track>
    var homeChannel: Option<ChannelId>
    var controllerMessage: Option<MessageId>
    var volume: int
    var filter: Filter
    /** Every call made to the backend or the platform, oldest first. */
    var effects: seq<Effect>

    function State(): Player
      reads this
    {
      Player(connected, playing, paused, current, queue, homeChannel, controllerMessage, volume, filter)
    }

    ghost predicate Valid()
      reads this
    {
      Inv(State())
    }

    /** The guild starts without a player. */
    constructor ()
      ensures Valid() && State() == Detached && effects == []
    {
      connected, playing, paused := false, false, false;
      current, queue := None, [];
      homeChannel, controllerMessage := None, None;
      volume, filter := DefaultVolume, NoFilter;
      effects := [];
    }

    method Play(inVoice: bool, channel: ChannelId, canConnect: bool, results: seq<Track>) returns (outcome: Outcome)
      requires Valid()
      modifies this
      ensures Valid()
      ensures var t := PlayStep(old(State()), inVoice, channel, canConnect, results);
              outcome == t.outcome && State() == t.after && effects == old(effects) + t.effects
    {
      if !inVoice {
        return NotInVoice;
      }
      if !connected {
        if !canConnect {
          return ConnectFailed;
        }
        Join();
      }
      homeChannel := Some(channel);
      if results == [] {
        return NotFound;
      }
      var track := results[0];
      if playing {
        queue := queue + [track];
        outcome := Queued;
      } else {
        current, playing := Some(track), true;
        effects := effects + [PlayTrack(track)];
        outcome := Started;
      }
    }

    method OnTrackStart(track: Track, posted: MessageId)
      requires Valid() && connected
      modifies this
      ensures Valid()
      ensures var t := TrackStartStep(old(State()), track, posted);
              State() == t.after && effects == old(effects) + t.effects
    {
      if homeChannel.Some? {
        effects := effects + [SendPanel(homeChannel.value, NowPlaying(track))];
        controllerMessage := Some(posted);
      }
    }

    method OnTrackEnd()
      requires Valid() && connected
      modifies this
      ensures Valid()
      ensures var t := TrackEndStep(old(State()));
              State() == t.after && effects == old(effects) + t.effects
    {
      ghost var t := TrackEndStep(State());
      // Deleting the old panel is best effort: its result is never looked at,
      // and the message stays recorded as the controller message.
      var cleanup: seq<Effect> := [];
      if controllerMessage.Some? {
        cleanup := [DeleteMessage(controllerMessage.value)];
      }
      current, playing := None, false;
      if queue != [] {
        var next := queue[0];
        queue := queue[1..];
        current, playing := Some(next), true;
        effects := effects + (cleanup + [PlayTrack(next)]);
      } else {
        effects := effects + cleanup;
      }
      assert State() == t.after;
    }

    method SetVolumeLevel(level: int) returns (outcome: Outcome)
      requires Valid()
      modifies this
      ensures Valid()
      ensures var t := VolumeStep(old(State()), level);
              outcome == t.outcome && State() == t.after && effects == old(effects) + t.effects
    {
      if !connected {
        return NotConnected;
      }
      if !(0 <= level <= 100) {
        return InvalidVolume;
      }
      volume := level;
      effects := effects + [SetVolume(level)];
      outcome := Ok;
    }

    method ApplyFilter(name: string) returns (outcome: Outcome)
      requires Valid()
      modifies this
      ensures Valid()
      ensures var t := FilterStep(old(State()), name);
              outcome == t.outcome && State() == t.after && effects == old(effects) + t.effects
    {
      if !connected {
        return NotConnected;
      }
      var selected := ParseFilter(name);
      if selected.None? {
        return UnknownFilter;
      }
      filter := selected.value;
      effects := effects + [SetFilters(selected.value)];
      outcome := Ok;
    }

    method Skip() returns (outcome: Outcome)
      requires Valid()
      modifies this
      ensures Valid()
      ensures var t := SkipStep(old(State()));
              outcome == t.outcome && State() == t.after && effects == old(effects) + t.effects
    {
      if connected && (playing || queue != []) {
        effects := effects + [SkipTrack];
        outcome := Ok;
      } else {
        outcome := NothingPlaying;
      }
    }

    /** `/queue`: only reads the player. */
    method ShowQueue() returns (outcome: Outcome, description: string)
      requires Valid()
      ensures outcome == QueueEmpty <==> QueueLooksEmpty(State())
      ensures outcome != QueueEmpty ==> outcome == Ok && description == QueueDescription(State())
    {
      if !connected || (!playing && queue == []) {
        return QueueEmpty, "";
      }
      var playingPart := "";
      if playing {
        playingPart := "**Currently Playing:**\n" + current.value.title + "\n\n";
      }
      var nextPart := "";
      if queue != [] {
        var upNext := UpNext(queue);
        nextPart := "**Up Next:**\n" + upNext;
      }
      description := playingPart + nextPart;
      if description == "" {
        description := "Nothing in queue.";
      }
      outcome := Ok;
    }

    method Stop() returns (outcome: Outcome)
      requires Valid()
      modifies this
      ensures Valid()
      ensures var t := StopStep(old(State()));
              outcome == t.outcome && State() == t.after && effects == old(effects) + t.effects
    {
      if !connected {
        return NotConnected;
      }
      Drop();
      outcome := Ok;
    }

    /** Pause/Resume button. */
    method TogglePause() returns (outcome: Outcome)
      requires Valid()
      modifies this
      ensures Valid()
      ensures var t := TogglePauseStep(old(State()));
              outcome == t.outcome && State() == t.after && effects == old(effects) + t.effects
    {
      if !playing {
        return NothingPlaying;
      }
      paused := !paused;
      effects := effects + [SetPause(paused)];
      outcome := if paused then Paused else Resumed;
    }

    /** Skip button. */
    method SkipButton() returns (outcome: Outcome)
      requires Valid()
      modifies this
      ensures Valid()
      ensures var t := SkipButtonStep(old(State()));
              outcome == t.outcome && State() == t.after && effects == old(effects) + t.effects
    {
      if !playing {
        return NothingPlaying;
      }
      effects := effects + [SkipTrack];
      outcome := Ok;
    }

    /** Stop button. */
    method StopButton() returns (outcome: Outcome)
      requires Valid()
      modifies this
      ensures Valid()
      ensures var t := StopButtonStep(old(State()));
              outcome == t.outcome && State() == t.after && effects == old(effects) + t.effects
    {
      Drop();
      outcome := Ok;
    }

    /** Queue button: only reads the player. */
    method QueueButton() returns (reply: Option<string>)
      ensures reply == QueueButtonReply(State())
    {
      if queue == [] {
        return None;
      }
      reply := Some(QueueButtonText(queue));
    }

    /** Connects a fresh player to the caller's voice channel. */
    method Join()
      modifies this
      ensures State() == Joined && effects == old(effects)
    {
      connected, playing, paused := true, false, false;
      current, queue := None, [];
      homeChannel, controllerMessage := None, None;
      volume, filter := DefaultVolume, NoFilter;
    }

    /** Disconnects and forgets the player. */
    method Drop()
      modifies this
      ensures State() == Detached && effects == old(effects) + [Disconnect]
    {
      connected, playing, paused := false, false, false;
      current, queue := None, [];
      homeChannel, controllerMessage := None, None;
      volume, filter := DefaultVolume, NoFilter;
      effects := effects + [Disconnect];
    }
  }
}
