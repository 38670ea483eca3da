/**
 * Tracks and the two queue listings the bot shows: the "Up Next" part of the
 * `/queue` reply, capped at ten entries, and the Queue button's full listing
 * cut to 1900 characters.
 */
module Listing {
  import opened Wrappers
  import opened Text

  /** A playable item returned by a search; never changed afterwards. Length in milliseconds. */
  datatype Track = Track(title: string, author: string, length: nat, artwork: Option<string>)

  /** At most this many entries are listed under "Up Next". */
  const UpNextCap: nat := 10

  /** The Queue button's listing is cut to this many characters. */
  const ButtonListingLimit: nat := 1900

  /** `f"{i+1}. {t.title}"`: the entry for position `i` (0-based) of the queue. */
  function NumberedLine(i: nat, t: Track): string
  {
    IntToString(i + 1) + ". " + t.title
  }

  function NumberedLines(queue: seq<Track>): (lines: seq<string>)
    ensures |lines| == |queue|
  {
    seq(|queue|, i requires 0 <= i < |queue| => NumberedLine(i, queue[i]))
  }

  predicate TitlesOnOneLine(queue: seq<Track>) {
    forall i :: 0 <= i < |queue| ==> '\n' !in queue[i].title
  }

  /**
   * The remainder note. It is written right after the tenth entry, so a queue of
   * exactly ten entries reads "... and 0 more".
   */
  function MoreNote(queue: seq<Track>): string
  {
    if |queue| >= UpNextCap then "... and " + IntToString(|queue| - UpNextCap) + " more" else ""
  }

  /** The first ten entries, each ending in a newline, then the remainder note. */
  function UpNextText(queue: seq<Track>): (text: string)
    ensures text == "" <==> queue == []
  {
    Terminated(NumberedLines(queue)[..Min(|queue|, UpNextCap)], '\n') + MoreNote(queue)
  }

  /** Listing one more entry extends the text by that entry and a newline. */
  lemma ListedPrefix(queue: seq<Track>, i: nat)
    requires i < |queue|
    ensures Terminated(NumberedLines(queue)[..i + 1], '\n')
         == Terminated(NumberedLines(queue)[..i], '\n') + NumberedLine(i, queue[i]) + "\n"
  {
    var lines := NumberedLines(queue);
    assert lines[..i + 1] == lines[..i] + [lines[i]];
    TerminatedSnoc(lines[..i], lines[i], '\n');
  }

  /** Where the listing loop stops early: the tenth entry and the remainder note end the text. */
  lemma UpNextStopsAtTen(queue: seq<Track>)
    requires |queue| >= UpNextCap
    ensures UpNextText(queue)
         == Terminated(NumberedLines(queue)[..UpNextCap], '\n') + "... and " + IntToString(|queue| - UpNextCap) + " more"
  {
    var x, y, z := Terminated(NumberedLines(queue)[..UpNextCap], '\n'), "... and ", IntToString(|queue| - UpNextCap);
    assert x + (y + z + " more") == x + y + z + " more";
  }

  /** Where the listing loop runs out of entries: fewer than ten are queued and no note follows. */
  lemma UpNextRunsOut(queue: seq<Track>)
    requires |queue| < UpNextCap
    ensures UpNextText(queue) == Terminated(NumberedLines(queue)[..|queue|], '\n')
  {
    assert MoreNote(queue) == "";
  }

  /** The loop of the `/queue` command that lists the queue and stops after the tenth entry. */
  method UpNext(queue: seq<Track>) returns (text: string)
    ensures text == UpNextText(queue)
  {
    text := "";
    var i := 0;
    while i < |queue|
      invariant 0 <= i <= |queue| && i < UpNextCap
      invariant text == Terminated(NumberedLines(queue)[..i], '\n')
    {
      ListedPrefix(queue, i);
      text := text + NumberedLine(i, queue[i]) + "\n";
      if i >= 9 {
        text := text + "... and " + IntToString(|queue| - 10) + " more";
        UpNextStopsAtTen(queue);
        return;
      }
      i := i + 1;
    }
    UpNextRunsOut(queue);
  }

  lemma NoNewlineInNumber(i: int)
    ensures '\n' !in IntToString(i)
  {
  }

  lemma LinesOnOneLine(queue: seq<Track>)
    requires TitlesOnOneLine(queue)
    ensures NoneContain(NumberedLines(queue), '\n')
  {
    forall i | 0 <= i < |queue|
      ensures '\n' !in NumberedLines(queue)[i]
    {
      NoNewlineInNumber(i + 1);
    }
  }

  /**
   * What "Up Next" lists: split at newlines it is the entries `1. <title>`,
   * `2. <title>`, ... for the first ten tracks in queue order, followed by the
   * remainder note "... and N more" exactly when ten or more tracks are queued
   * (an empty last piece otherwise).
   */
  lemma {:induction false} UpNextLines(queue: seq<Track>)
    requires TitlesOnOneLine(queue)
    ensures var pieces := Split(UpNextText(queue), '\n');
            && |pieces| == Min(|queue|, UpNextCap) + 1
            && (forall i :: 0 <= i < Min(|queue|, UpNextCap) ==> pieces[i] == IntToString(i + 1) + ". " + queue[i].title)
            && (|queue| >= UpNextCap ==> pieces[UpNextCap] == "... and " + IntToString(|queue| - UpNextCap) + " more")
            && (|queue| < UpNextCap ==> pieces[|queue|] == "")
  {
    LinesOnOneLine(queue);
    NoNewlineInNumber(|queue| - UpNextCap);
    var shown := NumberedLines(queue)[..Min(|queue|, UpNextCap)];
    assert NoneContain(shown, '\n');
    assert '\n' !in "... and " && '\n' !in " more";
    assert '\n' !in MoreNote(queue);
    SplitTerminated(shown, '\n', MoreNote(queue));
  }

  /** The note following a queue of exactly ten entries reads "... and 0 more". */
  lemma TenQueuedSaysZeroMore(queue: seq<Track>)
    requires |queue| == UpNextCap
    ensures MoreNote(queue) == "... and 0 more"
  {
    assert IntToString(0) == "0";
  }

  /** The heading of the Queue button's reply. */
  const QueueHeading: string := "**Current Queue:**\n"

  /** The Queue button's reply text: every entry, joined by newlines, cut to 1900 characters. */
  function QueueButtonText(queue: seq<Track>): (text: string)
    ensures |QueueHeading| <= |text| <= |QueueHeading| + ButtonListingLimit
    ensures text[..|QueueHeading|] == QueueHeading
  {
    var listing := Join(NumberedLines(queue), '\n');
    QueueHeading + listing[..Min(|listing|, ButtonListingLimit)]
  }

  /**
   * After its heading, the Queue button's text is exactly the first
   * min(length, 1900) characters of the full listing; when the full listing
   * fits and no title holds a newline, splitting it at newlines gives back
   * every entry in queue order.
   */
  lemma QueueButtonListing(queue: seq<Track>)
    ensures var heading := QueueHeading;
            var text := QueueButtonText(queue);
            var full := Join(NumberedLines(queue), '\n');
            && |text| == |heading| + Min(|full|, ButtonListingLimit)
            && text[..|heading|] == heading
            && text[|heading|..] <= full
            && (queue != [] && TitlesOnOneLine(queue) && |full| <= ButtonListingLimit ==>
                  Split(text[|heading|..], '\n') == NumberedLines(queue))
  {
    var heading := QueueHeading;
    var full := Join(NumberedLines(queue), '\n');
    assert QueueButtonText(queue)[|heading|..] == full[..Min(|full|, ButtonListingLimit)];
    if queue != [] && TitlesOnOneLine(queue) && |full| <= ButtonListingLimit {
      LinesOnOneLine(queue);
      SplitJoin(NumberedLines(queue), '\n');
      assert full[..Min(|full|, ButtonListingLimit)] == full;
    }
  }
}
