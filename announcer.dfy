/**
 * The help re-announcer: on every tick it counts the messages posted in the
 * text channel since the last help message it sent (the watermark), posts
 * the help text again once that count reaches the threshold, and then
 * sleeps. The platform's history query and send are seen through a tick: the
 * channel's log at that moment and the id the platform gives the message
 * the bot would send.
 */
module Announcer {
  import opened Wrappers

  /** Default of the threshold and sleep interval (CHAT_HELP_DELAY). */
  const DEFAULT_HELP_MSG_DELAY: int := 600

  /** How many messages one `history()` call returns when its limit is left at its default. */
  const HISTORY_LIMIT: nat := 100

  const HELP_MSG: string :=
    "Welcome to the social channel!\nPlease use $play to chat with some complete strangers. It will be a lot of fun!\n"

  /** A message of the text channel; message ids grow with the time of posting. */
  datatype Message = Message(id: nat, content: string)

  /** One iteration of the announcer loop: the channel log, oldest first, and the id a message sent now would get. */
  datatype Tick = Tick(log: seq<Message>, sentId: nat)

  /** A message counts as new when it is younger than the watermark, or when there is no watermark yet. */
  predicate Newer(m: Message, w: Option<Message>)
  {
    w.None? || m.id > w.value.id
  }

  /** `ch.history(after=w)`: the messages of `log` younger than the watermark, in log order. */
  function After(log: seq<Message>, w: Option<Message>): (r: seq<Message>)
    ensures |r| <= |log|
    ensures forall m :: m in r <==> m in log && Newer(m, w)
    ensures w.None? ==> r == log
  {
    if log == [] then []
    else if Newer(log[0], w) then [log[0]] + After(log[1..], w)
    else After(log[1..], w)
  }

  /**
   * The query keeps every newer entry of the log as often as the log holds
   * it and drops every other, so its length is the number of newer entries.
   */
  lemma {:induction false} AfterKeepsNewerEntries(log: seq<Message>, w: Option<Message>)
    ensures forall m :: multiset(After(log, w))[m] == if Newer(m, w) then multiset(log)[m] else 0
  {
    if log != [] {
      AfterKeepsNewerEntries(log[1..], w);
      assert log == [log[0]] + log[1..];
      assert multiset(log) == multiset{log[0]} + multiset(log[1..]);
    }
  }

  /** Message ids strictly increase along the log. */
  predicate Chronological(log: seq<Message>)
  {
    forall i, j :: 0 <= i < j < |log| ==> log[i].id < log[j].id
  }

  /** In a chronological log the messages after the watermark are a suffix of the log. */
  lemma {:induction false} AfterIsSuffix(log: seq<Message>, w: Option<Message>)
    requires Chronological(log)
    ensures exists k :: 0 <= k <= |log| && After(log, w) == log[k..]
  {
    if log == [] {
      assert After(log, w) == log[0..];
    } else if Newer(log[0], w) {
      forall m | m in log[1..] ensures Newer(m, w) {
        var i :| 0 <= i < |log[1..]| && log[1..][i] == m;
        assert log[0].id < log[i + 1].id;
      }
      AllNewer(log[1..], w);
      assert After(log[1..], w) == log[1..];
      assert After(log, w) == [log[0]] + log[1..];
      assert [log[0]] + log[1..] == log[0..];
    } else {
      AfterIsSuffix(log[1..], w);
      var k :| 0 <= k <= |log[1..]| && After(log[1..], w) == log[1..][k..];
      assert After(log, w) == log[k + 1..];
    }
  }

  lemma {:induction false} AllNewer(log: seq<Message>, w: Option<Message>)
    requires forall m :: m in log ==> Newer(m, w)
    ensures After(log, w) == log
  {
    if log != [] {
      AllNewer(log[1..], w);
    }
  }

  /**
   * One announcer iteration: when at least `every` messages are newer than
   * the watermark, the help text is sent and the sent message becomes the
   * watermark; otherwise the watermark stays.
   */
  function Step(every: int, helpMsg: string, w: Option<Message>, t: Tick): (r: Option<Message>)
  {
    if |After(t.log, w)| >= every then Some(Message(t.sentId, helpMsg)) else w
  }

  /** The watermark moves only by an announcement, and then to the help message just sent. */
  lemma StepMovesOnlyByAnnouncing(every: int, helpMsg: string, w: Option<Message>, t: Tick)
    ensures |After(t.log, w)| >= every ==> Step(every, helpMsg, w, t) == Some(Message(t.sentId, helpMsg))
    ensures |After(t.log, w)| < every ==> Step(every, helpMsg, w, t) == w
  {
  }

  /**
   * Right after an announcement nothing in the log counts as new any more,
   * as long as the platform gives the sent message an id above every
   * message already in the log.
   */
  lemma AnnouncingResetsCount(every: int, helpMsg: string, w: Option<Message>, t: Tick)
    requires |After(t.log, w)| >= every
    requires forall i :: 0 <= i < |t.log| ==> t.log[i].id < t.sentId
    ensures After(t.log, Step(every, helpMsg, w, t)) == []
  {
    NoneNewer(t.log, Step(every, helpMsg, w, t));
  }

  lemma {:induction false} NoneNewer(log: seq<Message>, w: Option<Message>)
    requires forall i :: 0 <= i < |log| ==> !Newer(log[i], w)
    ensures After(log, w) == []
  {
    if log != [] {
      assert !Newer(log[0], w);
      NoneNewer(log[1..], w);
    }
  }

  /** The announcer loop run over a finite sequence of ticks: the final watermark. */
  function Run(every: int, helpMsg: string, w: Option<Message>, ticks: seq<Tick>): (r: Option<Message>)
    decreases |ticks|
  {
    if ticks == [] then w
    else Run(every, helpMsg, Step(every, helpMsg, w, ticks[0]), ticks[1..])
  }

  /** Running one more tick is one more step on the watermark reached so far. */
  lemma {:induction false} RunOneMore(every: int, helpMsg: string, w: Option<Message>, ticks: seq<Tick>, t: Tick)
    ensures Run(every, helpMsg, w, ticks + [t]) == Step(every, helpMsg, Run(every, helpMsg, w, ticks), t)
    decreases |ticks|
  {
    if ticks == [] {
      assert [t][1..] == [];
    } else {
      assert (ticks + [t])[1..] == ticks[1..] + [t];
      RunOneMore(every, helpMsg, Step(every, helpMsg, w, ticks[0]), ticks[1..], t);
    }
  }

  /** While no tick sees `every` new messages, the watermark never moves. */
  lemma {:induction false} QuietTicksKeepWatermark(every: int, helpMsg: string, w: Option<Message>, ticks: seq<Tick>)
    requires forall i :: 0 <= i < |ticks| ==> |After(ticks[i].log, w)| < every
    ensures Run(every, helpMsg, w, ticks) == w
    decreases |ticks|
  {
    if ticks != [] {
      assert |After(ticks[0].log, w)| < every;
      QuietTicksKeepWatermark(every, helpMsg, w, ticks[1..]);
    }
  }

  /**
   * The first announcement happens on the first tick that sees at least
   * `every` messages since the watermark, and moves the watermark to that
   * tick's help message.
   */
  lemma FirstAnnouncement(every: int, helpMsg: string, w: Option<Message>, ticks: seq<Tick>, k: nat)
    requires k < |ticks|
    requires forall i :: 0 <= i < k ==> |After(ticks[i].log, w)| < every
    requires |After(ticks[k].log, w)| >= every
    ensures Run(every, helpMsg, w, ticks[..k]) == w
    ensures Run(every, helpMsg, w, ticks[..k + 1]) == Some(Message(ticks[k].sentId, helpMsg))
  {
    QuietTicksKeepWatermark(every, helpMsg, w, ticks[..k]);
    assert ticks[..k + 1] == ticks[..k] + [ticks[k]];
    RunOneMore(every, helpMsg, w, ticks[..k], ticks[k]);
  }

  /**
   * The iteration as written: `history()` is called with its default
   * limit, so the count it sees is at most HISTORY_LIMIT.
   */
  function StepAsWritten(every: int, helpMsg: string, w: Option<Message>, t: Tick): (r: Option<Message>)
  {
    var fetched := if |After(t.log, w)| <= HISTORY_LIMIT then |After(t.log, w)| else HISTORY_LIMIT;
    if fetched >= every then Some(Message(t.sentId, helpMsg)) else w
  }

  /** As written, a threshold above the history limit is never reached: the help is never re-sent. */
  lemma AsWrittenNeverAnnouncesAboveLimit(every: int, helpMsg: string, w: Option<Message>, t: Tick)
    requires every > HISTORY_LIMIT
    ensures StepAsWritten(every, helpMsg, w, t) == w
  {
  }

  /** With the default delay of 600 and 600 messages in the channel, only the corrected step announces. */
  lemma DefaultDelayNeverAnnounces()
    ensures var t := Tick(seq(600, i requires 0 <= i => Message(i + 1, "hi")), 601);
            && Step(DEFAULT_HELP_MSG_DELAY, HELP_MSG, None, t) == Some(Message(601, HELP_MSG))
            && StepAsWritten(DEFAULT_HELP_MSG_DELAY, HELP_MSG, None, t) == None
  {
  }
}
