/** Client code driving a freshly started bot through short conversations,
    with what the chats receive stated as postconditions. Each proves from
    the contracts of StatusBot alone. */
module Scenarios {

  import opened Wrappers
  import opened Cooldown
  import opened Probe
  import opened Commands
  import opened Monitor

  function Say(chatId: int, text: string): Update {
    Update(Some(IncomingMessage(chatId, text)))
  }

  /** Default settings, no earlier probe: the first /status is served; a
      second one five seconds later, after an unreachable verdict, is told to
      wait five seconds. */
  method RepeatedStatusWhileUnreachable(chat: int, t0: Instant, run: ProbeRun, later: ProbeRun)
    returns (replies: seq<Message>)
    requires !ClientOnline(run.outcome)
    ensures replies == [Message(chat, CHECKING_TEXT), Message(chat, OFFLINE_TEXT), Message(chat, WaitNotice(5))]
  {
    var bot := new StatusBot(DEFAULT_CONFIG);
    ghost var s0 := bot.State();
    CaseVariantRecognised("/status", Status);
    bot.HandleUpdate(Say(chat, "/status"), t0, run);
    assert bot.State() == StatusCheck(s0.(chatIds := {chat}), chat, t0, run);
    assert bot.lastPingTime == Some(t0) && bot.config == DEFAULT_CONFIG;
    assert bot.outbox == [Message(chat, CHECKING_TEXT), Message(chat, OFFLINE_TEXT)];
    CaseVariantRecognised("/Status", Status);
    SecondRequestInsideWindow(t0, t0 + 5 * NANOS_PER_SECOND, 10);
    assert WaitSeconds(t0, t0 + 5 * NANOS_PER_SECOND, 10) == 5;
    ghost var s1 := bot.State();
    bot.HandleUpdate(Say(chat, "/Status"), t0 + 5 * NANOS_PER_SECOND, later);
    assert bot.State() == s1.(outbox := s1.outbox + [Message(chat, WaitNotice(5))]);
    replies := bot.outbox;
  }

  /** The same exchange when the host answers after a three-second probe: the
      stamp moves to the probe's end, so the second request, five seconds
      after the first, must wait eight seconds rather than five. */
  method RepeatedStatusWhileReachable(chat: int, t0: Instant, run: ProbeRun, later: ProbeRun)
    returns (replies: seq<Message>)
    requires ClientOnline(run.outcome) && run.finishedAt == t0 + 3 * NANOS_PER_SECOND
    ensures replies == [Message(chat, CHECKING_TEXT), Message(chat, ONLINE_TEXT), Message(chat, WaitNotice(8))]
  {
    var bot := new StatusBot(DEFAULT_CONFIG);
    CaseVariantRecognised("/status", Status);
    bot.HandleUpdate(Say(chat, "/status"), t0, run);
    bot.HandleUpdate(Say(chat, "/status"), t0 + 5 * NANOS_PER_SECOND, later);
    replies := bot.outbox;
  }

  /** /disable_autoping is confirmed and saved, after which a tick of the
      running ticker neither probes nor sends anything. */
  method DisableThenTick(chat: int, t0: Instant, run: ProbeRun)
    returns (replies: seq<Message>, saved: seq<Config>, probed: seq<ProbeRequest>)
    ensures replies == [Message(chat, DISABLED_TEXT)]
    ensures saved == [DEFAULT_CONFIG.(enableAutoPing := false)]
    ensures probed == []
  {
    var bot := new StatusBot(DEFAULT_CONFIG);
    CaseVariantRecognised("/DISABLE_AUTOPING", DisableAutoPing);
    bot.HandleUpdate(Say(chat, "/DISABLE_AUTOPING"), t0, run);
    bot.Tick(run);
    replies, saved, probed := bot.outbox, bot.savedConfigs, bot.probes;
  }

  /** With auto-ping disabled at start-up the ticker is never started, so
      enabling it later is confirmed but no tick ever broadcasts. */
  method EnableWithoutTicker(chat: int, t0: Instant, run: ProbeRun)
    returns (replies: seq<Message>)
    ensures replies == [Message(chat, ENABLED_TEXT)]
  {
    var bot := new StatusBot(DEFAULT_CONFIG.(enableAutoPing := false));
    CaseVariantRecognised("/enable_autoping", EnableAutoPing);
    bot.HandleUpdate(Say(chat, "/enable_autoping"), t0, run);
    bot.Tick(run);
    replies := bot.outbox;
  }

  /** Two chats that wrote anything, even an unknown text, both receive the
      automatic status; a chat that wrote twice receives it once. */
  method TickReachesEverySubscriber(a: int, b: int, t0: Instant, run: ProbeRun)
    returns (broadcast: seq<Message>)
    requires a != b
    ensures |broadcast| == 2
    ensures forall m :: m in broadcast ==> m.text == AUTO_STATUS_PREFIX + StatusText(ClientOnline(run.outcome))
    ensures exists i :: 0 <= i < 2 && broadcast[i].chatId == a
    ensures exists i :: 0 <= i < 2 && broadcast[i].chatId == b
  {
    var bot := new StatusBot(DEFAULT_CONFIG);
    assert ParseCommand("hello") == Unrecognised;
    bot.HandleUpdate(Say(a, "hello"), t0, run);
    bot.HandleUpdate(Say(b, "hello"), t0, run);
    bot.HandleUpdate(Say(a, "hello"), t0, run);
    assert bot.outbox == [];
    assert bot.chatIds == {a, b};
    bot.Tick(run);
    broadcast := bot.outbox;
    assert broadcast == broadcast[0..];
    assert a in Recipients(broadcast) && b in Recipients(broadcast);
  }

  /** Small talk through the loop leaves the bot silent, with its cooldown,
      probes, log and saved configuration untouched. */
  method ChatterIsSilent(a: int, t0: Instant, run: ProbeRun)
    returns (sent: seq<Message>, saved: seq<Config>, probed: seq<ProbeRequest>, stamp: Option<Instant>)
    ensures sent == [] && saved == [] && probed == [] && stamp == None
  {
    var bot := new StatusBot(DEFAULT_CONFIG);
    assert ParseCommand("hello") == Unrecognised;
    var chatter := [Say(a, "hello")];
    UpdateStep(chatter, 0, DEFAULT_CONFIG);
    assert chatter[..0] == [] && chatter[..1] == chatter;
    bot.ProcessUpdates(chatter, [t0], [run]);
    sent, saved, probed, stamp := bot.outbox, bot.savedConfigs, bot.probes, bot.lastPingTime;
  }

  /** A disable and an enable through the loop are each confirmed to their
      sender, and each leaves one snapshot on disk, the later one carrying
      the final flag. */
  method SwitchesAreSaved(a: int, b: int, clock: seq<Instant>, runs: seq<ProbeRun>)
    returns (saved: seq<Config>, probed: seq<ProbeRequest>, replies: seq<Message>)
    requires |clock| == 2 && |runs| == 2
    ensures saved == [DEFAULT_CONFIG.(enableAutoPing := false), DEFAULT_CONFIG]
    ensures probed == []
    ensures replies == [Message(b, DISABLED_TEXT), Message(a, ENABLED_TEXT)]
  {
    var bot := new StatusBot(DEFAULT_CONFIG);
    CaseVariantRecognised("/disable_autoping", DisableAutoPing);
    CaseVariantRecognised("/Enable_AutoPing", EnableAutoPing);
    var switches := [Say(b, "/disable_autoping"), Say(a, "/Enable_AutoPing")];
    assert switches[..1] == [switches[0]] && switches[..2] == switches;
    assert clock[..1] == [clock[0]] && clock[..2] == clock && runs[..1] == [runs[0]] && runs[..2] == runs;
    ghost var s0 := bot.State();
    ghost var s1 := Step(s0, switches[0], clock[0], runs[0]);
    assert s1 == Switched(s0.(chatIds := {b}), b, false, DISABLED_TEXT);
    ghost var s2 := Step(s1, switches[1], clock[1], runs[1]);
    assert s2 == Switched(s1.(chatIds := {b, a}), a, true, ENABLED_TEXT);
    assert s2.savedConfigs == [DEFAULT_CONFIG.(enableAutoPing := false), DEFAULT_CONFIG] && s2.probes == [];
    assert switches[..1][..0] == [] && clock[..1][..0] == [] && runs[..1][..0] == [];
    assert Steps(s0, switches[..1], clock[..1], runs[..1]) == s1;
    bot.ProcessUpdates(switches, clock, runs);
    saved, probed, replies := bot.savedConfigs, bot.probes, bot.outbox;
  }

  /** The first /status through the loop is always served: its sender gets
      the "checking" message and then the verdict, and the stamp is left at
      the probe's end if the host answered, at the request otherwise. */
  method StatusThroughTheLoop(a: int, t0: Instant, run: ProbeRun)
    returns (stamp: Option<Instant>, replies: seq<Message>)
    ensures stamp == Some(if ClientOnline(run.outcome) then run.finishedAt else t0)
    ensures replies == [Message(a, CHECKING_TEXT), Message(a, StatusText(ClientOnline(run.outcome)))]
  {
    var bot := new StatusBot(DEFAULT_CONFIG);
    CaseVariantRecognised("/status", Status);
    var request := [Say(a, "/status")];
    bot.ProcessUpdates(request, [t0], [run]);
    stamp, replies := bot.lastPingTime, bot.outbox;
  }
}
