/** The bot's shared state and the operations that change it: the rate-limited
    status check, the probe-and-log step, the dispatch of incoming messages
    (which registers every sender as a subscriber), the auto-ping tick with its
    broadcast to all subscribers, and the update loop. The clock, the pinger,
    the local calendar and the log file's open are oracles whose readings are
    passed in; messages the bot sends are appended to an outbox. */
module Monitor {

  import opened Wrappers
  import opened TextFormat
  import opened Cooldown
  import opened Probe
  import opened Commands
  import opened LogRotation
  import Sets

  datatype Config = Config(
    vpnClientIp: string,
    logDir: string,
    pingInterval: int,
    logRetentionDays: int,
    telegramBotToken: string,
    pingTimeout: int,
    autoPingIntervalMinutes: int,
    enableAutoPing: bool)

  /** The settings written when no configuration file exists. */
  const DEFAULT_CONFIG := Config("10.9.0.2", "logs", 10, 5, "ВАШ_ТЕЛЕГРАМ_ТОКЕН", 10, 30, true)

  const CHECKING_TEXT := "Проверяю статус, подождите..."
  const ENABLED_TEXT := "Автоматический пинг включен."
  const DISABLED_TEXT := "Автоматический пинг отключен."
  const AUTO_STATUS_PREFIX := "Автоматический статус: "
  const WAIT_PREFIX := "Подождите "
  const WAIT_SUFFIX := " секунд перед следующей проверкой."

  /** A message sent to a chat. */
  datatype Message = Message(chatId: int, text: string)

  /** A status line appended to a log file. */
  datatype LogLine = LogLine(path: string, status: string)

  /** How the pinger was set up for one probe: target, packet count and
      per-probe timeout in nanoseconds. */
  datatype ProbeRequest = ProbeRequest(address: string, count: nat, timeout: int)

  /** What the outside world answers during one probe-and-log step: the
      pinger's outcome, the clock when it returned, the local date when the
      line is logged, and whether the day's log file could be opened. */
  datatype ProbeRun = ProbeRun(outcome: PingOutcome, finishedAt: Instant, logDay: Date, logOpened: bool)

  datatype IncomingMessage = IncomingMessage(chatId: int, text: string)

  /** A polled update; not every update carries a message. */
  datatype Update = Update(message: Option<IncomingMessage>)

  /** The notice sent to a requester who came back too early. */
  function WaitNotice(wait: int): string {
    WAIT_PREFIX + FormatInt(wait) + WAIT_SUFFIX
  }

  /** Reads the number of seconds back from a wait notice. */
  function ParseWaitNotice(text: string): Option<int> {
    if |text| >= |WAIT_PREFIX| + |WAIT_SUFFIX|
       && text[..|WAIT_PREFIX|] == WAIT_PREFIX
       && text[|text| - |WAIT_SUFFIX|..] == WAIT_SUFFIX
    then ParseInt(text[|WAIT_PREFIX|..|text| - |WAIT_SUFFIX|])
    else None
  }

  /** The notice carries the exact wait value, recoverable from its text. */
  lemma WaitNoticeRoundTrip(wait: int)
    ensures ParseWaitNotice(WaitNotice(wait)) == Some(wait)
  {
    var text := WaitNotice(wait);
    assert text[..|WAIT_PREFIX|] == WAIT_PREFIX;
    assert text[|text| - |WAIT_SUFFIX|..] == WAIT_SUFFIX;
    assert text[|WAIT_PREFIX|..|text| - |WAIT_SUFFIX|] == FormatInt(wait);
    FormatIntRoundTrip(wait);
  }

  function Recipients(sent: seq<Message>): (ids: seq<int>)
    ensures |ids| == |sent| && forall i :: 0 <= i < |sent| ==> ids[i] == sent[i].chatId
  {
    seq(|sent|, i requires 0 <= i < |sent| => sent[i].chatId)
  }

  /** `ids` lists every member of `s` exactly once. */
  ghost predicate Enumerates(ids: seq<int>, s: set<int>) {
    && (forall id :: id in ids <==> id in s)
    && (forall i, j :: 0 <= i < j < |ids| ==> ids[i] != ids[j])
  }

  /** `sent` delivers `text` once to every chat in `ids`, and to no other. */
  ghost predicate BroadcastOf(sent: seq<Message>, ids: set<int>, text: string) {
    Enumerates(Recipients(sent), ids) && forall i :: 0 <= i < |sent| ==> sent[i].text == text
  }

  /** A broadcast sends exactly as many messages as there are chats. */
  lemma {:induction false} EnumerationSize(ids: seq<int>, s: set<int>)
    requires Enumerates(ids, s)
    ensures |ids| == |s|
  {
    if ids == [] {
      assert forall x :: x !in s;
      assert s == {};
    } else {
      var last, init := ids[|ids| - 1], ids[..|ids| - 1];
      assert ids == init + [last];
      assert Enumerates(init, s - {last}) by {
        forall j | 0 <= j < |init|
          ensures init[j] != last
        {
          assert ids[j] != ids[|ids| - 1];
        }
      }
      EnumerationSize(init, s - {last});
    }
  }

  /** The effect of one update on the auto-ping flag. */
  function Toggle(update: Update, enabled: bool): bool {
    match update.message
    case None => enabled
    case Some(m) =>
      match ParseCommand(m.text)
      case EnableAutoPing => true
      case DisableAutoPing => false
      case _ => enabled
  }

  predicate IsToggle(update: Update) {
    update.message.Some? && ParseCommand(update.message.value.text) in {EnableAutoPing, DisableAutoPing}
  }

  /** The auto-ping flag after a sequence of updates. */
  function AutoPingAfter(updates: seq<Update>, enabled: bool): bool {
    if updates == [] then enabled
    else Toggle(updates[|updates| - 1], AutoPingAfter(updates[..|updates| - 1], enabled))
  }

  predicate SentBy(update: Update, chatId: int) {
    update.message.Some? && update.message.value.chatId == chatId
  }

  /** The chats that sent any message in a sequence of updates. */
  function ChatsOf(updates: seq<Update>): set<int> {
    if updates == [] then {}
    else
      var last := updates[|updates| - 1];
      ChatsOf(updates[..|updates| - 1]) + (if last.message.Some? then {last.message.value.chatId} else {})
  }

  predicate IsStatusRequest(update: Update) {
    update.message.Some? && ParseCommand(update.message.value.text) == Status
  }

  /** A message the bot answers: any text but an unrecognised one. */
  predicate IsCommand(update: Update) {
    update.message.Some? && ParseCommand(update.message.value.text) != Unrecognised
  }

  function StatusCount(updates: seq<Update>): nat {
    if updates == [] then 0
    else StatusCount(updates[..|updates| - 1]) + (if IsStatusRequest(updates[|updates| - 1]) then 1 else 0)
  }

  function CommandCount(updates: seq<Update>): nat {
    if updates == [] then 0
    else CommandCount(updates[..|updates| - 1]) + (if IsCommand(updates[|updates| - 1]) then 1 else 0)
  }

  /** The configurations written to disk while `updates` are handled from
      configuration `loaded`: one snapshot per enable or disable command,
      carrying the flag as it stands after that command. */
  function SavesOf(updates: seq<Update>, loaded: Config): seq<Config> {
    if updates == [] then []
    else
      SavesOf(updates[..|updates| - 1], loaded)
      + (if IsToggle(updates[|updates| - 1])
         then [loaded.(enableAutoPing := AutoPingAfter(updates, loaded.enableAutoPing))]
         else [])
  }

  /** How each fold over a run of updates grows when one more update is
      handled. */
  lemma UpdateStep(updates: seq<Update>, i: nat, loaded: Config)
    requires i < |updates|
    ensures var done, u := updates[..i + 1], updates[i];
            && StatusCount(done) == StatusCount(updates[..i]) + (if IsStatusRequest(u) then 1 else 0)
            && CommandCount(done) == CommandCount(updates[..i]) + (if IsCommand(u) then 1 else 0)
            && ChatsOf(done) == ChatsOf(updates[..i]) + (if u.message.Some? then {u.message.value.chatId} else {})
            && AutoPingAfter(done, loaded.enableAutoPing) == Toggle(u, AutoPingAfter(updates[..i], loaded.enableAutoPing))
            && SavesOf(done, loaded) == SavesOf(updates[..i], loaded)
                 + (if IsToggle(u) then [loaded.(enableAutoPing := AutoPingAfter(done, loaded.enableAutoPing))] else [])
  {
    assert updates[..i + 1][..i] == updates[..i];
  }

  /** How the pinger is set up under configuration `c`. */
  function ProbeRequestFor(c: Config): ProbeRequest {
    ProbeRequest(c.vpnClientIp, PING_COUNT, c.pingTimeout * NANOS_PER_SECOND)
  }

  /** The line a probe-and-log step appends under configuration `c`: none
      when the day's file cannot be opened. */
  function LogLinesFor(c: Config, status: string, run: ProbeRun): seq<LogLine> {
    if run.logOpened then [LogLine(JoinPath(c.logDir, LogFileName(run.logDay)), status)] else []
  }

  /** The bot's mutable state as a value. */
  datatype BotState = BotState(
    config: Config,
    stamp: Option<Instant>,
    chatIds: set<int>,
    outbox: seq<Message>,
    logLines: seq<LogLine>,
    probes: seq<ProbeRequest>,
    savedConfigs: seq<Config>)

  function Count(b: bool): nat {
    if b then 1 else 0
  }

  /** What handling one update does: its sender is registered; a switch sets
      the flag and saves the configuration, other settings never change; one
      reply to a command and a second one for a served status request, none
      to other texts, every reply to the update's sender; at most one probe
      and one log line, and only for a status request, which also leaves a
      stamp behind; a stamp once set stays set; nothing earlier is lost. */
  ghost predicate UpdateEffects(before: BotState, after: BotState, update: Update) {
    && after.chatIds == before.chatIds + (if update.message.Some? then {update.message.value.chatId} else {})
    && after.config == before.config.(enableAutoPing := Toggle(update, before.config.enableAutoPing))
    && after.savedConfigs == before.savedConfigs + (if IsToggle(update) then [after.config] else [])
    && before.outbox <= after.outbox
    && |before.outbox| + Count(IsCommand(update)) <= |after.outbox|
    && |after.outbox| <= |before.outbox| + Count(IsCommand(update)) + Count(IsStatusRequest(update))
    && (forall j :: |before.outbox| <= j < |after.outbox| ==>
          update.message.Some? && after.outbox[j].chatId == update.message.value.chatId)
    && before.probes <= after.probes && |after.probes| <= |before.probes| + Count(IsStatusRequest(update))
    && (forall j :: |before.probes| <= j < |after.probes| ==> after.probes[j] == ProbeRequestFor(before.config))
    && before.logLines <= after.logLines && |after.logLines| <= |before.logLines| + Count(IsStatusRequest(update))
    && (!IsStatusRequest(update) ==> after.stamp == before.stamp)
    && ((before.stamp.Some? || IsStatusRequest(update)) ==> after.stamp.Some?)
  }

  /** What handling a run of updates does: every sender is registered; the
      flag is as the switches left it, other settings never change, and one
      snapshot is saved per switch; one or two replies per command, so none
      at all without a command, each to a chat that wrote in the run; at
      most one probe of the configured target and one log line per status
      request, so no stamp, probe or log change without one, and a stamp
      after any; nothing earlier is lost. */
  ghost predicate RunEffects(before: BotState, after: BotState, updates: seq<Update>) {
    && after.chatIds == before.chatIds + ChatsOf(updates)
    && after.config == before.config.(enableAutoPing := AutoPingAfter(updates, before.config.enableAutoPing))
    && after.savedConfigs == before.savedConfigs + SavesOf(updates, before.config)
    && before.outbox <= after.outbox
    && |before.outbox| + CommandCount(updates) <= |after.outbox|
    && |after.outbox| <= |before.outbox| + CommandCount(updates) + StatusCount(updates)
    && (CommandCount(updates) == 0 ==> after.outbox == before.outbox)
    && (forall j :: |before.outbox| <= j < |after.outbox| ==> after.outbox[j].chatId in ChatsOf(updates))
    && before.probes <= after.probes && |after.probes| <= |before.probes| + StatusCount(updates)
    && (forall j :: |before.probes| <= j < |after.probes| ==> after.probes[j] == ProbeRequestFor(before.config))
    && before.logLines <= after.logLines && |after.logLines| <= |before.logLines| + StatusCount(updates)
    && (StatusCount(updates) == 0 ==>
          after.stamp == before.stamp && after.probes == before.probes && after.logLines == before.logLines)
    && ((before.stamp.Some? || StatusCount(updates) > 0) ==> after.stamp.Some?)
  }

  /** The effects of a run followed by those of one more update are the
      effects of the longer run. */
  lemma EffectsAccumulate(s0: BotState, s1: BotState, s2: BotState, updates: seq<Update>, i: nat)
    requires i < |updates|
    requires RunEffects(s0, s1, updates[..i]) && UpdateEffects(s1, s2, updates[i])
    ensures RunEffects(s0, s2, updates[..i + 1])
  {
    var done := updates[..i + 1];
    UpdateStep(updates, i, s0.config);
    assert done[..i] == updates[..i] && done[i] == updates[i];
    assert ProbeRequestFor(s1.config) == ProbeRequestFor(s0.config);
    forall j | |s0.outbox| <= j < |s2.outbox|
      ensures s2.outbox[j].chatId in ChatsOf(done)
    {
      if j < |s1.outbox| {
        assert s2.outbox[j] == s1.outbox[j];
      }
    }
    forall j | |s0.probes| <= j < |s2.probes|
      ensures s2.probes[j] == ProbeRequestFor(s0.config)
    {
      if j < |s1.probes| {
        assert s2.probes[j] == s1.probes[j];
      }
    }
    if CommandCount(done) == 0 {
      // A prefix as long as the whole is the whole.
      assert s2.outbox[..|s2.outbox|] == s2.outbox;
    }
    if StatusCount(done) == 0 {
      assert s2.probes[..|s2.probes|] == s2.probes && s2.logLines[..|s2.logLines|] == s2.logLines;
    }
  }

  /** The state after a `/status` request from `chatId` at `now`: either a
      wait notice and nothing else, or a stamp at `now`, one probe, the
      "checking" message followed by the verdict, and the verdict's log
      line; the stamp then moves to the probe's end if the host answered. */
  function StatusCheck(before: BotState, chatId: int, now: Instant, run: ProbeRun): BotState {
    var response := StatusText(ClientOnline(run.outcome));
    if Admitted(before.stamp, now, before.config.pingInterval) then
      before.(
        outbox := before.outbox + [Message(chatId, CHECKING_TEXT), Message(chatId, response)],
        probes := before.probes + [ProbeRequestFor(before.config)],
        stamp := Some(if ClientOnline(run.outcome) then run.finishedAt else now),
        logLines := before.logLines + LogLinesFor(before.config, response, run))
    else
      var wait := WaitSeconds(before.stamp.value, now, before.config.pingInterval);
      before.(outbox := before.outbox + [Message(chatId, WaitNotice(wait))])
  }

  /** The state after the flag is switched to `enabled`: the configuration
      saved and one confirmation sent to `chatId`. */
  function Switched(before: BotState, chatId: int, enabled: bool, confirmation: string): BotState {
    var config := before.config.(enableAutoPing := enabled);
    before.(
      config := config,
      savedConfigs := before.savedConfigs + [config],
      outbox := before.outbox + [Message(chatId, confirmation)])
  }

  /** The state after one update: a message-less update changes nothing;
      otherwise the sender is registered first, whatever the text, and then
      the lower-cased text selects the command. */
  function Step(before: BotState, update: Update, now: Instant, run: ProbeRun): BotState {
    match update.message
    case None => before
    case Some(m) =>
      var registered := before.(chatIds := before.chatIds + {m.chatId});
      match ParseCommand(m.text)
      case Status => StatusCheck(registered, m.chatId, now, run)
      case EnableAutoPing => Switched(registered, m.chatId, true, ENABLED_TEXT)
      case DisableAutoPing => Switched(registered, m.chatId, false, DISABLED_TEXT)
      case Unrecognised => registered
  }

  /** The state after a run of updates, update i handled at `clock[i]` with
      the readings `runs[i]`. */
  function Steps(before: BotState, updates: seq<Update>, clock: seq<Instant>, runs: seq<ProbeRun>): BotState
    requires |clock| == |updates| && |runs| == |updates|
  {
    if updates == [] then before
    else
      var n := |updates| - 1;
      Step(Steps(before, updates[..n], clock[..n], runs[..n]), updates[n], clock[n], runs[n])
  }

  /** Every step has the effect a run accounts for. */
  lemma StepEffects(before: BotState, update: Update, now: Instant, run: ProbeRun)
    ensures UpdateEffects(before, Step(before, update, now, run), update)
  {
  }

  /** A run of steps has the effects its counts and folds describe. */
  lemma {:induction false} StepsEffects(before: BotState, updates: seq<Update>, clock: seq<Instant>, runs: seq<ProbeRun>)
    requires |clock| == |updates| && |runs| == |updates|
    ensures RunEffects(before, Steps(before, updates, clock, runs), updates)
  {
    if updates != [] {
      var n := |updates| - 1;
      var mid := Steps(before, updates[..n], clock[..n], runs[..n]);
      StepsEffects(before, updates[..n], clock[..n], runs[..n]);
      StepEffects(mid, updates[n], clock[n], runs[n]);
      EffectsAccumulate(before, mid, Steps(before, updates, clock, runs), updates, n);
      assert updates[..n + 1] == updates;
    }
  }

  /** The file on disk never lags behind: the last configuration saved is
      the configuration in memory, and nothing but the flag ever differs
      from the one loaded. */
  lemma {:induction false} LastSaveIsCurrent(updates: seq<Update>, loaded: Config)
    requires SavesOf(updates, loaded) != []
    ensures var saves := SavesOf(updates, loaded);
            saves[|saves| - 1] == loaded.(enableAutoPing := AutoPingAfter(updates, loaded.enableAutoPing))
  {
    var init := updates[..|updates| - 1];
    var last := updates[|updates| - 1];
    if !IsToggle(last) {
      LastSaveIsCurrent(init, loaded);
      assert Toggle(last, AutoPingAfter(init, loaded.enableAutoPing)) == AutoPingAfter(init, loaded.enableAutoPing);
    }
  }

  lemma {:induction false} ChatsOfExactly(updates: seq<Update>, chatId: int)
    ensures chatId in ChatsOf(updates) <==> exists i :: 0 <= i < |updates| && SentBy(updates[i], chatId)
  {
    if updates != [] {
      var init := updates[..|updates| - 1];
      ChatsOfExactly(init, chatId);
      if exists i :: 0 <= i < |init| && SentBy(init[i], chatId) {
        var i :| 0 <= i < |init| && SentBy(init[i], chatId);
        assert updates[i] == init[i];
      }
    }
  }

  lemma {:induction false} AutoPingAfterAppend(first: seq<Update>, second: seq<Update>, enabled: bool)
    ensures AutoPingAfter(first + second, enabled) == AutoPingAfter(second, AutoPingAfter(first, enabled))
  {
    if second == [] {
      assert first + second == first;
    } else {
      var init := second[..|second| - 1];
      AutoPingAfterAppend(first, init, enabled);
      assert (first + second)[..|first + second| - 1] == first + init;
    }
  }

  /** Status requests, unrecognised texts and message-less updates leave the
      flag alone. */
  lemma {:induction false} AutoPingAfterNoToggle(updates: seq<Update>, enabled: bool)
    requires forall i :: 0 <= i < |updates| ==> !IsToggle(updates[i])
    ensures AutoPingAfter(updates, enabled) == enabled
  {
    if updates != [] {
      AutoPingAfterNoToggle(updates[..|updates| - 1], enabled);
    }
  }

  /** The last enable or disable command decides the flag. */
  lemma LastToggleWins(updates: seq<Update>, k: int, enabled: bool)
    requires 0 <= k < |updates| && IsToggle(updates[k])
    requires forall i :: k < i < |updates| ==> !IsToggle(updates[i])
    ensures AutoPingAfter(updates, enabled) == (ParseCommand(updates[k].message.value.text) == EnableAutoPing)
  {
    var head, tail := updates[..k + 1], updates[k + 1..];
    assert updates == head + tail;
    AutoPingAfterAppend(head, tail, enabled);
    AutoPingAfterNoToggle(tail, AutoPingAfter(head, enabled));
    assert head[..|head| - 1] == updates[..k];
  }

  class StatusBot {
    var config: Config
    /** None stands for the zero time: no probe was ever admitted. */
    var lastPingTime: Option<Instant>
    var chatIds: set<int>
    var outbox: seq<Message>
    var logLines: seq<LogLine>
    var probes: seq<ProbeRequest>
    var savedConfigs: seq<Config>
    /** Whether the auto-ping ticker was started; decided once, at start-up. */
    const schedulerRunning: bool

    /** Every message the bot has sent went to a registered chat. */
    ghost predicate Valid()
      reads this
    {
      forall m :: m in outbox ==> m.chatId in chatIds
    }

    /** Start-up with the loaded configuration: nothing stamped, no
        subscribers, and the ticker running only if auto-ping is enabled
        at this moment. */
    constructor (loaded: Config)
      ensures Valid()
      ensures config == loaded && lastPingTime == None && chatIds == {}
      ensures outbox == [] && logLines == [] && probes == [] && savedConfigs == []
      ensures schedulerRunning == loaded.enableAutoPing
    {
      config := loaded;
      lastPingTime := None;
      chatIds := {};
      outbox := [];
      logLines := [];
      probes := [];
      savedConfigs := [];
      schedulerRunning := loaded.enableAutoPing;
    }

    function State(): BotState
      reads this
    {
      BotState(config, lastPingTime, chatIds, outbox, logLines, probes, savedConfigs)
    }



    method LogStatus(status: string, day: Date, fileOpened: bool)
      requires Valid()
      modifies this`logLines
      ensures Valid()
      ensures logLines == old(logLines) + (if fileOpened then [LogLine(JoinPath(config.logDir, LogFileName(day)), status)] else [])
    {
      if !fileOpened {
        return;
      }
      var path := JoinPath(config.logDir, LogFileName(day));
      logLines := logLines + [LogLine(path, status)];
    }

    method SaveConfig()
      requires Valid()
      modifies this`savedConfigs
      ensures Valid()
      ensures savedConfigs == old(savedConfigs) + [config]
    {
      savedConfigs := savedConfigs + [config];
    }

    /** Probe once, log the verdict and return its message. The stamp moves
        to the probe's end only when the host answered. */
    method HandleStatusCommand(run: ProbeRun) returns (response: string)
      requires Valid()
      modifies this`lastPingTime, this`logLines, this`probes
      ensures Valid()
      ensures response == StatusText(ClientOnline(run.outcome))
      ensures probes == old(probes) + [ProbeRequestFor(config)]
      ensures lastPingTime == if ClientOnline(run.outcome) then Some(run.finishedAt) else old(lastPingTime)
      ensures logLines == old(logLines) + LogLinesFor(config, response, run)
    {
      probes := probes + [ProbeRequestFor(config)];
      if ClientOnline(run.outcome) {
        lastPingTime := Some(run.finishedAt);
        LogStatus(ONLINE_TEXT, run.logDay, run.logOpened);
        return ONLINE_TEXT;
      }
      LogStatus(OFFLINE_TEXT, run.logDay, run.logOpened);
      return OFFLINE_TEXT;
    }


    method HandleStatusCommandAsync(chatId: int, now: Instant, run: ProbeRun)
      requires Valid() && chatId in chatIds
      modifies this`lastPingTime, this`logLines, this`probes, this`outbox
      ensures Valid()
      ensures State() == StatusCheck(old(State()), chatId, now, run)
    {
      if lastPingTime.Some? && now - lastPingTime.value < config.pingInterval * NANOS_PER_SECOND {
        var waitTime := config.pingInterval - WholeSeconds(now - lastPingTime.value);
        outbox := outbox + [Message(chatId, WaitNotice(waitTime))];
        return;
      }
      lastPingTime := Some(now);
      outbox := outbox + [Message(chatId, CHECKING_TEXT)];
      var response := HandleStatusCommand(run);
      outbox := outbox + [Message(chatId, response)];
    }




    /** One pass of the update loop's body. */
    method HandleUpdate(update: Update, now: Instant, run: ProbeRun)
      requires Valid()
      modifies this
      ensures Valid()
      ensures update.message.None? ==> unchanged(this)
      ensures State() == Step(old(State()), update, now, run)
      ensures UpdateEffects(old(State()), State(), update)
    {
      ghost var start := State();
      if update.message.None? {
        StepEffects(start, update, now, run);
        return;
      }
      var chatId := update.message.value.chatId;
      chatIds := chatIds + {chatId};
      match ParseCommand(update.message.value.text) {
      case Status =>
        HandleStatusCommandAsync(chatId, now, run);
      case EnableAutoPing =>
        config := config.(enableAutoPing := true);
        SaveConfig();
        outbox := outbox + [Message(chatId, ENABLED_TEXT)];
      case DisableAutoPing =>
        config := config.(enableAutoPing := false);
        SaveConfig();
        outbox := outbox + [Message(chatId, DISABLED_TEXT)];
      case Unrecognised =>
      }
      StepEffects(start, update, now, run);
    }

    /** The update loop over a finite run of updates; `clock[i]` and `runs[i]`
        are the oracle readings while update i is handled. */
    method ProcessUpdates(updates: seq<Update>, clock: seq<Instant>, runs: seq<ProbeRun>)
      requires Valid() && |clock| == |updates| && |runs| == |updates|
      modifies this
      ensures Valid()
      ensures State() == Steps(old(State()), updates, clock, runs)
      ensures RunEffects(old(State()), State(), updates)
    {
      ghost var start := State();
      var i := 0;
      while i < |updates|
        invariant 0 <= i <= |updates|
        invariant Valid()
        invariant State() == Steps(start, updates[..i], clock[..i], runs[..i])
      {
        HandleUpdate(updates[i], clock[i], runs[i]);
        assert updates[..i + 1][..i] == updates[..i];
        assert clock[..i + 1][..i] == clock[..i] && runs[..i + 1][..i] == runs[..i];
        i := i + 1;
      }
      assert updates[..|updates|] == updates && clock[..|clock|] == clock && runs[..|runs|] == runs;
      StepsEffects(start, updates, clock, runs);
    }

    /** Send `text` to every registered chat, once each, in no particular
        order. */
    method Broadcast(text: string)
      requires Valid()
      modifies this`outbox
      ensures Valid()
      ensures |outbox| == |old(outbox)| + |chatIds| && outbox[..|old(outbox)|] == old(outbox)
      ensures BroadcastOf(outbox[|old(outbox)|..], chatIds, text)
    {
      ghost var before := outbox;
      var pending := chatIds;
      while pending != {}
        invariant pending <= chatIds
        invariant Valid()
        invariant |outbox| >= |before| && outbox[..|before|] == before
        invariant BroadcastOf(outbox[|before|..], chatIds - pending, text)
        decreases pending
      {
        // A named witness, so that the choice below is justified without search.
        ghost var member := Sets.MemberOf(pending);
        var chatId :| chatId in pending;
        ghost var sent := outbox[|before|..];
        outbox := outbox + [Message(chatId, text)];
        assert outbox[|before|..] == sent + [Message(chatId, text)];
        assert Recipients(outbox[|before|..]) == Recipients(sent) + [chatId];
        pending := pending - {chatId};
      }
      EnumerationSize(Recipients(outbox[|before|..]), chatIds);
    }

    /** One firing of the auto-ping ticker. With the ticker running and the
        flag on, it probes without consulting the cooldown gate and sends the
        result, prefixed, to every registered chat; otherwise nothing
        happens. */
    method Tick(run: ProbeRun)
      requires Valid()
      modifies this`lastPingTime, this`logLines, this`probes, this`outbox
      ensures Valid()
      ensures !(schedulerRunning && config.enableAutoPing) ==> unchanged(this)
      ensures schedulerRunning && config.enableAutoPing ==>
                var response := StatusText(ClientOnline(run.outcome));
                && lastPingTime == (if ClientOnline(run.outcome) then Some(run.finishedAt) else old(lastPingTime))
                && probes == old(probes) + [ProbeRequestFor(config)]
                && logLines == old(logLines) + LogLinesFor(config, response, run)
                && |outbox| == |old(outbox)| + |chatIds| && outbox[..|old(outbox)|] == old(outbox)
                && BroadcastOf(outbox[|old(outbox)|..], chatIds, AUTO_STATUS_PREFIX + response)
    {
      if !schedulerRunning || !config.enableAutoPing {
        return;
      }
      var response := HandleStatusCommand(run);
      Broadcast(AUTO_STATUS_PREFIX + response);
    }
  }
}
