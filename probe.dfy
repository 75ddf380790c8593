/** The reachability verdict. The ICMP pinger is an oracle: it either fails
    (it could not be created, or running it returned an error) or reports
    its packet statistics. */
module Probe {

  /** Echo requests sent per probe. */
  const PING_COUNT: nat := 3

  const ONLINE_TEXT := "Клиент в сети."
  const OFFLINE_TEXT := "Клиент не в сети."

  datatype PingError = CreateFailed | RunFailed

  datatype Statistics = Statistics(packetsSent: nat, packetsRecv: nat)

  datatype PingOutcome = Failed(error: PingError) | Finished(stats: Statistics)

  /** Any failure to create or run the pinger counts as unreachable; a run
      that finished is reachable iff at least one reply came back. */
  function ClientOnline(outcome: PingOutcome): (online: bool)
    ensures outcome.Failed? ==> !online
    ensures outcome.Finished? ==> (online <==> outcome.stats.packetsRecv > 0)
  {
    outcome.Finished? && outcome.stats.packetsRecv > 0
  }

  /** The message replied and logged for a verdict; the two messages differ,
      so the message alone tells the verdict. */
  function StatusText(online: bool): (text: string)
    ensures text == ONLINE_TEXT <==> online
    ensures text == OFFLINE_TEXT <==> !online
  {
    if online then ONLINE_TEXT else OFFLINE_TEXT
  }
}
