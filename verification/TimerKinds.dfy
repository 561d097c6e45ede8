/** The kinds and statuses a timer record may carry, shared by every module about timers. */
module TimerKinds {
  datatype TimerKind = Sleep | Poll | ActivityRetry

  datatype TimerStatus = UnspecifiedStatus | Scheduled | Fired | Canceled
}
