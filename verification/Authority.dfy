/**
 A value view of a Unix process group handle
 (internal/runner/processgroup_unix.go): the number it may signal and whether
 the authority to signal it was withdrawn.
 */
module Authority {
  import opened Kernel

  datatype Authority = Authority(pgid: int, withdrawn: bool)
  {
    // The guard every kill(2) of a group is behind.
    predicate MaySignal() { !withdrawn && pgid > 1 }

    function Withdraw(): Authority { this.(withdrawn := true) }

    function Close(): Authority { this.(pgid := 0) }
  }

  const Untracked := Authority(0, false)

  // A state of "empty" is reported for a closed handle, or after a membership
  // walk that found nobody running under the number.
  ghost predicate MayReportEmpty(a: Authority, t: Table)
  {
    a.pgid <= 1 || NoLiveHolder(t, a.pgid)
  }
}
