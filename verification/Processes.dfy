/** Child processes as the operating system sees them, and the handle an agent context keeps on the last one. */
module Processes {

  /**
   The children one context has started: those still alive, those of them that push to an RTMP
   server, and the next process id. Ids are never reused within a run.
   */
  datatype Os = Os(live: set<nat>, pushing: set<nat>, next: nat) {
    ghost predicate Valid() {
      && 0 < next
      && pushing <= live
      && forall p :: p in live ==> 0 < p < next
    }

    function Spawn(push: bool): Os {
      Os(live + {next}, if push then pushing + {next} else pushing, next + 1)
    }

    /** The process ends: by itself, or because it was terminated or killed and then waited for. */
    function Gone(pid: nat): Os { Os(live - {pid}, pushing - {pid}, next) }
  }

  const BOOT := Os({}, {}, 1)

  /** platform_proc_t: pid 0 means no child. */
  datatype Handle = Handle(pid: nat, exited: bool)

  const NO_CHILD := Handle(0, false)

  /** plat_proc_alive: its answer. */
  predicate Alive(h: Handle, os: Os) { !h.exited && h.pid > 0 && h.pid in os.live }

  /** plat_proc_alive: its effect on the handle. */
  function Polled(h: Handle, os: Os): Handle {
    if h.pid > 0 && h.pid !in os.live then Handle(h.pid, true) else h
  }

  /** The only child that can be alive is the one the handle names. */
  ghost predicate Tracked(h: Handle, os: Os) { forall p :: p in os.live ==> p == h.pid && !h.exited }
}
