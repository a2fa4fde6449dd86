/**
 * The operating system's process table, as far as the coordinator can see it: a pid names at most one
 * process, a process has a birth identity and a process group, and a group exists while it has a member.
 */
module ProcessTable {
  datatype Role =
    | LauncherRole(token: string)     // one public invocation
    | ControllerRole(token: string)   // inert group leader of one execution
    | WorkerRole(token: string)       // supervisor or descendant: Git-capable
    | Unrelated

  datatype Process = Process(identity: string, group: int, role: Role)

  type Table = map<int, Process>

  predicate GroupExists(t: Table, group: int) {
    exists p :: p in t && t[p].group == group
  }

  /** The process born as `identity` on `pid` is still there. Neither half names a process by itself. */
  predicate SameProcess(t: Table, pid: int, identity: string) {
    pid in t && t[pid].identity == identity
  }

  /** The process runs inside the boundary of this execution. */
  predicate BelongsTo(p: Process, token: string) {
    (p.role.ControllerRole? || p.role.WorkerRole?) && p.role.token == token
  }

  /** No process of the execution is left. */
  predicate BoundaryGone(t: Table, token: string) {
    forall p :: p in t ==> !BelongsTo(t[p], token)
  }

  predicate GitCapable(t: Table, token: string) {
    exists p :: p in t && t[p].role == WorkerRole(token)
  }

  /** A kernel never hands out a pid that still names a process or a process group. */
  predicate PidFree(t: Table, pid: int) {
    pid > 0 && pid !in t && !GroupExists(t, pid)
  }
}
