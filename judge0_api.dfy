/**
 * What Judge0 sends back for a submission made with `wait=true`, as both
 * the grading route (app/api/execute/route.ts) and the client helper
 * (lib/judge0.ts) read it. An absent or `null` field is None.
 */
module Judge0Api {
  import opened Wrappers

  datatype Status = Status(id: Option<int>, description: Option<string>)

  datatype Judge0Reply = Judge0Reply(
    status: Option<Status>,
    stdout: Option<string>,
    stderr: Option<string>,
    compileOutput: Option<string>,
    message: Option<string>,
    time: Option<string>,
    memory: Option<int>)

  /** The status id, where the reply has one. */
  function StatusId(reply: Judge0Reply): Option<int> {
    if reply.status.Some? then reply.status.value.id else None
  }

  /** `a || b` where `a` is an optional string: an absent or empty `a` gives `b`. */
  function Or(a: Option<string>, b: string): (r: string)
    ensures r == b || (a.Some? && r == a.value)
    ensures r == [] ==> b == []
  {
    if a.Some? && a.value != "" then a.value else b
  }

  /** `${x}` of an optional string: an absent one reads `undefined`. */
  function Shown(a: Option<string>): string {
    if a.Some? then a.value else "undefined"
  }
}
