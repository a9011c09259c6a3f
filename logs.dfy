/**
 * The log fan-out of `createMcpServer`: one handler per server, subscribed to
 * the process-wide log emitter, forwarding an entry to the session's MCP
 * client only when the entry belongs to the session's organisation.
 */
module LogFanout {
  import opened Wrappers

  /** An emitted log entry; `orgId` is absent for entries outside any organisation. */
  datatype LogEntry = LogEntry(orgId: Option<string>, level: string, message: string)

  /** The logging notification sent to the client. */
  datatype LoggingMessage = LoggingMessage(level: string, data: string, logger: string)

  /** An organisation id that is absent or empty, both falsy in JavaScript. */
  predicate Falsy(orgId: Option<string>) {
    orgId.None? || orgId.value == ""
  }

  /** The organisation an id stands for, absent and empty ids being the same default tenant. */
  function Tenant(orgId: Option<string>): Option<string> {
    if Falsy(orgId) then None else orgId
  }

  /**
   * The filter `logEntry.orgId === orgId || (!logEntry.orgId && !orgId)`: an
   * entry goes to a session exactly when both name the same tenant, the
   * default tenant matching only itself.
   */
  predicate ShouldForward(entryOrg: Option<string>, sessionOrg: Option<string>)
    ensures ShouldForward(entryOrg, sessionOrg) <==> Tenant(entryOrg) == Tenant(sessionOrg)
  {
    entryOrg == sessionOrg || (Falsy(entryOrg) && Falsy(sessionOrg))
  }

  function LowerChar(c: char): char {
    if 'A' <= c <= 'Z' then (c as int + 32) as char else c
  }

  /** `toLowerCase` on the ASCII letters. */
  function ToLower(s: string): (r: string)
    ensures |r| == |s|
    ensures forall i :: 0 <= i < |r| ==> !('A' <= r[i] <= 'Z')
    ensures forall i :: 0 <= i < |s| && !('A' <= s[i] <= 'Z') ==> r[i] == s[i]
    ensures forall i :: 0 <= i < |s| && 'A' <= s[i] <= 'Z' ==> r[i] as int == s[i] as int + 32
  {
    seq(|s|, i requires 0 <= i < |s| => LowerChar(s[i]))
  }

  /** The notification an entry becomes: lower-cased level, the message as data, a fixed logger name. */
  function Notification(entry: LogEntry): (n: LoggingMessage)
    ensures n.level == ToLower(entry.level)
    ensures n.data == entry.message && n.logger == "superglue-server"
    ensures |n.level| == |entry.level| && forall i :: 0 <= i < |n.level| ==> !('A' <= n.level[i] <= 'Z')
  {
    LoggingMessage(ToLower(entry.level), entry.message, "superglue-server")
  }

  /** One server's subscription to the log emitter, and the notifications it has sent. */
  class LogSubscription {
    const orgId: Option<string>
    var subscribed: bool
    var sent: seq<LoggingMessage>

    /** `logEmitter.on('log', logHandler)` for a session whose token resolved to `orgId`. */
    constructor (orgId: Option<string>)
      ensures this.orgId == orgId && subscribed && sent == []
    {
      this.orgId := orgId;
      subscribed := true;
      sent := [];
    }

    /**
     * One emission of `entry`: while subscribed, a matching entry is sent
     * exactly once and a mismatching one not at all.
     */
    method OnLog(entry: LogEntry)
      modifies this
      ensures subscribed == old(subscribed)
      ensures sent == old(sent) + (if subscribed && ShouldForward(entry.orgId, orgId)
                                   then [Notification(entry)] else [])
    {
      if subscribed && (entry.orgId == orgId || (Falsy(entry.orgId) && Falsy(orgId))) {
        sent := sent + [Notification(entry)];
      }
    }

    /**
     * `removeListener`, run by both `onerror` and `onclose`: afterwards no
     * entry is forwarded; removing an already removed handler changes nothing.
     */
    method Unsubscribe()
      modifies this
      ensures !subscribed && sent == old(sent)
    {
      subscribed := false;
    }
  }
}
