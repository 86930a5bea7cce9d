/** The status hub's connection directory: one `ConnectionInfo` record per
    connection id, shared by the chat hub through two static entry points. */
module Directory {
  import opened Wrappers

  /** A connection id, assigned by the transport and stable for the lifetime of the connection. */
  type Id = string

  /** An opaque clock reading; every operation that reads the clock takes it as a parameter. */
  type Time = int

  /** What is stored when the user agent or the remote address cannot be read. */
  const Unknown: string := "Unknown"

  /** One connection as the directory records it. `username` is null until a chat
      identity registers; the two flags say which hub(s) the record was made for. */
  datatype ConnectionInfo = ConnectionInfo(
    connectionId: Id,
    username: Option<string>,
    connectedAt: Time,
    userAgent: string,
    remoteIpAddress: string,
    isChatConnection: bool,
    isStatusMonitor: bool)

  /** What the status hub can read of the HTTP request behind a connection:
      the rendered `User-Agent` header ("" when the header is absent) and the
      rendered remote address, which may be null. */
  datatype HttpContext = HttpContext(userAgentHeader: string, remoteIpAddress: Option<string>)

  type Directory = map<Id, ConnectionInfo>

  /** Every record is filed under its own connection id. */
  ghost predicate WellKeyed(d: Directory) {
    forall id | id in d :: d[id].connectionId == id
  }

  /** The record a status-hub connection gets: a status monitor without a chat
      identity, stamped with the connect time. The user agent falls back to
      "Unknown" only when there is no HTTP context at all; the remote address
      also falls back when the context has none. */
  function StatusRecord(id: Id, http: Option<HttpContext>, now: Time): (r: ConnectionInfo)
    ensures r.connectionId == id && r.connectedAt == now
    ensures r.isStatusMonitor && !r.isChatConnection && r.username.None?
    ensures http.None? ==> r.userAgent == Unknown && r.remoteIpAddress == Unknown
    ensures http.Some? ==> r.userAgent == http.value.userAgentHeader
    ensures http.Some? && http.value.remoteIpAddress.Some? ==> r.remoteIpAddress == http.value.remoteIpAddress.value
    ensures http.Some? && http.value.remoteIpAddress.None? ==> r.remoteIpAddress == Unknown
  {
    var userAgent := if http.Some? then http.value.userAgentHeader else Unknown;
    var remote :=
      if http.Some? && http.value.remoteIpAddress.Some? then http.value.remoteIpAddress.value else Unknown;
    ConnectionInfo(id, None, now, userAgent, remote, false, true)
  }

  /** The record `RegisterChatConnection` creates for an id the directory does not know. */
  function ChatRecord(id: Id, username: string, now: Time): (r: ConnectionInfo)
    ensures r.connectionId == id && r.connectedAt == now && r.username == Some(username)
    ensures r.isChatConnection && !r.isStatusMonitor
    ensures r.userAgent == "" && r.remoteIpAddress == ""
  {
    ConnectionInfo(id, Some(username), now, "", "", true, false)
  }

  /** Status-hub connect: the record at `id` is replaced wholesale by a fresh
      status-monitor record, whatever was stored there before. */
  function AddStatusMonitor(d: Directory, id: Id, http: Option<HttpContext>, now: Time): (d': Directory)
    ensures d'.Keys == d.Keys + {id}
    ensures d'[id].isStatusMonitor && !d'[id].isChatConnection && d'[id].username.None?
    ensures d'[id].connectionId == id && d'[id].connectedAt == now
    ensures forall k | k in d && k != id :: d'[k] == d[k]
    ensures WellKeyed(d) ==> WellKeyed(d')
  {
    d[id := StatusRecord(id, http, now)]
  }

  /** `_connections.Remove(id)`: deletes that key only; an absent id is a no-op. */
  function Remove(d: Directory, id: Id): (d': Directory)
    ensures d'.Keys == d.Keys - {id}
    ensures forall k | k in d' :: d'[k] == d[k]
    ensures id !in d ==> d' == d
    ensures WellKeyed(d) ==> WellKeyed(d')
  {
    d - {id}
  }

  /** `RegisterChatConnection`: an existing record gains the username and the
      chat flag and keeps every other field; an unknown id gets a new chat-only
      record. No other entry changes. */
  function RegisterChatConnection(d: Directory, id: Id, username: string, now: Time): (d': Directory)
    ensures d'.Keys == d.Keys + {id}
    ensures forall k | k in d && k != id :: d'[k] == d[k]
    ensures d'[id].username == Some(username) && d'[id].isChatConnection
    ensures id in d ==>
      && d'[id].connectionId == d[id].connectionId
      && d'[id].connectedAt == d[id].connectedAt
      && d'[id].userAgent == d[id].userAgent
      && d'[id].remoteIpAddress == d[id].remoteIpAddress
      && d'[id].isStatusMonitor == d[id].isStatusMonitor
    ensures id !in d ==> |d'| == |d| + 1 && d'[id] == ChatRecord(id, username, now)
    ensures WellKeyed(d) ==> WellKeyed(d')
  {
    if id in d then
      d[id := d[id].(username := Some(username), isChatConnection := true)]
    else
      d[id := ChatRecord(id, username, now)]
  }

  /** Removing an id that was absent before a status connect restores the directory. */
  lemma RemoveUndoesAddStatusMonitor(d: Directory, id: Id, http: Option<HttpContext>, now: Time)
    requires id !in d
    ensures Remove(AddStatusMonitor(d, id, http, now), id) == d
  {
  }

  /** Removing an id that was absent before a chat registration restores the directory. */
  lemma RemoveUndoesRegister(d: Directory, id: Id, username: string, now: Time)
    requires id !in d
    ensures Remove(RegisterChatConnection(d, id, username, now), id) == d
  {
  }

  /** Registering the same name twice is the same as registering it once, whatever the clock says. */
  lemma RegisterIdempotent(d: Directory, id: Id, username: string, t0: Time, t1: Time)
    ensures RegisterChatConnection(RegisterChatConnection(d, id, username, t0), id, username, t1)
         == RegisterChatConnection(d, id, username, t0)
  {
  }

  /** A status connect after a chat registration on the same id discards the
      chat username and the chat flag: the write is an overwrite, not a merge. */
  lemma AddStatusMonitorDiscardsChatIdentity(d: Directory, id: Id, username: string, t0: Time,
                                             http: Option<HttpContext>, t1: Time)
    ensures RegisterChatConnection(d, id, username, t0)[id].username == Some(username)
    ensures AddStatusMonitor(RegisterChatConnection(d, id, username, t0), id, http, t1)[id].username.None?
    ensures !AddStatusMonitor(RegisterChatConnection(d, id, username, t0), id, http, t1)[id].isChatConnection
  {
  }
}
