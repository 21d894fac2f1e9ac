/** What the relay stores, and the ceilings on it (server.knot). */
module RelayState {
  type Key = string
  type Blob = string
  type Server = string

  const MESSAGE_MAX_AGE := 2592000000
  const MAX_POLL_EVENTS: nat := 50
  const MAX_FORWARDS_PER_SERVER: nat := 2000
  const MAX_FORWARDS_TOTAL: nat := 50000
  const MAX_FORWARD_RETRIES := 10
  const MAX_MESSAGES_PER_RECIPIENT: nat := 10000
  const MAX_MESSAGES_TOTAL: nat := 1000000

  /** A mailbox row. `receivedAt` is the sequence number that orders poll cursors. */
  datatype Message = Message(toKey: Key, blob: Blob, receivedAt: int, deliveredTo: set<Server>)

  /** A message queued for delivery to a peer relay. */
  datatype Forward = Forward(toServer: Server, toKey: Key, blob: Blob, retries: int)

  /** The mailbox, its sequence counter, and the outbox of forwards. */
  datatype State = State(messages: set<Message>, counter: int, forwards: set<Forward>)

  function Max(a: int, b: int): int { if a < b then b else a }
  function Min(a: int, b: int): int { if a < b then a else b }

  predicate Newer(a: Message, b: Message) { a.receivedAt >= b.receivedAt }
  predicate Older(a: Message, b: Message) { a.receivedAt <= b.receivedAt }

  /** The mailbox of one recipient. */
  function RowsFor(msgs: set<Message>, k: Key): set<Message> {
    set m | m in msgs && m.toKey == k
  }

  predicate Held(msgs: set<Message>, k: Key, b: Blob) {
    exists m :: m in msgs && m.toKey == k && m.blob == b
  }

  predicate Matches(f: Forward, k: Key, b: Blob, server: Server) {
    f.toKey == k && f.blob == b && f.toServer == server
  }

  /** The same stored row, whatever peers have accepted it in the meantime. */
  predicate SameRow(a: Message, b: Message) {
    a.toKey == b.toKey && a.blob == b.blob && a.receivedAt == b.receivedAt
  }
}
