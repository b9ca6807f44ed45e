/**
 * The values that travel through the channel command engine: identifiers, message
 * types, decoded payloads, commands and the fingerprint that keys them.
 */
module ChannelTypes {
  import opened Wrappers

  // Identifiers and opaque byte strings are only ever compared.
  type ChannelID = int
  type MessageID = int
  type PubKey = int
  type Blob = int

  // Nanoseconds. Instants are unbounded; durations are the 64-bit type of the source.
  const MIN_INT64: int := -0x8000_0000_0000_0000
  const MAX_INT64: int := 0x7FFF_FFFF_FFFF_FFFF
  type Time = int
  type Duration = d: int | MIN_INT64 <= d <= MAX_INT64

  const MILLISECOND: int := 1_000_000
  const MINUTE: int := 60_000 * MILLISECOND
  const HOUR: int := 60 * MINUTE

  // The zero time.Time carried by saved deletions.
  const ZERO_TIME: Time := -62_135_596_800_000 * MILLISECOND

  type MessageType = t: nat | t < 0x1_0000
  const TEXT: MessageType := 1
  const ADMIN_TEXT: MessageType := 2
  const REACTION: MessageType := 3
  const INVITATION: MessageType := 5
  const DELETE: MessageType := 101
  const PINNED: MessageType := 102
  const MUTE: MessageType := 103
  const ADMIN_REPLAY: MessageType := 104

  /** What decoding a payload yields. The wire codec is taken to be a bijection, so two
      payloads are equal exactly when their decoded forms are. A target is a message ID
      followed by whatever bytes do not fit one (`excess`), which are part of the payload
      but are cut off when the ID is copied out. A muted user is None when the public key
      does not have the length of one. */
  datatype Content =
    | Plain(body: Blob)                                      // text, reactions, invitations
    | DeleteMsg(version: nat, target: MessageID, excess: Blob)
    | PinnedMsg(version: nat, target: MessageID, excess: Blob, undo: bool)
    | MuteMsg(version: nat, user: Option<PubKey>, undo: bool)
    | NoContent                                              // nil, or bytes that do not decode

  /** The sanitized payload: the same message with its undo flag set, so that doing and
      undoing one target are the same bytes. */
  function Sanitize(c: Content): (r: Content)
    requires c.PinnedMsg? || c.MuteMsg?
  {
    c.(undo := true)
  }

  /** A command's fingerprint. The hash is taken to be collision free on the string that
      is hashed, and by Fingerprint.HashInputInjective that string determines the three
      parts. */
  datatype Key = Key(channel: ChannelID, action: MessageType, payload: Content)

  /** A command with everything needed to replay it: what the command store keeps and
      what a trigger function is called with. */
  datatype Command = Command(
    channel: ChannelID,
    messageID: MessageID,
    messageType: MessageType,
    content: Content,
    encrypted: Blob,
    timestamp: Time,
    originating: Time,
    lease: Duration,
    originatingRound: nat,
    round: nat,
    fromAdmin: bool)

  function CommandKey(c: Command): Key {
    Key(c.channel, c.messageType, c.content)
  }

  /** Doing and undoing a target share a fingerprint, and distinct targets (or payload
      versions) never do. */
  lemma DoAndUndoShareKey(c: ChannelID, a: MessageType, x: Content, y: Content)
    requires x.PinnedMsg? || x.MuteMsg?
    requires y.PinnedMsg? || y.MuteMsg?
    ensures Key(c, a, Sanitize(x)) == Key(c, a, Sanitize(y))
       <==> y == x.(undo := y.undo)
  {
  }
}
