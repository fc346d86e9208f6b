/**
 * The Message record of models/Message.js: its fields, the status enum,
 * the defaults `new Message({...})` fills in, and what `save()` validates.
 */
module MessageModel {
  import opened Common

  datatype Status = Sent | Delivered | Read

  /**
   * A stored message. `text` holds the cipher token (or, after the scheduled
   * sweep, the plaintext). `read` is not a schema path: it stands for the
   * field that PUT /messages/read filters on and sets, and is None on every
   * record the routes create.
   */
  datatype Message = Message(
    sender: Id,
    recipient: Id,
    text: Option<string>,
    imageUrl: Option<string>,
    emoji: Option<string>,
    timestamp: int,
    createdAt: int,
    status: Status,
    scheduledAt: Option<int>,
    sent: bool,
    read: Option<bool>)

  /**
   * `new Message({sender, recipient, text, imageUrl, emoji, scheduledAt, sent: false})`
   * at time `now`: timestamp and createdAt default to now, status to "sent",
   * `sent` is false (given explicitly or by default).
   */
  function Create(sender: Id, recipient: Id, text: Option<string>, imageUrl: Option<string>,
                  emoji: Option<string>, scheduledAt: Option<int>, now: int): (m: Message)
    ensures m.sender == sender && m.recipient == recipient
    ensures m.text == text && m.imageUrl == imageUrl && m.emoji == emoji
    ensures m.createdAt == now && m.timestamp == now
    ensures m.status == Sent && !m.sent && m.scheduledAt == scheduledAt
    ensures m.read.None?
  {
    Message(sender, recipient, text, imageUrl, emoji, now, now, Sent, scheduledAt, false, None)
  }

  /**
   * What `save()` checks: sender, recipient and text are required, and a
   * required String rejects null and "". The status enum holds by construction.
   */
  predicate PassesValidation(m: Message)
  {
    m.sender != "" && m.recipient != "" && Truthy(m.text)
  }

  /** A record built without text never saves, whatever image or emoji it carries. */
  lemma TextlessRejected(sender: Id, recipient: Id, imageUrl: Option<string>, emoji: Option<string>,
                         scheduledAt: Option<int>, now: int)
    ensures !PassesValidation(Create(sender, recipient, None, imageUrl, emoji, scheduledAt, now))
  {
  }
}
