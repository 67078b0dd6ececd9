/** Chat messages (internal/chat/message.go) and the frames that carry them.
    A message is an immutable value; its timestamp is an abstract instant
    supplied by the caller in place of `time.Now()`.
 */
module Messages {

  /** An instant, as read from the wall clock. */
  type Time = int

  datatype Message = Message(id: string, username: string, content: string, timestamp: Time, kind: string)

  /** The display name that join, leave and system notices carry. */
  const SystemName := "System"

  const KindMessage := "message"
  const KindSystem := "system"
  const KindJoin := "join"
  const KindLeave := "leave"

  /** The text appended to a user name in a join notice ("joined the chat room"). */
  const JoinSuffix := " 加入了聊天室"
  /** The text appended to a user name in a leave notice ("left the chat room"). */
  const LeaveSuffix := " 離開了聊天室"

  /** The serialized form of a message, `json.Marshal(msg)`. The encoding is
      opaque: the room forwards these bytes without looking inside, and no
      property of the JSON text itself is claimed. */
  datatype Frame = Json(msg: Message)

  /** The frames for a run of messages, in the same order. */
  function Frames(ms: seq<Message>): (r: seq<Frame>)
    ensures |r| == |ms|
    ensures forall i | 0 <= i < |ms| :: r[i] == Json(ms[i])
  {
    seq(|ms|, i requires 0 <= i < |ms| => Json(ms[i]))
  }

  /** `NewMessage(id, username, content, msgType)`, stamped at `now`. */
  function NewMessage(id: string, username: string, content: string, kind: string, now: Time): (m: Message)
    ensures m.id == id && m.username == username && m.content == content && m.kind == kind
    ensures m.timestamp == now
  {
    Message(id, username, content, now, kind)
  }

  /** A notice generated by the server itself: empty id, author "System". */
  predicate IsNotice(m: Message) {
    m.id == "" && m.username == SystemName
  }

  function NewSystemMessage(content: string, now: Time): (m: Message)
    ensures IsNotice(m) && m.kind == KindSystem
    ensures m.content == content && m.timestamp == now
  {
    NewMessage("", SystemName, content, KindSystem, now)
  }

  function NewJoinMessage(username: string, now: Time): (m: Message)
    ensures IsNotice(m) && m.kind == KindJoin
    ensures m.content == username + JoinSuffix && m.timestamp == now
  {
    NewMessage("", SystemName, username + JoinSuffix, KindJoin, now)
  }

  function NewLeaveMessage(username: string, now: Time): (m: Message)
    ensures IsNotice(m) && m.kind == KindLeave
    ensures m.content == username + LeaveSuffix && m.timestamp == now
  {
    NewMessage("", SystemName, username + LeaveSuffix, KindLeave, now)
  }

  /** Join and leave notices for one user start with that user's name and
      differ only in their suffix and their kind; the name can be read back
      from either notice, so two users with different names never get the
      same notice text. */
  lemma JoinLeaveShareName(u: string, v: string, now: Time)
    ensures NewJoinMessage(u, now).content[..|u|] == u
    ensures NewLeaveMessage(u, now).content[..|u|] == u
    ensures NewJoinMessage(u, now).content[|u|..] == JoinSuffix
    ensures NewLeaveMessage(u, now).content[|u|..] == LeaveSuffix
    ensures NewJoinMessage(u, now) != NewLeaveMessage(u, now)
    ensures NewJoinMessage(u, now).(content := "", kind := "") == NewLeaveMessage(u, now).(content := "", kind := "")
    ensures NewJoinMessage(u, now).content == NewJoinMessage(v, now).content ==> u == v
    ensures NewLeaveMessage(u, now).content == NewLeaveMessage(v, now).content ==> u == v
  {
  }
}
