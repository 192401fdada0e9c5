/**
 The per-label message table (EmotionDetector.jsx, lines 21-71), the pool
 lookup with its `neutral` fallback (line 138), the random draw (line 139)
 and the badge's choice between feedback and status (line 184).
 */
module FunnyTexts {
  import opened Wrappers
  import opened Expressions

  /** A message of the table, named by the pool it sits in and its position
      there; the literal texts are not part of the model. */
  datatype Message = Message(pool: Label, slot: nat)

  /** Every list of the table holds five messages. */
  const PoolSize: nat := 5

  /** The label whose pool is used when the dominant label has none. */
  const Fallback: Label := "neutral"

  /** The five messages of a label's list, in table order. */
  function Messages(emotion: Label): (ms: seq<Message>)
    ensures |ms| == PoolSize
    ensures forall i :: 0 <= i < |ms| ==> ms[i] == Message(emotion, i)
  {
    [Message(emotion, 0), Message(emotion, 1), Message(emotion, 2), Message(emotion, 3), Message(emotion, 4)]
  }

  /** `funnyTexts`: seven labels, each with its own list. */
  const Table: map<Label, seq<Message>> := map[
    "happy" := Messages("happy"),
    "sad" := Messages("sad"),
    "angry" := Messages("angry"),
    "surprised" := Messages("surprised"),
    "fearful" := Messages("fearful"),
    "disgusted" := Messages("disgusted"),
    "neutral" := Messages("neutral")
  ]

  /** The table has exactly the seven labels, the fallback among them, and
      every pool is non-empty. */
  lemma TableShape()
    ensures Table.Keys == {"happy", "sad", "angry", "surprised", "fearful", "disgusted", "neutral"}
    ensures Fallback in Table
    ensures forall l :: l in Table ==> |Table[l]| == PoolSize > 0
  {
  }

  /** `funnyTexts[label] || funnyTexts['neutral']`: a list is always truthy,
      so the fallback is taken exactly when the label is not a key. */
  function PoolFor(emotion: Label): (pool: seq<Message>)
    ensures |pool| == PoolSize
    ensures emotion in Table ==> pool == Table[emotion]
    ensures emotion !in Table ==> pool == Table[Fallback]
  {
    if emotion in Table then Table[emotion] else Table[Fallback]
  }

  /** Every message of the pool chosen for a label belongs to that label's
      list when it has one, and to the fallback's list otherwise. */
  lemma PoolForOwner(emotion: Label, m: Message)
    requires m in PoolFor(emotion)
    ensures m.pool == if emotion in Table then emotion else Fallback
    ensures m.slot < PoolSize
  {
  }

  /** `Math.floor(r * pool.length)` for a draw `0 <= r < 1` of `Math.random`. */
  function RandomIndex(draw: real, n: nat): (i: nat)
    requires 0.0 <= draw < 1.0 && n > 0
    ensures i < n
    ensures i as real <= draw * n as real < i as real + 1.0
  {
    ScaledDrawBelow(draw, n);
    (draw * n as real).Floor
  }

  /** A draw in [0, 1) scales into [0, n). */
  lemma ScaledDrawBelow(draw: real, n: nat)
    requires 0.0 <= draw < 1.0 && n > 0
    ensures 0.0 <= draw * n as real < n as real
  {
  }

  /** What the badge shows: `topText || status`. */
  datatype Badge = ShowsMessage(message: Message) | ShowsStatus(status: string)

  /** Every message is a non-empty string, so `||` yields the feedback text
      exactly when it is set, and the status otherwise. */
  function BadgeText(topText: Option<Message>, status: string): (b: Badge)
    ensures b.ShowsMessage? <==> topText.Some?
    ensures b.ShowsMessage? ==> b.message == topText.value
    ensures b.ShowsStatus? ==> b.status == status
  {
    match topText
    case Some(m) => ShowsMessage(m)
    case None => ShowsStatus(status)
  }
}
