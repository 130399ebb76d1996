/**
 * The deduplicating front of the audio-feedback queue (`_speak`): a message is
 * queued only when it is non-empty and differs from the last message that was
 * accepted. The worker thread that drains the queue into the speech engine is
 * not part of this model.
 */
module Speech {
  import opened Wrappers

  /** `last_feedback` and the messages put on `speech_queue`, oldest first. */
  datatype Dispatcher = Dispatcher(lastFeedback: Option<string>, queue: seq<string>)

  const Idle: Dispatcher := Dispatcher(None, [])

  /** Python truthiness of an optional message: `None` and `""` are false. */
  predicate Speakable(text: Option<string>)
  {
    text.Some? && text.value != ""
  }

  /** `_speak(text)`. */
  function Say(d: Dispatcher, text: Option<string>): (r: Dispatcher)
    ensures Speakable(text) && text != d.lastFeedback ==>
              r == Dispatcher(text, d.queue + [text.value])
    ensures !(Speakable(text) && text != d.lastFeedback) ==> r == d
    ensures |d.queue| <= |r.queue| <= |d.queue| + 1
  {
    if Speakable(text) && text != d.lastFeedback then
      Dispatcher(text, d.queue + [text.value])
    else
      d
  }

  /** Saying the same message twice in a row queues it at most once. */
  lemma SayTwiceQueuesOnce(d: Dispatcher, x: string)
    requires x != ""
    ensures Say(Say(d, Some(x)), Some(x)) == Say(d, Some(x))
    ensures Some(x) != d.lastFeedback ==> Say(Say(d, Some(x)), Some(x)).queue == d.queue + [x]
  {
  }

  /** Only consecutive repeats are suppressed: `X, Y, X` queues three messages. */
  lemma SayAlternatingQueuesAll(d: Dispatcher, x: string, y: string)
    requires x != "" && y != "" && x != y
    requires d.lastFeedback != Some(x)
    ensures Say(Say(Say(d, Some(x)), Some(y)), Some(x)).queue == d.queue + [x, y, x]
  {
  }

  /** The queue only ever grows at its end: earlier messages are never altered. */
  lemma SayExtendsQueue(d: Dispatcher, text: Option<string>)
    ensures d.queue <= Say(d, text).queue
  {
  }

  /**
   * The last queued message, if any, is the last accepted text, and the queue
   * never holds the same message twice in a row.
   */
  ghost predicate Consistent(d: Dispatcher)
  {
    && (|d.queue| > 0 ==> d.lastFeedback == Some(d.queue[|d.queue| - 1]))
    && forall i, j | 0 <= i && j == i + 1 && j < |d.queue| :: d.queue[i] != d.queue[j]
  }

  lemma SayKeepsConsistent(d: Dispatcher, text: Option<string>)
    requires Consistent(d)
    ensures Consistent(Say(d, text))
  {
    if Speakable(text) && text != d.lastFeedback {
      var q := d.queue + [text.value];
      forall i, j | 0 <= i && j == i + 1 && j < |q| ensures q[i] != q[j] {
        if j == |q| - 1 {
          assert q[i] == d.queue[|d.queue| - 1];
        }
      }
    }
  }
}
