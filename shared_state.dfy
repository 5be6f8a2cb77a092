/**
 * The process-wide blink settings store: a record of two unsigned 64-bit
 * integers behind a lock, and one unbounded channel that carries a copy of
 * the whole record after every write.
 *
 * The lock, the lazy statics and the reference counting only serialise
 * access, so every getter and setter is one atomic method here. The write
 * log and the channel's `sent`/`taken` sequences are ghost bookkeeping: they
 * let the contracts speak about all the calls made so far.
 */
module SharedState {

  /** Rust's `u64`. The setters accept every value of it, 0 included. */
  newtype u64 = x: int | 0 <= x < 0x1_0000_0000_0000_0000

  datatype Option<T> = None | Some(value: T)

  /** A value copy of the shared record: what a getter reads and what the channel carries. */
  datatype BlinkSettings = BlinkSettings(blinkInterval: u64, blinkDuration: u64)

  /** `BlinkSettings::default()`. */
  function DefaultSettings(): (d: BlinkSettings)
  {
    BlinkSettings(30, 3)
  }

  /** One setter call, as the ghost write log records it. */
  datatype Write = SetInterval(val: u64) | SetDuration(val: u64)

  /** The record after one write: the named field replaced, the other one kept. */
  ghost function Step(s: BlinkSettings, w: Write): (r: BlinkSettings)
  {
    match w
    case SetInterval(v) => s.(blinkInterval := v)
    case SetDuration(v) => s.(blinkDuration := v)
  }

  /** The record after replaying `log`, oldest write first, from `s`. */
  ghost function Apply(s: BlinkSettings, log: seq<Write>): (r: BlinkSettings)
    decreases |log|
  {
    if log == [] then s else Apply(Step(s, log[0]), log[1..])
  }

  /** The snapshots published while replaying `log` from `s`: after each write, a copy of the whole record. */
  ghost function Published(s: BlinkSettings, log: seq<Write>): (snapshots: seq<BlinkSettings>)
    decreases |log|
  {
    if log == [] then [] else [Step(s, log[0])] + Published(Step(s, log[0]), log[1..])
  }

  /** Reference definition: the value of the latest interval write in `log`, or `initial` when there is none. */
  ghost function LastInterval(log: seq<Write>, initial: u64): (v: u64)
    decreases |log|
  {
    if log == [] then initial
    else if log[|log| - 1].SetInterval? then log[|log| - 1].val
    else LastInterval(log[..|log| - 1], initial)
  }

  /** Reference definition: the value of the latest duration write in `log`, or `initial` when there is none. */
  ghost function LastDuration(log: seq<Write>, initial: u64): (v: u64)
    decreases |log|
  {
    if log == [] then initial
    else if log[|log| - 1].SetDuration? then log[|log| - 1].val
    else LastDuration(log[..|log| - 1], initial)
  }

  /** A write at the end of the log acts on the record the earlier writes left. */
  lemma {:induction false} ApplySnoc(s: BlinkSettings, log: seq<Write>, w: Write)
    ensures Apply(s, log + [w]) == Step(Apply(s, log), w)
    decreases |log|
  {
    if log == [] {
      assert [w][1..] == [];
    } else {
      assert (log + [w])[0] == log[0];
      assert (log + [w])[1..] == log[1..] + [w];
      ApplySnoc(Step(s, log[0]), log[1..], w);
    }
  }

  /** A write at the end of the log publishes exactly one more snapshot, the record right after it. */
  lemma {:induction false} PublishedSnoc(s: BlinkSettings, log: seq<Write>, w: Write)
    ensures Published(s, log + [w]) == Published(s, log) + [Apply(s, log + [w])]
    decreases |log|
  {
    if log == [] {
      assert [w][1..] == [];
    } else {
      assert (log + [w])[0] == log[0];
      assert (log + [w])[1..] == log[1..] + [w];
      PublishedSnoc(Step(s, log[0]), log[1..], w);
    }
  }

  /** One snapshot per write, and the i-th snapshot is the whole record after the first i + 1 writes. */
  lemma {:induction false} PublishedAt(s: BlinkSettings, log: seq<Write>, i: nat)
    requires i < |log|
    ensures |Published(s, log)| == |log|
    ensures Published(s, log)[i] == Apply(s, log[..i + 1])
    decreases |log|
  {
    PublishedLength(s, log);
    if i == 0 {
      assert log[..1][1..] == [];
    } else {
      PublishedAt(Step(s, log[0]), log[1..], i - 1);
      assert log[..i + 1][0] == log[0];
      assert log[..i + 1][1..] == log[1..][..i];
    }
  }

  /** The number of published snapshots is the number of writes. */
  lemma {:induction false} PublishedLength(s: BlinkSettings, log: seq<Write>)
    ensures |Published(s, log)| == |log|
    decreases |log|
  {
    if log != [] {
      PublishedLength(Step(s, log[0]), log[1..]);
    }
  }

  /** The latest published snapshot is the current record. */
  lemma LastPublishedIsState(s: BlinkSettings, log: seq<Write>)
    requires log != []
    ensures |Published(s, log)| == |log|
    ensures Published(s, log)[|log| - 1] == Apply(s, log)
  {
    PublishedAt(s, log, |log| - 1);
    assert log[..|log|] == log;
  }

  /**
   * Last write wins, field by field: after any sequence of writes each field
   * holds the value of the latest write to it, whatever was written to the
   * other field in between.
   */
  lemma {:induction false} ApplyIsLastWrite(s: BlinkSettings, log: seq<Write>)
    ensures Apply(s, log).blinkInterval == LastInterval(log, s.blinkInterval)
    ensures Apply(s, log).blinkDuration == LastDuration(log, s.blinkDuration)
    decreases |log|
  {
    if log != [] {
      var init, w := log[..|log| - 1], log[|log| - 1];
      assert log == init + [w];
      ApplySnoc(s, init, w);
      ApplyIsLastWrite(s, init);
    }
  }

  /** There is no deduplication: writing the value a field already holds still publishes a snapshot, equal to the unchanged record. */
  lemma RewriteStillPublishes(s: BlinkSettings, log: seq<Write>, w: Write)
    requires Step(Apply(s, log), w) == Apply(s, log)
    ensures |Published(s, log + [w])| == |Published(s, log)| + 1
    ensures Published(s, log + [w]) == Published(s, log) + [Apply(s, log)]
  {
    PublishedSnoc(s, log, w);
    ApplySnoc(s, log, w);
  }

  /**
   * The change-notification channel: one unbounded FIFO queue of snapshots.
   * `sent` is everything ever sent, `taken` everything received so far, and
   * `pending` what is still queued.
   */
  class SettingsChannel {
    var pending: seq<BlinkSettings>
    ghost var sent: seq<BlinkSettings>
    ghost var taken: seq<BlinkSettings>

    /** Nothing is lost or reordered: what was received, then what is queued, is what was sent. */
    ghost predicate Valid()
      reads this
    {
      sent == taken + pending
    }

    /** `unbounded()`: a fresh, empty channel. */
    constructor ()
      ensures Valid()
      ensures pending == [] && sent == [] && taken == []
    {
      pending, sent, taken := [], [], [];
    }

    /** `unbounded_send`: always succeeds, since the receiver is never dropped; appends one snapshot. */
    method UnboundedSend(s: BlinkSettings)
      requires Valid()
      modifies this
      ensures Valid()
      ensures pending == old(pending) + [s]
      ensures sent == old(sent) + [s] && taken == old(taken)
    {
      pending := pending + [s];
      sent := sent + [s];
    }

    /** `try_next` on the receiver: takes the oldest queued snapshot, or reports that none is queued. */
    method TryNext() returns (r: Option<BlinkSettings>)
      requires Valid()
      modifies this
      ensures Valid() && sent == old(sent)
      ensures old(pending) == [] ==> r == None && pending == [] && taken == old(taken)
      ensures old(pending) != [] ==>
                && r == Some(old(pending)[0])
                && pending == old(pending)[1..]
                && taken == old(taken) + [old(pending)[0]]
    {
      if pending == [] {
        r := None;
      } else {
        r := Some(pending[0]);
        taken := taken + [pending[0]];
        pending := pending[1..];
      }
    }
  }

  /**
   * The shared blink settings together with their channel. `log` records
   * every setter call in call order.
   */
  class SharedBlinkSettings {
    var blinkInterval: u64
    var blinkDuration: u64
    const channel: SettingsChannel
    ghost var log: seq<Write>

    /** A copy of the whole record (`state.clone()`). */
    function State(): (s: BlinkSettings)
      reads this
    {
      BlinkSettings(blinkInterval, blinkDuration)
    }

    /**
     * The record is the defaults with the log replayed, and the channel has
     * carried exactly one snapshot per setter call, in call order.
     */
    ghost predicate Valid()
      reads this, channel
    {
      && channel.Valid()
      && State() == Apply(DefaultSettings(), log)
      && channel.sent == Published(DefaultSettings(), log)
    }

    /** The lazy initialisation of both statics: default settings, an empty channel, no writes yet. */
    constructor ()
      ensures Valid() && fresh(channel)
      ensures blinkInterval == 30 && blinkDuration == 3
      ensures channel.pending == [] && channel.taken == [] && log == []
    {
      blinkInterval, blinkDuration := 30, 3;
      log := [];
      channel := new SettingsChannel();
    }

    /** `get_blink_interval`: the value of the latest `set_blink_interval` call, or 30 if there was none. */
    method GetBlinkInterval() returns (v: u64)
      requires Valid()
      ensures v == blinkInterval
      ensures v == LastInterval(log, 30)
    {
      ApplyIsLastWrite(DefaultSettings(), log);
      v := blinkInterval;
    }

    /** `get_blink_duration`: the value of the latest `set_blink_duration` call, or 3 if there was none. */
    method GetBlinkDuration() returns (v: u64)
      requires Valid()
      ensures v == blinkDuration
      ensures v == LastDuration(log, 3)
    {
      ApplyIsLastWrite(DefaultSettings(), log);
      v := blinkDuration;
    }

    /**
     * `set_blink_interval`: replaces the interval, keeps the duration, and
     * queues one snapshot of the whole new record, with no validation and no
     * deduplication.
     */
    method SetBlinkInterval(v: u64)
      requires Valid()
      modifies this, channel
      ensures Valid()
      ensures blinkInterval == v && blinkDuration == old(blinkDuration)
      ensures log == old(log) + [SetInterval(v)]
      ensures channel.pending == old(channel.pending) + [State()]
      ensures channel.sent == old(channel.sent) + [State()]
      ensures channel.taken == old(channel.taken)
    {
      ApplySnoc(DefaultSettings(), log, SetInterval(v));
      PublishedSnoc(DefaultSettings(), log, SetInterval(v));
      blinkInterval := v;
      log := log + [SetInterval(v)];
      channel.UnboundedSend(State());
    }

    /**
     * `set_blink_duration`: replaces the duration, keeps the interval, and
     * queues one snapshot of the whole new record, with no validation and no
     * deduplication.
     */
    method SetBlinkDuration(v: u64)
      requires Valid()
      modifies this, channel
      ensures Valid()
      ensures blinkDuration == v && blinkInterval == old(blinkInterval)
      ensures log == old(log) + [SetDuration(v)]
      ensures channel.pending == old(channel.pending) + [State()]
      ensures channel.sent == old(channel.sent) + [State()]
      ensures channel.taken == old(channel.taken)
    {
      ApplySnoc(DefaultSettings(), log, SetDuration(v));
      PublishedSnoc(DefaultSettings(), log, SetDuration(v));
      blinkDuration := v;
      log := log + [SetDuration(v)];
      channel.UnboundedSend(State());
    }

    /** `settings_receiver`: every caller gets the same single receiver. */
    method SettingsReceiver() returns (rx: SettingsChannel)
      ensures rx == channel
    {
      rx := channel;
    }
  }

  /**
   * What a valid store promises about its queue: one snapshot sent per setter
   * call, each the whole record right after its call, and the newest queued
   * snapshot, if any, is the current record.
   */
  lemma QueueMatchesState(store: SharedBlinkSettings)
    requires store.Valid()
    ensures |store.channel.sent| == |store.log|
    ensures forall i :: 0 <= i < |store.log| ==>
              store.channel.sent[i] == Apply(DefaultSettings(), store.log[..i + 1])
    ensures store.channel.pending != [] ==>
              store.channel.pending[|store.channel.pending| - 1] == store.State()
  {
    var log := store.log;
    PublishedLength(DefaultSettings(), log);
    forall i | 0 <= i < |log|
      ensures store.channel.sent[i] == Apply(DefaultSettings(), log[..i + 1])
    {
      PublishedAt(DefaultSettings(), log, i);
    }
    if store.channel.pending != [] {
      LastPublishedIsState(DefaultSettings(), log);
    }
  }

  /**
   * Two consumers that each call `settings_receiver` share one queue: a
   * snapshot the first one takes is gone for the second. Re-setting the
   * default interval still publishes, and every snapshot carries both fields.
   */
  method TwoReceiversShareOneQueue() returns (first: Option<BlinkSettings>, second: Option<BlinkSettings>, third: Option<BlinkSettings>)
    ensures first == Some(BlinkSettings(30, 3))
    ensures second == Some(BlinkSettings(30, 8))
    ensures third == None
  {
    var store := new SharedBlinkSettings();
    var rx1 := store.SettingsReceiver();
    var rx2 := store.SettingsReceiver();
    store.SetBlinkInterval(30);
    store.SetBlinkDuration(8);
    first := rx1.TryNext();
    second := rx2.TryNext();
    third := rx1.TryNext();
  }
}
