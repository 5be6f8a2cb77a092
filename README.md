# Blinkion settings store, in Dafny

Blinkion is a desktop break-reminder utility written in Rust. This project
models its settings store, `src/shared_state.rs`, and proves properties about it.

The store is one process-wide `BlinkSettings` record with two `u64` fields:
`blink_interval` (default 30) and `blink_duration` (default 3). The record sits
behind a read/write lock. It comes with one unbounded channel whose sender and
receiver are both statics.

- Each getter reads one field.
- Each setter takes the write lock, assigns one field and sends a clone of the
  whole record on the channel, all while it holds the lock.
- `settings_receiver` hands every caller a clone of the same `Arc`. So all
  consumers share one FIFO queue: a snapshot taken by one consumer is gone for
  the others.

The model is imperative, like the source. `SharedBlinkSettings` is a class with
fields `blinkInterval` and `blinkDuration`, and `SettingsChannel` is a class
holding the queue as a `seq<BlinkSettings>`. Each getter and setter is one
atomic method, because the lock makes it atomic in the source.

Three pieces of ghost state let the contracts talk about every call made so far:

- the store's write `log`;
- the channel's `sent` sequence (every snapshot ever sent);
- the channel's `taken` sequence (every snapshot received so far).

The store's `Valid()` ties these together. The record equals the defaults with
the log replayed (`Apply`). The channel has carried exactly `Published(log)`:
one full snapshot per write, in call order.

The source's comments call the channel a broadcast (src/shared_state.rs:25,
41). But `settings_receiver` hands out one shared receiver, so it is a single
FIFO queue. The UI files import posture getters and setters
(src/components/settings_window.rs:3-4, src/components/reminder_window.rs:4),
but these do not exist in `src/shared_state.rs`. No scheduler reads the
settings. The model follows the code: one queue, blink settings only, no
scheduler.

## Model

| member | source | states |
|---|---|---|
| SharedState.SharedBlinkSettings.constructor | src/shared_state.rs:12-32 | initial state: interval 30, duration 3, an empty queue, nothing sent or received, valid |
| SharedState.SharedBlinkSettings.GetBlinkInterval | src/shared_state.rs:37-39 | returns the current interval, which is the value of the latest `set_blink_interval` call, or 30 if there was none; changes nothing |
| SharedState.SharedBlinkSettings.GetBlinkDuration | src/shared_state.rs:52-54 | returns the current duration, which is the value of the latest `set_blink_duration` call, or 3 if there was none; changes nothing |
| SharedState.SharedBlinkSettings.SetBlinkInterval | src/shared_state.rs:42-49 | any `u64` (0 included) becomes the interval; the duration is unchanged; exactly one snapshot, equal to the whole new record, is appended to the queue; nothing is received; the invariant is kept |
| SharedState.SharedBlinkSettings.SetBlinkDuration | src/shared_state.rs:57-64 | any `u64` becomes the duration; the interval is unchanged; exactly one snapshot of the whole new record is appended; the invariant is kept |
| SharedState.SharedBlinkSettings.SettingsReceiver | src/shared_state.rs:67-69 | every call returns the same single channel object |
| SharedState.SettingsChannel.constructor | src/shared_state.rs:29-32 | `unbounded()` creates an empty queue |
| SharedState.SettingsChannel.UnboundedSend | src/shared_state.rs:47 | sending always succeeds and appends the snapshot at the back of the queue |
| SharedState.SettingsChannel.TryNext | src/shared_state.rs:26-28 | receiving removes and returns the oldest queued snapshot, or returns None and changes nothing when the queue is empty; received-then-queued stays equal to everything sent |
| SharedState.ApplySnoc | src/shared_state.rs:42-64 | a write acts on the record that all earlier writes left |
| SharedState.PublishedSnoc | src/shared_state.rs:44-47 | a further setter call publishes exactly one more snapshot, the record right after that call |
| SharedState.PublishedLength | src/shared_state.rs:42-64 | the number of snapshots published is the number of setter calls |
| SharedState.PublishedAt | src/shared_state.rs:42-64 | the i-th snapshot is the whole record after the first i+1 calls, so no snapshot is torn |
| SharedState.LastPublishedIsState | src/shared_state.rs:47 | the latest published snapshot equals the current record |
| SharedState.ApplyIsLastWrite | src/shared_state.rs:37-64 | last write wins, field by field: each field holds the value of its latest setter call, whatever was written to the other field |
| SharedState.RewriteStillPublishes | src/shared_state.rs:42-64 | there is no deduplication: a write that leaves the record unchanged still publishes one snapshot, equal to the unchanged record |
| SharedState.QueueMatchesState | src/shared_state.rs:42-64 | in every valid state: one snapshot sent per call, each the record after its call, in call order; the newest queued snapshot, if any, is the current record |
| SharedState.TwoReceiversShareOneQueue | src/shared_state.rs:67-69 | two handles from `settings_receiver` share one queue; re-setting the default interval still publishes; every snapshot carries both fields |

## Left out

- Lock mechanics: the `RwLock`, the `Lazy` statics and the `Arc` only serialise access. Each getter and setter is one atomic method. Lock poisoning (the `.unwrap()` panics) is not modelled.
- A failed send (the ignored result of `unbounded_send`) is not modelled. The receiver lives in a static that is never dropped, so sending always succeeds.
- The channel is closed only when it is dropped, which never happens here. So `TryNext` has two outcomes: a snapshot, or None when the queue is empty. The futures library's distinction between "closed" and "empty" is not modelled.
- SettingsReceiver: returns the whole channel object, so the model's receiver handle could also send; Rust's `Arc<RwLock<UnboundedReceiver<_>>>` can only receive. Any send other than the setters' breaks the store's invariant `Valid()`. In Rust such a send is possible through the public sender `SETTINGS_CHANNEL.0`; the model does not capture it.
- The asynchronous, waiting `next()` of the receiver is not modelled; only the non-blocking receive is. No code in `src/shared_state.rs` receives at all.
- `src/main.rs`: window and tray setup, and the fixed 5-second `sleep` loop. This is timing and I/O, and it never reads the settings.
- `src/components/settings_window.rs`, `src/components/reminder_window.rs`, `src/components/animated_blink.rs`: UI markup, window teardown and floating-point animation. The posture getters and setters they import are not in `src/shared_state.rs`. The module that defines `ReminderType` (`crate::reminder`) is not part of this model.
- `src/signals.rs`: four constant global signals with no logic.
- Posture settings, multi-subscriber broadcast and a fire-check scheduler: none of these exists in the store's code.
