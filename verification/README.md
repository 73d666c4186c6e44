# mini-fe2io: hotkey volume listener and game-message dispatcher

This project is a Dafny model of two parts of mini-fe2io, a small client that plays a browser game's background music.

- **The hotkey volume listener** (`src/keybind.rs`, module `Keybind`). `keybind_listen` polls the keyboard every 100 ms and keeps three mutable locals: the tracked `volume`, the saved pre-mute `initial_volume` and a `muted` flag. `=` raises the volume by five points, capped at 100 %. `-` lowers it by five points, floored at 0 %. The grave key toggles mute, saving and restoring the pre-mute volume. Every applied rule sends the new volume on the volume channel and then the string `"volume"` on the command channel.
  - The model is the class `Keybind.Listener`. Its fields are those locals, plus an append-only `log` of delivered messages and a `running` flag.
  - `Step` is one iteration of the loop. `Run` is the loop over a finite run of polls.
  - Both are proved against the pure functions `PollOnce` and `Trace`, which are built on `Select` (which match arm applies) and `Next` (the new locals).
- **The game-message dispatcher** (`src/json_processor.rs`, module `JsonProcessor`). `process_data` decodes a text message into a `MessageFormat { msgType, statusType?, audioUrl? }` record. It then calls at most one player method:
  - `bgm` with a URL plays that URL.
  - `gameStatus` with `died` sets the volume to the fixed level 0.5.
  - `gameStatus` with `left` stops playback.
  - Anything else, including a decoding failure, does nothing.

  The model has three parts:
  - `Dispatch` is the decision, a pure function of the decoded `Option<MessageFormat>`.
  - `DecodeMessage` and `EncodeMessage` model serde's derived `Deserialize` and `Serialize` on an already-lexed JSON value.
  - `ProcessData` is the method that drives a `Player`. `Player` records the calls it receives.

Volumes are Dafny `real`s. The f32 products and sums are taken to be exact. Rust's `f32::round`, which rounds halfway cases away from zero, is written out as `RoundHalfAway`. Inputs from outside the model are parameters:
- the pressed keys at each poll;
- whether each channel's receiving end is still alive when a poll sends to it (`Receivers`);
- the JSON value of each message.

A send to a dropped receiver makes the source's `?` return an error from `keybind_listen`. In the model that poll ends with `running == false`, and the log holds only what was actually delivered.

`src/main.rs:80` spawns `audio::audio_loop`, which `src/audio.rs` does not define. `src/main.rs:115` passes a channel to `process_data`, which takes an `AudioPlayer`. This model follows `src/keybind.rs` and `src/json_processor.rs`:
- On a death message, `src/json_processor.rs:35` sets the player volume to the fixed level 0.5. It does not halve the current volume.
- The dispatcher calls the player directly. It does not send commands to a channel.

## Model

| member | source | states |
|---|---|---|
| Keybind.RoundHalfAway | src/keybind.rs:16 | the result is the integer nearest to `x`; halfway cases go away from zero, as Rust's `round` does |
| Keybind.Raised | src/keybind.rs:16 | the volume after `=` is at most 1.0 and a whole percent; from a non-negative volume it is at least 0.05; it lies within half a percent of min(v + 0.05, 1.0) |
| Keybind.Lowered | src/keybind.rs:22 | the volume after `-` is at least 0.0 and a whole percent; from a volume of at most 1.0 it is at most 0.95; it lies within half a percent of max(v − 0.05, 0.0) |
| Keybind.RaiseWholePercent | src/keybind.rs:16 | from a whole percent p, `=` gives exactly min(p + 5, 100) percent |
| Keybind.LowerWholePercent | src/keybind.rs:22 | from a whole percent p, `-` gives exactly max(p − 5, 0) percent |
| Keybind.RaiseSaturates | src/keybind.rs:16 | from 0.98, `=` gives exactly 1.0, not 1.03 |
| Keybind.Select | src/keybind.rs:14-41 | the `=` arm applies exactly when `=` is pressed; no arm applies exactly when none of `=`, `-` and the grave key is pressed |
| Keybind.Next | src/keybind.rs:15-41 | a poll with no applicable arm changes nothing; the new `muted` is set exactly by muting from unmuted, or kept by an idle poll; `initial_volume` changes only when muting from unmuted, and then it becomes the old volume |
| Keybind.Trace | src/keybind.rs:12-44 | no polls leave the state unchanged and send nothing; a run of n polls sends at most 2n messages; a run that is still going has sent an even number of messages |
| Keybind.KeyPrecedence | src/keybind.rs:14-41 | the arms are tried in match order, `=` before `-` before the grave key; no arm applies exactly when none of the three keys is pressed |
| Keybind.IdlePollIsSilent | src/keybind.rs:41 | a poll with none of the three keys leaves the locals unchanged, sends nothing and keeps the listener running |
| Keybind.StepClearsMute | src/keybind.rs:15-26 | a `=` or `-` step clears `muted`, leaves `initial_volume` unchanged and leaves a whole-percent volume |
| Keybind.MuteSavesVolume | src/keybind.rs:33-38 | muting while unmuted saves the current volume into `initial_volume`, sets the volume to 0 and sets `muted` |
| Keybind.MuteUnmuteRoundTrip | src/keybind.rs:28-38 | mute followed by unmute, with nothing in between, restores exactly the pre-mute volume and leaves `muted` false |
| Keybind.NextKeepsInvariants | src/keybind.rs:16-38 | from volumes in [0, 1], a completed poll keeps both volumes in [0, 1]; from a listener whose volume is 0 while muted, it keeps the volume at 0 while muted |
| Keybind.PollOnce | src/keybind.rs:13-42 | the listener stops exactly when an applied rule meets a dropped receiver. A completed poll yields the new locals and sends exactly the new volume, then "volume". A failed poll keeps the old `muted`; it delivers nothing when the volume receiver is gone, and exactly the new volume when only the command receiver is gone |
| Keybind.PollOnceKeepsInvariants | src/keybind.rs:13-42 | from volumes in [0, 1] and a log in message order, one poll keeps both volumes in [0, 1] and the log's message order; if the volume was 0 while muted and the listener goes on running, that still holds |
| Keybind.TraceKeepsInvariants | src/keybind.rs:10-44 | any run of polls from volumes in [0, 1] keeps both volumes in [0, 1]; every volume it sends lies in [0, 1]; every "volume" command comes right after its value |
| Keybind.Listener.constructor | src/keybind.rs:8-11 | the listener starts with `initial_volume` equal to the start volume, unmuted, with nothing sent; a start volume in [0, 1] gives a consistent listener |
| Keybind.Listener.Step | src/keybind.rs:13-42 | one loop iteration moves the locals, the log and `running` exactly as `PollOnce` says, and keeps the listener consistent |
| Keybind.Listener.Send | src/keybind.rs:17-18 | a send appends its message to the log exactly when that channel's receiver is alive, and reports failure otherwise |
| Keybind.Listener.Run | src/keybind.rs:12-44 | the loop over a run of polls ends in the state, log and `running` flag that `Trace` gives, and keeps the listener consistent |
| JsonProcessor.RequiredString | src/json_processor.rs:11 | the required `msgType` decodes exactly from a JSON string, to that string |
| JsonProcessor.OptionalString | src/json_processor.rs:12-13 | an optional field decodes from `null` to `None` and from a string to `Some` of it; any other JSON value is a decoding failure |
| JsonProcessor.OptionalMember | src/json_processor.rs:12-13 | an `Option<String>` field of an object reads as `None` exactly when its key is missing or `null`; it fails exactly when it holds a value that is neither `null` nor a string; otherwise it is that string |
| JsonProcessor.Assemble | src/json_processor.rs:9-14 | the record is built exactly when all three fields decode, and then holds exactly the three decoded values |
| JsonProcessor.DecodeMessage | src/json_processor.rs:17-23 | only an object, or an array of exactly three elements, can decode to a message |
| JsonProcessor.EncodeMessage | src/json_processor.rs:9 | the derived serialisation is an object holding exactly the three field names |
| JsonProcessor.DecodeEncode | src/json_processor.rs:9-14 | decoding what the derived serialisation writes gives back the same record |
| JsonProcessor.AbsentIsNull | src/json_processor.rs:12-13 | a missing `statusType` or `audioUrl` key decodes exactly as an explicit `null`, that is as `None` |
| JsonProcessor.DeathMessageWithoutUrl | src/json_processor.rs:12-13 | `{"msgType":"gameStatus","statusType":"died"}`, with no `audioUrl` key, decodes with `audioUrl` as `None` and sets the volume to 0.5 |
| JsonProcessor.MsgTypeRequired | src/json_processor.rs:11 | an object without `msgType`, or whose `msgType` is not a string, fails to decode |
| JsonProcessor.UnknownKeysIgnored | src/json_processor.rs:9-14 | adding a key other than the three fields does not change the decoded result |
| JsonProcessor.Handle | src/json_processor.rs:17-46 | an action is taken only for a value that decodes; a JSON value that is neither an object nor an array never causes an action |
| JsonProcessor.Dispatch | src/json_processor.rs:25-46 | a decoding failure yields no action; the only volume ever set is the fixed level 0.5 |
| JsonProcessor.ParseErrorDoesNothing | src/json_processor.rs:17-22 | input that fails to decode produces no player action |
| JsonProcessor.BgmPlaysItsUrl | src/json_processor.rs:26-30 | "bgm" with a URL plays exactly that URL; without one it does nothing; `statusType` is ignored |
| JsonProcessor.GameStatusActions | src/json_processor.rs:32-41 | "gameStatus" with "died" sets volume 0.5, with "left" stops, and with any other or no status does nothing; `audioUrl` is ignored |
| JsonProcessor.UnknownTypeDoesNothing | src/json_processor.rs:43-45 | any `msgType` other than "bgm" or "gameStatus" produces no action |
| JsonProcessor.DispatchCharacterized | src/json_processor.rs:25-46 | in both directions: Play(u) is taken exactly for "bgm" with URL u; SetVolume exactly for "gameStatus"/"died", at level 0.5; Stop exactly for "gameStatus"/"left" |
| JsonProcessor.TriggerRoundTrip | src/json_processor.rs:16-46 | every action the dispatcher can take is reached by the serialised form of its canonical message |
| JsonProcessor.ProcessData | src/json_processor.rs:16-47 | the player receives exactly the action `Dispatch` chooses for the decoded message, or no call at all; never more than one |
| JsonProcessor.Player.constructor | src/audio.rs:21-25 | a new player has received no calls |
| JsonProcessor.Player.PlayAudio | src/audio.rs:27-61 | records one `Play` of the given URL |
| JsonProcessor.Player.SetLevel | src/audio.rs:63-65 | records one `SetVolume` of the given level |
| JsonProcessor.Player.Stop | src/audio.rs:67-69 | records one `Stop` |

## Left out

- Floating point: the f32 multiply, add and divide of `src/keybind.rs:16` and `src/keybind.rs:22` are exact reals here. Only the rounding of `round` to an integer is modelled. IEEE representation error, for example 0.05 not being exact in binary, is not modelled.
- Keyboard polling through `device_query` becomes the pressed keys, given as a parameter to each poll. Only `=`, `-` and the grave key are told apart; every other key is `Other`.
- The 100 ms `sleep` between polls is not modelled.
- The loop is infinite in the source. `Run` models any finite prefix of it.
- Channels: the bounded capacities and the suspension of `send().await` while a channel is full are not modelled. They are concurrency. Both channels become one ordered log, and a dropped receiver becomes an input per poll.
- Text lexing: `serde_json::from_str` on text that is not JSON at all is a decoding failure (`None`). The lexer itself is not modelled.
- JSON numbers are kept as reals, since no field of the message is numeric.
- A JSON object that repeats one of the three field names `msgType`, `statusType` or `audioUrl` is rejected by serde as a duplicate field. A map cannot hold a repeated key, so this error is not modelled. A repeated unknown key is skipped and accepted, and a map with that key once gives the same result.
- The audio player of `src/audio.rs` is reduced to a recorder of the calls it receives. Downloading, temporary files, decoding and the rodio sink are foreign I/O, and its `expect` panics are not modelled.
- The error printed by `process_data` for a message that fails to decode is not modelled. The message is dropped.
- `src/main.rs` is not part of this model. This covers command-line parsing, the username prompt, the WebSocket connection and loop, creation of the cache directory, and the spawned tasks. Its startup clamp of the volume to [0, 1] (`src/main.rs:56`) appears only as the condition under which `Keybind.Listener.constructor` gives a consistent listener.
