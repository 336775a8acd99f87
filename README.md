# BMO mood controller, modelled in Dafny

BMO is a robot for a tick-driven world simulation. Its behaviour depends on its
mood, which is one of Happy, Calm, Sad and Panic. A new robot starts Calm. On every
tick, `process_tick` runs exactly one routine, the one for the current mood:

- Happy spins a lucky wheel.
- Calm explores: it walks to the cheapest unexplored border, or replays the moves
  left over from an earlier walk that was cut short.
- Sad builds a shopping list (destroy a tree, put a tree into a crate). It then lets
  the op_map pathfinder suggest one action after another until the list is empty or
  op_map has no action.
- Panic steps in a random direction, if the step is allowed.

After its action, each routine rolls its own mood transitions. The rolls are
independent and run in source order, so when two fire the later one wins. Every
transition sends `Play(sound of the new mood)` to a background audio worker over a
channel. The worker plays one effect per `Play`, in the order sent, and leaves its
loop when the channel closes.

The model has five modules:

- `Wrappers`: `Option`.
- `Robotics`: the interface of the world library. This is directions, tile contents,
  library errors, and `Call`, a record of every call the controller makes into the
  world and its tools.
- `AudioWorker`: the command protocol and the worker's receive loop. `RunWorker` is a
  method whose loop is proved against `Played` and `Received`, two functions over
  the command stream.
- `Shopping`: the Sad routine's shopping list, and its op_map loop. `RunShoppingList`
  is a method proved against the function `ShoppingLoop`.
- `Bmo`: the moods, and the transition functions `Assignments`, `NextMood` and
  `Announcements`. It also has the class `Bmo`. Its fields are `mood`, `calmMoves`
  (the plan carried over), `outbox` (every command sent, in order) and `calls`. It
  has one method per routine, plus `ProcessTick`.

Every random draw and every answer from a collaborator is a parameter of a tick
(`TickInput`), so a tick is a deterministic step:

- the two transition rolls `first` and `second`;
- the Panic direction;
- the answers of `go_allowed`, `lucky_spin`, the explorer and op_map;
- the backpack size.

The object invariant `Valid()` says two things about the outbox. It holds only `Play`
commands. Its last command names the current mood; with nothing sent yet, the robot
is Calm. Every routine preserves `Valid()`. Together with `WorkerEndsOnCurrentMood`,
this means the last sound the worker is asked to play is always the sound of the
current mood.

The shopping list adds "destroy a tree" when the backpack size is not exactly 20.
The test at `src/lib.rs:245` is `!= 20`, so a size above 20 also adds the entry. The
model takes the number returned by the backpack's
`get_size` as an input. Whether that number is the load or the capacity is decided
in the world library, which is not part of this model.

## Model

| member | source | states |
|---|---|---|
| `Bmo.Bmo.constructor` | src/lib.rs:112-118 | A new robot is Calm, carries no plan, has sent no command and made no call; the outbox invariant holds |
| `Bmo.Bmo.ProcessTick` | src/lib.rs:123-134 | A tick records `robot_view` and then exactly the calls of the routine of the mood the tick began in. Only Calm changes the carried plan. A finished tick's mood is `NextMood` of the old mood and the rolls, and the outbox gains exactly `Announcements`. A Sad tick whose loop ends by a failed move, or has not ended, changes neither. Preserves `Valid()` |
| `Bmo.RoutineCalls` | src/lib.rs:129-134 | Every call of the dispatched routine belongs to that mood's routine (`MadeBy`). The four routines use disjoint tools, except that Sad and Panic both use `go` |
| `Bmo.Bmo.HappyRoutine` | src/lib.rs:168-184 | Spins once, and the spin's answer changes nothing. If the roll fires, the robot becomes Calm and sends `Play(Calm)`; otherwise mood and outbox are unchanged |
| `Bmo.Bmo.CalmRoutine` | src/lib.rs:186-231 | Makes the calls of `CalmCalls` and leaves the plan `CalmPlanAfter`. The Sad roll, then the Happy roll, each set the mood and send its sound, and the later one wins |
| `Bmo.CalmPlanAfter` | src/lib.rs:191-212 | A plan carried over is always empty afterwards, so any leftover reported on replay is dropped. Without a plan, the plan stays empty if there is no border or the walk arrives, and becomes exactly the leftover moves if the walk is interrupted |
| `Bmo.CalmCalls` | src/lib.rs:191-212 | A new border is asked for iff no plan is carried over. A carried plan is walked as it is. Without a plan, the routine asks for a border and then walks exactly the plan it got; with no border it makes no walk |
| `Bmo.Bmo.SadRoutine` | src/lib.rs:233-304 | Runs the op_map loop on `ShoppingList(backpack size)` and records its calls. The rolls run only if the loop emptied the list or found no action. Then the Calm roll and the Panic roll each set the mood and send its sound, and Panic wins |
| `Shopping.ShoppingList` | src/lib.rs:241-248 | The list has one or two entries. It has two, with destroy-a-tree first, iff the backpack size is not 20. Its last entry is always put-one-tree-into-a-crate |
| `Shopping.BuildShoppingList` | src/lib.rs:241-248 | Pushing onto an empty list builds exactly `ShoppingList` |
| `Shopping.CallFor` | src/lib.rs:263-280 | Each op_map action is carried out by the matching world call with the same arguments: a move by `go` in its direction, a destroy by `destroy` in its direction, a put by `put` with its content, amount and direction |
| `Shopping.ShoppingLoop` | src/lib.rs:252-285 | The loop makes at most two calls per op_map answer, and only queries, steps, destroys and puts. A loop that ran out of answers used two calls for each. A `NoAction` end comes right after a query. A `MoveFailed` end comes right after a `go` |
| `Shopping.RunShoppingList` | src/lib.rs:252-285 | The `while` loop over op_map's answers ends as `ShoppingLoop` says and makes its calls |
| `Shopping.QueriesPrecedeActions` | src/lib.rs:258-281 | In the loop's trace, the op_map queries are exactly the calls at even positions |
| `Shopping.ActionsCarryOutAnswers` | src/lib.rs:258-281 | The call after the k-th op_map query carries out the k-th answer (`CallFor` of its action): the loop does what op_map suggested, in order |
| `Shopping.LoopEnds` | src/lib.rs:252-285 | An empty list makes no call and ends `Emptied`. The loop ends `Emptied` iff the list was empty from the start or op_map left it empty after an action that did not fail as a move. It ends `MoveFailed` iff the last answer used was a move whose `go` failed (line 265) |
| `Shopping.LaterRepliesUnused` | src/lib.rs:252-285 | Unless the loop ran out of answers, more answers from op_map give the same run: the loop stops on its own exit conditions |
| `Shopping.DestroyAndPutErrorsSwallowed` | src/lib.rs:267-280 | A failed destroy or put is only logged, so the loop goes on exactly as if the action had succeeded |
| `Shopping.NoActionBreaks` | src/lib.rs:283 | With no action for a non-empty list, the loop stops after one query. The rest of the list is dropped |
| `Bmo.Bmo.PanicRoutine` | src/lib.rs:306-333 | Makes the calls of `PanicCalls`. If the roll fires, the robot becomes Sad and sends `Play(Sad)` |
| `Bmo.PanicCalls` | src/lib.rs:316-323 | Asks `go_allowed` in the chosen direction first. If that fails, nothing else is called; if it succeeds, one step in that direction follows. The step's result is not looked at |
| `Bmo.Assignments` | src/lib.rs:217-230 | The moods a tick's rolls assign, in source order: one per roll that fires. Calm and Sad roll twice; Happy and Panic roll once (lines 177-183, 326-332). The first roll assigns Calm from Happy, Sad from Calm, Calm from Sad and Sad from Panic; Calm's second roll assigns Happy and Sad's assigns Panic, last. Each assigned mood is an edge of the mood graph from the current mood |
| `Bmo.NextMood` | src/lib.rs:217-230 | Mood changes only along the edges Happy→Calm, Calm→Sad/Happy, Sad→Calm/Panic, Panic→Sad, and changes iff some roll fires. When the second roll fires, it wins: Calm goes to Happy and Sad goes to Panic (also lines 290-303). When only the first roll fires, Happy goes to Calm, Calm to Sad, Sad to Calm and Panic to Sad |
| `Bmo.Announcements` | src/lib.rs:221-229 | One `Play` of the new mood's sound for each mood assigned, in the same order, at most two, never `Stop`. Nothing is sent iff the mood is unchanged. The last command sent names the final mood |
| `Bmo.CalmBothRollsFire` | src/lib.rs:217-230 | In Calm with both rolls firing, the robot ends Happy and sends `[Play(Sad), Play(Happy)]` |
| `Bmo.SadBothRollsFire` | src/lib.rs:290-303 | In Sad with both rolls firing, the robot ends in Panic and sends `[Play(Calm), Play(Panic)]` |
| `Bmo.NoRollFires` | src/lib.rs:177-183 | With no roll firing, the mood is kept and nothing is sent |
| `Bmo.TickKeepsOutboxAgreement` | src/lib.rs:181-182 | After a finished tick the outbox still holds only `Play`s, and its last command names the new mood |
| `Bmo.WorkerEndsOnCurrentMood` | src/lib.rs:92-109 | The worker plays one asset per command the robot sent, in send order. The last asset played is the sound of the robot's current mood |
| `Bmo.WorkerHearsWholeOutbox` | src/lib.rs:92-109 | When the channel closes after the robot's commands, the worker takes exactly those commands and plays one asset for each |
| `AudioWorker.Asset` | src/lib.rs:96-100 | Every sound is played from a file under `assets/audio/` |
| `AudioWorker.AssetsDistinct` | src/lib.rs:96-100 | Different sounds are played from different files |
| `AudioWorker.Deliver` | src/lib.rs:77-93 | While a sender is alive, the channel hands the worker every sent command, one per `recv`, in send order |
| `AudioWorker.RunWorker` | src/lib.rs:92-109 | The receive loop plays `Played(Received(inbox))`: the commands up to the first failed `recv`, in order. It exits iff some `recv` fails |
| `AudioWorker.Received` | src/lib.rs:93-107 | The worker takes a prefix of the `recv` results, in order. If it stops before the end, it stops at a failed `recv` |
| `AudioWorker.Played` | src/lib.rs:95-102 | The worker plays at most one asset per command |
| `AudioWorker.PlayedAppend` | src/lib.rs:92-109 | FIFO: a stream sent as one part then another is played as the first part's assets then the second's |
| `AudioWorker.StopIsSilent` | src/lib.rs:102 | A `Stop` anywhere in the stream changes nothing that is played |
| `AudioWorker.PlayedOnlyPlays` | src/lib.rs:96-101 | A stream of `Play`s is played one asset per command, in order: happy/calm/sad/panic.mp3 for each sound |
| `AudioWorker.ReceivedUntilClose` | src/lib.rs:105-107 | After the channel closes, the worker takes exactly what was sent before the close and nothing after |
| `AudioWorker.PanicThenSad` | src/lib.rs:96-101 | `Play(Panic)` then `Play(Sad)` plays panic.mp3 and then sad.mp3 |

## Left out

- Random numbers: each `gen_bool` with its probability constant (src/lib.rs:41-46) and the random choice of a Panic direction are inputs of a tick (`first`, `second`, `dir`). The probabilities are not modelled.
- Threads and the `mpsc` channel: the channel is the append-only `outbox`, and the worker is `RunWorker` over the sequence of `recv` results. The timing between the two threads is not modelled.
- The `.unwrap()` on each send aborts the robot if the worker has already exited. The model assumes every send succeeds.
- The audio library: creating the tool (its `.unwrap()` can stop the worker thread), the looped background track at volume 0.25, and the result of each effect's playback. The worker ignores that result, so `Played` lists every playback attempt.
- The world and tool collaborators (`robot_view`, `go`, `go_allowed`, `destroy`, `put`, `lucky_spin`, the explorer, op_map) are not modelled. Their answers are inputs, and each call is recorded in `calls`. What they do to the world, the robot's energy and its backpack is not modelled.
- The explorer's direction type is modelled as the same four directions as the world's.
- Shopping.ShoppingLoop: op_map edits the shopping list itself, so the loop's termination is not visible in the source. The model runs the loop over a finite list of op_map answers. If the answers run out while the list is non-empty, the loop has not ended (`OutOfReplies`), and the tick is not finished. `LaterRepliesUnused` shows that extra answers change nothing once the loop has ended on its own.
- A failed `go` inside the Sad loop panics the robot (`expect`, src/lib.rs:265). The model ends the loop with `MoveFailed` and skips the tick's transitions.
- The 100 ms `thread::sleep` between loop iterations, and all logging (`println!`, `eprintln!`, `print_shopping_list`).
- GUI plumbing is not modelled: `send_game_info` after each tick, `handle_event` with `send_weather_info`, and the energy, coordinate and backpack accessors (src/lib.rs:137-165). These only forward data to the visualizer or expose the robot's fields to the host.
- src/main.rs (window setup, world generator, visualizer start-up, and a second random-walk robot) is not part of this model.
