# Pong core in Dafny

A model of the deterministic core of a browser Pong game written in TypeScript. The core has five parts:

- **Match state** (`MatchState`, from `GameState.ts`): player and AI scores, rounds played and the direction of the next serve. It also has a sanitising ingest path for untrusted saved records and a serialised projection.
- **Random source** (`Random`, from `random.ts`): a Park-Miller (Lehmer) generator with multiplier 48271 and modulus 2^31 - 1. A draw is the low 28 bits of the new seed divided by 2^28.
- **AI paddle controller** (`AiControl`, from `AiController.ts`): the target is latched only after a reaction delay. The paddle moves toward the target at a capped speed and snaps onto it rather than overshooting.
- **Input sampler** (`Input`, from `InputController.ts`): a set of held key names, kept lower-cased, and a ternary direction. The direction is recomputed only by the sampling step.
- **Engine** (`Engine`, from `GameEngine.ts`): the run-state machine (active, serving, pending serve) and the per-frame rules:
  - paddle clamping;
  - ball integration gated on "active and not serving";
  - wall bounce;
  - the paddle-hit guard, snap and speed cap;
  - goal detection and goal registration;
  - the serve.

Each mutable TypeScript object is a Dafny `class` whose methods carry `modifies` clauses. Each such method is specified by a pure function on immutable values:
- `PointRecorded`, `ScoresReset` and `Sanitised` for match snapshots;
- `SeedAfter`, `Draws` and `Scale` for the generator;
- `Move` for the AI step;
- `ComputeDirection` and `PlayerStep` for the player's paddle;
- `ClampPaddle`, `ServeSpeed`, `HitSpeed`, `NormalizedOffset`, `Launch` and `Rebound` for the engine's kinematics.

The lemmas state what the source promises about those functions.

Other modelling choices:
- **Serve timer.** The armed timer is the field `serveTimeout: Option<nat>`, holding the delay in milliseconds. The environment calls `FireServe` when the timer expires.
- **Callbacks.** The status and score callbacks are appended, in emission order, to the ghost log `events`.
- **Trigonometry.** `Math.cos` and `Math.sin` are the function values the engine is built with. Where the direction of a returned ball matters, the model assumes only that the cosine is positive on [-π/4, π/4] (`CosPositiveOnQuarter`).
- **Engine invariant.** `GameEngine.Valid()` holds before and after every public operation (the in-frame steps require and keep parts of it). It states:
  - the generator's state is determined by its seed and the number of draws;
  - `state.isRunning` mirrors `isActive`;
  - both paddles stay within ±`PADDLE_LIMIT`;
  - the ball speed lies in [`BALL_INITIAL_SPEED`, `BALL_MAX_SPEED`];
  - the ball stays in the table plane, between the side walls and inside the goal lines;
  - a serve is pending only while the engine is active.

`loadProgress` parks the ball and sets `isServing`, but it does not schedule a serve. When called during an active rally, it leaves the engine active with the ball parked and no serve pending. `LoadProgress`'s contract states exactly that: `serveTimeout` is unchanged and `isServing` holds.

`recordPoint` and `resetScores` keep `rounds == player + ai`. `applySerialized` does not, because it reads rounds from the record on its own; `SanitisedMayBreakConsistency` exhibits a record that breaks the equation.

## Model

| member | source | states |
|---|---|---|
| MatchState.Round | src/pong/core/GameState.ts:59 | `Math.round` yields the integer within half a unit of its argument (halves round up) |
| MatchState.SafeNumber | src/pong/core/GameState.ts:58-59 | a field that is not a finite number becomes 0; a value below one half becomes 0; otherwise the result is the nearest integer |
| MatchState.SafeServe | src/pong/core/GameState.ts:61 | the serve direction is -1 exactly when the field is exactly the number -1, and +1 otherwise |
| MatchState.PointRecorded | src/pong/core/GameState.ts:33-43 | a point adds one round and one point to the winner, leaves the loser's score alone, and sets the serve direction to +1 for a player point and -1 for an AI point |
| MatchState.Sanitised | src/pong/core/GameState.ts:53-69 | the ingest function: its properties are stated by `SanitisedAbsent`, `SanitisedFields`, `SanitisedExact` and `SerializedRoundTrip` |
| MatchState.Serialized | src/pong/core/GameState.ts:71-78 | the persisted record of a snapshot; `SerializedRoundTrip` states that ingesting it gives the snapshot back |
| MatchState.RoundOfInteger | src/pong/core/GameState.ts:59 | rounding an integer yields that integer |
| MatchState.PointPreservesConsistency | src/pong/core/GameState.ts:33-43 | recording a point keeps `rounds == player + ai` |
| MatchState.ResetIsConsistent | src/pong/core/GameState.ts:45-51 | the reset state is {0, 0, 0, +1} and satisfies `rounds == player + ai` |
| MatchState.SanitisedAbsent | src/pong/core/GameState.ts:54-56 | ingesting an absent record changes nothing |
| MatchState.SanitisedFields | src/pong/core/GameState.ts:58-66 | after ingest, each count is 0 for a missing, non-numeric, non-finite or negative field and the rounded value otherwise; the serve direction is -1 exactly for the number -1 |
| MatchState.SanitisedExact | src/pong/core/GameState.ts:58-66 | a record of non-negative integers and a valid serve direction is stored exactly |
| MatchState.SerializedRoundTrip | src/pong/core/GameState.ts:53-78 | ingesting `toJSON()` of a snapshot reproduces that snapshot, whatever the current state |
| MatchState.SanitisedMayBreakConsistency | src/pong/core/GameState.ts:63-65 | ingest takes rounds from the record independently, so `rounds == player + ai` can fail after it |
| MatchState.TwoGoalsScenario | src/pong/core/GameState.ts:33-43 | from a fresh match, a player goal gives {1, 0, 1, +1} and a following AI goal gives {1, 1, 2, -1} |
| MatchState.SanitisedExamples | src/pong/__tests__/GameState.test.ts:28-56 | the unit tests' two ingest scenarios: {4, 3, 7, -1} is stored as given; {-10, NaN, NaN, 0} becomes {0, 0, 0, +1} |
| MatchState.GameState.constructor | src/pong/core/GameState.ts:17-22 | a new match state holds {0, 0, 0, +1} and is not running |
| MatchState.GameState.Snapshot | src/pong/core/GameState.ts:24-31 | a read-only projection of the four fields |
| MatchState.GameState.ToJSON | src/pong/core/GameState.ts:71-78 | a read-only projection: `Serialized` of the snapshot |
| MatchState.GameState.RecordPoint | src/pong/core/GameState.ts:33-43 | the new snapshot is `PointRecorded` of the old one and is returned; the running flag is untouched |
| MatchState.GameState.ResetScores | src/pong/core/GameState.ts:45-51 | the new snapshot is {0, 0, 0, +1} whatever came before, and it is returned |
| MatchState.GameState.ApplySerialized | src/pong/core/GameState.ts:53-69 | the new snapshot is `Sanitised` of the old one and the record; an absent record leaves the object unchanged |
| Random.NextSeed | src/pong/core/random.ts:12 | the seed update stays in [0, 2^31 - 1) |
| Random.Output | src/pong/core/random.ts:13 | a draw lies in [0, 1) and equals the seed's low 28 bits divided by 2^28 |
| Random.SeedAfter | src/pong/core/random.ts:11-14 | after at least one draw the seed is below the modulus |
| Random.Draws | src/pong/core/random.ts:11-14 | the first `n` draws of a seed form a sequence of length `n` whose values all lie in [0, 1) |
| Random.DrawsPrefix | src/pong/core/random.ts:11-14 | drawing more values never changes those already drawn |
| Random.DrawAt | src/pong/core/random.ts:11-14 | the i-th draw is the output of the seed after i + 1 updates, a function of the construction seed alone |
| Random.Scale | src/pong/core/random.ts:16-18 | `min + (max - min) * u` lies in [min, max) when min < max, and is `min` when they are equal |
| Random.ScaleBounds | src/pong/core/random.ts:17 | a fraction in [0, 1) of a positive width lies in [0, width) |
| Random.FixSeed | src/pong/core/random.ts:4-8 | a seed that is not positive is replaced by 1; a positive seed is kept |
| Random.SameSeedSameDraws | src/pong/core/random.ts:4-14 | two generators built with the same seed that have drawn equally often hold the same seed and drew the same values |
| Random.RandomGenerator.constructor | src/pong/core/random.ts:4-9 | the stored seed is the fixed-up seed, and nothing has been drawn |
| Random.RandomGenerator.Next | src/pong/core/random.ts:11-14 | the seed advances by one update, the returned value is the new seed's output in [0, 1), and it is appended to the draw log |
| Random.RandomGenerator.Range | src/pong/core/random.ts:16-18 | exactly one value is drawn; the result is `Scale(min, max, draw)` and lies in [min, max) when min < max |
| AiControl.Sign | src/pong/core/AiController.ts:22 | `Math.sign` yields 1 for a positive value, -1 for a negative one and 0 for zero, and sign times value is the absolute value |
| AiControl.AiController.constructor | src/pong/core/AiController.ts:1-10 | the speed cap and delay are the arguments; the accumulator and target start at 0 |
| AiControl.AiController.UpdateTarget | src/pong/core/AiController.ts:12-18 | once `acc + dt` reaches the delay, the target becomes the ball's z and the accumulator resets to 0; otherwise the target is kept and the accumulator grows by dt; with dt >= 0 and a positive delay the accumulator stays in [0, delay) |
| AiControl.AiController.Move | src/pong/core/AiController.ts:20-30 | the result is the target when one step reaches or passes it (including when already there), otherwise exactly one step of `maxSpeed * dt` toward it; it never moves further than one step and never passes the target; it reads the controller and writes nothing |
| AiControl.StepSize | src/pong/core/AiController.ts:22-23 | a step signed by a non-zero sign keeps its size; a zero sign gives a zero step |
| Input.LowerChar | src/pong/core/InputController.ts:33 | lower-casing maps A-Z to a-z, keeps other characters, and never yields an upper-case letter |
| Input.Lower | src/pong/core/InputController.ts:33 | lower-casing a key name keeps its length and lower-cases each character |
| Input.LowerIdempotent | src/pong/core/InputController.ts:33-37 | lower-casing twice is lower-casing once, so a lower-cased name is its own entry |
| Input.KeyNamesIgnoreCase | src/pong/core/InputController.ts:33-37 | `'W'` and `'w'` (and `'ArrowUp'` and `'arrowup'`) name the same entry |
| Input.InputController.constructor | src/pong/core/InputController.ts:3-8 | no key is held, the direction is 0, and nothing is attached |
| Input.InputController.ComputeDirection | src/pong/core/InputController.ts:45-56 | -1 exactly when an up key and no down key is held; +1 exactly when a down key and no up key is held; 0 exactly when both or neither are held |
| Input.InputController.GetDirection | src/pong/core/InputController.ts:58-60 | the direction stored by the last sampling step; key events do not change it (`HandleKeyDown`, `HandleKeyUp`) |
| Input.InputController.UpdateLoop | src/pong/core/InputController.ts:40-43 | the stored direction becomes the computed one, and the next frame is requested |
| Input.InputController.Connect | src/pong/core/InputController.ts:10-18 | a second call while attached changes nothing; a first call attaches and runs one sampling step |
| Input.InputController.Disconnect | src/pong/core/InputController.ts:20-30 | afterwards no key is held, the direction is 0, nothing is attached and no frame is pending |
| Input.InputController.HandleKeyDown | src/pong/core/InputController.ts:32-34 | the lower-cased key is added to the held set; the stored direction does not change |
| Input.InputController.HandleKeyUp | src/pong/core/InputController.ts:36-38 | the lower-cased key is removed and is no longer held; the stored direction does not change |
| Engine.Clamp | src/pong/core/GameEngine.ts:251 | clamping yields a value in [lo, hi]; a value already inside is kept; a value beyond either end yields that end |
| Engine.ClampPaddle | src/pong/core/GameEngine.ts:331-334 | the result lies in [-L, L] with L = `EFFECTIVE_HALF_WIDTH - PADDLE_HALF_DEPTH`; it is the identity inside that range and the nearer bound outside it |
| Engine.PlayerStep | src/pong/core/GameEngine.ts:227-231 | the player's paddle moves by `direction * PADDLE_SPEED * dt` whenever that stays in range, never leaves the range, stays put when no key is held, and with dt >= 0 moves only in the key's direction |
| Engine.ServeSpeed | src/pong/core/GameEngine.ts:452 | the serve speed is `INITIAL + INCREMENT * rounds * 0.35` when that is at most the cap and the cap otherwise; it lies between the initial and the maximum speed |
| Engine.ServeSpeedMonotone | src/pong/core/GameEngine.ts:452 | later rounds never serve slower |
| Engine.HitSpeed | src/pong/core/GameEngine.ts:289 | a hit adds exactly one increment when that stays at or below the cap and yields the cap otherwise; it never slows the ball and never exceeds the cap |
| Engine.NormalizedOffset | src/pong/core/GameEngine.ts:286-287 | the hit offset lies in [-1, 1]; inside the paddle's half depth it is the lateral distance scaled by that half depth; beyond either end it is ±1 |
| Engine.ServeAngle | src/pong/core/GameEngine.ts:458 | the serve angle lies in [-π/5, π/5) |
| Engine.Spin | src/pong/core/GameEngine.ts:299 | the spin lies in [-0.12, 0.12) |
| Engine.PaddleFront | src/pong/core/GameEngine.ts:258-260 | the forward position of a paddle's striking face, offset by half the paddle width and the ball radius |
| Engine.Hits | src/pong/core/GameEngine.ts:262-280 | the three hit conditions: approaching, at or past the front, within lateral reach |
| Engine.Launch | src/pong/core/GameEngine.ts:459-463 | a serve's velocity: `speed` along `angle`, signed forward by the heading; `LaunchHeading` states its direction |
| Engine.Rebound | src/pong/core/GameEngine.ts:290-302 | a return's velocity: deflected by the offset times 45 degrees, plus spin; `ReboundRecedes` states it moves away |
| Engine.LaunchHeading | src/pong/core/GameEngine.ts:290-297 | with a positive speed and an angle within 45 degrees, the launch's forward velocity has the sign of its heading |
| Engine.ReboundRecedes | src/pong/core/GameEngine.ts:286-302 | a returned ball moves away from the paddle that hit it |
| Engine.GameEngine.constructor | src/pong/core/GameEngine.ts:52-75 | (with the actor placement of `createActors`, GameEngine.ts lines 406-419) a new engine is idle and serving, with no pending serve, fresh scores, the ball parked at the origin at the initial speed, both paddles centred and an empty callback log |
| Engine.GameEngine.EmitStatus | src/pong/core/GameEngine.ts:474-476 | one status callback carrying the current active and serving flags is appended |
| Engine.GameEngine.EmitScore | src/pong/core/GameEngine.ts:317 | one score callback is appended |
| Engine.GameEngine.Start | src/pong/core/GameEngine.ts:144-154 | a no-op when already active; otherwise the engine becomes active and running; if serving, a 350 ms serve is pending with the ball parked and still; otherwise the rally resumes untouched |
| Engine.GameEngine.Pause | src/pong/core/GameEngine.ts:156-166 | a no-op when neither flag is set; otherwise the engine is inactive and not running, with zero velocity, no pending serve and serving set |
| Engine.GameEngine.ToggleStart | src/pong/core/GameEngine.ts:168-174 | flips `isActive`: an active engine is paused (zero velocity, no pending serve, serving, ball kept, one status event); an idle serving engine gets a 350 ms serve with the ball parked; an idle rally resumes untouched; paddles, speed and scores are kept |
| Engine.GameEngine.ResetMatch | src/pong/core/GameEngine.ts:176-185 | the engine is paused and parked at the initial speed, the scores are reset when asked and kept otherwise, and the resulting snapshot is reported |
| Engine.GameEngine.SaveProgress | src/pong/core/GameEngine.ts:187-189 | the record handed to storage is the serialised snapshot |
| Engine.GameEngine.LoadProgress | src/pong/core/GameEngine.ts:191-196 | the snapshot becomes `Sanitised` of the given record, or of the stored one when none is given; the actors are parked and serving; the run flags and pending serve are kept |
| Engine.GameEngine.Update | src/pong/core/GameEngine.ts:214-225 | both paddles move by their rules every frame; the ball, its speed, the serve flags, the scores and the generator change only while active and not serving; the score changes by at most one point |
| Engine.GameEngine.UpdatePlayerPaddle | src/pong/core/GameEngine.ts:227-231 | the player's paddle moves by `PlayerStep` in the sampled direction |
| Engine.GameEngine.UpdateAiPaddle | src/pong/core/GameEngine.ts:233-237 | the AI target is updated from the ball's z, and the paddle moves to the clamped `Move` result |
| Engine.GameEngine.UpdateBall | src/pong/core/GameEngine.ts:239-246 | integration and the three collision rules keep the invariant, leave the paddles alone and change the score by at most one point |
| Engine.GameEngine.HandleWallBounces | src/pong/core/GameEngine.ts:248-254 | at or beyond a side wall, the ball's z is clamped to the wall and its z-velocity negated; otherwise nothing changes; afterwards z lies within the walls |
| Engine.GameEngine.HandlePaddleCollision | src/pong/core/GameEngine.ts:256-281 | nothing changes and nothing is drawn unless the ball approaches the paddle, has reached its front and is within lateral reach; in that case the ball is returned |
| Engine.GameEngine.ReturnBall | src/pong/core/GameEngine.ts:282-302 | the ball is snapped to the paddle front, sped up by `HitSpeed`, and given the `Rebound` velocity for its normalised offset plus one spin draw; with a cosine positive on [-π/4, π/4] it then moves away from that paddle |
| Engine.GameEngine.HandleGoals | src/pong/core/GameEngine.ts:305-313 | x < -limit scores for the AI, x > limit for the player, and otherwise nothing changes |
| Engine.GameEngine.RegisterGoal | src/pong/core/GameEngine.ts:315-329 | one point and one round are recorded for the winner and reported; the ball is parked and still, serving is set, and an 800 ms serve is scheduled only when active |
| Engine.GameEngine.PlaceActorsAtOrigin | src/pong/core/GameEngine.ts:423-430 | the ball is parked and still, both paddles centred, serving set, and one status callback appended |
| Engine.GameEngine.ScheduleServe | src/pong/core/GameEngine.ts:432-446 | any pending serve is replaced by one with the given delay; the ball is parked and still and serving is set |
| Engine.GameEngine.FireServe | src/pong/core/GameEngine.ts:440-445 | the timer is consumed and the ball and paddles are kept; while inactive nothing else changes and nothing is drawn; while active the serve is performed as `Served` states (speed, draws, launch velocity, status event) |
| Engine.GameEngine.PerformServe | src/pong/core/GameEngine.ts:448-465 | `Served`: serving is cleared and the speed becomes `ServeSpeed(rounds)`; the first serve of a match draws a random heading and later ones use the stored serve direction; the velocity is a launch at a drawn angle; one status event |
| Engine.GameEngine.ServeHeading | src/pong/core/GameEngine.ts:454-456 | with rounds == 0, one draw gives +1 above one half and -1 otherwise; with rounds > 0 the stored serve direction is used and nothing is drawn |
| Engine.GameEngine.ClearServeTimeout | src/pong/core/GameEngine.ts:467-472 | afterwards no serve is pending |

## Left out

- Rendering: the Three.js scene, renderer, camera, lights, meshes, `init`, `dispose` and resize handling. Only the numeric positions of the ball and paddles are kept, as reals. The serving flag and the per-frame update assume `init` has built the meshes, so `update`'s early return for missing meshes is not modelled.
- `init`'s restore step from storage sets the ball speed to `INITIAL + INCREMENT * rounds` without the cap. It is part of `init` and is not modelled. Every serve recomputes the speed before the ball moves.
- Animation-frame loops: the engine's `startLoop` and the input sampler's `requestAnimationFrame`. `UpdateLoop` is one explicit sampling step, and the frame handle is the flag `frameRequested`.
- `window.setTimeout` and `clearTimeout`: real timing is out of scope. When it fires, the source leaves the stale handle in `serveTimeout`, which makes a later `clearTimeout` a no-op. The model clears it.
- DOM listeners and `document.hidden`: the visibility handler is just a call to `Pause`. Key events are modelled as direct calls to `HandleKeyDown` and `HandleKeyUp`, whether or not listeners are attached.
- Seeding from `Date.now()`: a clock reading; the seed is a parameter. Also left out are a fractional seed and float inexactness in `seed * 48271` once the product exceeds 2^53. The model's seeds are integers with exact arithmetic.
- Random.Output: models `seed & 0xfffffff` as `seed % 2^28`. The two agree on every seed the generator holds after its first draw, because that seed lies in [0, 2^31).
- Random.Scale: promises nothing when `max < min`. The engine only calls `range` with min < max.
- IEEE floating point: all positions, speeds and angles are reals. `Math.cos` and `Math.sin` are parameters; only their positivity on [-π/4, π/4] is assumed, and only where a returned ball's direction is stated. `Math.PI` is the decimal constant 3.141592653589793.
- Input.Lower: lower-cases only ASCII letters. `toLowerCase` on other Unicode characters is not modelled, and the key names the game reacts to are ASCII.
- `GameStorage`: a wrapper over `localStorage` and `JSON`, not part of this model. `LoadProgress` takes what storage yields as the parameter `stored`. `SaveProgress` returns the record instead of writing it.
- Untrusted records: a falsy non-null value (`0`, `""`, `false`) behaves like an absent record, and a truthy non-object like a record whose fields are all missing. Both are expressed through `Option<UntrustedRecord>` and `Field`, not as separate runtime types.
- Engine.GameEngine.UpdateBall: its contract states the invariant, the untouched paddles and the at-most-one-point score change. It does not state the position after integration. The exact effect of each collision rule is stated on `HandleWallBounces`, `HandlePaddleCollision`, `ReturnBall` and `HandleGoals`.
- Engine.GameEngine.Update: states the score change through `UpdateBall`'s disjunction (unchanged, or one point to either side), not which side scored in a given frame.
