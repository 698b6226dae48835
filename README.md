# 2D platformer scripts: a verified model

This project models the gameplay scripts of a small 2D platformer:

- the player's per-frame jump controller and its air-jump budget;
- the ground sensor refreshed on every physics step;
- health, changed by damage contacts and strawberry pickups, and the death trigger;
- the choice of animation clip;
- the one-shot coin pickup;
- the global pause state, shared by the pause menu (Escape and Resume) and the win flag.

Each engine script is a Dafny class. Its fields are the ones the script updates. Its callbacks (`Update`, `FixedUpdate`, `OnCollisionEnter2D`, `OnTriggerEnter2D`, `ResumeButton`) are methods with `modifies` clauses. Each method's postcondition ties the new state to a pure function of the old state: `UpdateMotion`, `Sense`, `Collide`, `Touch`, `CoinContact`, `Escape`, `Resume`, `FlagTouch`. Lemmas about these functions state what holds over any run of callbacks:

- the jump budget stays within its bounds;
- exactly N air jumps are honoured;
- health never goes above 100;
- n hits cost 25·n health and cause death exactly when health reaches 0 or below;
- one coin adds at most one to the count;
- for the time scale, the last write wins;
- the win surface never hides again.

Modules: `Engine` holds tags, game objects and the global time scale. `PlayerScript`, `CoinScript`, `PauseMenuScript` and `FlagScript` each model one script. `GlobalPause` is the pure pause machine that the pause-menu and flag scripts are specified against.

Engine inputs become parameters:

- the horizontal axis becomes `moveInput`;
- the jump and Escape key-down edges become `jumpPressed` and `escapePressed`;
- the ground overlap test becomes `overlap`;
- the colliding object's tag becomes `tag`.

Two behaviours of the code are worth spelling out:

- **Health has no lower clamp.** Player.cs:117 subtracts 25 with no lower bound, and `Die` is called when health is at or below 0 (Player.cs:120-123). The model lets health go negative and records the call in a `died` flag. The upper bound of 100 is enforced only by the strawberry pickup (Player.cs:150-151). A serialized starting health above 100 is lowered to 100 by the next strawberry.
- **The budget is refilled on every grounded `Update`, not only on landing** (Player.cs:48-51).

## Model

| member | source | states |
|---|---|---|
| PlayerScript.UpdateMotion | Assets/Scripts/Player.cs:48-66 | Grounded: the budget becomes `extraJumpValues` and a request sets vertical velocity to `jumpForce`. Airborne with budget > 0: a request sets velocity to `jumpForce` and costs exactly one unit. Airborne without an honoured request: nothing changes. The budget never grows while airborne. |
| PlayerScript.Sense | Assets/Scripts/Player.cs:73-84 | With no ground-check point the player is not grounded. Otherwise grounded equals the overlap test. Budget and velocity are unchanged. |
| PlayerScript.AnimationFor | Assets/Scripts/Player.cs:86-110 | Total classification, each case an if-and-only-if: Idle when grounded with zero input, Run when grounded with non-zero input, Jump when airborne with vy > 0, Fall when airborne with vy <= 0. |
| PlayerScript.Collide | Assets/Scripts/Player.cs:112-125 | A "Damage" contact lowers health by exactly 25, with no lower clamp. Die has been called iff it had been before or the new health is <= 0. Any other tag changes nothing. |
| PlayerScript.Touch | Assets/Scripts/Player.cs:146-154 | A "Strawberry" sets health to min(health + 20, 100), so health is <= 100 afterwards. Other tags change nothing. The death flag is never touched. |
| PlayerScript.BudgetStaysInRange | Assets/Scripts/Player.cs:48-66 | If 0 <= extraJumps <= extraJumpValues holds at the start, it holds after any interleaving of frames and physics steps. |
| PlayerScript.NoGroundCheckNeverRefills | Assets/Scripts/Player.cs:76-83 | Without a ground-check point, an airborne player stays airborne through any run. Its budget never exceeds its starting value. |
| PlayerScript.AirborneRunBudget | Assets/Scripts/Player.cs:48-83 | Over any run in which no physics step finds ground (frames without a request and physics steps anywhere in between), the player stays airborne. A budget N >= 0 ends at N − p after p <= N requests and at 0 after more. A negative budget is never changed. |
| PlayerScript.ExactlyBudgetAirJumps | Assets/Scripts/Player.cs:53-66 | Starting airborne with budget N, over any such run a request is honoured iff fewer than N requests came before it. So exactly N succeed and the (N+1)-th is refused. An honoured request sets vertical velocity to `jumpForce`. A refused one leaves the motion state unchanged. |
| PlayerScript.HealthCapHolds | Assets/Scripts/Player.cs:150-151 | health <= 100 is preserved by any sequence of damage contacts and pickups. Once Die is called it stays called. |
| PlayerScript.HitsUntilDeath | Assets/Scripts/Player.cs:117-123 | n damage hits lower health by exactly 25·n. Die has been called iff it was before or n > 0 and health - 25·n <= 0. |
| PlayerScript.Player.constructor | Assets/Scripts/Player.cs:7-28 | The public fields take the serialized values. Private fields take their defaults: zero budget, not grounded, not dead, nothing played. |
| PlayerScript.Player.Start | Assets/Scripts/Player.cs:30-40 | The budget is filled to `extraJumpValues`, so the budget range holds whenever extraJumpValues >= 0. |
| PlayerScript.Player.Update | Assets/Scripts/Player.cs:42-71 | The motion state becomes `UpdateMotion` of the old one. The animation is `AnimationFor` of the new state. The jump clip is played at volume 1 exactly when the request is honoured. |
| PlayerScript.Player.FixedUpdate | Assets/Scripts/Player.cs:73-84 | The motion state becomes `Sense` of the old one. |
| PlayerScript.Player.SetAnimations | Assets/Scripts/Player.cs:86-110 | The animator is handed `AnimationFor(isGrounded, moveInput, velocityY)`. |
| PlayerScript.Player.OnCollisionEnter2D | Assets/Scripts/Player.cs:112-125 | Health and the death flag become `Collide` of the old ones. On a "Damage" contact, vertical velocity becomes `jumpForce` (knockback) and the hurt clip plays. Otherwise velocity and sounds are unchanged. |
| PlayerScript.Player.Die | Assets/Scripts/Player.cs:134-137 | The death flag is set. |
| PlayerScript.Player.PlaySFX | Assets/Scripts/Player.cs:139-144 | Exactly one request, for the given clip at the given volume, is added to the audio source. |
| PlayerScript.Player.OnTriggerEnter2D | Assets/Scripts/Player.cs:146-154 | Health becomes `Touch` of the old value. The other object, which must not already be destroyed, is destroyed iff it is a strawberry. |
| CoinScript.CoinContact | Assets/Scripts/Coin.cs:8-13 | A "Player" contact with a coin still present adds exactly 1 to the count and destroys the coin. Any other contact, or any contact with a destroyed coin, changes nothing. |
| CoinScript.AtMostOneCoin | Assets/Scripts/Coin.cs:8-13 | Over any sequence of contacts, a coin adds exactly 1 if it was present and the player touched it, and 0 otherwise. It ends destroyed iff the player touched it or it already was. |
| CoinScript.Coin.OnTriggerEnter2D | Assets/Scripts/Coin.cs:6-15 | The coin's game object's destroyed state and the player's count become `CoinContact` of the old ones. The coin clip is played through the player at volume 0.4. The player's motion, health, death flag, configuration and animation are unchanged. |
| GlobalPause.Escape | Assets/Scripts/PauseMenu.cs:6-13 | Escape leaves the container shown and time frozen (Paused). Without Escape, nothing changes. |
| GlobalPause.Resume | Assets/Scripts/PauseMenu.cs:15-19 | Resume leaves the container hidden and the time scale at 1 (Running). |
| GlobalPause.FlagTouch | Assets/Scripts/Flag.cs:6-13 | A "Player" contact leaves the win surface shown and time frozen. Other tags change nothing. The flag never hides the surface and never writes a time scale other than 0. |
| GlobalPause.EscapeIdempotent | Assets/Scripts/PauseMenu.cs:8-12 | Pressing Escape while paused leaves the same paused state. |
| GlobalPause.EscapeThenResumeRuns | Assets/Scripts/PauseMenu.cs:8-19 | Escape followed by Resume yields the Running state. |
| GlobalPause.FlagIdempotent | Assets/Scripts/Flag.cs:8-11 | Repeated player contacts with the flag give the same state as one. |
| GlobalPause.LastWriteWins | Assets/Scripts/PauseMenu.cs:8-18 | After any run of Escape frames, Resume clicks and flag contacts (Flag.cs:11), the time scale is the value of the last write, or the initial value if nothing wrote it. |
| GlobalPause.TimeScaleStaysBinary | Assets/Scripts/PauseMenu.cs:11-18 | A time scale that starts at 0 or 1 is 0 or 1 after any run. |
| GlobalPause.WinStaysVisible | Assets/Scripts/Flag.cs:10 | Once the win surface is shown, no run hides it. |
| GlobalPause.FrozenUntilResume | Assets/Scripts/Flag.cs:11 | A frozen game stays frozen through any run without a Resume click. Neither Escape nor the flag restores time. |
| PauseMenuScript.PauseMenu.Update | Assets/Scripts/PauseMenu.cs:6-13 | The container's visibility and the time scale become `Escape` of the old ones. |
| PauseMenuScript.PauseMenu.ResumeButton | Assets/Scripts/PauseMenu.cs:15-19 | The container's visibility and the time scale become `Resume` of the old ones. |
| FlagScript.Flag.OnTriggerEnter2D | Assets/Scripts/Flag.cs:6-13 | The win surface's visibility and the time scale become `FlagTouch` of the old ones. |

## Left out

- Horizontal velocity (`moveInput * moveSpeed`, Player.cs:44-45) and the health bar fill (`health / 100f`, Player.cs:70): floating-point presentation with no effect on the modelled state.
- Vertical velocity is a `real` that the scripts only set to `jumpForce` or leave alone. Gravity and the physics integration between callbacks belong to the engine and are not modelled.
- The ground overlap test's geometry (`groundCheck.position`, `groundCheckRadius`, `groundLayer`, Player.cs:78). The test's answer is the `overlap` parameter.
- The `FlashRed` coroutine (Player.cs:127-132): a timed colour change scheduled by the engine. The behaviour of two overlapping flashes is not defined.
- Audio, animation and logging internals (`audioSource.Play`, `animator.Play`, `Debug.Log`). Only the clip and volume requested, and the clip chosen, are kept.
- Scene loading. `Die` is modelled as a `died` flag, not as the level reload. `MainMenuButton` (PauseMenu.cs:21-24) and the next-level and restart scripts (NextLevel.cs, RestartGame.cs) are not modelled. The last two also write time scale 1, so the runs in `GlobalPause` cover only the three modelled writers.
- Input polling. Key edges and the horizontal axis are parameters.
- The order in which the engine calls callbacks. `Simulate` and `Run` allow any interleaving.
- `Destroy` takes effect at the end of the frame in the engine; the model treats it as immediate. Destroyed objects take part in no further contacts. `CoinScript.Coin.OnTriggerEnter2D` requires that the coin's game object is not destroyed, and `PlayerScript.Player.OnTriggerEnter2D` requires the same of the other object. `CoinScript.CoinContact` ignores contacts with a destroyed coin.
- CoinScript.Coin.OnTriggerEnter2D: the colliding object's Player component is passed in. The script dereferences it without a null check, so a "Player"-tagged object without a Player component is not modelled.
- PlayerScript.Collide: C# `int` health is unbounded in the model. `health -= 25` (Player.cs:117) wraps around near the smallest 32-bit value in the source, and the model does not capture that.
- PlayerScript.Touch: 32-bit wrap-around of `health += 20` (Player.cs:150) is not modelled. A serialized health within 20 of the largest 32-bit value wraps to a negative number in the source and stays there, while `Touch` returns 100.
- PlayerScript.HealthCapHolds: holds for unbounded integers. In the source, enough damage contacts to wrap health past the smallest 32-bit value would break it.
- PlayerScript.HitsUntilDeath: exact for unbounded integers only. 32-bit wrap-around after about 86 million hits is not modelled.
- CoinScript.CoinContact: `coins += 1` (Coin.cs:11) wraps at the largest 32-bit value in the source, and the model does not capture that. The same applies to `CoinScript.AtMostOneCoin`.
- Float semantics for `jumpForce`, `moveInput` and the time scale: the model uses mathematical reals (no rounding, no NaN).
