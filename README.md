# LEGO Mindstorms "talking hammer": skill turn handler and gadget bookkeeping

This project models the two small state machines of a voice-controlled LEGO
robot: the skill backend (`alexa/index.js`), which classifies each request and
updates a flat session-attribute bag, and the brick (`lego/hammer.py`), which
tracks its heading, its position in a 6×6 patrol square and its mode flags.

**Skill** (`wrappers.dfy`, `js_values.dfy`, `skill_types.dfy`, `classifier.dfy`, `handlers.dfy`).
- A request is classified by the handlers' `canHandle` predicates in registration order; the first match wins (`Classifier.Classify`).
- The session-attribute bag is the class `Handlers.SessionAttributes`. Its fields are the nine attributes `endpointId`, `token`, `duration`, `speed`, `speedQ`, `command`, `all`, `patrol` and `enemiesNumeber`. An attribute never written is `None`.
- Each `handle` is a method that writes those fields one at a time and returns a `Response`. A response holds a spoken message, the directives and the `shouldEndSession` flag.
- JavaScript's loose typing is modelled explicitly in `JsValues`: truthiness, `||` defaults, `==` and `>` against numbers, and `x - 1` on a string.
- The smash intent reads an undeclared variable, `enemiesNumber` (the declared one is `enemiesNumeber`).
  - The test at `alexa/index.js:238` raises when neither `patrol` nor `all` was asked for.
  - The spoken text at `:248` raises for a count above one. By then `command` has already been set to patrol at `:244`.
  - Both cases are modelled as `Failure(ReferenceError)` and go to the generic error handler. The bag keeps the attributes written before the exception.
- Where the intended design and the code differ, the model follows the code:
  - The "smash immediately" branch of the smash intent is never reached.
  - Set-speed answers "speed set to X" for every non-empty qualifier, including unknown ones. Only a missing or empty qualifier gets the "specify a valid speed" reply.
  - A count slot of "0" is truthy. So a Smash event in attack-all mode stores -1.

**Gadget** (`gadget.dfy`).
- The class `Gadget.MindstormsGadget` holds `index`, `pointing`, `positionX`, `positionY`, `patrol_mode`, `enemy_not_detected` and a log of the custom events sent.
- Its invariant `Valid()` says three things: the heading index is in 0..3, `pointing` names that heading, and the position is within ±3 on both axes.
- The constructor establishes `Valid()` and every method preserves it.
- Only `CalculateInZone` may write the position.

## Model

| member | source | states |
|---|---|---|
| `JsValues.Truthy` | alexa/index.js:369 | JavaScript truthiness; the only truthy values that are numerically zero are non-empty strings such as "0" |
| `JsValues.LooselyEquals` | alexa/index.js:245 | `v == k` holds only when `v` converts to `k`; it then excludes `v > k`, and for `k != 0` implies truthiness |
| `JsValues.GreaterThan` | alexa/index.js:329 | `v > k` is false for anything converting to NaN; above a non-negative bound the value is truthy |
| `JsValues.MinusOne` | alexa/index.js:370 | `v - 1` is a number or NaN, and is above `k` exactly when `v` was above `k + 1` |
| `JsValues.OrZero` | alexa/index.js:316 | replacing a falsy value by 0 changes neither truthiness nor the `> 0` test, and never yields undefined or NaN |
| `Classifier.EventsCanHandle` | alexa/index.js:283-307 | matches exactly when the request is EventsReceived, its token equals the session token and its first event's endpoint equals the stored endpoint; raises only on an empty event list after the token check passed; never matches a stored `[]` endpoint |
| `Classifier.CanHandle` | alexa/index.js:32-444 | each handler's predicate only reads the session; only the events predicate can raise, and only the events predicate matches an EventsReceived request |
| `Classifier.FirstMatch` | alexa/index.js:502-519 | the position of the first handler whose predicate does not answer false; every earlier one answers false |
| `Classifier.Classify` | alexa/index.js:505-519 | a chosen handler is registered, its predicate matched and every handler registered before it answered false; no handler is found exactly when every predicate answers false |
| `Classifier.FirstMatchAt` | alexa/index.js:505-519 | first-match search lands on any position whose predicate answers when all earlier ones answer false |
| `Classifier.ChosenIffOwnPredicate` | alexa/index.js:505-514 | a specific handler is chosen if and only if its own predicate matches (the specific predicates exclude each other) |
| `Classifier.UncorrelatedEventFallsThrough` | alexa/index.js:294-305 | an event whose token or endpoint does not match the session reaches no handler |
| `Classifier.OtherIntentsGoToCommon` | alexa/index.js:515-518 | intents not named by a specific handler go to the shared handlers registered last |
| `Handlers.EndpointOrEmpty` | alexa/index.js:171 | the stored endpoint with the empty-array default yields a device only when one is stored |
| `Handlers.EndpointFromId` | alexa/index.js:68 | the first endpoint's id is stored when non-empty, the empty array otherwise |
| `Handlers.SpeedOrDefault` | alexa/index.js:169 | the speed with its default of 50 is never zero and keeps any stored non-zero speed |
| `Handlers.StepsOrDefault` | alexa/index.js:163 | steps default to "1" and are never empty |
| `Handlers.DurationOrZero` | alexa/index.js:418 | the duration with its default of 0 is either 0 or the stored duration |
| `Handlers.FlagOrFalse` | alexa/index.js:317-318 | a flag with its default of false is true exactly when the stored flag is true |
| `Handlers.SpeedFor` | alexa/index.js:114-131 | the speed is 10, 50 or 100; 100 exactly for "fast", 10 exactly for "slow", 50 for everything else including a missing qualifier |
| `Handlers.HandleLaunch` | alexa/index.js:35-98 | no endpoint: nothing written, no timer; otherwise the first endpoint, duration 10 and the request id as token are stored and exactly one 60000 ms timer directive carries that token |
| `Handlers.HandleSetSpeed` | alexa/index.js:109-143 | stores the selected speed (50 when the qualifier is missing) and the qualifier verbatim; "specify a valid speed" only for a missing or empty qualifier; no directive |
| `Handlers.HandleMove` | alexa/index.js:153-202 | "brake" sets all=false, enemiesNumeber=0, patrol=false, command=""; any other direction writes nothing; exactly one moveSteps directive with steps defaulting to "1" and speed to 50 |
| `Handlers.HandleSmashIntent` | alexa/index.js:212-278 | always stores the raw count and all/patrol flags; with patrol or all asked for it sets command=patrol and sends a patrol directive unless a count above one raises; otherwise it raises before writing command, so it never sends smash |
| `Handlers.HandleEvents` | alexa/index.js:308-400 | Proximity in patrol mode with all or a positive count smashes and sets command=smash, otherwise sets command="elimination?" and keeps the session open; Smash in combat mode decrements a truthy count, sets command=patrol and sends patrol, otherwise changes nothing; other events change nothing |
| `Handlers.HandleExpired` | alexa/index.js:407-436 | the token always becomes the request id; with ticks left the duration drops by exactly one and a 60000 ms timer is re-armed; otherwise the session ends with a goodbye and the duration is unchanged |
| `Handlers.HandleYesNo` | alexa/index.js:445-499 | outside "elimination?" nothing changes and no directive is sent; in it yes smashes and sets command=smash, no sends moveSteps backwards 3 at 50 and clears command; both keep the session open |
| `Handlers.Dispatch` | alexa/index.js:505-524 | the handler classification chooses is the one that runs; with no handler, a raising predicate or a shared handler the bag is untouched; only the smash intent can fail with a ReferenceError |
| `Handlers.ExpiryCountsDown` | alexa/index.js:414-435 | from one remaining tick, one expiry leaves 0 and re-arms the timer, the next ends the session with a goodbye |
| `Handlers.LaunchAcceptsItsGadgetEvents` | alexa/index.js:67-76 | after a launch that found a device, that device's events carrying the launch request id are dispatched to the events handler |
| `Gadget.NewIndex` | lego/hammer.py:278-284 | the result is always in 0..3, and for a heading in 0..3 and an offset in {-1,0,1} it is (index+offset) mod 4 |
| `Gadget.HeadingIndex` | lego/hammer.py:292 | `direction.index(w)` is the position of the word in the heading list |
| `Gadget.TargetByHeading` | lego/hammer.py:292-306 | the target moves `steps` along the resulting heading: forward +y, backward -y, left -x, right +x |
| `Gadget.TurnedIndex` | lego/hammer.py:170-182 | a left word turns the heading back one position mod 4, a right word forward one, any other word keeps it |
| `Gadget.WordListsDisjoint` | lego/hammer.py:40-45 | no word belongs to two direction lists, so at most one branch of a move fires |
| `Gadget.PatrolMoveFacesItsTarget` | lego/hammer.py:263-271 | for every patrol word the zone check's heading equals the heading the move leaves the robot facing |
| `Gadget.MindstormsGadget.constructor` | lego/hammer.py:76-85 | starts at (0,0) facing forward, not patrolling, watching for enemies |
| `Gadget.MindstormsGadget.CalculateInZone` | lego/hammer.py:286-319 | a target outside the ±3 square reports true and leaves the position; otherwise the position becomes the target and it reports false; heading untouched; the square invariant is kept |
| `Gadget.MindstormsGadget.MoveSteps` | lego/hammer.py:154-192 | left/right words turn the heading with `pointing` kept in step; stop words clear patrol_mode and enemy_not_detected; forward, backward and pause words change no field |
| `Gadget.MindstormsGadget.OnControl` | lego/hammer.py:117-152 | moveSteps sets enemy_not_detected before moving (so stop leaves it false); patrol sets both flags; smash logs exactly one Smash event and sets enemy_not_detected; a missing key leaves what was already set |

## Left out

- Transport and the voice platform SDK are not modelled: request parsing, response building and the Lambda entry point. Requests and responses are datatypes.
- The device-directory lookup is a network call. Its result is an input of the launch request (a list of optional endpoint ids). A failing lookup, which would go to the generic error handler, is not modelled.
- The `util` and `common` modules are not part of this model.
  - `build` and `buildStartEventHandler` become directive constructors, and `putSessionAttribute` a field write.
  - The shared handlers are assumed to match any intent and the session-ended request. They appear only as the opaque `Delegated` outcome.
  - The request interceptor is not modelled.
- The generic error handler appears only as the `Failed` outcome.
- Speech is an enumeration of message kinds. The SSML, voice and audio markup, the `REPLACE_ALL` play behaviour, the APL document, the picture URL and the console logging are not modelled.
- Session attributes are not carried between turns as JSON. That would turn a stored NaN into null, but both read back as 0 through `|| 0`, so the difference is invisible here.
- Conversion of strings to numbers covers the empty string and decimal digit strings, which is what a number slot delivers. Signs, decimal points, surrounding blanks and hexadecimal forms are treated as NaN. `undefined` and `null` are one value; they differ only in `null - 1` and `null > k` for negative `k`, and neither occurs here.
- The event token and the first event's endpoint id are always present strings, as the platform sends them.
- `JsValues.Truthy`, `JsValues.GreaterThan` and the other JavaScript helpers state properties of the operators rather than restating JavaScript's full conversion tables.
- Handlers.Dispatch: states which handler runs and when the bag is left untouched, but not the new bag. Each handler method states that.
- The gadget's threads are not modelled: the patrol loop with its random choices and retries, the proximity monitor and the sleeps. Neither are the motors, LEDs, sound, the infrared sensor, the connection callbacks, the `AlexaGadget` base class or the start-up block.
- Sending a custom event appends its name to `sentEvents`. The `{'Smashed': 1}` payload is not recorded.
- JSON decoding of the directive payload is not modelled. The payload is given as the set of keys present, with `steps` and `speed` already converted by `int()`. A value `int()` rejects (ValueError, which the handler does not catch) is not modelled.
- Gadget.MindstormsGadget.CalculateInZone: requires a heading word. `list.index` raises ValueError for any other word, and the only caller passes patrol words, which are all heading words.
