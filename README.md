# Hallway lights controller: lighting-control state

This Dafny project models the lighting-control state of the SmartHallwayLights
firmware for ESP32 (`src/main.cpp`) and proves properties of it. The state has
four parts:

- three module-level variables: `blinkInterval` (1000 ms at boot), `pwmValue`
  (the percentage chosen by the last `/pwmN` route, 0 at boot) and `testingPWM`
  (the self-test request flag, false at boot);
- the duty register of LEDC channel 0. This is a 13-bit channel. The firmware
  writes 8192 (2^13) for 100 %.

The model is the class `HallwayLights.Controller`. Its fields are those
variables plus `duty`, the value last written to the channel. A ghost field
`writes` keeps a log of every value written through `setPWMDutyCycle`. The
object invariant `Valid()` says three things:

- `duty` is the last entry of the log;
- every logged duty lies in [0, 8192];
- `pwmValue` is a percentage.

Three kinds of behaviour act on this state:

- **Boot.** The constructor sets the initial values and writes duty 0, as
  `setup()` does.
- **Route handlers.** `Handle` takes a `Route`: `/blink250ms`, `/blink2000ms`,
  `/pwmN` for N in {0, 1, 5, 10, 15, 20, 30, 50, 100}, or `/testPWM`. It performs
  the fixed update of that route's handler and nothing else. The duty each
  `/pwmN` handler writes is hard-coded. `HandlerDuty` keeps those constants as
  written, and its contract proves that each one is `DutyOf(N)`. `DutyOf(N)` is
  N * 8192 / 100 rounded to the nearest integer, with halves rounding up. The
  table rounds rather than truncates: 5 % is written as 410, while truncation
  would give 409.
- **Self-test sweep.** `SweepIteration` is one pass of the endless loop in
  `cyclePWMTask`. If `testingPWM` is raised, two counting loops write the duty,
  `SweepUp` and `SweepDown`:
  - upward: 0, 82, …, 8118 (100 values);
  - downward: 8192, 8110, …, 74 (100 values).

  Then the flag is lowered. If the flag is not raised, nothing changes. The
  sweep never touches `pwmValue` or `blinkInterval`.

Because 8192 is not a multiple of 82, the sweep leaves the channel at duty 74.
That is not 0, and it is not the duty of any percentage. So after a sweep the
register no longer matches `pwmValue`. The model proves this about the code as
written and does not change it.

All integers are unbounded. The source stores `blinkInterval` and `pwmValue` as
32-bit `unsigned long` and the duty as `int`. Every value the code assigns lies
in [−8, 8200] (the sweep's loop variable reaches 8200 and −8 on the steps that
end its loops), far inside a 32-bit `int`, so no wrap-around can occur and none
is modelled.

## Model

| member | source | states |
|---|---|---|
| `HallwayLights.DutyOf` | src/main.cpp:7 | The percent-to-duty map of the 13-bit channel: for a percentage in [0, 100], the result lies in [0, 8192], is the nearest integer to N * 8192 / 100 (100·d − N·8192 lies within ±50), and 100 % gives 8192 |
| `HallwayLights.DutyOfIncreasing` | src/main.cpp:96-157 | A strictly higher percentage gives a strictly higher duty |
| `HallwayLights.DutyOfSkipsBelowOnePercent` | src/main.cpp:251-255 | No percentage maps to a duty strictly between 0 and 82, so the sweep's final duty 74 (8192 mod 82) is the duty of no percentage |
| `HallwayLights.Percent` | src/main.cpp:99-155 | The N stored in `pwmValue` by each `/pwmN` handler is a percentage (≤ 100) |
| `HallwayLights.HandlerDuty` | src/main.cpp:98-154 | The duty hard-coded in each `/pwmN` handler equals the rounded duty `DutyOf(N)` and lies in [0, 8192] |
| `HallwayLights.HandlerDutyMonotonic` | src/main.cpp:96-157 | Across the `/pwmN` routes the written duty is strictly increasing in N, orders exactly as N does, and distinct routes have distinct N |
| `HallwayLights.UpSweepFrom` | src/main.cpp:246-250 | The values the upward loop started at d writes; every one lies between d and 8192 |
| `HallwayLights.DownSweepFrom` | src/main.cpp:251-255 | The values the downward loop started at d writes; every one lies between 0 and d |
| `HallwayLights.UpSweep` | src/main.cpp:246-250 | The values the upward loop of `cyclePWMTask` writes, starting at 0; all lie in [0, 8192] |
| `HallwayLights.DownSweep` | src/main.cpp:251-255 | The values the downward loop of `cyclePWMTask` writes, starting at 8192; all lie in [0, 8192] |
| `HallwayLights.UpSweepFromShape` | src/main.cpp:246-250 | The upward loop started at d writes d + 82·i for each i, and writes (8192 − d) / 82 + 1 values when d ≤ 8192, none otherwise |
| `HallwayLights.DownSweepFromShape` | src/main.cpp:251-255 | The downward loop started at d writes d − 82·i for each i, and writes d / 82 + 1 values when d ≥ 0, none otherwise |
| `HallwayLights.UpSweepFacts` | src/main.cpp:246-250 | The upward sweep writes exactly the multiples of 82 from 0 to 8118: 100 values, strictly ascending, all in [0, 8192] |
| `HallwayLights.DownSweepFacts` | src/main.cpp:251-255 | The downward sweep writes 8192 − 82·k for k = 0..99: 100 values, strictly descending, all in [0, 8192], the last being 74 = 8192 mod 82, not 0 |
| `HallwayLights.Controller.constructor` | src/main.cpp:14-16 | Boot state: `blinkInterval` = 1000, `pwmValue` = 0, `testingPWM` = false; the only write so far is duty 0 (the `setPWMDutyCycle(0)` of `setup`, line 36); the invariant holds |
| `HallwayLights.Controller.SetPwmDutyCycle` | src/main.cpp:235-238 | Writing a duty appends it to the write log and makes it the register value; the three globals are unchanged |
| `HallwayLights.Controller.Handle` | src/main.cpp:84-163 | `/blink250ms` and `/blink2000ms` only set `blinkInterval` to 250 or 2000; `/pwmN` writes exactly one duty, `DutyOf(N)`, sets `pwmValue` to N and leaves `blinkInterval` and `testingPWM` alone; `/testPWM` only raises `testingPWM` and writes no duty; the invariant is kept |
| `HallwayLights.Controller.SweepUp` | src/main.cpp:246-250 | The upward loop appends exactly `UpSweep()` to the write log, keeps the invariant, and leaves `pwmValue`, `blinkInterval` and `testingPWM` unchanged |
| `HallwayLights.Controller.SweepDown` | src/main.cpp:251-255 | The downward loop appends exactly `DownSweep()` to the write log, keeps the invariant, and leaves `pwmValue`, `blinkInterval` and `testingPWM` unchanged |
| `HallwayLights.Controller.SweepIteration` | src/main.cpp:240-260 | With `testingPWM` raised, one pass appends the upward and then the downward sweep to the log. It leaves the duty at 74, which no longer matches `pwmValue`, and it lowers the flag. With the flag lowered, the pass writes nothing and changes nothing. `pwmValue` and `blinkInterval` are never changed, and the invariant is kept |

## Left out

- Wi-Fi connection (`setWifiConnection`, `WifiManager::connect`): network I/O that busy-waits on an external status.
- mDNS start-up, `server.on` route registration, `server.begin` and `loop()`/`handleClient`: web-server library plumbing. Only the effect of each handler is modelled, not how requests reach it.
- HTML page and 404 page construction (`mainHtmlMessage`, `unknownHtmlMessage`): string building over Arduino `String`, the `WebServer` accessors and `millis()`. The responses change no state.
- The serial log messages printed by the handlers and tasks: output only.
- FreeRTOS task creation (`initTasks`), the `vTaskDelay` waits, `blinkLEDTask` and `printTickTask`: scheduling and timing. The blink and print tasks only print; `blinkInterval` is read only by the blink task's delay and the status page.
- The endless `for(;;)` of `cyclePWMTask`: it is modelled one pass at a time by `SweepIteration`.
- Races between the sweep task and the HTTP handlers, which both write the duty register: concurrency. The sweep is modelled as one sequential pass.
- `setupPWM` (`ledcSetup`, `ledcAttachPin`): hardware configuration through foreign calls. `ledcWrite` is modelled as recording the value in the register and the write log.
- `data/script.js`: browser-side DOM updates and `fetch` calls.
