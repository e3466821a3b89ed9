# ESP32 AC dimmer: control loop and pulse interrupts

This project models the logic of an ESP32 AC-dimmer program written against ESP-IDF.
A rising edge on GPIO 4 starts a pulse: the edge handler drives output GPIO 2 high and starts hardware timer 0 of timer group 0 with its alarm enabled.
When the alarm fires, the timer interrupt handler drives the output low, clears the T0 interrupt status bit and pauses the timer.
The task's endless loop reads the active-low preset selector pins 15..19 and sets the global `speed` from them.
It then writes `speed` into the timer's alarm value, which determines the pulse width.

The model lives in two modules:

- `PresetScan` (`preset_scan.dfy`) holds the pure preset scan. `Scan` gives `speed` after the five-pin loop. `LastActive` is an independent reference for which pin wins.
- `Dimmer` (`dimmer.dfy`) holds the hardware state as a record, `HwState`. Each handler and one loop iteration is a transition function on it. `Run` applies a sequence of events. Class `Controller` keeps the same state in mutable fields. Each of its methods is proved to perform the matching transition.

Pin readings are a parameter, `PinLevels`: `levels[i]` is what `gpio_get_level` returned for the i-th selector pin.
The hardware raising the T0 status bit is modelled as an environment event, `StatusRaised` (`Dimmer.OnStatusRaised`).
When the T0 alarm fires, the ESP32 also clears the timer's alarm enable. The model does the same, which is why the edge handler re-enables the alarm on every pulse.
`TIMER_BASE_CLK` is a parameter of the constructor.
The output level and the interrupt status are not written by the start-up code. The model takes both to be 0 initially.

## Model

| member | source | states |
|---|---|---|
| PresetScan.ScanPrefix | main/gpio_example_main.c:105-108 | `speed` after the first `k` loop iterations; ScanPrefixNoneActive, ScanPrefixLastActiveWins and ScanPrefixValid state its properties |
| PresetScan.Scan | main/gpio_example_main.c:104-108 | `speed` after the whole loop; ScanIsLastActive, ScanNoneActive, ScanHighestActivePin, ScanIdempotent and ScanValid state its properties |
| PresetScan.LastActive | main/gpio_example_main.c:104-108 | the winning selector position is active and every later position is inactive; there is no winner exactly when no pin reads low |
| PresetScan.PrintedIndex | main/gpio_example_main.c:109 | the printed `speed / base_speed` is C's quotient truncated toward zero, bounded by the speed on both sides |
| PresetScan.PresetSpeedValid | main/gpio_example_main.c:107 | each preset `320 * (pin - 15)` is a multiple of 320 in [0, 1280], and its printed index is the pin's position |
| PresetScan.ValidSpeedIndex | main/gpio_example_main.c:21-22 | a multiple of 320 in [0, 1280] prints an index in [0, 4] that gives the speed back when multiplied by 320 |
| PresetScan.ScanPrefixNoneActive | main/gpio_example_main.c:105-108 | loop iterations over pins that all read high leave `speed` unchanged |
| PresetScan.ScanPrefixLastActiveWins | main/gpio_example_main.c:105-108 | after the loop, the last active pin's preset is `speed`, whatever the earlier pins and the old speed were |
| PresetScan.ScanIsLastActive | main/gpio_example_main.c:104-108 | the scan equals the reference: the last active pin's preset, or the old speed if no pin is active |
| PresetScan.ScanNoneActive | main/gpio_example_main.c:104-108 | if no selector pin reads low, `speed` keeps its old value |
| PresetScan.ScanHighestActivePin | main/gpio_example_main.c:104-107 | if pin `p` is the last low pin in scan order, `speed` becomes `320 * (p - 15)`, and `p` is the highest-numbered low pin |
| PresetScan.ScanForgetsOldSpeed | main/gpio_example_main.c:104-108 | with at least one pin low, the result does not depend on the previous speed |
| PresetScan.ScanIdempotent | main/gpio_example_main.c:104-108 | scanning twice with the same levels gives the same speed as scanning once |
| PresetScan.ScanPrefixValid | main/gpio_example_main.c:105-108 | every prefix of the loop keeps `speed` a multiple of 320 in [0, 1280] |
| PresetScan.ScanValid | main/gpio_example_main.c:104-109 | a full scan keeps `speed` valid and its printed index in [0, 4] |
| Dimmer.Initial | main/gpio_example_main.c:20-23 | the state after start-up, with `speed` 320 and the timer configured as at lines 78-95; InitialState states its properties |
| Dimmer.OnEdge | main/gpio_example_main.c:26-34 | the edge handler as a transition; EdgeOnWatchedPin, EdgeOnOtherPin and EdgeIdempotent state its properties |
| Dimmer.OnTimerIsr | main/gpio_example_main.c:36-47 | the timer handler as a transition; TimerIsrWhenPending, TimerIsrWhenIdle and TimerIsrIdempotent state its properties |
| Dimmer.OnLoopIteration | main/gpio_example_main.c:103-110 | one loop iteration as a transition; LoopIterationSetsAlarm states its properties |
| Dimmer.Step | main/gpio_example_main.c:26-110 | one event applied to the state; StepPreservesInv states that it keeps the invariant |
| Dimmer.Run | main/gpio_example_main.c:103-112 | any finite sequence of events applied in order; RunPreservesInv, Reachable, RunKeepsConfiguration and PulseEndsLow state its properties |
| Dimmer.InitialState | main/gpio_example_main.c:78-95 | after start-up the timer is paused with the alarm disabled, the counter is 0, the alarm value equals `speed` = 320, and the reachability invariant holds |
| Dimmer.EdgeOnWatchedPin | main/gpio_example_main.c:28-32 | an edge on pin 4 leaves the output at 1, the timer running and the alarm enabled, and nothing else changed |
| Dimmer.EdgeOnOtherPin | main/gpio_example_main.c:28 | an edge from any other source changes nothing |
| Dimmer.EdgeIdempotent | main/gpio_example_main.c:26-34 | applying the edge handler twice gives the state of applying it once |
| Dimmer.TimerIsrWhenPending | main/gpio_example_main.c:39-44 | with T0 pending: output 0, only the T0 bit cleared, timer paused; alarm value, alarm enable, counter and speed untouched |
| Dimmer.TimerIsrWhenIdle | main/gpio_example_main.c:40 | with T0 clear the timer handler changes nothing |
| Dimmer.TimerIsrIdempotent | main/gpio_example_main.c:36-47 | a second timer interrupt right after the first is a no-op |
| Dimmer.PulseEndsLow | main/gpio_example_main.c:29-31 | from any state, an edge on pin 4, the alarm firing (T0 latched, alarm enable cleared by the hardware) and the timer interrupt leave the output low, the timer paused, T0 clear, the alarm disabled and the alarm value unchanged |
| Dimmer.LoopIterationSetsAlarm | main/gpio_example_main.c:103-110 | after a loop iteration the alarm value equals the new `speed`, which is the scan's result; nothing else changes |
| Dimmer.StepPreservesInv | main/gpio_example_main.c:26-110 | every event (edge, timer interrupt, loop iteration, status latch) preserves the invariant: valid speed, alarm value equals speed, output high exactly while the timer runs, a running timer has its alarm enabled unless T0 is pending |
| Dimmer.RunPreservesInv | main/gpio_example_main.c:103-112 | any sequence of events preserves that invariant |
| Dimmer.Reachable | main/gpio_example_main.c:20-22 | from start-up, after any sequence of events, the invariant holds and the printed index is in [0, 4] |
| Dimmer.RunKeepsConfiguration | main/gpio_example_main.c:78-91 | no handler, loop iteration or status latch writes the counter or the divider |
| Dimmer.Controller.constructor | main/gpio_example_main.c:78-95 | the fields start in the initial state, with divider `TIMER_BASE_CLK / 1600` |
| Dimmer.Controller.GpioIsrHandler | main/gpio_example_main.c:26-34 | the fields after the handler are the edge transition of the fields before |
| Dimmer.Controller.TimerGroup0Isr | main/gpio_example_main.c:36-47 | the fields after the handler are the timer-interrupt transition of the fields before |
| Dimmer.Controller.ScanPresets | main/gpio_example_main.c:104-108 | the loop over `pin[]` leaves `speed` equal to the scan of the readings from the old speed; only `speed` changes |
| Dimmer.Controller.ControlLoopIteration | main/gpio_example_main.c:103-110 | one `while(1)` iteration performs the loop transition and returns the printed index; from an invariant state the index is in [0, 4] and the invariant still holds |

## Left out

- Pin and timer driver configuration (`gpio_config`, `timer_init`, `timer_isr_register`, `gpio_install_isr_service`, `gpio_isr_handler_add`, lines 51-101): ESP-IDF driver plumbing with no visible behaviour. Only its effect on the modelled state is kept: the initial timer settings and the alarm value.
- Hardware timing: how the counter advances, the tick rate `TIMER_BASE_CLK / f`, and auto-reload. When the alarm fires is left to the environment: `StatusRaised` may occur at any time. The divider is kept as an integer quotient with an opaque base clock. The counter is never changed by the model.
- The spinlock take and give in the timer handler, and any interleaving of interrupt and task context: each handler and each loop iteration is one atomic transition.
- `printf` and `vTaskDelay` (I/O and sleeping). `ControlLoopIteration` returns the printed value instead.
- The endless `while(1)`: one iteration is modelled. `Run` and its lemmas cover any finite sequence of iterations and interrupts.
- The unused task handle and the `INCLUDE_*` macros.
- Initial output level and interrupt status: the source does not set them, so the model assumes 0.
