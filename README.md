# Bluetooth GPIO rfkill driver, modelled in Dafny

The driver in `bt-gpio-rfkill.c` power-sequences a Bluetooth chip through three GPIO lines (power, reset, wakeup). It also exposes an rfkill switch so that user space can block and unblock the radio. This project models the driver's logic and proves what it does:

- which levels the lines end at;
- the exact order of pin writes and delays;
- which fields of the private record get assigned;
- which kernel services are called;
- which code each function returns.

Layout:

- `kernel.dfy` (module `Kernel`) holds the kernel objects as values. A GPIO descriptor is NULL, held, or an error pointer (`IS_ERR` is true only for the last). An rfkill handle is NULL or allocated. Line levels are logical. Pin events are a request as output-high, a write, or a delay. Kernel calls are `rfkill_alloc`, `rfkill_register`, `rfkill_unregister`, `rfkill_destroy` and `gpiod_put`.
- `driver.dfy` (module `Driver`) gives each C function of the driver as a function from the state before the call to the return code and the state after it. A state is the private record (`struct myy_driver_private_data`) plus the board: levels, the pin-event trace and the kernel-call log.
- `bt_gpio_rfkill.dfy` (module `BtGpioRfkill`) is the driver in its own imperative form. `PrivateData` is the record, whose fields the methods assign. `Board` stands for the lines and the kernel services. Each C function is a method whose postcondition equates the new state with the matching `Driver` function of the old state. The `goto` error paths are kept as early returns.
- `adapter.dfy` (module `Adapter`) covers the rfkill `set_block` callback over any sequence of calls.
- `findings.dfy` (module `Findings`) holds three defects. For each there is the code as written with a counterexample, and a corrected definition with its intended property proved.

Kernel services are inputs or recorded calls:

- `devm_gpiod_get` is a per-line `Lookup` (found, or not found with an errno). A found line is requested as an output driven high.
- `rfkill_alloc` is the handle it returns, NULL on failure.
- `rfkill_register` is the code it returns.
- `gpiod_set_value` changes the level of a held line and appends a `Write` event. As in the kernel, it does nothing for a NULL or error descriptor.
- `mdelay` is a `Delay` marker in the trace.

Detach does not always power the chip off: remove runs the power-off sequence only when an rfkill handle was recorded (bt-gpio-rfkill.c:318-321). The model follows the code (`Driver.Remove`).

## Model

| member | source | states |
|---|---|---|
| `Driver.PowerOn` | bt-gpio-rfkill.c:106-114 | On a device holding power and reset, the trace gains exactly reset:=0, power:=1, reset:=1, 20 ms delay, reset:=0. Power ends high and reset low. In every case the record, the kernel calls and the wakeup level are unchanged, and only power/reset writes and delays are added. |
| `Driver.PowerOff` | bt-gpio-rfkill.c:120-127 | On a device holding power and reset, the trace gains exactly reset:=1, 10 ms delay, power:=0, reset:=0, and both lines end low. Record, kernel calls and wakeup are untouched. |
| `Driver.SetBlock` | bt-gpio-rfkill.c:132-148 | Always returns 0. blocked=false gives exactly the power-on trace and levels; blocked=true gives exactly the power-off ones. It never changes the record, calls the kernel or touches the wakeup line, and adds only power/reset writes and delays. |
| `Driver.FindGpios` | bt-gpio-rfkill.c:172-212 | Requests all three lines in order power, reset, wakeup and stores all three descriptors unconditionally. Each found line ends driven high. Returns 0 iff all three were found, and -ENOSYS otherwise. The rfkill field and the kernel calls are unchanged. |
| `Driver.SetupRfkill` | bt-gpio-rfkill.c:226-258 | Returns 0 iff alloc and register both succeed, and only then records the handle. Alloc failure returns -ENOMEM and calls rfkill_destroy(NULL). Register failure returns the register code. Both failure paths leave the record as it was. On a ready device (power and reset held, as Probe always passes) they run exactly the power-off sequence. The kernel calls are exactly alloc, then destroy(NULL) or register. The wakeup line is never touched, and only power/reset writes and delays are added. |
| `Driver.Probe` | bt-gpio-rfkill.c:263-296 | Returns the first nonzero code of line lookup and rfkill setup, or 0 when both succeed. If a line is missing it returns -ENOSYS, makes no rfkill call and records no handle. A recorded handle implies that all three lines are held. On success every line is high. |
| `Driver.Remove` | bt-gpio-rfkill.c:299-323 | Returns 0 and leaves the record unchanged. It destroys the recorded handle iff there is one. With no handle, levels and pin trace are unchanged. With a handle on a ready device, it runs exactly the power-off sequence. |
| `BtGpioRfkill.BtOn` | bt-gpio-rfkill.c:106-114 | The four writes and the delay, in the source's order, leave exactly the state `Driver.PowerOn` gives. |
| `BtGpioRfkill.BtOff` | bt-gpio-rfkill.c:120-127 | The writes and the delay leave exactly the state `Driver.PowerOff` gives. |
| `BtGpioRfkill.SetBlock` | bt-gpio-rfkill.c:132-148 | The callback's return code and new state are those of `Driver.SetBlock`. |
| `BtGpioRfkill.FindGpios` | bt-gpio-rfkill.c:172-212 | The three lookups, the three field assignments and the IS_ERR test give the code and the record of `Driver.FindGpios`. |
| `BtGpioRfkill.SetupRfkill` | bt-gpio-rfkill.c:226-258 | The alloc, register and goto-label paths give the code and state of `Driver.SetupRfkill`. |
| `BtGpioRfkill.Probe` | bt-gpio-rfkill.c:263-296 | Allocates a fresh zeroed record and returns it with the code and state of `Driver.Probe`. |
| `BtGpioRfkill.Remove` | bt-gpio-rfkill.c:299-323 | The guarded releases, the destroy and the power-off give the code and state of `Driver.Remove`. |
| `BtGpioRfkill.PrivateData.constructor` | bt-gpio-rfkill.c:276-279 | The record starts with every descriptor and the rfkill handle NULL, as devm_kzalloc leaves it. |
| `Adapter.ApplyBlocks` | bt-gpio-rfkill.c:132-148 | No sequence of set_block calls changes the record or calls the kernel. Each adds only power/reset writes and delays. |
| `Adapter.BlockSequenceTrace` | bt-gpio-rfkill.c:139-145 | For any sequence of set_block calls on a ready device, the trace is each call's own sequence in call order, none skipped. |
| `Adapter.LastBlockDecides` | bt-gpio-rfkill.c:139-145 | On a ready device, after any nonempty sequence of calls, power follows the last `blocked` flag, reset is low and wakeup is untouched. |
| `Adapter.OffOnOff` | bt-gpio-rfkill.c:139-145 | On a ready device, block, unblock, block runs power-off, power-on, power-off in that order. |
| `Adapter.AttachLeavesChipUndefined` | bt-gpio-rfkill.c:180-188 | A successful attach leaves all three lines high. That is the end state of neither sequence, and the first set_block call decides the state. |
| `Findings.RemoveReleasesPowerTwice` | bt-gpio-rfkill.c:309-316 | As written, with all three lines held, remove releases the power descriptor twice, the reset descriptor never and the wakeup descriptor once. |
| `Findings.RemovePutsErrorPointer` | bt-gpio-rfkill.c:309-313 | As written, with only the power lookup failed, remove passes the power error pointer to gpiod_put. That record exists only after a failed probe, and the platform bus does not call remove then. |
| `Findings.RemoveFixed` | bt-gpio-rfkill.c:299-323 | Remove with line 313 corrected and `rfkill_unregister` called before `rfkill_destroy` has the same code, record, levels and pin trace as the original. |
| `Findings.RemoveFixedReleasesEachValidLineOnce` | bt-gpio-rfkill.c:309-316 | The driver's own `gpiod_put` calls in corrected remove release every non-error descriptor exactly once, and no error descriptor. |
| `Findings.RemoveNeverUnregisters` | bt-gpio-rfkill.c:318-319 | As written, after a successful probe, remove destroys the registered handle but never calls `rfkill_unregister` on it. |
| `Findings.RemoveFixedUnregistersBeforeDestroy` | bt-gpio-rfkill.c:318-321 | Corrected remove unregisters the recorded handle and later destroys it iff a handle is recorded. It passes no other handle to either call. |
| `Findings.SetupLeaksOnRegisterFailure` | bt-gpio-rfkill.c:245-257 | As written, when rfkill_register fails the allocated handle is neither recorded nor destroyed. |
| `Findings.SetupDestroysNullOnAllocFailure` | bt-gpio-rfkill.c:239-253 | As written, when rfkill_alloc fails, rfkill_destroy is called with NULL. |
| `Findings.SetupRfkillFixed` | bt-gpio-rfkill.c:226-258 | Setup with the two error labels in the evident order has the same return code, record, levels and pin trace as the original. |
| `Findings.SetupRfkillFixedNoLeak` | bt-gpio-rfkill.c:235-257 | Corrected setup ends with the allocated handle either recorded or destroyed, exactly one of the two, and never destroys NULL. |
| `Findings.ProbeFixed` | bt-gpio-rfkill.c:263-296 | Probe over the corrected setup has the same return code and record as the original. |
| `Findings.AttachDetachFixed` | bt-gpio-rfkill.c:263-323 | With all corrections, after a successful attach and then a detach, the driver's own calls have released each line exactly once and unregistered the handle before destroying it. Power and reset end low. |

## Findings

| source | as written | input that shows it | evidently intended | confidence | as-written member | corrected member |
|---|---|---|---|---|---|---|
| bt-gpio-rfkill.c:312-313 | The reset guard calls `gpiod_put(driver_data->gpios.power)` | Any remove after a successful probe (all three lines held): power is released twice and reset never. A second input needs remove to run after a failed probe, which the platform bus does not do: with power missing and reset held, the power error pointer reaches gpiod_put | `gpiod_put(driver_data->gpios.reset)` | high; not executed | `Findings.RemoveReleasesPowerTwice` | `Findings.RemoveFixedReleasesEachValidLineOnce` |
| bt-gpio-rfkill.c:246-255 | Register failure jumps to `err_rfkill`, which only powers off. Alloc failure jumps to `err_rfk_alloc`, which destroys NULL | rfkill_alloc returns a handle and rfkill_register returns -EINVAL: the handle is neither recorded nor destroyed | `rfkill_destroy` under the register-failure label, and nothing to destroy after an alloc failure | high; not executed | `Findings.SetupLeaksOnRegisterFailure` | `Findings.SetupRfkillFixedNoLeak` |
| bt-gpio-rfkill.c:318-319 | Remove calls `rfkill_destroy` on the handle that probe registered, with no `rfkill_unregister` | Any remove after a successful probe: the handle is freed while still registered with the rfkill core | `rfkill_unregister(driver_data->rfkill_system)` before `rfkill_destroy` | high; not executed | `Findings.RemoveNeverUnregisters` | `Findings.RemoveFixedUnregistersBeforeDestroy` |

## Left out

- Logging (`pr_info`, `dev_err`, `printk`, `myy_bool_str` in analysis_helpers.h) is left out: it only formats messages.
- The device-tree match table, the `platform_driver` structure, `module_platform_driver` and the `shutdown` callback, which only prints, are left out: they are registration glue with no logic.
- `platform_set_drvdata` and `platform_get_drvdata` are left out: `BtGpioRfkill.Probe` returns the record and `BtGpioRfkill.Remove` takes it as a parameter.
- `devm_kzalloc` is modelled only as a record with every pointer NULL. Two defects of that call are not modelled: it allocates `sizeof` a pointer rather than the structure, and its result is never checked for NULL. Memory allocation is outside the model.
- Device-managed release is left out. Lines obtained with `devm_gpiod_get` are also released by the kernel after remove, so remove's explicit `gpiod_put` calls release them a second time. The model records only the driver's own calls.
- The internals of `devm_gpiod_get`, `gpiod_put`, `rfkill_alloc`, `rfkill_register`, `rfkill_unregister` and `rfkill_destroy` are left out: they are kernel services. This includes any `set_block` call the rfkill core may make during registration. Each is an input or a recorded call.
- `mdelay` is only an ordered `Delay` marker with its millisecond count: there is no timing semantics.
- Line levels are logical values, as `gpiod_set_value` and `GPIOD_OUT_HIGH` use them. Active-low translation to physical levels is left out.
- An error descriptor keeps the errno its lookup failed with. The range check behind `IS_ERR` is not modelled: every `ErrGpio` is an error pointer.
- Driver.Remove, Findings.AttachDetachFixed: the order of remove's `gpiod_put` and `rfkill_destroy` calls relative to its power-off writes is not captured, because pin events and kernel calls are kept in two separate logs. `gpiod_put` has no effect on a descriptor in the model, so the power-off writes that remove makes after releasing the lines (bt-gpio-rfkill.c:309-320) are assumed to take effect. In the kernel they go through descriptors already released, and the model does not show that write-after-release.
- Concurrency is left out: the rfkill core serialises `set_block` calls, and every other function runs once on the probing or removing thread.
- Driver.PowerOn, Driver.PowerOff, Driver.SetBlock, Driver.SetupRfkill: the exact trace and end levels are stated only when power and reset are both held. Otherwise they state only that the wakeup level is unchanged and that nothing but power/reset writes and delays is added. PowerOn, PowerOff and SetBlock also keep the record and the kernel calls unchanged. SetupRfkill's record and kernel calls are the ones its contract lists. Only a device whose lines were all found ever reaches these sequences.
