# Motor lab: plant identification, model validation and control firmware

This project models three parts of the DC-motor lab in Dafny and proves properties of
them.

- **Plant identification.** The analysis script `analises/model.py` takes a duty
  staircase (`u`, in %) and the measured voltage (`y`).
  - It cuts the duty column into plateaus wherever the duty changes.
  - It averages duty and voltage over the settled second half of each plateau.
  - It turns adjacent plateau pairs into incremental gains Δy/Δu. The static gain K is
    their mean, and the bias C is the mean offset `y − K·u`.
  - It replays the first-order model `y[k] = α·y[k−1] + (1−α)·(K·u[k−1] + C)` and the ARX
    model `y[k] = a·y[k−1] + b·u[k−1] + d` over the input.
  - It scores each trace with the fit percentage `100·(1 − ‖y − ŷ‖ / ‖y − mean(y)‖)`.

  Module `PlantId` in `plant_id.dfy` models this. Module `Series` in `series.dfy` holds
  the sums and means it is built on, and module `Outcomes` holds `Option`/`Result`.
- **Model validation.** The plotting script `analises/plots_analise.py`:
  - computes a bias from the first 50 samples;
  - replays the first-order model with the target floored at zero;
  - finds the first setpoint step larger than 0.1 V and cuts a −50/+150-sample window
    around it, with the time re-zeroed at window position 50.

  Module `Validation` in `validation.dfy` models this.
- **Control firmware.** The ESP32 firmware `esp32_motor_lab/main/main.c` runs:
  - a second-order difference-equation controller, either direct synthesis with filter
    or polynomial, clamped to [0, 100] %;
  - duty-percent ↔ 10-bit PWM register conversion;
  - bumpless transfer when leaving manual mode;
  - an EMA-filtered, 32-times oversampled voltage;
  - a 2000-slot ring buffer of (voltage, duty, setpoint) samples, whose last 10 entries
    are served over HTTP.

  Module `MotorLab` in `motor_lab.dfy` models this. The firmware's global variables become
  the fields of class `Firmware`. Its ghost field `recent` lists the buffer's contents
  oldest first, and `Valid()` ties every slot of the array to that list. `Valid()` also
  bounds the controller's output history `uk1`, `uk2` to [0, 100], as the clamp before the
  history is stored promises, and every method that changes state keeps it.

All arithmetic is over exact reals.

Two behaviours of the identification code worth stating:
- A gain pair is skipped only when its duty means are exactly equal (`abs(delta_u) > 0`).
  No tolerance threshold is applied.
- A single-plateau recording is not rejected up front. It fails because its gain list is
  empty, which is `NoGainEstimate` here.

## Model

| member | source | states |
|---|---|---|
| PlantId.PrependDiff | analises/model.py:33 | `np.diff(u, prepend=u[0])` has one entry per sample, entry 0 is zero, and entry j is the change from u[j−1] to u[j] |
| PlantId.NonZeroFrom | analises/model.py:33 | no contract: the ascending list `np.where(d != 0)[0]` from index `from` on; its range, order and membership are PlantId.NonZeroFromSpec |
| PlantId.Boundaries | analises/model.py:33-35 | for a non-empty duty column the boundaries start at 0, end at len(u), are strictly increasing, and an interior index is a boundary exactly when the duty differs from the previous sample |
| PlantId.NonZeroFromSpec | analises/model.py:33 | the `np.where` index list is strictly increasing, lies in range, and contains exactly the indices of non-zero differences |
| PlantId.PlateauIsConstant | analises/model.py:33-35 | inside each half-open plateau the duty keeps the value it has at the plateau's first sample |
| PlantId.AdjacentPlateausDiffer | analises/model.py:33 | the first samples of two adjacent plateaus hold different duties |
| PlantId.SinglePlateauIffConstant | analises/model.py:33-35 | there is exactly one plateau if and only if the duty column is constant |
| PlantId.StaircaseExample | analises/model.py:33-35 | the staircase 5,5,5,8,8,2,2 is cut at [0, 3, 5, 7] |
| PlantId.Midpoint | analises/model.py:47 | the settled half starts inside the plateau, and it is as long as the discarded half or one sample longer |
| PlantId.SettledMean | analises/model.py:47-50 | no contract: the mean of the series over the settled half [Midpoint(lo, hi), hi); what it equals on a plateau is PlantId.SettledMeansAreLevels |
| PlantId.SettledMeans | analises/model.py:42-53 | one settled mean per plateau of the partition |
| PlantId.PlateauMeans | analises/model.py:42-53 | the loop produces one settled duty mean and one settled voltage mean per plateau, in plateau order |
| PlantId.SettledMeansAreLevels | analises/model.py:47-50 | each plateau's settled duty mean equals the duty held on that plateau |
| PlantId.LevelsChange | analises/model.py:49 | adjacent plateau duty means always differ |
| PlantId.PairGains | analises/model.py:57-62 | the first n adjacent pairs give at most n gains |
| PlantId.Gains | analises/model.py:57-62 | at most one gain per adjacent pair of means (that there is none exactly when every pair has equal duty means is PlantId.NoGainsIffFlat) |
| PlantId.NoGainsIffFlat | analises/model.py:58-62 | the first n pairs give no gain exactly when each of them has equal duty means |
| PlantId.IncrementalGains | analises/model.py:57-62 | the loop's gain list is the list of Δy/Δu over adjacent pairs with Δu ≠ 0, in order |
| PlantId.GainsOfDistinctPairs | analises/model.py:58-62 | when no adjacent duty means are equal, every pair contributes one gain, and gain k is (my[k+1] − my[k]) / (mu[k+1] − mu[k]) |
| PlantId.EveryPlateauStepGivesGain | analises/model.py:58-62 | on segmented data there is exactly one gain fewer than plateaus, and each gain is the voltage step over the nonzero duty step between its two plateaus |
| PlantId.Offsets | analises/model.py:66 | one offset per plateau, and offset i plus K times duty mean i gives back voltage mean i |
| PlantId.StaticFromMeans | analises/model.py:56-67 | from the plateau means, the estimate fails exactly when every adjacent pair of duty means is equal, and then with NoGainEstimate (the mean of an empty gain list) |
| PlantId.StaticEstimate | analises/model.py:33-67 | the whole estimate fails with EmptySeries exactly on an empty duty column |
| PlantId.StaticEstimateSteps | analises/model.py:33-67 | the step-by-step pipeline returns the specified estimate: an error on empty input or when no gain exists, otherwise K = mean of gains and C = mean of offsets |
| PlantId.StaticEstimateOnLevels | analises/model.py:49-67 | the estimate reads the duty means as the plateau duty levels |
| PlantId.StaticEstimateFails | analises/model.py:33-64 | the estimate fails with EmptySeries exactly on empty input, and with NoGainEstimate exactly when the duty is constant; otherwise it succeeds |
| PlantId.BiasFromMeans | analises/model.py:66-67 | C equals mean(plateau voltages) − K · mean(plateau duties) |
| PlantId.StaticFromLine | analises/model.py:56-67 | plateau means lying on y = k0·u + c0, with distinct adjacent duties, give back K = k0 and C = c0 |
| PlantId.SettledMeansOfLine | analises/model.py:42-53 | averaging the plateaus of a voltage on the line k0·u + c0 gives the same line applied to the duty means, for any partition |
| PlantId.StaticEstimateRecoversLine | analises/model.py:33-67 | for noise-free steady-state data y = k0·u + c0 with at least two duty levels, the estimate is exactly (k0, c0) |
| PlantId.SimulateFirstOrder | analises/model.py:75-89 | the simulated trace has len(y) samples, starts at y[0], and follows y[k] = α·y[k−1] + (1−α)·(K·u[k−1] + C) |
| PlantId.FirstOrderUnique | analises/model.py:85-87 | two traces following the recursion from the same start with the same targets are equal, so data generated by the recursion are reproduced exactly |
| PlantId.FirstOrderStepBetween | analises/model.py:86-87 | with 0 < α < 1, each sample lies between the previous sample and the previous target, strictly when the two differ |
| PlantId.FirstOrderStaysAbove | analises/model.py:85-87 | with 0 < α < 1, a trace starting at or above a bound and driven by targets at or above it stays at or above it |
| PlantId.FirstOrderAtRest | analises/model.py:82-87 | a trace starting on a constant target stays on it |
| PlantId.SimulateArx | analises/model.py:128-132 | the ARX trace has len(y) samples, starts at y[0], and follows y[k] = a·y[k−1] + b·u[k−1] + d |
| PlantId.ArxUnique | analises/model.py:131-132 | two traces following the ARX recursion from the same start are equal |
| PlantId.FirstOrderIsArx | analises/model.py:76-87 | a trace follows the first-order model if and only if it follows the ARX model a = α, b = (1−α)·K, d = (1−α)·C |
| PlantId.CalcFit | analises/model.py:135-138 | with num and den passed in as the norms of y − ym and y − mean(y) (the IsNorm preconditions), the fit is undefined exactly when the measured series is constant; a defined fit is at most 100 %, and it is 100 % exactly when the model trace equals the measurement |
| PlantId.CalcFitOfMean | analises/model.py:135-138 | a model that predicts the mean everywhere scores exactly 0 % |
| Validation.BaselineBias | analises/plots_analise.py:39-41 | the bias is undefined exactly on an empty recording |
| Validation.BaselineOnModelLine | analises/plots_analise.py:39-41 | the bias puts the baseline point (mean duty, mean voltage) on the model line: K·u_base + C = y_base |
| Validation.BaselineRecoversBias | analises/plots_analise.py:39-41 | when the baseline samples lie on y = K·u + c0, the bias is exactly c0 |
| Validation.FlooredTargets | analises/plots_analise.py:49-50 | each target is non-negative, at least K·u + C, and equal to either 0 or K·u + C |
| Validation.SimulateFloored | analises/plots_analise.py:44-51 | the trace has len(y) samples, starts at y[0], and follows the first-order recursion with the floored target |
| Validation.ValidationTrace | analises/plots_analise.py:39-51 | no trace for an empty recording; otherwise the floored simulation with the baseline bias and K = 0.0406 |
| Validation.FlooredTraceNonNegative | analises/plots_analise.py:46-51 | with 0 < α < 1 and y[0] ≥ 0, every simulated sample is non-negative |
| Validation.FlooredAgreesWithLine | analises/plots_analise.py:49-51 | where K·u + C never goes negative, the floored simulation is exactly the unfloored one of the identification script |
| Validation.FloorChangesStep | analises/plots_analise.py:50-51 | with α ≠ 1, at any sample k − 1 where the floored and unfloored traces agree and K·u[k−1] + C is negative, they differ at sample k |
| Validation.FirstStepFrom | analises/plots_analise.py:82-84 | there is no result exactly when no jump larger than 0.1 exists; otherwise the result is a jump and no earlier index is one |
| Validation.FirstStep | analises/plots_analise.py:82-84 | no step exactly when no setpoint jump larger than 0.1 exists; otherwise the first such jump |
| Validation.StepWindow | analises/plots_analise.py:87-88 | 0 ≤ start ≤ idx < end ≤ len and end − start ≤ 200; start is idx − 50 unless clipped at 0, and is exactly idx − 50 when idx ≥ 50; end is idx + 150 unless clipped at len, and is exactly idx + 150 when that fits |
| Validation.Rezero | analises/plots_analise.py:91 | `t - t[50]`: every time minus the one at window position 50, which becomes 0 |
| Validation.GetData | analises/plots_analise.py:79-95 | no data exactly when the setpoint never jumps; an error (the IndexError of `t[50]`) exactly when there is a jump and the recording has at most 50 samples; otherwise four equal-length columns of 51 to 200 samples whose time is 0 at window position 50 |
| Validation.WindowHoldsFirstStep | analises/plots_analise.py:82-94 | for a recording of more than 50 samples with a jump, data are returned, and the cut setpoint column contains the first jump at the step's offset, with no earlier jump in the window |
| Validation.TimeZeroAtStep | analises/plots_analise.py:87-91 | for strictly increasing times, the re-zeroed time is 0 at the step exactly when the step lies at least 50 samples into the recording |
| MotorLab.LawOutput | esp32_motor_lab/main/main.c:107-124 | any mode other than the two controllers outputs 0; with equal past outputs and zero past errors, each controller holds its past output on zero error, rises above it on positive error and falls below it on negative error |
| MotorLab.ClampPercent | esp32_motor_lab/main/main.c:129-130 | the output lies in [0, 100], is unchanged inside that range, and saturates to the nearer bound outside it |
| MotorLab.ControlLaw | esp32_motor_lab/main/main.c:107-136 | the controller output lies in [0, 100] in every mode, and is 0 in any mode other than the two controllers |
| MotorLab.ControllerHoldsAtRest | esp32_motor_lab/main/main.c:115-123 | with both past outputs at x in [0, 100] and zero error history, a zero error keeps the output at x, for both controllers |
| MotorLab.ControllerRaisesOnPositiveError | esp32_motor_lab/main/main.c:115-123 | from a rest state below 100 % (past outputs equal, zero error history), a positive error raises the clamped output |
| MotorLab.DutyToRaw | esp32_motor_lab/main/main.c:92-96 | the register value lies in [0, 1023] and within half a count of the clamped duty scaled to 1023 |
| MotorLab.RawToDuty | esp32_motor_lab/main/main.c:101-104 | a register value within 10 bits reads back as a percentage in [0, 100] |
| MotorLab.SetThenGet | esp32_motor_lab/main/main.c:92-104 | reading back a written duty differs from the clamped duty by at most 100/(2·1023) % |
| MotorLab.GetThenSet | esp32_motor_lab/main/main.c:92-104 | writing back the duty read from the register leaves the register unchanged |
| MotorLab.InitialDutyRaw | esp32_motor_lab/main/main.c:294 | the start-up duty of 40 % is register value 409 |
| MotorLab.AdcVoltageInRange | esp32_motor_lab/main/main.c:247-254 | 12-bit readings give a voltage in [0, 3.3] V |
| MotorLab.AdcVoltage | esp32_motor_lab/main/main.c:253-254 | no contract: the mean of the 32 readings times 3.3/4095; its range is MotorLab.AdcVoltageInRange |
| MotorLab.Oversample | esp32_motor_lab/main/main.c:247-254 | the accumulation loop yields the mean of the 32 readings scaled by 3.3/4095 |
| MotorLab.Ema | esp32_motor_lab/main/main.c:257-258 | with filtered state 0, the filter yields exactly the raw voltage; otherwise the filtered value moves 60 % of the way to the raw value, stays between the two, and equals the raw value only when they agree |
| MotorLab.RingShift | esp32_motor_lab/main/main.c:276-279 | after advancing head, each older position moves down one slot and never lands on the slot just written, and the newest position is the old head |
| MotorLab.BatchSlot | esp32_motor_lab/main/main.c:155-157 | slot (start + i) mod BUF_N of the batch read is position BUF_N − BATCH_SIZE + i of the contents |
| MotorLab.BatchEndsAtLastWrite | esp32_motor_lab/main/main.c:155-161 | the batch read starting at slot (head + BUF_N − 10) mod BUF_N ends at slot (head − 1) mod BUF_N, and advancing that slot by one gives head, so it is the slot the last write used |
| MotorLab.Firmware.DutyPercent | esp32_motor_lab/main/main.c:101-104 | the reported duty lies in [0, 100] |
| MotorLab.Firmware.constructor | esp32_motor_lab/main/main.c:38-61 | the initial state is manual mode, setpoint 1.0, zero history and filter, an all-zero buffer with head 0, and the 40 % start-up duty that `app_main` writes at esp32_motor_lab/main/main.c:294 |
| MotorLab.Firmware.SetDuty | esp32_motor_lab/main/main.c:92-99 | the invariant is kept; the register becomes the rounded clamped duty, and nothing else changes |
| MotorLab.Firmware.RunController | esp32_motor_lab/main/main.c:107-137 | keeps the invariant; returns the clamped law output; afterwards uk1 = output, uk2 = old uk1, ek1 = setpoint − pv and ek2 = old ek1, in every mode; nothing else changes |
| MotorLab.Firmware.HandleSet | esp32_motor_lab/main/main.c:176-204 | leaving manual mode seeds uk1 = uk2 = current duty and ek1 = ek2 = 0, and any other transition leaves the history alone; the setpoint is updated; a duty is written only in manual mode; the reply holds the new duty and mode |
| MotorLab.Firmware.Record | esp32_motor_lab/main/main.c:275-281 | the sample lands at the old head, head advances mod 2000, every other slot is unchanged, and the contents gain the sample as newest while dropping the oldest |
| MotorLab.Firmware.ReadBatch | esp32_motor_lab/main/main.c:149-162 | without the lock no samples; with it, exactly the last 10 samples written, oldest first |
| MotorLab.Firmware.ControlTick | esp32_motor_lab/main/main.c:245-281 | one period: the EMA update; then either a controller step with the duty written, or in manual mode the history tracks the duty and current error; a buffer write when the lock is obtained |

## Left out

- The time-constant fit (`curve_fit`, analises/model.py:93), the least-squares ARX fit
  (`np.linalg.lstsq`, analises/model.py:106-109) and `np.exp` for α are not modelled.
  τ, α and the ARX coefficients a, b, d are parameters.
- The square roots of `np.linalg.norm` in `calc_fit` are not computed. The two norms are
  parameters, required to be the non-negative roots of the sums of squares.
- Floating-point rounding (C `float`, NumPy `float64`) is not modelled; everything is exact
  real arithmetic. The only rounding kept is the explicit `+ 0.5` truncation to the PWM
  register.
- PlantId.SimulateFirstOrder: requires a non-empty recording with equal duty and voltage
  lengths. The script only reaches it after the static estimate, which already fails on an
  empty recording, and both columns come from one table.
- PlantId.SimulateArx and Validation.SimulateFloored: same requirement, for the same reason.
- PlantId.CalcFit: requires a non-empty measured series, whose mean numpy would
  otherwise return as NaN. Every trace it scores has the recording's length.
- CSV loading, printing, plot configuration and the pandas rolling mean of
  analises/plots_analise.py are not modelled; they are input and display.
- Validation.GetData: its `Err` stands for the IndexError that `t[50]` raises; the
  script's surrounding `try`/`except`, which reports it and skips the plot, is display.
- ESP-IDF hardware set-up and the network are not modelled: ADC and LEDC initialisation,
  the LEDC register writes, the Wi-Fi soft-AP, the HTTP server and `root_get_handler`.
- Query-string parsing with `atoi`/`atof` is not modelled. `HandleSet` takes the already
  parsed parameters, and an absent one is `None`.
- JSON formatting with `snprintf` is not modelled; `ReadBatch` and `HandleSet` return the
  values the replies hold.
- FreeRTOS tasks, `vTaskDelayUntil` and the buffer mutex are not modelled, since they are
  concurrency. One `ControlTick` is one period of the control task. Whether the mutex was
  obtained is a boolean parameter.
- MotorLab.Oversample: does not model the `uint32_t` accumulator's wrap-around. The 12-bit
  ADC never returns a count that would make it wrap; AdcVoltageInRange assumes counts in
  [0, 4095].
- MotorLab.Firmware.ReadBatch: returns one sequence of samples instead of the three
  parallel local arrays `v_local`, `d_local` and `sp_local`.
