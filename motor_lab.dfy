/** The control firmware of esp32_motor_lab/main/main.c without its ESP-IDF and FreeRTOS
    plumbing. The firmware keeps its state in module-level variables: the controller mode,
    the setpoint, the second-order difference-equation history, the EMA-filtered voltage,
    the 10-bit PWM duty register, and a 2000-slot ring buffer of (voltage, duty, setpoint)
    samples. That state becomes the class Firmware. The arithmetic is over exact reals. */
module MotorLab {
  import opened Outcomes

  // ---------------------------------------------------------------------------
  // Constants (main.c:19-63)
  // ---------------------------------------------------------------------------

  const BUF_N: nat := 2000
  const BATCH_SIZE: nat := 10
  const ADC_SAMPLES: nat := 32

  /** (1 << PWM_RES_BITS) - 1 with a 10-bit PWM. */
  const MAX_DUTY: nat := 1023

  /** Full scale of the 12-bit ADC and the voltage it reads as. */
  const ADC_MAX: nat := 4095
  const ADC_VREF: real := 3.3

  const EMA_ALPHA: real := 0.6

  const MODE_MANUAL: int := 0
  const MODE_DS_FILTER: int := 1
  const MODE_POLYNOMIAL: int := 2

  /** One ring-buffer entry: filtered voltage, duty percent and setpoint. */
  datatype Sample = Sample(v: real, d: real, sp: real)

  // ---------------------------------------------------------------------------
  // Controller law (main.c:107-137)
  // ---------------------------------------------------------------------------

  /** The unclamped output of the controller selected by mode, from the current error and
      the history u[k-1], u[k-2], e[k-1], e[k-2]. Any mode other than the two controllers
      outputs 0. */
  function LawOutput(mode: int, error: real, uk1: real, uk2: real, ek1: real, ek2: real): (u: real)
    ensures mode != MODE_DS_FILTER && mode != MODE_POLYNOMIAL ==> u == 0.0
    ensures (mode == MODE_DS_FILTER || mode == MODE_POLYNOMIAL) && uk1 == uk2 && ek1 == 0.0 && ek2 == 0.0 ==>
              (error == 0.0 ==> u == uk1) && (error > 0.0 ==> u > uk1) && (error < 0.0 ==> u < uk1)
  {
    if mode == MODE_DS_FILTER then
      1.177163 * uk1 - 0.177163 * uk2 + 16.652443 * error + 4.370218 * ek1 - 12.282225 * ek2
    else if mode == MODE_POLYNOMIAL then
      0.770197 * uk1 + 0.229803 * uk2 + 50.293493 * error + 19.865382 * ek1 - 30.428111 * ek2
    else 0.0
  }

  /** Saturation to the duty range [0, 100]. */
  function ClampPercent(x: real): (c: real)
    ensures 0.0 <= c <= 100.0
    ensures 0.0 <= x <= 100.0 ==> c == x
    ensures x > 100.0 ==> c == 100.0
    ensures x < 0.0 ==> c == 0.0
  {
    if x > 100.0 then 100.0 else if x < 0.0 then 0.0 else x
  }

  /** The value `run_controller` returns: the law's output clamped before it is stored. */
  function ControlLaw(mode: int, error: real, uk1: real, uk2: real, ek1: real, ek2: real): (u: real)
    ensures 0.0 <= u <= 100.0
    ensures mode != MODE_DS_FILTER && mode != MODE_POLYNOMIAL ==> u == 0.0
  {
    ClampPercent(LawOutput(mode, error, uk1, uk2, ek1, ek2))
  }

  /** LawOutput's rest-state contract carried through the clamp: with zero error history
      and both past outputs equal to x in [0, 100], a zero error keeps the clamped output
      at x. This is what the bumpless transfer of main.c:182-191 relies on. */
  lemma ControllerHoldsAtRest(mode: int, x: real)
    requires mode == MODE_DS_FILTER || mode == MODE_POLYNOMIAL
    requires 0.0 <= x <= 100.0
    ensures ControlLaw(mode, 0.0, x, x, 0.0, 0.0) == x
  {
  }

  /** LawOutput's rise on positive error carried through the clamp: below the upper
      saturation bound, a positive error raises the clamped output above the at-rest value. */
  lemma ControllerRaisesOnPositiveError(mode: int, x: real, error: real)
    requires mode == MODE_DS_FILTER || mode == MODE_POLYNOMIAL
    requires 0.0 <= x < 100.0 && error > 0.0
    ensures ControlLaw(mode, error, x, x, 0.0, 0.0) > x
  {
  }

  // ---------------------------------------------------------------------------
  // PWM duty conversion (main.c:92-104)
  // ---------------------------------------------------------------------------

  /** `pwm_set_duty_percent`'s register value: the clamped percentage scaled to 10 bits and
      rounded half up, `(uint32_t)(d * 1023 / 100 + 0.5)`. */
  function DutyToRaw(d: real): (raw: nat)
    ensures raw <= MAX_DUTY
    ensures var x := ClampPercent(d) * (MAX_DUTY as real) / 100.0;
            x - 0.5 < raw as real <= x + 0.5
  {
    (ClampPercent(d) * (MAX_DUTY as real) / 100.0 + 0.5).Floor
  }

  /** `pwm_get_duty_percent`: the register value as a percentage. */
  function RawToDuty(raw: nat): (d: real)
    ensures raw <= MAX_DUTY ==> 0.0 <= d <= 100.0
  {
    100.0 * ((raw as real) / (MAX_DUTY as real))
  }

  /** Reading back a duty differs from the clamped duty written by at most half a step,
      100 / (2 * 1023) percent. */
  lemma SetThenGet(d: real)
    ensures -50.0 / 1023.0 <= RawToDuty(DutyToRaw(d)) - ClampPercent(d) <= 50.0 / 1023.0
  {
    var raw := DutyToRaw(d);
    var x := ClampPercent(d) * (MAX_DUTY as real) / 100.0;
    assert RawToDuty(raw) - ClampPercent(d) == (100.0 / 1023.0) * (raw as real - x);
  }

  /** Writing back a duty that was read from the register reproduces the register. */
  lemma GetThenSet(raw: nat)
    requires raw <= MAX_DUTY
    ensures DutyToRaw(RawToDuty(raw)) == raw
  {
    var d := RawToDuty(raw);
    assert ClampPercent(d) * (MAX_DUTY as real) / 100.0 == raw as real;
  }

  /** The duty app_main writes at start-up, 40 %, is register value 409. */
  lemma InitialDutyRaw()
    ensures DutyToRaw(40.0) == 409
  {
    assert ClampPercent(40.0) * (MAX_DUTY as real) / 100.0 + 0.5 == 409.7;
  }

  // ---------------------------------------------------------------------------
  // Voltage measurement and filtering (main.c:246-258)
  // ---------------------------------------------------------------------------

  function SumInts(s: seq<int>): int
  {
    if |s| == 0 then 0 else SumInts(s[..|s| - 1]) + s[|s| - 1]
  }

  /** The voltage of an oversampled ADC reading: the average raw count scaled to 3.3 V. */
  function AdcVoltage(readings: seq<int>): real
    requires |readings| == ADC_SAMPLES
  {
    (SumInts(readings) as real / (ADC_SAMPLES as real)) * ADC_VREF / (ADC_MAX as real)
  }

  lemma {:induction false} SumIntsBounds(s: seq<int>, hi: int)
    requires forall i :: 0 <= i < |s| ==> 0 <= s[i] <= hi
    ensures 0 <= SumInts(s) <= |s| * hi
  {
    if |s| > 0 {
      SumIntsBounds(s[..|s| - 1], hi);
    }
  }

  /** Readings within the 12-bit range give a voltage within [0, 3.3]. */
  lemma AdcVoltageInRange(readings: seq<int>)
    requires |readings| == ADC_SAMPLES
    requires forall i :: 0 <= i < |readings| ==> 0 <= readings[i] <= ADC_MAX
    ensures 0.0 <= AdcVoltage(readings) <= ADC_VREF
  {
    SumIntsBounds(readings, ADC_MAX);
  }

  /** The oversampling loop of main.c:247-254. */
  method Oversample(readings: seq<int>) returns (voltage: real)
    requires |readings| == ADC_SAMPLES
    ensures voltage == AdcVoltage(readings)
  {
    var accum := 0;
    for i := 0 to ADC_SAMPLES
      invariant accum == SumInts(readings[..i])
    {
      assert readings[..i + 1][..i] == readings[..i];
      accum := accum + readings[i];
    }
    assert readings[..ADC_SAMPLES] == readings;
    var average := accum as real / (ADC_SAMPLES as real);
    voltage := average * ADC_VREF / (ADC_MAX as real);
  }

  /** main.c:257-258: a filtered value of exactly 0 is taken as "not started" and the
      filter is seeded with the raw value, so the first filtered value is the raw value
      itself. Otherwise the filtered value moves 60 % of the way towards the raw value: it
      stays between the two and it is the raw value exactly when the two agree. */
  function Ema(filtered: real, raw: real): (r: real)
    ensures filtered == 0.0 ==> r == raw
    ensures filtered != 0.0 ==> r - filtered == EMA_ALPHA * (raw - filtered)
    ensures filtered != 0.0 && filtered <= raw ==> filtered <= r <= raw
    ensures filtered != 0.0 && raw <= filtered ==> raw <= r <= filtered
    ensures filtered != 0.0 ==> (r == raw <==> filtered == raw)
  {
    var seeded := if filtered == 0.0 then raw else filtered;
    EMA_ALPHA * raw + (1.0 - EMA_ALPHA) * seeded
  }

  // ---------------------------------------------------------------------------
  // Ring buffer indexing (main.c:155-161, 276-279)
  // ---------------------------------------------------------------------------

  /** The slot of the sample at position p of the buffer's contents listed oldest first,
      when the next write goes to slot head: the oldest sample sits at head. */
  function RingIndex(head: nat, p: nat): (slot: nat)
    ensures slot < BUF_N
  {
    (head + p) % BUF_N
  }

  /** The firmware's module-level state. The ghost sequence recent lists the BUF_N samples
      the ring buffer holds, oldest first: the last BUF_N written, after the zeros the
      buffer starts with. */
  class Firmware {
    var mode: int
    var setpoint: real
    var uk1: real
    var uk2: real
    var ek1: real
    var ek2: real
    var filtered: real
    var dutyRaw: nat
    const rb: array<Sample>
    var head: nat
    ghost var recent: seq<Sample>

    /** The buffer has BUF_N slots and lists `recent` from slot head on; the register stays
        within 10 bits; and the output history stays in [0, 100], which the clamp before
        `uk_1` is stored (main.c:126-130) guarantees. */
    ghost predicate Valid()
      reads this, rb
    {
      rb.Length == BUF_N && head < BUF_N && dutyRaw <= MAX_DUTY && |recent| == BUF_N &&
      0.0 <= uk1 <= 100.0 && 0.0 <= uk2 <= 100.0 &&
      forall p :: 0 <= p < BUF_N ==> rb[RingIndex(head, p)] == recent[p]
    }

    /** `pwm_get_duty_percent`. */
    function DutyPercent(): (d: real)
      reads this
      requires dutyRaw <= MAX_DUTY
      ensures 0.0 <= d <= 100.0
    {
      RawToDuty(dutyRaw)
    }

    /** The static initialisation of main.c:38-61 followed by app_main's
        `pwm_set_duty_percent(40.0f)` (main.c:294). */
    constructor ()
      ensures Valid() && fresh(rb)
      ensures mode == MODE_MANUAL && setpoint == 1.0 && filtered == 0.0
      ensures uk1 == 0.0 && uk2 == 0.0 && ek1 == 0.0 && ek2 == 0.0
      ensures dutyRaw == DutyToRaw(40.0) && head == 0
      ensures recent == seq(BUF_N, p => Sample(0.0, 0.0, 0.0))
    {
      mode := MODE_MANUAL;
      setpoint := 1.0;
      uk1, uk2, ek1, ek2 := 0.0, 0.0, 0.0, 0.0;
      filtered := 0.0;
      rb := new Sample[BUF_N](_ => Sample(0.0, 0.0, 0.0));
      head := 0;
      recent := seq(BUF_N, p => Sample(0.0, 0.0, 0.0));
      dutyRaw := DutyToRaw(40.0);
    }

    /** `pwm_set_duty_percent` (the LEDC register writes are left out). */
    method SetDuty(d: real)
      requires Valid()
      modifies this
      ensures Valid()
      ensures dutyRaw == DutyToRaw(d)
      ensures mode == old(mode) && setpoint == old(setpoint) && filtered == old(filtered)
      ensures uk1 == old(uk1) && uk2 == old(uk2) && ek1 == old(ek1) && ek2 == old(ek2)
      ensures head == old(head) && recent == old(recent)
    {
      var duty := d;
      if duty < 0.0 {
        duty := 0.0;
      }
      if duty > 100.0 {
        duty := 100.0;
      }
      dutyRaw := (duty * (MAX_DUTY as real) / 100.0 + 0.5).Floor;
    }

    /** `run_controller`: the clamped control output, with the history shifted by one
        sample in every mode. */
    method RunController(pv: real) returns (u: real)
      requires Valid()
      modifies this
      ensures Valid()
      ensures u == ControlLaw(old(mode), old(setpoint) - pv, old(uk1), old(uk2), old(ek1), old(ek2))
      ensures uk1 == u && uk2 == old(uk1) && ek1 == old(setpoint) - pv && ek2 == old(ek1)
      ensures mode == old(mode) && setpoint == old(setpoint) && filtered == old(filtered)
      ensures dutyRaw == old(dutyRaw) && head == old(head) && recent == old(recent)
    {
      u := 0.0;
      var error := setpoint - pv;
      if mode == MODE_DS_FILTER {
        u := 1.177163 * uk1 - 0.177163 * uk2 + 16.652443 * error + 4.370218 * ek1 - 12.282225 * ek2;
      } else if mode == MODE_POLYNOMIAL {
        u := 0.770197 * uk1 + 0.229803 * uk2 + 50.293493 * error + 19.865382 * ek1 - 30.428111 * ek2;
      }
      if u > 100.0 {
        u := 100.0;
      }
      if u < 0.0 {
        u := 0.0;
      }
      uk2 := uk1;
      uk1 := u;
      ek2 := ek1;
      ek1 := error;
    }

    /** The parameter handling of `set_get_handler` (main.c:176-204), with the query string
        already parsed: a parameter absent from the query is None. Returns the duty and
        mode that the JSON reply reports. */
    method HandleSet(newMode: Option<int>, newSetpoint: Option<real>, newDuty: Option<real>)
      returns (duty: real, modeOut: int)
      requires Valid()
      modifies this
      ensures Valid()
      ensures mode == (if newMode.Some? then newMode.value else old(mode))
      ensures setpoint == (if newSetpoint.Some? then newSetpoint.value else old(setpoint))
      ensures old(mode) == MODE_MANUAL && newMode.Some? && newMode.value != MODE_MANUAL ==>
                uk1 == old(DutyPercent()) && uk2 == old(DutyPercent()) && ek1 == 0.0 && ek2 == 0.0
      ensures !(old(mode) == MODE_MANUAL && newMode.Some? && newMode.value != MODE_MANUAL) ==>
                uk1 == old(uk1) && uk2 == old(uk2) && ek1 == old(ek1) && ek2 == old(ek2)
      ensures dutyRaw == (if mode == MODE_MANUAL && newDuty.Some? then DutyToRaw(newDuty.value) else old(dutyRaw))
      ensures duty == DutyPercent() && modeOut == mode
      ensures filtered == old(filtered) && head == old(head) && recent == old(recent)
    {
      if newMode.Some? {
        if mode == MODE_MANUAL && newMode.value != MODE_MANUAL {
          var current := DutyPercent();
          uk1, uk2 := current, current;
          ek1, ek2 := 0.0, 0.0;
        }
        mode := newMode.value;
      }
      if newSetpoint.Some? {
        setpoint := newSetpoint.value;
      }
      if mode == MODE_MANUAL && newDuty.Some? {
        SetDuty(newDuty.value);
      }
      duty := DutyPercent();
      modeOut := mode;
    }

    /** The buffer write of main.c:276-279: the sample goes to slot head and head advances
        modulo BUF_N. Every other slot keeps its sample, and the contents gain the sample
        as their newest and lose their oldest. */
    method Record(s: Sample)
      requires Valid()
      modifies this, rb
      ensures Valid()
      ensures rb[old(head)] == s && head == (old(head) + 1) % BUF_N
      ensures forall i :: 0 <= i < BUF_N && i != old(head) ==> rb[i] == old(rb[i])
      ensures recent == old(recent)[1..] + [s]
      ensures mode == old(mode) && setpoint == old(setpoint) && filtered == old(filtered)
      ensures uk1 == old(uk1) && uk2 == old(uk2) && ek1 == old(ek1) && ek2 == old(ek2)
      ensures dutyRaw == old(dutyRaw)
    {
      ghost var oldHead := head;
      rb[head] := s;
      head := (head + 1) % BUF_N;
      recent := recent[1..] + [s];
      forall p | 0 <= p < BUF_N
        ensures rb[RingIndex(head, p)] == recent[p]
      {
        RingShift(oldHead, p);
      }
    }

    /** The copy loop of `data_get_handler` (main.c:149-162), where locked says whether the
        buffer mutex was obtained. Without it the reply holds no samples; with it, the last
        BATCH_SIZE samples written, oldest first. */
    method ReadBatch(locked: bool) returns (batch: seq<Sample>)
      requires Valid()
      ensures !locked ==> batch == []
      ensures locked ==> batch == recent[BUF_N - BATCH_SIZE..]
    {
      if !locked {
        return [];
      }
      var local := new Sample[BATCH_SIZE];
      var start := (head + BUF_N - BATCH_SIZE) % BUF_N;
      for i := 0 to BATCH_SIZE
        invariant forall j :: 0 <= j < i ==> local[j] == recent[BUF_N - BATCH_SIZE + j]
      {
        var idx := (start + i) % BUF_N;
        BatchSlot(head, i);
        local[i] := rb[idx];
      }
      batch := local[..];
    }

    /** One period of `task_control` (main.c:245-281) given the 32 ADC readings of this
        period and whether the buffer mutex was obtained. */
    method ControlTick(readings: seq<int>, locked: bool)
      requires Valid() && |readings| == ADC_SAMPLES
      modifies this, rb
      ensures Valid()
      ensures filtered == Ema(old(filtered), AdcVoltage(readings))
      ensures old(mode) != MODE_MANUAL ==>
                var u := ControlLaw(old(mode), old(setpoint) - filtered, old(uk1), old(uk2), old(ek1), old(ek2));
                dutyRaw == DutyToRaw(u) && uk1 == u && uk2 == old(uk1) && ek1 == old(setpoint) - filtered && ek2 == old(ek1)
      ensures old(mode) == MODE_MANUAL ==>
                dutyRaw == old(dutyRaw) && uk1 == old(DutyPercent()) && uk2 == old(DutyPercent()) &&
                ek1 == old(setpoint) - filtered && ek2 == old(setpoint) - filtered
      ensures locked ==> recent == old(recent)[1..] + [Sample(filtered, DutyPercent(), setpoint)] &&
                         head == (old(head) + 1) % BUF_N
      ensures !locked ==> recent == old(recent) && head == old(head)
      ensures mode == old(mode) && setpoint == old(setpoint)
    {
      var voltage := Oversample(readings);
      if filtered == 0.0 {
        filtered := voltage;
      }
      filtered := EMA_ALPHA * voltage + (1.0 - EMA_ALPHA) * filtered;
      if mode != MODE_MANUAL {
        var u := RunController(filtered);
        SetDuty(u);
      } else {
        var current := DutyPercent();
        uk1, uk2 := current, current;
        ek1, ek2 := setpoint - filtered, setpoint - filtered;
      }
      assert Valid();
      var duty := DutyPercent();
      if locked {
        Record(Sample(filtered, duty, setpoint));
      }
    }
  }

  /** After a write at slot head, position p of the new contents sits where position p + 1
      of the old contents sat, except the newest, which sits at the old head. */
  lemma RingShift(head: nat, p: nat)
    requires head < BUF_N && p < BUF_N
    ensures p < BUF_N - 1 ==> RingIndex((head + 1) % BUF_N, p) == RingIndex(head, p + 1) != head
    ensures p == BUF_N - 1 ==> RingIndex((head + 1) % BUF_N, p) == head
  {
  }

  /** Slot i of the batch read is position BUF_N - BATCH_SIZE + i of the contents. */
  lemma BatchSlot(head: nat, i: nat)
    requires head < BUF_N && i < BATCH_SIZE
    ensures ((head + BUF_N - BATCH_SIZE) % BUF_N + i) % BUF_N == RingIndex(head, BUF_N - BATCH_SIZE + i)
  {
  }

  /** The batch read starting at slot (head + BUF_N - BATCH_SIZE) mod BUF_N ends at slot
      (head - 1) mod BUF_N, and that is the slot written last: the write that advanced the
      head to its current value went to the slot just before it. */
  lemma BatchEndsAtLastWrite(head: nat)
    requires head < BUF_N
    ensures ((head + BUF_N - BATCH_SIZE) % BUF_N + (BATCH_SIZE - 1)) % BUF_N == (head + BUF_N - 1) % BUF_N
    ensures ((head + BUF_N - 1) % BUF_N + 1) % BUF_N == head
  {
  }
}
