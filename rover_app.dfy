/**
 * The rover application: an RTIC app whose tasks blink the indicator LEDs,
 * bring the SoftDevice up once interrupts are enabled, drain SoftDevice
 * events at task level, and drive the motors when a new speed pair arrives.
 * Each task is a method of `Rover`; spawning a task is recorded in
 * `spawned`, the order in which the RTIC scheduler was asked to run tasks.
 */
module RoverApp {
  import opened Machine
  import opened Nrf
  import opened BringUp
  import opened BleEvents
  import opened SoftDeviceAdapter
  import opened Indicator
  import opened Actuation
  import opened Priorities

  datatype Task =
    | Init
    | Idle
    | Blink
    | InitSoftDevice
    | ValueUpdateHandler
    | SoftdevEventNotify
    | SoftdevEventNotifyInterrupt
    | Monotonic

  /** Only `init` runs with interrupts disabled. */
  predicate InterruptsEnabled(t: Task) {
    t != Init
  }

  /**
   * The RTIC priority each task runs at once interrupts are enabled: idle
   * runs below every task, the monotonic timer at 6, and every other task
   * at RTIC's default priority 1.
   */
  function Priority(t: Task): (p: nat)
    ensures InterruptsEnabled(t) && t != Idle ==> 1 <= p <= PRIORITY_LEVELS
  {
    match t
    case Init => 0
    case Idle => 0
    case Monotonic => 6
    case _ => 1
  }

  /** The tasks whose bodies call into the SoftDevice. */
  predicate CallsSoftDevice(t: Task) {
    t == InitSoftDevice || t == SoftdevEventNotify
  }

  /** No task runs at a level the SoftDevice reserves. */
  lemma NoTaskUsesReservedPriority(t: Task)
    requires InterruptsEnabled(t) && t != Idle
    ensures Usable(Priority(t)) && Priority(t) in USABLE_RTIC
  {
    ReservedAndUsableLevels();
  }

  /**
   * Every SoftDevice call is made with interrupts enabled and from a
   * priority the SVC handler preempts: never from `init`, and never from
   * the SWI2 interrupt handler itself, which only spawns the draining task.
   */
  lemma SoftDeviceCallsObeySvcRule(t: Task)
    requires CallsSoftDevice(t)
    ensures InterruptsEnabled(t) && MayCallSoftDevice(Priority(t))
    ensures t != Init && t != SoftdevEventNotifyInterrupt
  {
    SvcRuleInRticTerms(Priority(t));
  }

  datatype Spawn = SpawnNow(task: Task) | SpawnAfter(task: Task, delayMs: nat)

  class Rover {
    const sd: SoftDevice
    var blinkFreq: u8
    const leds: Leds
    const motors: Motors
    var spawned: seq<Spawn>

    /** The adapter's buffers keep the contents the constructor gave them. */
    ghost predicate Valid()
      reads sd.advData, sd.scanResp, sd.devName
    {
      && sd.advData[..] == ADV_DATA
      && sd.scanResp[..] == SCAN_RESP
      && sd.devName[..] == DEV_NAME
      && sd.connSecMode == OPEN_LINK
    }

    /**
     * The `init` task: LEDs low, motors set up with both direction pins
     * high and zero duty, the adapter built but not brought up, the blink
     * rate 0, and two spawns queued: the SoftDevice bring-up at once and
     * the first blink after 500 ms.
     */
    constructor Init(maxDuty: u16)
      ensures Valid()
      ensures fresh(sd) && fresh(leds) && fresh(motors)
      ensures blinkFreq == 0 && leds.Pair() == LedPair(false, false)
      ensures motors.maxDuty == maxDuty && motors.rDir && motors.lDir
      ensures motors.duty0 == 0 && motors.duty1 == 0
      ensures spawned == [SpawnNow(InitSoftDevice), SpawnAfter(Blink, 500)]
    {
      leds := new Leds();
      spawned := [SpawnNow(InitSoftDevice), SpawnAfter(Blink, 500)];
      motors := new Motors(maxDuty);
      sd := new SoftDevice();
      blinkFreq := 0;
    }

    /** Toggles the LEDs and re-arms itself after the delay the shared rate gives. */
    method BlinkTask() returns (delayMs: nat)
      modifies this, leds
      ensures leds.Pair() == Toggle(old(leds.Pair()))
      ensures blinkFreq == old(blinkFreq) && delayMs == BlinkDelay(blinkFreq)
      ensures spawned == old(spawned) + [SpawnAfter(Blink, delayMs)]
    {
      leds.Blink();
      var freq := blinkFreq;
      delayMs := BlinkDelay(freq);
      spawned := spawned + [SpawnAfter(Blink, delayMs)];
    }

    /** Brings the SoftDevice up with the adapter's buffers; nothing of the app's own state changes. */
    method InitSoftDeviceTask(reply: Step -> u32, assignedHandle: u8) returns (ok: bool, calls: seq<SdCall>)
      requires Valid()
      ensures calls == Plan(ADV_DATA, SCAN_RESP, DEV_NAME, OPEN_LINK, assignedHandle)[..Issued(STEPS, reply)]
      ensures ok <==> Succeeds(reply)
    {
      ok, calls := sd.Init(reply, assignedHandle);
    }

    /** The SWI2 handler: it only queues the task that drains events. */
    method SoftdevEventNotifyInterrupt()
      modifies this
      ensures spawned == old(spawned) + [SpawnNow(SoftdevEventNotify)]
      ensures blinkFreq == old(blinkFreq)
    {
      spawned := spawned + [SpawnNow(SoftdevEventNotify)];
    }

    /** Drains every pending SoftDevice event and dispatches the fetched ones. */
    method SoftdevEventNotifyTask(ids: EventIds, bufSize: u16, rs: seq<EvtReply>) returns (steps: seq<DrainStep>)
      requires Drains(rs)
      ensures |steps| == Pending(rs)
      ensures forall k :: 0 <= k < |steps| ==> steps[k] == StepFor(ids, rs[k])
    {
      var lens;
      steps, lens := sd.HandleEvtNotify(ids, bufSize, rs);
    }

    /** Applies a speed pair received over BLE to the motor outputs. */
    method ValueUpdateHandlerTask(speedR: i8, speedL: i8) returns (panicked: bool)
      modifies motors
      ensures motors.rDir == (speedR > 0) && motors.lDir == (speedL > 0)
      ensures panicked <==> speedR == -128 || speedL == -128
      ensures panicked ==> motors.duty0 == old(motors.duty0) && motors.duty1 == old(motors.duty1)
      ensures !panicked ==>
                motors.duty0 == Duty(motors.maxDuty, CheckedAbs(speedR).value) &&
                motors.duty1 == Duty(motors.maxDuty, CheckedAbs(speedL).value)
    {
      panicked := motors.ValueUpdate(speedR, speedL);
    }
  }

  /**
   * A start-up run: `init`, then the bring-up it spawned at once, then the
   * two blinks, the first of which it spawned after 500 ms.
   * With the rate never written each blink re-arms after 1000 ms; the first
   * blink drives led1 high and the second low again, and the bring-up issues
   * all seven calls exactly when the SoftDevice accepts the fatal ones.
   */
  method StartUp(maxDuty: u16, reply: Step -> u32, assignedHandle: u8) returns (rover: Rover, ok: bool, calls: seq<SdCall>)
    ensures rover.leds.Pair() == LedPair(false, true)
    ensures rover.spawned == [SpawnNow(InitSoftDevice), SpawnAfter(Blink, 500),
                              SpawnAfter(Blink, 1000), SpawnAfter(Blink, 1000)]
    ensures ok <==> |calls| == |STEPS|
  {
    rover := new Rover.Init(maxDuty);
    ok, calls := rover.InitSoftDeviceTask(reply, assignedHandle);
    var d1 := rover.BlinkTask();
    var d2 := rover.BlinkTask();
    CompletesIffSucceeds(reply);
  }
}
