/**
 The driver facade of the ArduCAM Mini 2MP Plus: the error kinds, the image
 settings, the driver state and the rule every public operation is proved
 against.

 The Rust `Arducam` owns an SPI handle and an I2C handle; here both are
 replaced by the trace of everything issued on either bus so far, and the
 device behind them by an `Oracle` passed to each operation. Every operation
 returns a `Ret`: the Rust `Result` together with the driver state after the
 call, so that `:-` plays the part of Rust's `?`.
 */
module Camera {
  import opened Bus

  /** Errors the driver can report (Rust `Error`). */
  datatype Error = Spi | I2c | Pin | OutOfBounds

  /** Sensor output sizes (Rust `Resolution`). */
  datatype Resolution =
    | Res160x120 | Res176x144 | Res320x240 | Res352x288 | Res640x480
    | Res800x600 | Res1024x768 | Res1280x1024 | Res1600x1200

  /** Output encodings; BMP and RAW are commented out in the driver (Rust `ImageFormat`). */
  datatype ImageFormat = Jpeg

  /** One camera: the history of both buses and the configured image settings. */
  datatype Arducam = Arducam(trace: seq<Event>, format: ImageFormat, resolution: Resolution)

  /** The outcome of one driver call and the camera after it. */
  datatype Ret<+T> = Done(value: T, cam: Arducam) | Failed(error: Error, cam: Arducam)
  {
    predicate IsFailure() { Failed? }

    function PropagateFailure<U>(): Ret<U>
      requires Failed?
    {
      Failed(error, cam)
    }

    /**
     Hands back the whole successful outcome, not just the value: after
     `var t :- F(d, o)` the caller continues from the camera `t.cam` and uses
     the value `t.value`, where Rust keeps the camera in `&mut self`.
     */
    function Extract(): Ret<T>
      requires Done?
    {
      this
    }
  }

  /** The error a refused operation is reported as: every register-bus failure is `Spi`, every sensor-bus one `I2c`. */
  function ErrorFor(e: Event): Error
  {
    if e.SpiTransaction? then Spi else I2c
  }

  /**
   `r` is what the driver returns when it issues `plan` in order from camera
   `d` and stops at the first refused operation: the trace grows by exactly the
   issued operations, nothing else about the camera changes, and the call
   fails, with the error of the refused operation's bus, exactly when some
   operation is refused.
   */
  ghost predicate Performs<T>(d: Arducam, o: Oracle, plan: seq<Event>, r: Ret<T>)
  {
    var run := Exec(d.trace, o, plan, 0);
    && r.cam == d.(trace := run.trace)
    && match run.refused
       case None => r.Done?
       case Some(e) => r.Failed? && r.error == ErrorFor(e)
  }

  /**
   A call that `Performs` its plan either issues every operation, all of them
   acknowledged, or issues a prefix whose last operation is the only refused one.
   */
  lemma PerformsStopsAtFirstRefusal<T>(d: Arducam, o: Oracle, plan: seq<Event>, r: Ret<T>)
    requires Performs(d, o, plan, r)
    ensures r.Done? ==> r.cam.trace == d.trace + plan
    ensures r.Done? ==> forall k :: 0 <= k < |plan| ==> Acked(d.trace, o, plan, k)
    ensures r.Failed? ==> exists n :: (
      && 0 <= n < |plan|
      && r.cam.trace == d.trace + plan[..n + 1]
      && (forall k :: 0 <= k < n ==> Acked(d.trace, o, plan, k))
      && !Acked(d.trace, o, plan, n)
      && r.error == ErrorFor(plan[n]))
  {
    ExecStopsAtFirstRefusal(d.trace, o, plan, 0);
    assert d.trace + plan[..0] == d.trace;
  }

  /** Against a device that refuses nothing, every plan is issued in full and the call succeeds. */
  lemma PerformsWithoutRefusal<T>(d: Arducam, o: Oracle, plan: seq<Event>, r: Ret<T>)
    requires Performs(d, o, plan, r)
    requires forall h, e :: o(h, e).Ack?
    ensures r.Done? && r.cam.trace == d.trace + plan
  {
    PerformsStopsAtFirstRefusal(d, o, plan, r);
  }

  /** A call refused within `p` has also performed `p` followed by anything. */
  lemma PerformsAbort<A, B>(d: Arducam, o: Oracle, p: seq<Event>, q: seq<Event>, r1: Ret<A>)
    requires Performs(d, o, p, r1) && r1.Failed?
    ensures Performs(d, o, p + q, r1.PropagateFailure<B>())
  {
    ExecAppend(d.trace, o, p, q, 0);
  }

  /** A call that performed `p` and then, from where it left off, `q`, has performed `p + q`. */
  lemma PerformsThen<A, B>(d: Arducam, o: Oracle, p: seq<Event>, q: seq<Event>, r1: Ret<A>, r2: Ret<B>)
    requires Performs(d, o, p, r1) && r1.Done?
    requires Performs(r1.cam, o, q, r2)
    ensures Performs(d, o, p + q, r2)
  {
    ExecAppend(d.trace, o, p, q, 0);
  }

  /** Rust's `?` between two steps of the same result type: `next` runs only when `first` succeeded. */
  function AndThen<T>(first: Ret<T>, next: Ret<T>): Ret<T>
  {
    if first.Failed? then first else next
  }

  /** Sequencing two steps with `AndThen` performs their plans one after the other. */
  lemma PerformsAndThen<T>(d: Arducam, o: Oracle, p: seq<Event>, q: seq<Event>, first: Ret<T>, next: Ret<T>)
    requires Performs(d, o, p, first)
    requires first.Done? ==> Performs(first.cam, o, q, next)
    ensures Performs(d, o, p + q, AndThen(first, next))
  {
    if first.Failed? {
      PerformsAbort<T, T>(d, o, p, q, first);
    } else {
      PerformsThen(d, o, p, q, first, next);
    }
  }

  /**
   One `?` step of a driver operation: `first` performed `done`, and `next`,
   run from where `first` left off, performed `step`. The combined outcome
   performs `done` followed by `step`.
   */
  function Then<T>(d: Arducam, o: Oracle, done: seq<Event>, first: Ret<T>, step: seq<Event>, next: Ret<T>): (r: Ret<T>)
    requires Performs(d, o, done, first)
    requires first.Done? ==> Performs(first.cam, o, step, next)
    ensures Performs(d, o, done + step, r)
  {
    PerformsAndThen(d, o, done, step, first, next);
    AndThen(first, next)
  }

  /** Creates a camera that has not been initialised and has issued nothing (Rust `Arducam::new`). */
  function New(resolution: Resolution, format: ImageFormat): (d: Arducam)
    ensures d.trace == []
    ensures d.resolution == resolution && d.format == format
  {
    Arducam([], format, resolution)
  }

  /** Issues one bus operation and hands back the device's reply. */
  function Transact(d: Arducam, o: Oracle, e: Event): (r: Ret<Reply>)
    requires !e.Delay?
    ensures Performs(d, o, [e], r)
    ensures r.Done? ==> r.value == o(d.trace, e)
  {
    var c := d.(trace := d.trace + [e]);
    if o(d.trace, e).Nak? then Failed(ErrorFor(e), c) else Done(o(d.trace, e), c)
  }

  /** A pause of `ms` milliseconds (`DelayNs::delay_ms`): recorded, never fails. */
  function Pause(d: Arducam, o: Oracle, ms: nat): (r: Ret<()>)
    ensures Performs(d, o, [Delay(ms)], r)
  {
    Done((), d.(trace := d.trace + [Delay(ms)]))
  }
}
