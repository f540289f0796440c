/**
 * `SafeMongooseConnection` (src/lib/safe-mongoose-connection.ts): a wrapper
 * around the process-wide Mongoose connection that keeps retrying the first
 * connection without crashing the server.
 *
 * The wrapper reacts to inputs: its two public methods `connect` and `close`,
 * the four driver events it subscribes to (`connected`, `reconnected`, `error`,
 * `disconnected`), and the firing of a retry timer it set. Each input changes
 * the wrapper's fields and causes effects: calls of the user's callbacks, calls
 * into the driver, and timers set or cleared. `Next` is that transition as a
 * function; the class `SafeMongooseConnection` performs it step by step on its
 * fields and is proved against `Next`. Time is abstract: a timer fires when the
 * environment says so, never because a delay elapsed.
 */
module SafeMongoose {
  import opened Wrappers

  /** A handle returned by `setTimeout`; handles are issued in increasing order. */
  type TimerId = nat

  /** Identity of the function passed to `connect` as `onConnectedCallback`. */
  type CallbackId = nat

  /** The two driver options the wrapper itself sets; all others are opaque to it. */
  datatype ConnectOptions = ConnectOptions(autoCreate: Option<bool>, autoIndex: Option<bool>)

  /** `defaultMongooseConnectionOptions`. */
  const DefaultConnectOptions: ConnectOptions := ConnectOptions(Some(true), Some(true))

  /** The retry delay, in milliseconds, used when none is supplied. */
  const DefaultRetryDelayMs: int := 2000

  /**
   * `SafeMongooseConnectionOptions`; each optional callback is recorded by
   * whether it was supplied, since the wrapper only ever calls it.
   */
  datatype Options = Options(
    mongoUrl: string,
    mongooseConnectionOptions: Option<ConnectOptions>,
    retryDelayMs: Option<int>,
    debugCallback: bool,
    onStartConnection: bool,
    onConnectionError: bool,
    onConnectionRetry: bool)

  /** What the constructor fixes for the lifetime of the wrapper. */
  datatype Config = Config(options: Options, retryDelayMs: int, connectOptions: ConnectOptions)

  /** The constructor's `??` defaults. */
  function Configure(options: Options): (c: Config)
    ensures c.options == options
    ensures options.retryDelayMs.None? ==> c.retryDelayMs == 2000
    ensures options.retryDelayMs.Some? ==> c.retryDelayMs == options.retryDelayMs.value
    ensures options.mongooseConnectionOptions.None? ==> c.connectOptions == ConnectOptions(Some(true), Some(true))
    ensures options.mongooseConnectionOptions.Some? ==> c.connectOptions == options.mongooseConnectionOptions.value
  {
    Config(options, options.retryDelayMs.GetOr(DefaultRetryDelayMs),
           options.mongooseConnectionOptions.GetOr(DefaultConnectOptions))
  }

  /** An observable effect of the wrapper. */
  datatype Effect =
    | DebugHookInstalled                              // mongoose.set('debug', debugCallback)
    | StartConnectionNotified(url: string)            // options.onStartConnection(mongoUrl)
    | ConnectAttempted(url: string, opts: ConnectOptions)  // mongoose.connect(...); a rejection is swallowed
    | UserCallbackInvoked(callback: CallbackId, url: string) // onConnectedCallback(mongoUrl)
    | ConnectionErrorReported(message: string, url: string)  // options.onConnectionError(new Error(message), mongoUrl)
    | RetryNotified(url: string)                      // options.onConnectionRetry(mongoUrl)
    | TimerSet(timer: TimerId, delayMs: int)          // setTimeout(..., retryDelayMs)
    | TimerCleared(timer: TimerId)                    // clearTimeout(timer)
    | DriverClosed(force: bool)                       // mongoose.connection.close(force)

  /** The inputs the wrapper reacts to. */
  datatype Input =
    | Connect(callback: CallbackId)
    | Close(force: bool)
    | Connected
    | Reconnected
    | Error
    | Disconnected
    | TimerFires(timer: TimerId)

  /**
   * The wrapper's mutable fields, plus the part of the runtime it drives: the
   * timers still pending and the next handle `setTimeout` will return.
   */
  datatype State = State(
    onConnectedCallback: Option<CallbackId>,
    isConnectedBefore: bool,
    shouldCloseConnection: bool,
    connectionTimeout: Option<TimerId>,
    pendingTimers: set<TimerId>,
    nextTimerId: TimerId)

  /** The state right after construction. */
  const Init: State := State(None, false, false, None, {}, 0)

  /** One transition: the new state and the effects, in order. */
  datatype Step = Step(state: State, effects: seq<Effect>)

  /** The message of the `Error` built by the `error` handler. */
  function ConnectionErrorMessage(url: string): string {
    "Could not connect to MongoDB at " + url
  }

  /** `startConnection`: announce the attempt, then start it. */
  function StartConnectionEffects(c: Config): (effects: seq<Effect>)
    ensures |effects| == 1 + (if c.options.onStartConnection then 1 else 0)
    ensures effects[|effects| - 1] == ConnectAttempted(c.options.mongoUrl, c.connectOptions)
    ensures c.options.onStartConnection ==> effects[0] == StartConnectionNotified(c.options.mongoUrl)
  {
    (if c.options.onStartConnection then [StartConnectionNotified(c.options.mongoUrl)] else [])
    + [ConnectAttempted(c.options.mongoUrl, c.connectOptions)]
  }

  /** `this.onConnectedCallback?.(mongoUrl)`. */
  function NotifyConnected(c: Config, s: State): seq<Effect> {
    match s.onConnectedCallback
    case Some(cb) => [UserCallbackInvoked(cb, c.options.mongoUrl)]
    case None => []
  }

  /**
   * The transition the source performs on each input. Whatever the input, at
   * most one timer is set (with the next handle), and neither flag reverts.
   */
  function Next(c: Config, s: State, input: Input): (r: Step)
    ensures s.nextTimerId <= r.state.nextTimerId <= s.nextTimerId + 1
    ensures forall t :: t in r.state.pendingTimers ==> t in s.pendingTimers || s.nextTimerId <= t < r.state.nextTimerId
    ensures s.isConnectedBefore ==> r.state.isConnectedBefore
    ensures s.shouldCloseConnection ==> r.state.shouldCloseConnection
  {
    var url := c.options.mongoUrl;
    match input
    case Connect(cb) =>
      Step(s.(onConnectedCallback := Some(cb)), StartConnectionEffects(c))
    case Close(force) =>
      // Clears only the stored handle, and leaves it stored.
      (match s.connectionTimeout
       case Some(t) =>
         Step(s.(pendingTimers := s.pendingTimers - {t}, shouldCloseConnection := true),
              [TimerCleared(t), DriverClosed(force)])
       case None =>
         Step(s.(shouldCloseConnection := true), [DriverClosed(force)]))
    case Connected =>
      Step(s.(isConnectedBefore := true), NotifyConnected(c, s))
    case Reconnected =>
      Step(s, NotifyConnected(c, s))
    case Error =>
      Step(s, if c.options.onConnectionError then [ConnectionErrorReported(ConnectionErrorMessage(url), url)] else [])
    case Disconnected =>
      if !s.isConnectedBefore && !s.shouldCloseConnection then
        // A new timer; the handle it replaces is not cleared.
        var t := s.nextTimerId;
        Step(s.(connectionTimeout := Some(t), pendingTimers := s.pendingTimers + {t}, nextTimerId := t + 1),
             [TimerSet(t, c.retryDelayMs)] + (if c.options.onConnectionRetry then [RetryNotified(url)] else []))
      else
        Step(s, [])
    case TimerFires(t) =>
      if t !in s.pendingTimers then
        Step(s, [])  // a cleared or already fired timer never runs
      else
        // The timer body starts a connection, then clears whatever handle is
        // stored now, which is the latest timer set, not necessarily this one.
        var fired := s.(pendingTimers := s.pendingTimers - {t});
        (match s.connectionTimeout
         case Some(u) =>
           Step(fired.(pendingTimers := fired.pendingTimers - {u}), StartConnectionEffects(c) + [TimerCleared(u)])
         case None =>
           Step(fired, StartConnectionEffects(c)))
  }

  /**
   * The effect of a sequence of inputs, one after the other: handles only grow,
   * and a timer pending at the end was pending at the start or set on the way.
   */
  function Run(c: Config, s: State, inputs: seq<Input>): (r: Step)
    ensures s.nextTimerId <= r.state.nextTimerId
    ensures forall t :: t in r.state.pendingTimers ==> t in s.pendingTimers || s.nextTimerId <= t < r.state.nextTimerId
    decreases |inputs|
  {
    if inputs == [] then Step(s, [])
    else
      var first := Next(c, s, inputs[0]);
      var rest := Run(c, first.state, inputs[1..]);
      Step(rest.state, first.effects + rest.effects)
  }

  /**
   * What holds of every reachable state: handles below the next one to be
   * issued, the stored handle is the latest one set, a pending timer implies a
   * stored handle, and after `close` the stored timer is no longer pending.
   */
  ghost predicate Inv(s: State) {
    && (forall t :: t in s.pendingTimers ==> t < s.nextTimerId)
    && (s.connectionTimeout.Some? ==> s.connectionTimeout.value + 1 == s.nextTimerId)
    && (s.pendingTimers != {} ==> s.connectionTimeout.Some?)
    && (s.shouldCloseConnection && s.connectionTimeout.Some? ==> s.connectionTimeout.value !in s.pendingTimers)
  }

  lemma InitInv()
    ensures Inv(Init)
  {
  }

  lemma NextPreservesInv(c: Config, s: State, input: Input)
    requires Inv(s)
    ensures Inv(Next(c, s, input).state)
  {
  }

  /** A `SafeMongooseConnection` instance. */
  class SafeMongooseConnection {
    /** `options`, `retryDelayMs` and `mongoConnectionOptions`, fixed by the constructor. */
    const config: Config

    var onConnectedCallback: Option<CallbackId>
    var isConnectedBefore: bool
    var shouldCloseConnection: bool
    var connectionTimeout: Option<TimerId>

    /** The runtime's pending timers set by this wrapper, and the next handle it issues. */
    var pendingTimers: set<TimerId>
    var nextTimerId: TimerId
    /** Every effect so far, in order. */
    var trace: seq<Effect>

    /** The fields as a `State`. */
    function View(): State
      reads this
    {
      State(onConnectedCallback, isConnectedBefore, shouldCloseConnection, connectionTimeout,
            pendingTimers, nextTimerId)
    }

    ghost predicate Valid()
      reads this
    {
      Inv(View())
    }

    /** `new SafeMongooseConnection(options)`; registering the four listeners is implicit. */
    constructor (options: Options)
      ensures Valid()
      ensures config == Configure(options) && View() == Init
      ensures trace == if options.debugCallback then [DebugHookInstalled] else []
    {
      config := Configure(options);
      onConnectedCallback := None;
      isConnectedBefore := false;
      shouldCloseConnection := false;
      connectionTimeout := None;
      pendingTimers := {};
      nextTimerId := 0;
      trace := if options.debugCallback then [DebugHookInstalled] else [];
    }

    /** `clearTimeout(t)`: harmless on a timer that already fired or was cleared. */
    method ClearTimeout(t: TimerId)
      modifies this`pendingTimers, this`trace
      ensures pendingTimers == old(pendingTimers) - {t}
      ensures trace == old(trace) + [TimerCleared(t)]
    {
      pendingTimers := pendingTimers - {t};
      trace := trace + [TimerCleared(t)];
    }

    /** `close(force = false)`. The returned promise, settled by the driver, is not modelled. */
    method Close(force: Option<bool>)
      requires Valid()
      modifies this
      ensures Valid()
      ensures var step := Next(config, old(View()), Input.Close(force.GetOr(false)));
        View() == step.state && trace == old(trace) + step.effects
    {
      NextPreservesInv(config, View(), Input.Close(force.GetOr(false)));
      if connectionTimeout.Some? {
        ClearTimeout(connectionTimeout.value);
      }
      shouldCloseConnection := true;
      trace := trace + [DriverClosed(force.GetOr(false))];
    }

    /** `startConnection`. */
    method StartConnection()
      modifies this`trace
      ensures trace == old(trace) + StartConnectionEffects(config)
    {
      if config.options.onStartConnection {
        trace := trace + [StartConnectionNotified(config.options.mongoUrl)];
      }
      trace := trace + [ConnectAttempted(config.options.mongoUrl, config.connectOptions)];
    }

    /** `connect(onConnectedCallback)`. */
    method Connect(callback: CallbackId)
      requires Valid()
      modifies this
      ensures Valid()
      ensures var step := Next(config, old(View()), Input.Connect(callback));
        View() == step.state && trace == old(trace) + step.effects
    {
      NextPreservesInv(config, View(), Input.Connect(callback));
      onConnectedCallback := Some(callback);
      StartConnection();
    }

    /** The `connected` listener. */
    method OnConnected()
      requires Valid()
      modifies this
      ensures Valid()
      ensures var step := Next(config, old(View()), Input.Connected);
        View() == step.state && trace == old(trace) + step.effects
    {
      NextPreservesInv(config, View(), Input.Connected);
      isConnectedBefore := true;
      if onConnectedCallback.Some? {
        trace := trace + [UserCallbackInvoked(onConnectedCallback.value, config.options.mongoUrl)];
      }
    }

    /** The `reconnected` listener. */
    method OnReconnected()
      requires Valid()
      modifies this
      ensures Valid()
      ensures var step := Next(config, old(View()), Input.Reconnected);
        View() == step.state && trace == old(trace) + step.effects
    {
      if onConnectedCallback.Some? {
        trace := trace + [UserCallbackInvoked(onConnectedCallback.value, config.options.mongoUrl)];
      }
    }

    /** The `error` listener. */
    method OnError()
      requires Valid()
      modifies this
      ensures Valid()
      ensures var step := Next(config, old(View()), Input.Error);
        View() == step.state && trace == old(trace) + step.effects
    {
      var message := "Could not connect to MongoDB at " + config.options.mongoUrl;
      if config.options.onConnectionError {
        trace := trace + [ConnectionErrorReported(message, config.options.mongoUrl)];
      }
    }

    /** The `disconnected` listener. */
    method OnDisconnected()
      requires Valid()
      modifies this
      ensures Valid()
      ensures var step := Next(config, old(View()), Input.Disconnected);
        View() == step.state && trace == old(trace) + step.effects
    {
      NextPreservesInv(config, View(), Input.Disconnected);
      if !isConnectedBefore && !shouldCloseConnection {
        // setTimeout(...): the runtime issues a fresh handle and the field is overwritten.
        var t := nextTimerId;
        nextTimerId := nextTimerId + 1;
        pendingTimers := pendingTimers + {t};
        trace := trace + [TimerSet(t, config.retryDelayMs)];
        connectionTimeout := Some(t);
        if config.options.onConnectionRetry {
          trace := trace + [RetryNotified(config.options.mongoUrl)];
        }
      }
    }

    /** The runtime runs the body of pending timer `t`. */
    method TimerFires(t: TimerId)
      requires Valid() && t in pendingTimers
      modifies this
      ensures Valid()
      ensures var step := Next(config, old(View()), Input.TimerFires(t));
        View() == step.state && trace == old(trace) + step.effects
    {
      NextPreservesInv(config, View(), Input.TimerFires(t));
      pendingTimers := pendingTimers - {t};
      StartConnection();
      if connectionTimeout.Some? {
        ClearTimeout(connectionTimeout.value);
      }
    }
  }
}
