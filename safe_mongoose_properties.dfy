/**
 * What `SafeMongoose.Next` implies, one input at a time and over any sequence
 * of inputs, including the places where the wrapper's code does not do what a
 * retry manager with a single cancellable timer would.
 */
module SafeMongooseProperties {
  import opened Wrappers
  import opened SafeMongoose

  /** No timer is set in `effects`. */
  predicate SchedulesNothing(effects: seq<Effect>) {
    forall k :: 0 <= k < |effects| ==> !effects[k].TimerSet?
  }

  /** Some input of `inputs` is a `close`. */
  predicate HasClose(inputs: seq<Input>) {
    exists k :: 0 <= k < |inputs| && inputs[k].Close?
  }

  // ---------------------------------------------------------------------------
  // One input at a time

  /**
   * `disconnected` sets exactly one timer, replacing the stored handle without
   * clearing the previous timer, and then notifies the retry, iff the wrapper
   * never connected and was not closed; otherwise it does nothing at all.
   */
  lemma DisconnectedSchedulesIff(c: Config, s: State)
    ensures var step := Next(c, s, Disconnected);
      !SchedulesNothing(step.effects) <==> !s.isConnectedBefore && !s.shouldCloseConnection
    ensures var step := Next(c, s, Disconnected);
      !s.isConnectedBefore && !s.shouldCloseConnection ==>
        && step.effects == [TimerSet(s.nextTimerId, c.retryDelayMs)]
                           + (if c.options.onConnectionRetry then [RetryNotified(c.options.mongoUrl)] else [])
        && step.state == s.(connectionTimeout := Some(s.nextTimerId),
                            pendingTimers := s.pendingTimers + {s.nextTimerId},
                            nextTimerId := s.nextTimerId + 1)
    ensures s.isConnectedBefore || s.shouldCloseConnection ==> Next(c, s, Disconnected) == Step(s, [])
  {
    if !s.isConnectedBefore && !s.shouldCloseConnection {
      assert Next(c, s, Disconnected).effects[0].TimerSet?;
    }
  }

  /** `connect` stores the callback and makes one attempt, announced first when the hook is set. */
  lemma ConnectAttemptsOnce(c: Config, s: State, cb: CallbackId)
    ensures var step := Next(c, s, Connect(cb));
      && step.state == s.(onConnectedCallback := Some(cb))
      && step.effects == (if c.options.onStartConnection then [StartConnectionNotified(c.options.mongoUrl)] else [])
                         + [ConnectAttempted(c.options.mongoUrl, c.connectOptions)]
  {
  }

  /**
   * `connected` sets the flag and calls the stored callback with the URL;
   * `reconnected` calls it too and changes nothing.
   */
  lemma ConnectedAndReconnected(c: Config, s: State)
    ensures Next(c, s, Connected).state == s.(isConnectedBefore := true)
    ensures Next(c, s, Reconnected).state == s
    ensures Next(c, s, Connected).effects == Next(c, s, Reconnected).effects
    ensures Next(c, s, Reconnected).effects
         == if s.onConnectedCallback.Some? then [UserCallbackInvoked(s.onConnectedCallback.value, c.options.mongoUrl)] else []
  {
  }

  /** `error` only reports 'Could not connect to MongoDB at <url>': no state change, no retry. */
  lemma ErrorOnlyReports(c: Config, s: State)
    ensures Next(c, s, Error).state == s
    ensures Next(c, s, Error).effects
         == if c.options.onConnectionError
            then [ConnectionErrorReported("Could not connect to MongoDB at " + c.options.mongoUrl, c.options.mongoUrl)]
            else []
  {
  }

  /**
   * `close(force)` clears the stored timer (only that one), sets the close flag,
   * then closes the driver with `force`; the handle stays stored.
   */
  lemma CloseClearsStoredTimerOnly(c: Config, s: State, force: bool)
    ensures var step := Next(c, s, Close(force));
      && step.state.shouldCloseConnection
      && step.state.connectionTimeout == s.connectionTimeout
      && step.state.pendingTimers == s.pendingTimers - (if s.connectionTimeout.Some? then {s.connectionTimeout.value} else {})
      && step.effects[|step.effects| - 1] == DriverClosed(force)
      && (s.connectionTimeout.Some? ==> step.effects == [TimerCleared(s.connectionTimeout.value), DriverClosed(force)])
  {
  }

  /**
   * A firing timer makes an attempt and, when an older timer fires after a newer
   * one was set, clears the newer one: its `clearTimeout` reads the field, not
   * its own handle. The retry callback is not called when a timer runs.
   */
  lemma TimerFiringClearsLatest(c: Config, s: State, t: TimerId)
    requires Inv(s) && t in s.pendingTimers
    ensures var step := Next(c, s, TimerFires(t));
      && step.effects == StartConnectionEffects(c) + [TimerCleared(s.connectionTimeout.value)]
      && step.state.pendingTimers == s.pendingTimers - {t, s.connectionTimeout.value}
      && step.state.connectionTimeout == s.connectionTimeout
  {
  }

  // ---------------------------------------------------------------------------
  // Any sequence of inputs

  lemma {:induction false} RunPreservesInv(c: Config, s: State, inputs: seq<Input>)
    requires Inv(s)
    ensures Inv(Run(c, s, inputs).state)
    decreases |inputs|
  {
    if inputs != [] {
      NextPreservesInv(c, s, inputs[0]);
      RunPreservesInv(c, Next(c, s, inputs[0]).state, inputs[1..]);
    }
  }

  /** `isConnectedBefore` never reverts, and becomes true exactly through a `connected` event. */
  lemma {:induction false} ConnectedBeforeMonotonic(c: Config, s: State, inputs: seq<Input>)
    ensures Run(c, s, inputs).state.isConnectedBefore <==> s.isConnectedBefore || Connected in inputs
    decreases |inputs|
  {
    if inputs != [] {
      ConnectedBeforeMonotonic(c, Next(c, s, inputs[0]).state, inputs[1..]);
      assert inputs == [inputs[0]] + inputs[1..];
    }
  }

  /** `shouldCloseConnection` never reverts, and becomes true exactly through `close`. */
  lemma {:induction false} CloseFlagMonotonic(c: Config, s: State, inputs: seq<Input>)
    ensures Run(c, s, inputs).state.shouldCloseConnection <==> s.shouldCloseConnection || HasClose(inputs)
    decreases |inputs|
  {
    if inputs != [] {
      CloseFlagMonotonic(c, Next(c, s, inputs[0]).state, inputs[1..]);
      if HasClose(inputs[1..]) {
        var k :| 0 <= k < |inputs[1..]| && inputs[1..][k].Close?;
        assert inputs[k + 1].Close?;
      }
      if HasClose(inputs) && !inputs[0].Close? {
        var k :| 0 <= k < |inputs| && inputs[k].Close?;
        assert inputs[1..][k - 1].Close?;
      }
    }
  }

  /**
   * Once the wrapper has connected or been closed, no input sequence sets a
   * timer: retries exist only before the first successful connection.
   */
  lemma {:induction false} NoRetryOnceConnectedOrClosed(c: Config, s: State, inputs: seq<Input>)
    requires s.isConnectedBefore || s.shouldCloseConnection
    ensures SchedulesNothing(Run(c, s, inputs).effects)
    ensures Run(c, s, inputs).state.nextTimerId == s.nextTimerId
    decreases |inputs|
  {
    if inputs != [] {
      var first := Next(c, s, inputs[0]);
      NoRetryOnceConnectedOrClosed(c, first.state, inputs[1..]);
      assert SchedulesNothing(first.effects);
      SchedulesNothingConcat(first.effects, Run(c, first.state, inputs[1..]).effects);
    }
  }

  lemma SchedulesNothingConcat(a: seq<Effect>, b: seq<Effect>)
    requires SchedulesNothing(a) && SchedulesNothing(b)
    ensures SchedulesNothing(a + b)
  {
    var ab := a + b;
    forall k | |a| <= k < |ab| ensures ab[k] == b[k - |a|] {
    }
  }

  /** After any history that ends in `close`, no later input sets a timer. */
  lemma NoRetryAfterClose(c: Config, s: State, before: seq<Input>, force: bool, after: seq<Input>)
    ensures var closed := Run(c, s, before + [Close(force)]).state;
      closed.shouldCloseConnection && SchedulesNothing(Run(c, closed, after).effects)
  {
    var inputs := before + [Close(force)];
    assert inputs[|before|].Close?;
    CloseFlagMonotonic(c, s, inputs);
    NoRetryOnceConnectedOrClosed(c, Run(c, s, inputs).state, after);
  }

  /**
   * The trace's local shape: with `onStartConnection` set, every attempt comes
   * right after its announcement; every retry notification comes right after
   * the timer it announces (it fires at scheduling time, not when the timer runs).
   */
  ghost predicate Announced(c: Config, effects: seq<Effect>) {
    && (c.options.onStartConnection ==>
          forall k :: 0 <= k < |effects| && effects[k].ConnectAttempted? ==>
            0 < k && effects[k - 1] == StartConnectionNotified(c.options.mongoUrl))
    && (forall k :: 0 <= k < |effects| && effects[k].RetryNotified? ==> 0 < k && effects[k - 1].TimerSet?)
  }

  lemma AnnouncedConcat(c: Config, a: seq<Effect>, b: seq<Effect>)
    requires Announced(c, a) && Announced(c, b)
    ensures Announced(c, a + b)
  {
    var ab := a + b;
    forall k | |a| <= k < |ab| && (ab[k].ConnectAttempted? || ab[k].RetryNotified?)
      ensures ab[k] == b[k - |a|]
      ensures k > |a| ==> ab[k - 1] == b[k - |a| - 1]
    {
    }
  }

  lemma {:induction false} RunAnnounced(c: Config, s: State, inputs: seq<Input>)
    ensures Announced(c, Run(c, s, inputs).effects)
    decreases |inputs|
  {
    if inputs != [] {
      var first := Next(c, s, inputs[0]);
      RunAnnounced(c, first.state, inputs[1..]);
      AnnouncedConcat(c, first.effects, Run(c, first.state, inputs[1..]).effects);
    }
  }

  // ---------------------------------------------------------------------------
  // Scenarios

  /**
   * Two `disconnected` events before any connection leave BOTH timers pending,
   * the field holding the second; when the first fires it attempts once and
   * clears the second, so one attempt results.
   */
  lemma TwoRapidDisconnects(c: Config)
    ensures var s := Run(c, Init, [Disconnected, Disconnected]).state;
      && s.pendingTimers == {0, 1} && s.connectionTimeout == Some(1)
      && Next(c, s, TimerFires(0)).effects == StartConnectionEffects(c) + [TimerCleared(1)]
      && Next(c, s, TimerFires(0)).state.pendingTimers == {}
  {
    var s1 := Next(c, Init, Disconnected).state;
    var s2 := Next(c, s1, Disconnected).state;
    assert Run(c, Init, [Disconnected, Disconnected]).state == Run(c, s1, [Disconnected]).state == s2;
  }

  /**
   * `close` does not stop every connection attempt: a timer replaced before the
   * close is still pending and, when it fires, connects again.
   */
  lemma AttemptAfterClose(c: Config, cb: CallbackId)
    ensures var retry := if c.options.onConnectionRetry then [RetryNotified(c.options.mongoUrl)] else [];
      Run(c, Init, [Connect(cb), Disconnected, Disconnected, Close(true), TimerFires(0)]).effects
      == StartConnectionEffects(c)
         + [TimerSet(0, c.retryDelayMs)] + retry
         + [TimerSet(1, c.retryDelayMs)] + retry
         + [TimerCleared(1), DriverClosed(true)]
         + StartConnectionEffects(c) + [TimerCleared(1)]
  {
    var inputs := [Connect(cb), Disconnected, Disconnected, Close(true), TimerFires(0)];
    var s0 := Init;
    var s1 := Next(c, s0, inputs[0]).state;
    var s2 := Next(c, s1, inputs[1]).state;
    var s3 := Next(c, s2, inputs[2]).state;
    var s4 := Next(c, s3, inputs[3]).state;
    assert s4.pendingTimers == {0};
    var retry := if c.options.onConnectionRetry then [RetryNotified(c.options.mongoUrl)] else [];
    assert inputs[4..] == [TimerFires(0)];
    assert Run(c, s4, inputs[4..]).effects == StartConnectionEffects(c) + [TimerCleared(1)];
    assert inputs[3..] == [Close(true)] + inputs[4..];
    assert Run(c, s3, inputs[3..]).effects == [TimerCleared(1), DriverClosed(true)] + Run(c, s4, inputs[4..]).effects;
    assert inputs[2..] == [Disconnected] + inputs[3..];
    assert Run(c, s2, inputs[2..]).effects == [TimerSet(1, c.retryDelayMs)] + retry + Run(c, s3, inputs[3..]).effects;
    assert inputs[1..] == [Disconnected] + inputs[2..];
    assert Run(c, s1, inputs[1..]).effects == [TimerSet(0, c.retryDelayMs)] + retry + Run(c, s2, inputs[2..]).effects;
    assert Run(c, s0, inputs).effects == StartConnectionEffects(c) + Run(c, s1, inputs[1..]).effects;
  }

  /**
   * `connected`, `disconnected`, `reconnected` after `connect`: the callback
   * runs twice and no timer is set.
   */
  lemma CallbackOncePerConnection(c: Config, cb: CallbackId)
    ensures var r := Run(c, Init, [Connect(cb), Connected, Disconnected, Reconnected]);
      && r.effects == StartConnectionEffects(c)
                      + [UserCallbackInvoked(cb, c.options.mongoUrl), UserCallbackInvoked(cb, c.options.mongoUrl)]
      && r.state.pendingTimers == {}
  {
    var inputs := [Connect(cb), Connected, Disconnected, Reconnected];
    var call := UserCallbackInvoked(cb, c.options.mongoUrl);
    var s1 := Next(c, Init, inputs[0]).state;
    var s2 := Next(c, s1, inputs[1]).state;
    assert s2 == s1.(isConnectedBefore := true);
    assert inputs[3..] == [Reconnected];
    assert Run(c, s2, inputs[3..]) == Step(s2, [call]);
    assert inputs[2..] == [Disconnected] + inputs[3..];
    assert Run(c, s2, inputs[2..]) == Step(s2, [call]);
    assert inputs[1..] == [Connected] + inputs[2..];
    assert Run(c, s1, inputs[1..]) == Step(s2, [call, call]);
  }

  /** `close(force)` right after construction only closes the driver with `force`. */
  lemma CloseRightAway(c: Config, force: bool)
    ensures Run(c, Init, [Close(force)]) == Step(Init.(shouldCloseConnection := true), [DriverClosed(force)])
  {
  }

  /** The constructor's defaults: 2000 ms and `{autoCreate: true, autoIndex: true}`. */
  lemma ConfigureDefaults(url: string, debug: bool, start: bool, error: bool, retry: bool)
    ensures var c := Configure(Options(url, None, None, debug, start, error, retry));
      c.retryDelayMs == 2000 && c.connectOptions == ConnectOptions(Some(true), Some(true))
    ensures Configure(Options(url, None, Some(0), debug, start, error, retry)).retryDelayMs == 0
  {
  }
}
