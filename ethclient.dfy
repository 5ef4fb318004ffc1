/**
 * The failover client (ethclient.go): every operation calls the main RPC
 * client, records one observation, and on an error that is not the caller's
 * own cancellation or deadline calls the backup client once, records a second
 * observation and returns the backup's answer verbatim.
 *
 * The physical RPC calls are oracles: an operation is given the reply the main
 * client's call returns and the reply the backup client's call would return,
 * with the Duration (in nanoseconds) each call takes. The ghost log attempts
 * records which clients were actually called, in order.
 */
module EthClient {

  import opened Wrappers
  import opened Configuration
  import opened Prometheus

  /** A call error: the two context sentinels, or any other error. */
  datatype Error = Canceled | DeadlineExceeded | Other(code: int)

  /**
   * What a client call returns: a result and an error that may be nil (None).
   * As in Go, the result is returned alongside a non-nil error too.
   */
  datatype Reply<T> = Reply(value: T, err: Option<Error>)

  datatype Endpoint = Main | Backup

  /**
   * shouldFailover compares the error with the two context sentinels by
   * identity: only Canceled and DeadlineExceeded stop the failover, every other
   * error triggers it.
   */
  function ShouldFailover(e: Error): (r: bool)
    ensures !r <==> e == Canceled || e == DeadlineExceeded
    ensures r <==> e.Other?
  {
    !(e == DeadlineExceeded || e == Canceled)
  }

  /** The observation Observe records for one attempt. */
  function Observed<T>(op: string, client: string, reply: Reply<T>, elapsed: int): Observation {
    Observation(op, client, reply.err == None, Milliseconds(elapsed))
  }

  /** What one operation does: its reply, the clients it called and the observations it made. */
  datatype Trace<T> = Trace(reply: Reply<T>, attempts: seq<Endpoint>, observations: seq<Observation>)

  function ReplyOf<T>(e: Endpoint, main: Reply<T>, backup: Reply<T>): Reply<T> {
    if e == Main then main else backup
  }

  function ElapsedOf(e: Endpoint, mainElapsed: int, backupElapsed: int): int {
    if e == Main then mainElapsed else backupElapsed
  }

  function LabelOf(e: Endpoint, mainName: string, backupName: string): string {
    if e == Main then mainName else backupName
  }

  /**
   * The dispatch protocol shared by every operation, for operation label op and
   * client names mainName and backupName. At most two attempts, the main one
   * first; the backup is called exactly when the main call failed with an error
   * that ShouldFailover accepts; one observation per attempt, in attempt order,
   * labelled with op and the attempt's client name and its own success; the
   * reply is the last attempt's, verbatim, so the returned error is nil exactly
   * when the last attempt succeeded.
   */
  function DispatchTrace<T>(op: string, mainName: string, backupName: string,
                            main: Reply<T>, mainElapsed: int,
                            backup: Reply<T>, backupElapsed: int): (t: Trace<T>)
    ensures 1 <= |t.attempts| <= 2 && t.attempts[0] == Main
    ensures |t.attempts| == 2 ==> t.attempts[1] == Backup
    ensures |t.attempts| == 2 <==> main.err.Some? && ShouldFailover(main.err.value)
    ensures t.reply == ReplyOf(t.attempts[|t.attempts| - 1], main, backup)
    ensures |t.observations| == |t.attempts|
    ensures forall i :: 0 <= i < |t.attempts| ==>
      var e := t.attempts[i];
      t.observations[i] == Observed(op, LabelOf(e, mainName, backupName), ReplyOf(e, main, backup), ElapsedOf(e, mainElapsed, backupElapsed))
    ensures t.reply.err == None <==> t.observations[|t.observations| - 1].successful
  {
    var first := Observed(op, mainName, main, mainElapsed);
    match main.err
    case None => Trace(main, [Main], [first])
    case Some(e) =>
      if !ShouldFailover(e) then Trace(main, [Main], [first])
      else Trace(backup, [Main, Backup], [first, Observed(op, backupName, backup, backupElapsed)])
  }

  /** The main call succeeds: the backup is not called, one successful main observation, the main reply. */
  lemma PrimarySucceeds<T>(op: string, mainName: string, backupName: string,
                           main: Reply<T>, mainElapsed: int, backup: Reply<T>, backupElapsed: int)
    requires main.err == None
    ensures var t := DispatchTrace(op, mainName, backupName, main, mainElapsed, backup, backupElapsed);
      && t.reply == main
      && t.attempts == [Main]
      && t.observations == [Observation(op, mainName, true, Milliseconds(mainElapsed))]
  {
  }

  /**
   * The main call is canceled or runs past its deadline: the backup is not
   * called, one failed main observation, and the main result and error unchanged.
   */
  lemma PrimaryAborted<T>(op: string, mainName: string, backupName: string,
                          main: Reply<T>, mainElapsed: int, backup: Reply<T>, backupElapsed: int)
    requires main.err == Some(Canceled) || main.err == Some(DeadlineExceeded)
    ensures var t := DispatchTrace(op, mainName, backupName, main, mainElapsed, backup, backupElapsed);
      && t.reply == main
      && t.attempts == [Main]
      && t.observations == [Observation(op, mainName, false, Milliseconds(mainElapsed))]
  {
  }

  /**
   * The main call fails with any other error: the backup is called once, two
   * observations in order (main failed, then backup labelled by its own
   * outcome), and the backup's result and error verbatim, success or not.
   */
  lemma PrimaryFailsOver<T>(op: string, mainName: string, backupName: string,
                            main: Reply<T>, mainElapsed: int, backup: Reply<T>, backupElapsed: int)
    requires main.err.Some? && main.err.value.Other?
    ensures var t := DispatchTrace(op, mainName, backupName, main, mainElapsed, backup, backupElapsed);
      && t.reply == backup
      && t.attempts == [Main, Backup]
      && t.observations == [Observation(op, mainName, false, Milliseconds(mainElapsed)),
                            Observation(op, backupName, backup.err == None, Milliseconds(backupElapsed))]
  {
  }

  /**
   * No error is swallowed: the returned error is nil only when an attempt that
   * decided the outcome succeeded, and a non-nil returned error is the main's
   * (no failover) or the backup's (after failover).
   */
  lemma NoErrorSwallowed<T>(op: string, mainName: string, backupName: string,
                            main: Reply<T>, mainElapsed: int, backup: Reply<T>, backupElapsed: int)
    ensures var t := DispatchTrace(op, mainName, backupName, main, mainElapsed, backup, backupElapsed);
      && (t.reply.err == None ==> main.err == None || (main.err.value.Other? && backup.err == None))
      && (main.err.Some? && backup.err.Some? ==> t.reply.err.Some?)
      && (t.reply.err.Some? ==> t.reply.err == main.err || t.reply.err == backup.err)
  {
  }

  /**
   * What one operation does to the request counter: the main attempt's key
   * grows by one, the backup attempt's key (if the backup was called) by one
   * more, and every other key is unchanged.
   */
  lemma DispatchCounts<T>(h: seq<Observation>, k: Key, op: string, mainName: string, backupName: string,
                          main: Reply<T>, mainElapsed: int, backup: Reply<T>, backupElapsed: int)
    ensures var t := DispatchTrace(op, mainName, backupName, main, mainElapsed, backup, backupElapsed);
      Count(Counts(h + t.observations), k) ==
        Count(Counts(h), k)
        + (if k == (op, mainName, FormatBool(main.err == None)) then 1 else 0)
        + (if |t.attempts| == 2 && k == (op, backupName, FormatBool(backup.err == None)) then 1 else 0)
  {
    var t := DispatchTrace(op, mainName, backupName, main, mainElapsed, backup, backupElapsed);
    CountsAppend(h, t.observations, k);
    var o := t.observations;
    assert KeyOf(o[0]) == (op, mainName, FormatBool(main.err == None));
    if |o| == 2 {
      assert KeyOf(o[1]) == (op, backupName, FormatBool(backup.err == None));
      assert o[1..][1..] == [];
      assert Occurrences(o[1..], k) == if KeyOf(o[1]) == k then 1 else 0;
    } else {
      assert o[1..] == [];
    }
  }

  /** Every observation one operation records carries that operation's label op. */
  lemma DispatchLabels<T>(op: string, mainName: string, backupName: string,
                          main: Reply<T>, mainElapsed: int, backup: Reply<T>, backupElapsed: int)
    ensures var t := DispatchTrace(op, mainName, backupName, main, mainElapsed, backup, backupElapsed);
      forall i :: 0 <= i < |t.observations| ==> t.observations[i].op == op
  {
  }

  /** The label TransactionByHash records its observations under, as written. */
  const TransactionByHashLabel: string := "BalanceAtTransactionByHash"

  /**
   * The mislabelling, exhibited: a TransactionByHash call leaves every counter
   * keyed "TransactionByHash" unchanged, while the counter of the main attempt
   * under "BalanceAtTransactionByHash" grows.
   */
  lemma TransactionByHashMislabelled<T>(h: seq<Observation>, mainName: string, backupName: string,
                                        main: Reply<T>, mainElapsed: int, backup: Reply<T>, backupElapsed: int,
                                        client: string, success: string)
    ensures var t := DispatchTrace(TransactionByHashLabel, mainName, backupName, main, mainElapsed, backup, backupElapsed);
      && Count(Counts(h + t.observations), ("TransactionByHash", client, success)) == Count(Counts(h), ("TransactionByHash", client, success))
      && var k := (TransactionByHashLabel, mainName, FormatBool(main.err == None));
         Count(Counts(h + t.observations), k) > Count(Counts(h), k)
  {
    assert TransactionByHashLabel != "TransactionByHash" by {
      assert |TransactionByHashLabel| != |"TransactionByHash"|;
    }
    DispatchCounts(h, ("TransactionByHash", client, success), TransactionByHashLabel, mainName, backupName,
                   main, mainElapsed, backup, backupElapsed);
    DispatchCounts(h, (TransactionByHashLabel, mainName, FormatBool(main.err == None)), TransactionByHashLabel,
                   mainName, backupName, main, mainElapsed, backup, backupElapsed);
  }

  /** A connection handle, as dialled: the address it is connected to. */
  datatype Conn = Conn(url: string)

  /** A transaction, as the client returns it; its content is not modelled. */
  datatype Transaction = Transaction(hash: int)

  /** The steps of New, in the order they happen. */
  datatype Step = CheckConfig | Dial(endpoint: Endpoint) | RegisterMetrics

  /** Why New fails: the validation error, or the dial error returned as is. */
  datatype NewError = InvalidConfig(configError: ConfigError) | DialFailed(dialError: Error)

  datatype Construction = Construction(steps: seq<Step>, err: Option<NewError>)

  /**
   * The construction order of New, given whether dialling the main and the
   * backup address fails: validation first and no dial when it fails; the main
   * address dialled before the backup one, and the backup one only when the main
   * dial succeeded; success exactly when validation and both dials succeed; and
   * the metrics registered exactly when construction succeeds with Prometheus
   * enabled, as the last step, after both dials.
   */
  function Construct(cfg: Config, mainDial: Option<Error>, backupDial: Option<Error>): (b: Construction)
    ensures |b.steps| >= 1 && b.steps[0] == CheckConfig
    ensures b.err == None <==> cfg.Valid() == None && mainDial == None && backupDial == None
    ensures cfg.Valid().Some? ==>
      b.err == Some(InvalidConfig(cfg.Valid().value)) && Dial(Main) !in b.steps && Dial(Backup) !in b.steps
    ensures cfg.Valid() == None ==> |b.steps| >= 2 && b.steps[1] == Dial(Main)
    ensures Dial(Backup) in b.steps <==> cfg.Valid() == None && mainDial == None
    ensures cfg.Valid() == None && mainDial.Some? ==> b.err == Some(DialFailed(mainDial.value))
    ensures cfg.Valid() == None && mainDial == None && backupDial.Some? ==> b.err == Some(DialFailed(backupDial.value))
    ensures RegisterMetrics in b.steps <==> b.err == None && cfg.enablePrometheus
    ensures RegisterMetrics in b.steps ==> b.steps == [CheckConfig, Dial(Main), Dial(Backup), RegisterMetrics]
  {
    match cfg.Valid()
    case Some(e) => Construction([CheckConfig], Some(InvalidConfig(e)))
    case None =>
      match mainDial
      case Some(e) => Construction([CheckConfig, Dial(Main)], Some(DialFailed(e)))
      case None =>
        match backupDial
        case Some(e) => Construction([CheckConfig, Dial(Main), Dial(Backup)], Some(DialFailed(e)))
        case None =>
          var registration := if cfg.enablePrometheus then [RegisterMetrics] else [];
          Construction([CheckConfig, Dial(Main), Dial(Backup)] + registration, None)
  }

  /**
   * The facade: its configuration, the two connection handles, and the metrics,
   * which stay nil unless Prometheus is enabled.
   */
  class Client {
    const cfg: Config
    const main: Conn
    const backup: Conn
    var metrics: Metrics?
    ghost var attempts: seq<Endpoint>

    ghost predicate Valid()
      reads this, metrics
    {
      metrics != null ==> metrics.Valid()
    }

    constructor (cfg: Config, main: Conn, backup: Conn)
      ensures Valid()
      ensures this.cfg == cfg && this.main == main && this.backup == backup
      ensures metrics == null && attempts == []
    {
      this.cfg := cfg;
      this.main := main;
      this.backup := backup;
      metrics := null;
      attempts := [];
    }

    /**
     * The dispatch sequence of every operation, labelled op, given the replies
     * of the main and the backup call and how long each takes. It observes
     * through metrics without a nil check, so it needs metrics to be set.
     */
    method Dispatch<T>(op: string, mainReply: Reply<T>, mainElapsed: int,
                       backupReply: Reply<T>, backupElapsed: int) returns (r: Reply<T>)
      requires Valid() && metrics != null
      modifies this, metrics
      ensures Valid() && metrics == old(metrics) && metrics.registered == old(metrics.registered)
      ensures var t := DispatchTrace(op, cfg.rpcName, cfg.failoverRpcName, mainReply, mainElapsed, backupReply, backupElapsed);
        && r == t.reply
        && attempts == old(attempts) + t.attempts
        && metrics.history == old(metrics.history) + t.observations
    {
      attempts := attempts + [Main];
      r := mainReply;
      metrics.Observe(op, mainElapsed, cfg.rpcName, r.err == None);
      if r.err != None {
        if !ShouldFailover(r.err.value) {
          return;
        }
        // use the failover client
        attempts := attempts + [Backup];
        r := backupReply;
        metrics.Observe(op, backupElapsed, cfg.failoverRpcName, r.err == None);
        return;
      }
    }

    /** BalanceAt: a value-returning operation, labelled "BalanceAt". */
    method BalanceAt(mainReply: Reply<int>, mainElapsed: int, backupReply: Reply<int>, backupElapsed: int)
      returns (balance: int, err: Option<Error>)
      requires Valid() && metrics != null
      modifies this, metrics
      ensures Valid() && metrics == old(metrics) && metrics.registered == old(metrics.registered)
      ensures var t := DispatchTrace("BalanceAt", cfg.rpcName, cfg.failoverRpcName, mainReply, mainElapsed, backupReply, backupElapsed);
        && Reply(balance, err) == t.reply
        && attempts == old(attempts) + t.attempts
        && metrics.history == old(metrics.history) + t.observations
    {
      var r := Dispatch("BalanceAt", mainReply, mainElapsed, backupReply, backupElapsed);
      balance, err := r.value, r.err;
    }

    /** SendTransaction: the error-only operation, labelled "SendTransaction". */
    method SendTransaction(mainErr: Option<Error>, mainElapsed: int, backupErr: Option<Error>, backupElapsed: int)
      returns (err: Option<Error>)
      requires Valid() && metrics != null
      modifies this, metrics
      ensures Valid() && metrics == old(metrics) && metrics.registered == old(metrics.registered)
      ensures var t := DispatchTrace("SendTransaction", cfg.rpcName, cfg.failoverRpcName,
                                     Reply((), mainErr), mainElapsed, Reply((), backupErr), backupElapsed);
        && err == t.reply.err
        && attempts == old(attempts) + t.attempts
        && metrics.history == old(metrics.history) + t.observations
    {
      var r := Dispatch("SendTransaction", Reply((), mainErr), mainElapsed, Reply((), backupErr), backupElapsed);
      err := r.err;
    }

    /**
     * TransactionByHash as written: the two-result operation, whose
     * observations carry the label "BalanceAtTransactionByHash".
     */
    method TransactionByHash(mainReply: Reply<(Transaction, bool)>, mainElapsed: int,
                             backupReply: Reply<(Transaction, bool)>, backupElapsed: int)
      returns (tx: Transaction, isPending: bool, err: Option<Error>)
      requires Valid() && metrics != null
      modifies this, metrics
      ensures Valid() && metrics == old(metrics) && metrics.registered == old(metrics.registered)
      ensures var t := DispatchTrace(TransactionByHashLabel, cfg.rpcName, cfg.failoverRpcName,
                                     mainReply, mainElapsed, backupReply, backupElapsed);
        && Reply((tx, isPending), err) == t.reply
        && attempts == old(attempts) + t.attempts
        && metrics.history == old(metrics.history) + t.observations
    {
      var r := Dispatch(TransactionByHashLabel, mainReply, mainElapsed, backupReply, backupElapsed);
      tx, isPending, err := r.value.0, r.value.1, r.err;
    }

    /**
     * TransactionByHash with the label corrected to the operation's own name:
     * every observation it records is keyed "TransactionByHash".
     */
    method TransactionByHashCorrected(mainReply: Reply<(Transaction, bool)>, mainElapsed: int,
                                      backupReply: Reply<(Transaction, bool)>, backupElapsed: int)
      returns (tx: Transaction, isPending: bool, err: Option<Error>)
      requires Valid() && metrics != null
      modifies this, metrics
      ensures Valid() && metrics == old(metrics) && metrics.registered == old(metrics.registered)
      ensures var t := DispatchTrace("TransactionByHash", cfg.rpcName, cfg.failoverRpcName,
                                     mainReply, mainElapsed, backupReply, backupElapsed);
        && Reply((tx, isPending), err) == t.reply
        && attempts == old(attempts) + t.attempts
        && metrics.history == old(metrics.history) + t.observations
      ensures forall i :: |old(metrics.history)| <= i < |metrics.history| ==> metrics.history[i].op == "TransactionByHash"
    {
      ghost var before := metrics.history;
      var r := Dispatch("TransactionByHash", mainReply, mainElapsed, backupReply, backupElapsed);
      tx, isPending, err := r.value.0, r.value.1, r.err;
      DispatchLabels("TransactionByHash", cfg.rpcName, cfg.failoverRpcName, mainReply, mainElapsed, backupReply, backupElapsed);
      assert forall i :: |before| <= i < |metrics.history| ==> metrics.history[i] == metrics.history[|before|..][i - |before|];
    }
  }

  /**
   * New: validate, dial the main address, dial the backup address, build the
   * client, and only with Prometheus enabled build and register its metrics.
   * mainDial and backupDial are the errors the two dials return (None: the
   * dial succeeds); steps records the steps taken.
   */
  method New(appName: string, chain: string, cfg: Config, mainDial: Option<Error>, backupDial: Option<Error>)
    returns (c: Client?, err: Option<NewError>, ghost steps: seq<Step>)
    ensures Construction(steps, err) == Construct(cfg, mainDial, backupDial)
    ensures c == null <==> err.Some?
    ensures c != null ==> fresh(c) && c.Valid() && c.attempts == []
    ensures c != null ==> c.cfg == cfg && c.main == Conn(cfg.rpcUrl) && c.backup == Conn(cfg.failoverRpcUrl)
    ensures c != null ==> (c.metrics != null <==> cfg.enablePrometheus)
    ensures c != null && c.metrics != null ==>
      && fresh(c.metrics) && c.metrics.registered && c.metrics.history == []
      && c.metrics.reqOpts == CounterOpts(appName, chain)
      && c.metrics.latencyOpts == HistogramOpts(appName, chain)
  {
    c, err := null, None;
    steps := [CheckConfig];
    var invalid := cfg.Valid();
    if invalid.Some? {
      err := Some(InvalidConfig(invalid.value));
      return;
    }
    steps := steps + [Dial(Main)];
    if mainDial.Some? {
      err := Some(DialFailed(mainDial.value));
      return;
    }
    var m := Conn(cfg.rpcUrl);
    steps := steps + [Dial(Backup)];
    if backupDial.Some? {
      err := Some(DialFailed(backupDial.value));
      return;
    }
    var b := Conn(cfg.failoverRpcUrl);
    c := new Client(cfg, m, b);
    if cfg.enablePrometheus {
      c.metrics := new Metrics(appName, chain);
      c.metrics.Register();
      steps := steps + [RegisterMetrics];
    }
  }
}
