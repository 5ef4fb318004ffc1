/**
 * Configuration of the failover client (config.go): the connection parameters of
 * the main and the backup endpoint, their validation, and the loaders that read a
 * configuration from the environment and terminate the process when it is invalid.
 */
module Configuration {

  import opened Wrappers

  /** Environment prefix used by ConfigFromEnv. */
  const DefaultEnvPrefix: string := "ethclient"

  /** A client name must be strictly shorter than this many bytes. */
  const NameLenLimit: nat := 32

  /** Number of bytes of the UTF-8 encoding of one character. */
  function RuneLen(c: char): (n: nat)
    ensures 1 <= n <= 4
    ensures n == 1 <==> c as int < 0x80
  {
    if c as int < 0x80 then 1
    else if c as int < 0x800 then 2
    else if c as int < 0x10000 then 3
    else 4
  }

  /**
   * Go's len on a string: the number of bytes of its UTF-8 encoding, which is
   * at least the number of characters and at most four times that.
   */
  function ByteLen(s: string): (n: nat)
    ensures |s| <= n <= 4 * |s|
    ensures n == 0 <==> s == []
  {
    if s == [] then 0 else RuneLen(s[0]) + ByteLen(s[1..])
  }

  predicate IsAscii(s: string) {
    forall i :: 0 <= i < |s| ==> s[i] as int < 0x80
  }

  /** On ASCII text, bytes and characters coincide. */
  lemma {:induction false} AsciiByteLen(s: string)
    requires IsAscii(s)
    ensures ByteLen(s) == |s|
  {
    if s != [] {
      assert IsAscii(s[1..]) by {
        forall i | 0 <= i < |s[1..]| ensures s[1..][i] as int < 0x80 {
          assert s[1..][i] == s[i + 1];
        }
      }
      AsciiByteLen(s[1..]);
      assert s[0] as int < 0x80;
    }
  }

  /** The error Valid reports; it names the offending field and carries its value. */
  datatype ConfigError = InvalidRpcName(name: string) | InvalidFailoverRpcName(name: string)
  {
    /** The text of the error as the source formats it. */
    function Message(): (m: string)
      ensures InvalidRpcName? ==> m == "invalid RpcName: " + name
      ensures InvalidFailoverRpcName? ==> m == "invalid RpcFailoverName: " + name
    {
      match this
      case InvalidRpcName(n) => "invalid RpcName: " + n
      case InvalidFailoverRpcName(n) => "invalid RpcFailoverName: " + n
    }
  }

  datatype Config = Config(
    enablePrometheus: bool,
    rpcUrl: string,
    rpcName: string,
    failoverRpcUrl: string,
    failoverRpcName: string)
  {
    /**
     * Validation of the two client names; None is the nil error. A
     * configuration is accepted exactly when both names are shorter than
     * NameLenLimit bytes.
     */
    function Valid(): (r: Option<ConfigError>)
      ensures r.None? <==> ByteLen(rpcName) < NameLenLimit && ByteLen(failoverRpcName) < NameLenLimit
      ensures r.Some? ==> r.value.name == rpcName || r.value.name == failoverRpcName
    {
      if ByteLen(rpcName) >= NameLenLimit then Some(InvalidRpcName(rpcName))
      else if ByteLen(failoverRpcName) >= NameLenLimit then Some(InvalidFailoverRpcName(failoverRpcName))
      else None
    }
  }

  /** The RpcName check comes first: when both names are too long, the error is about RpcName. */
  lemma RpcNameCheckedFirst(c: Config)
    requires ByteLen(c.rpcName) >= NameLenLimit
    ensures c.Valid() == Some(InvalidRpcName(c.rpcName))
  {
  }

  /** A too-long FailoverRpcName is reported only when RpcName passes. */
  lemma FailoverRpcNameReported(c: Config)
    requires ByteLen(c.rpcName) < NameLenLimit <= ByteLen(c.failoverRpcName)
    ensures c.Valid() == Some(InvalidFailoverRpcName(c.failoverRpcName))
  {
  }

  /** Validation looks at the two names only: URLs and the Prometheus flag are ignored. */
  lemma ValidIgnoresOtherFields(c: Config, d: Config)
    requires c.rpcName == d.rpcName && c.failoverRpcName == d.failoverRpcName
    ensures c.Valid() == d.Valid()
  {
  }

  /**
   * Every pair of ASCII names of 0 to 31 characters is accepted, the empty name
   * included: Valid makes no non-emptiness check.
   */
  lemma ValidAcceptsShortAsciiNames(c: Config)
    requires IsAscii(c.rpcName) && IsAscii(c.failoverRpcName)
    requires |c.rpcName| < NameLenLimit && |c.failoverRpcName| < NameLenLimit
    ensures c.Valid() == None
  {
    AsciiByteLen(c.rpcName);
    AsciiByteLen(c.failoverRpcName);
  }

  /** Every name of 32 characters or more is rejected, whatever its encoding. */
  lemma ValidRejectsLongNames(c: Config)
    requires |c.rpcName| >= NameLenLimit || |c.failoverRpcName| >= NameLenLimit
    ensures c.Valid().Some?
  {
  }

  /** The boundary: a name of exactly 32 characters is rejected, one of 31 accepted. */
  lemma NameLengthBoundary(url: string)
    ensures Config(true, url, seq(32, _ => 'a'), url, "b").Valid() == Some(InvalidRpcName(seq(32, _ => 'a')))
    ensures Config(true, url, "a", url, seq(32, _ => 'b')).Valid() == Some(InvalidFailoverRpcName(seq(32, _ => 'b')))
    ensures Config(true, url, seq(31, _ => 'a'), url, seq(31, _ => 'b')).Valid() == None
  {
    AsciiByteLen("a");
    AsciiByteLen("b");
    AsciiByteLen(seq(31, _ => 'a'));
    AsciiByteLen(seq(31, _ => 'b'));
  }

  /**
   * What a loader yields: the configuration, or the process exiting with the
   * validation error's message (log.Fatal).
   */
  datatype EnvOutcome = Loaded(config: Config) | Exited(message: string)

  /**
   * ConfigFromEnvPrefix: process stands for the environment decoding, giving
   * the configuration read under a prefix. A loaded configuration always passes
   * Valid; an invalid one terminates the process with the error's message.
   */
  function ConfigFromEnvPrefix(prefix: string, process: string -> Config): (r: EnvOutcome)
    ensures r.Loaded? <==> process(prefix).Valid() == None
    ensures r.Loaded? ==> r.config == process(prefix) && r.config.Valid() == None
    ensures r.Exited? ==> r.message == process(prefix).Valid().value.Message()
  {
    var config := process(prefix);
    match config.Valid()
    case Some(err) => Exited(err.Message())
    case None => Loaded(config)
  }

  /** ConfigFromEnv: the loader under the default prefix "ethclient". */
  function ConfigFromEnv(process: string -> Config): (r: EnvOutcome)
    ensures r.Loaded? ==> r.config == process(DefaultEnvPrefix) && r.config.Valid() == None
    ensures r.Exited? <==> process(DefaultEnvPrefix).Valid().Some?
  {
    ConfigFromEnvPrefix(DefaultEnvPrefix, process)
  }
}
