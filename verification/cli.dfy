/**
 * `update_config_from_cli`: the command-line arguments given override the loaded
 * configuration, field by field. The arguments are the map of argument ids to the text given;
 * a value that does not parse as its field's type is ignored, except the protocol, whose
 * parse failure ends the program with exit code 1.
 */
module Cli {
  import opened Wrappers
  import opened Strings
  import opened Models

  datatype ServerConfig = ServerConfig(
    hostname: string, port: nat, sslValidation: bool, apiVersion: string,
    username: string, password: Option<string>, protocol: Protocol)

  datatype CacheConfig = CacheConfig(time: nat, size: int, disable: bool)

  datatype CompletionConfig = CompletionConfig(disableApiRelated: bool)

  datatype OutputConfig = OutputConfig(padding: int)

  /** All of the configuration, as a value. */
  datatype Settings = Settings(server: ServerConfig, cache: CacheConfig, completion: CompletionConfig, output: OutputConfig)

  /** The argument ids the function reads. */
  const Hostname := "hostname"
  const Port := "port"
  const ProtocolArg := "protocol"
  const SslValidation := "ssl_validation"
  const Username := "username"
  const CacheTime := "cache_time"
  const CacheSize := "cache_size"
  const CacheDisable := "cache_disable"
  const CompletionDisableApi := "completion_disable_api"

  /** `u16`, `u64` and `i32` parsing. */
  function ParseU16(s: string): (r: Option<nat>)
    ensures r.Some? ==> r.value < 0x1_0000
  {
    ParseUnsigned(s, 0x1_0000)
  }

  function ParseU64(s: string): (r: Option<nat>)
    ensures r.Some? ==> r.value < 0x1_0000_0000_0000_0000
  {
    ParseUnsigned(s, 0x1_0000_0000_0000_0000)
  }

  function ParseI32(s: string): (r: Option<int>)
    ensures r.Some? ==> -0x8000_0000 <= r.value < 0x8000_0000
  {
    ParseSigned(s, -0x8000_0000, 0x7fff_ffff)
  }

  /** An `i32` in decimal, with a minus sign when negative, parses back as itself. */
  lemma ParseI32Printed(v: int)
    requires -0x8000_0000 <= v < 0x8000_0000
    ensures ParseI32(if v < 0 then "-" + NatToString(-v) else NatToString(v)) == Some(v)
  {
    if v < 0 {
      ParseSignedOfNegated(-v, -0x8000_0000, 0x7fff_ffff);
    } else {
      ParseSignedOfNat(v, -0x8000_0000, 0x7fff_ffff);
    }
  }

  /** The value an argument sets: the parsed text when the argument is given and parses, else the current value. */
  function Override<T>(current: T, args: map<string, string>, id: string, parse: string -> Option<T>): (r: T)
    ensures id !in args ==> r == current
    ensures id in args && parse(args[id]).None? ==> r == current
    ensures id in args && parse(args[id]).Some? ==> r == parse(args[id]).value
  {
    if id in args && parse(args[id]).Some? then parse(args[id]).value else current
  }

  /** Hostname and username are copied as given. */
  function Verbatim(s: string): Option<string> {
    Some(s)
  }

  function ParseProtocolOption(s: string): (r: Option<Protocol>)
    ensures r.Some? <==> ParseProtocol(s).Success?
    ensures r.Some? ==> r.value == ParseProtocol(s).value
  {
    if ParseProtocol(s).Success? then Some(ParseProtocol(s).value) else None
  }

  /** Whether the arguments make the program exit: a protocol text that is not `http` or `https`. */
  predicate Exits(args: map<string, string>) {
    ProtocolArg in args && ParseProtocol(args[ProtocolArg]).Failure?
  }

  /** The server settings after the arguments: hostname and username verbatim, the rest when they parse. */
  function AppliedServer(s: ServerConfig, args: map<string, string>): (t: ServerConfig)
    ensures t.hostname == (if Hostname in args then args[Hostname] else s.hostname)
    ensures t.username == (if Username in args then args[Username] else s.username)
    ensures t.port == Override(s.port, args, Port, ParseU16)
    ensures t.protocol == Override(s.protocol, args, ProtocolArg, ParseProtocolOption)
    ensures t.sslValidation == Override(s.sslValidation, args, SslValidation, ParseBool)
    ensures t.apiVersion == s.apiVersion && t.password == s.password
  {
    s.(hostname := Override(s.hostname, args, Hostname, Verbatim),
       port := Override(s.port, args, Port, ParseU16),
       protocol := Override(s.protocol, args, ProtocolArg, ParseProtocolOption),
       sslValidation := Override(s.sslValidation, args, SslValidation, ParseBool),
       username := Override(s.username, args, Username, Verbatim))
  }

  /** The cache settings after the arguments: each field when its argument parses. */
  function AppliedCache(c: CacheConfig, args: map<string, string>): (t: CacheConfig)
    ensures t.time == Override(c.time, args, CacheTime, ParseU64)
    ensures t.size == Override(c.size, args, CacheSize, ParseI32)
    ensures t.disable == Override(c.disable, args, CacheDisable, ParseBool)
  {
    CacheConfig(
      Override(c.time, args, CacheTime, ParseU64),
      Override(c.size, args, CacheSize, ParseI32),
      Override(c.disable, args, CacheDisable, ParseBool))
  }

  /**
   * The configuration after the arguments are applied (when the program does not exit):
   * server, cache and completion settings as their arguments say, the output settings never
   * touched.
   */
  function Applied(s: Settings, args: map<string, string>): (t: Settings)
    ensures t.server == AppliedServer(s.server, args) && t.cache == AppliedCache(s.cache, args)
    ensures t.completion.disableApiRelated == Override(s.completion.disableApiRelated, args, CompletionDisableApi, ParseBool)
    ensures t.output == s.output
  {
    Settings(
      AppliedServer(s.server, args),
      AppliedCache(s.cache, args),
      CompletionConfig(Override(s.completion.disableApiRelated, args, CompletionDisableApi, ParseBool)),
      s.output)
  }

  /** With no arguments the configuration stays as loaded. */
  lemma NoArgumentsNoChange(s: Settings)
    ensures Applied(s, map[]) == s
  {
  }

  /** Applying the same arguments twice gives what applying them once gives. */
  lemma AppliedIdempotent(s: Settings, args: map<string, string>)
    ensures Applied(Applied(s, args), args) == Applied(s, args)
  {
  }

  /** An argument changes only its own field: a lone hostname leaves everything else as it was. */
  lemma OnlyOwnField(s: Settings, id: string, value: string)
    requires id == Hostname
    ensures Applied(s, map[id := value]) == s.(server := s.server.(hostname := value))
  {
    assert Port != id && ProtocolArg != id && SslValidation != id && Username != id;
    assert CacheTime != id && CacheSize != id && CacheDisable != id && CompletionDisableApi != id;
  }

  /** A value that does not parse leaves its field as it was. */
  lemma BadPortIgnored(s: Settings, value: string)
    requires ParseU16(value).None?
    ensures Applied(s, map[Port := value]) == s
  {
    var args := map[Port := value];
    assert Hostname !in args && ProtocolArg !in args && SslValidation !in args && Username !in args;
    assert CacheTime !in args && CacheSize !in args && CacheDisable !in args && CompletionDisableApi !in args;
  }

  /** A protocol is accepted in any case, as the displayed names lower-case it. */
  lemma ProtocolAnyCase(s: Settings, value: string, p: Protocol)
    requires Lower(value) == ProtocolName(p)
    ensures !Exits(map[ProtocolArg := value])
    ensures Applied(s, map[ProtocolArg := value]).server.protocol == p
  {
  }

  /** The loaded configuration that the arguments update in place. */
  class AppConfig {
    var server: ServerConfig
    var cache: CacheConfig
    var completion: CompletionConfig
    var output: OutputConfig

    function Current(): Settings
      reads this
    {
      Settings(server, cache, completion, output)
    }

    constructor (s: Settings)
      ensures Current() == s
    {
      server := s.server;
      cache := s.cache;
      completion := s.completion;
      output := s.output;
    }

    /**
     * `update_config_from_cli`. An invalid protocol ends the program with exit code 1, the
     * hostname and port already set; otherwise every field is as `Applied` says.
     */
    method UpdateFromCli(args: map<string, string>) returns (exitCode: Option<int>)
      modifies this
      ensures exitCode.Some? <==> Exits(args)
      ensures exitCode.Some? ==> exitCode.value == 1
      ensures exitCode.None? ==> Current() == Applied(old(Current()), args)
      ensures exitCode.Some? ==> Current() == old(Current()).(server := old(server).(
        hostname := AppliedServer(old(server), args).hostname,
        port := AppliedServer(old(server), args).port))
    {
      exitCode := UpdateServer(args);
      if exitCode.Some? {
        return;
      }
      UpdateCache(args);
      if CompletionDisableApi in args {
        var disableApi := ParseBool(args[CompletionDisableApi]);
        if disableApi.Some? {
          completion := completion.(disableApiRelated := disableApi.value);
        }
      }
    }

    /** The server arguments, in the order the function reads them. */
    method UpdateServer(args: map<string, string>) returns (exitCode: Option<int>)
      modifies this
      ensures exitCode.Some? <==> Exits(args)
      ensures exitCode.Some? ==> exitCode.value == 1
      ensures exitCode.None? ==> server == AppliedServer(old(server), args)
      ensures exitCode.Some? ==> server == old(server).(
        hostname := AppliedServer(old(server), args).hostname,
        port := AppliedServer(old(server), args).port)
      ensures cache == old(cache) && completion == old(completion) && output == old(output)
    {
      UpdateAddress(args);
      exitCode := UpdateProtocol(args);
      if exitCode.Some? {
        return;
      }
      UpdateLogin(args);
    }

    /** The hostname, verbatim, and the port, when it parses. */
    method UpdateAddress(args: map<string, string>)
      modifies this
      ensures server == old(server).(
        hostname := Override(old(server).hostname, args, Hostname, Verbatim),
        port := Override(old(server).port, args, Port, ParseU16))
      ensures cache == old(cache) && completion == old(completion) && output == old(output)
    {
      if Hostname in args {
        server := server.(hostname := args[Hostname]);
      }
      if Port in args {
        var port := ParseU16(args[Port]);
        if port.Some? {
          server := server.(port := port.value);
        }
      }
    }

    /** The certificate check, when it parses, and the username, verbatim. */
    method UpdateLogin(args: map<string, string>)
      modifies this
      ensures server == old(server).(
        sslValidation := Override(old(server).sslValidation, args, SslValidation, ParseBool),
        username := Override(old(server).username, args, Username, Verbatim))
      ensures cache == old(cache) && completion == old(completion) && output == old(output)
    {
      if SslValidation in args {
        var ssl := ParseBool(args[SslValidation]);
        if ssl.Some? {
          server := server.(sslValidation := ssl.value);
        }
      }
      if Username in args {
        server := server.(username := args[Username]);
      }
    }

    /** The protocol argument: set when it parses, the exit code 1 when it does not. */
    method UpdateProtocol(args: map<string, string>) returns (exitCode: Option<int>)
      modifies this
      ensures exitCode.Some? <==> Exits(args)
      ensures exitCode.Some? ==> exitCode.value == 1 && server == old(server)
      ensures exitCode.None? ==> server == old(server).(protocol := Override(old(server).protocol, args, ProtocolArg, ParseProtocolOption))
      ensures cache == old(cache) && completion == old(completion) && output == old(output)
    {
      if ProtocolArg in args {
        var protocol := ParseProtocol(args[ProtocolArg]);
        if protocol.Failure? {
          return Some(1);
        }
        server := server.(protocol := protocol.value);
      }
      exitCode := None;
    }

    /** The cache arguments. */
    method UpdateCache(args: map<string, string>)
      modifies this
      ensures cache == AppliedCache(old(cache), args)
      ensures server == old(server) && completion == old(completion) && output == old(output)
    {
      if CacheTime in args {
        var time := ParseU64(args[CacheTime]);
        if time.Some? {
          cache := cache.(time := time.value);
        }
      }
      if CacheSize in args {
        var size := ParseI32(args[CacheSize]);
        if size.Some? {
          cache := cache.(size := size.value);
        }
      }
      if CacheDisable in args {
        var disable := ParseBool(args[CacheDisable]);
        if disable.Some? {
          cache := cache.(disable := disable.value);
        }
      }
    }
  }

  /** `get_cli_config_path`: the `config` argument, if given. */
  function ConfigPath(args: map<string, string>): (path: Option<string>)
    ensures path.Some? <==> "config" in args
    ensures path.Some? ==> path.value == args["config"]
  {
    if "config" in args then Some(args["config"]) else None
  }
}
