/**
 * What the two service-bridge injections (webOSSystem's and
 * webOSServiceBridge's) share: the argument handling of the script-facing
 * `call`, and the service name the bridge connects under.
 */
module BridgeCommon {
  import opened Decimal

  /** A script value handed to `call`, as far as the bridge looks at it. */
  datatype Arg = StringArg(s: string) | OtherArg

  /**
   * The uri and payload `call` forwards: the first two arguments when both
   * are strings, otherwise two empty strings.
   */
  function CallArguments(args: seq<Arg>): (r: (string, string))
    ensures (|args| >= 2 && args[0].StringArg? && args[1].StringArg?) ==> r == (args[0].s, args[1].s)
    ensures !(|args| >= 2 && args[0].StringArg? && args[1].StringArg?) ==> r == ("", "")
  {
    if |args| >= 2 && args[0].StringArg? && args[1].StringArg? then (args[0].s, args[1].s)
    else ("", "")
  }

  /**
   * GetServiceNameWithPID: the identifier, a '-', then the process id in
   * decimal.  The name and the process id can both be read back from it.
   */
  function ServiceNameWithPid(name: string, pid: nat): (r: string)
    ensures |r| >= |name| + 2
    ensures r[..|name|] == name && r[|name|] == '-'
    ensures forall i :: |name| < i < |r| ==> IsDigit(r[i])
    ensures ParseDecimal(r[|name| + 1..]) == pid
  {
    var digits := ToDecimal(pid);
    DecimalRoundTrip(pid);
    var r := name + "-" + digits;
    assert r[|name| + 1..] == digits;
    r
  }
}
