/**
 * The `TREXSuiteDeployed` scan of scripts/deployToken.js: the deployment
 * receipt's logs are decoded with the factory's interface, logs that do not
 * decode are skipped, and the first decoded `TREXSuiteDeployed` gives the token
 * address, from its named `_token` argument or else its first argument.
 *
 * Decoding (`trexIface.parseLog`) is the ABI coder's and is a parameter: a
 * function from a log to the event it decodes to, None where it throws.
 */
module Receipts {
  import opened Wrappers
  import opened Network

  /** A decoded log: the event name, its `_token` argument and its argument 0. */
  datatype Event = Event(name: string, token: Option<Address>, first: Option<Address>)

  const SUITE_DEPLOYED: string := "TREXSuiteDeployed"

  /** The log decodes to a `TREXSuiteDeployed` event. */
  predicate Matches(parse: Log -> Option<Event>, l: Log) {
    parse(l).Some? && parse(l).value.name == SUITE_DEPLOYED
  }

  /** The index of the first matching log. */
  function FirstMatch(logs: seq<Log>, parse: Log -> Option<Event>): (r: Option<nat>)
    ensures r.Some? ==> r.value < |logs| && Matches(parse, logs[r.value])
    ensures r.Some? ==> forall j :: 0 <= j < r.value ==> !Matches(parse, logs[j])
    ensures r.None? <==> forall j :: 0 <= j < |logs| ==> !Matches(parse, logs[j])
    decreases |logs|
  {
    if logs == [] then None
    else if Matches(parse, logs[0]) then Some(0)
    else
      match FirstMatch(logs[1..], parse)
      case None => None
      case Some(k) => Some(k + 1)
  }

  /** `parsed.args._token || parsed.args[0]` */
  function TokenOf(e: Event): Option<Address> {
    if e.token.Some? then e.token else e.first
  }

  /** The token address of the first matching log, if there is one and it names one. */
  function DeployedToken(logs: seq<Log>, parse: Log -> Option<Event>): Option<Address> {
    match FirstMatch(logs, parse)
    case None => None
    case Some(i) => TokenOf(parse(logs[i]).value)
  }

  /** The scan loop, which breaks at the first match. */
  method FindDeployedToken(logs: seq<Log>, parse: Log -> Option<Event>) returns (token: Option<Address>)
    ensures token == DeployedToken(logs, parse)
  {
    var i := 0;
    while i < |logs|
      invariant 0 <= i <= |logs|
      invariant forall j :: 0 <= j < i ==> !Matches(parse, logs[j])
    {
      var parsed := parse(logs[i]);
      if parsed.Some? && parsed.value.name == SUITE_DEPLOYED {
        return TokenOf(parsed.value);
      }
      i := i + 1;
    }
    return None;
  }

  /** The addresses of the contracts that emitted the logs, in order: what the
      failure message lists. */
  function Sources(logs: seq<Log>): (r: seq<Address>)
    ensures |r| == |logs| && forall i :: 0 <= i < |logs| ==> r[i] == logs[i].source
  {
    seq(|logs|, i requires 0 <= i < |logs| => logs[i].source)
  }

  /** A log that does not decode, or decodes to another event, is skipped. */
  lemma {:induction false} NonMatchingSkipped(l: Log, logs: seq<Log>, parse: Log -> Option<Event>)
    requires !Matches(parse, l)
    ensures DeployedToken([l] + logs, parse) == DeployedToken(logs, parse)
  {
    assert ([l] + logs)[1..] == logs;
  }

  /** The first match wins: logs after it are never looked at. */
  lemma {:induction false} FirstMatchWins(logs: seq<Log>, more: seq<Log>, parse: Log -> Option<Event>)
    requires FirstMatch(logs, parse).Some?
    ensures DeployedToken(logs + more, parse) == DeployedToken(logs, parse)
  {
    var i := FirstMatch(logs, parse).value;
    var k := FirstMatch(logs + more, parse);
    assert (logs + more)[i] == logs[i];
    assert forall j :: 0 <= j < i ==> (logs + more)[j] == logs[j];
    assert k.Some? && k.value <= i;
    assert k.value == i;
  }

  /** A matching log with a named `_token` gives that address, whatever its argument 0. */
  lemma NamedArgumentPreferred(l: Log, logs: seq<Log>, parse: Log -> Option<Event>, a: Address)
    requires parse(l).Some? && parse(l).value.name == SUITE_DEPLOYED && parse(l).value.token == Some(a)
    ensures DeployedToken([l] + logs, parse) == Some(a)
  {
  }
}
