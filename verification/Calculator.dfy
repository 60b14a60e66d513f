/** The manager's estimate of how long an unhealthy node may take to reboot, and the watchdog timeout
    it reads from the node's annotations. */
module Calculator {
  import opened Common
  import opened Batches

  datatype ConfigSpec = ConfigSpec(
    apiCheckInterval: int,
    apiServerTimeout: int,
    maxApiErrorThreshold: int,
    peerDialTimeout: int,
    peerRequestTimeout: int,
    maxTimeForNoPeersResponse: Option<int>,
    safeTimeToAssumeNodeRebootedSeconds: Option<int>)

  const DEFAULT_MAX_TIME_FOR_NO_PEERS_RESPONSE := 30 * SECOND
  const DEFAULT_WATCHDOG_TIMEOUT := 60 * SECOND
  const REBOOT_BUFFER := 30 * SECOND

  const IS_REBOOT_CAPABLE := "is-reboot-capable.self-node-remediation.medik8s.io"
  const WATCHDOG_TIMEOUT := "self-node-remediation.medik8s.io/watchdog-timeout"

  // Decimal numbers, as the annotation spells them.

  function Digit(d: nat): (c: char)
    requires d < 10
    ensures '0' <= c <= '9' && c as int - '0' as int == d
  {
    '0' + d as char
  }

  function NatToString(n: nat): (s: string)
    ensures |s| > 0
    ensures forall i :: 0 <= i < |s| ==> '0' <= s[i] <= '9'
  {
    if n < 10 then [Digit(n)] else NatToString(n / 10) + [Digit(n % 10)]
  }

  function Itoa(n: int): string {
    if n < 0 then "-" + NatToString(-n) else NatToString(n)
  }

  function ParseDigits(s: string): Option<int> {
    if s == [] then None
    else
      var last := s[|s| - 1];
      if !('0' <= last <= '9') then None
      else
        var d := last as int - '0' as int;
        if |s| == 1 then Some(d)
        else match ParseDigits(s[..|s| - 1])
             case None => None
             case Some(front) => Some(10 * front + d)
  }

  function Atoi(s: string): Option<int> {
    if s != [] && s[0] in {'+', '-'} then
      match ParseDigits(s[1..])
      case None => None
      case Some(n) => Some(if s[0] == '-' then -n else n)
    else
      match ParseDigits(s) case None => None case Some(n) => Some(n)
  }

  lemma {:induction false} ParseNat(n: nat)
    ensures ParseDigits(NatToString(n)) == Some(n)
  {
    if n >= 10 {
      ParseNat(n / 10);
      var s := NatToString(n);
      assert s[..|s| - 1] == NatToString(n / 10);
    }
  }

  lemma AtoiItoa(n: int)
    ensures Atoi(Itoa(n)) == Some(n)
  {
    hide NatToString, ParseDigits;
    ParseNat(if n < 0 then -n else n);
    if n < 0 {
      assert Itoa(n)[1..] == NatToString(-n);
    }
  }

  /** Whole seconds, rounded up. */
  function CeilSeconds(d: int): (s: int)
    ensures s * SECOND >= d
    ensures (s - 1) * SECOND < d
  {
    -((-d) / SECOND)
  }

  /** The annotations an agent writes about its own node. */
  function Annotated(annotations: map<string, string>, watchdogInitiated: bool, softwareRebootEnabled: bool, watchdogTimeout: int): map<string, string> {
    annotations
      [IS_REBOOT_CAPABLE := if watchdogInitiated || softwareRebootEnabled then "true" else "false"]
      [WATCHDOG_TIMEOUT := Itoa(CeilSeconds(watchdogTimeout))]
  }

  /** A missing annotation reads as the empty string, which is not a number. */
  function GetWatchdogTimeout(annotations: map<string, string>): Option<int> {
    match Atoi(if WATCHDOG_TIMEOUT in annotations then annotations[WATCHDOG_TIMEOUT] else "")
    case None => None
    case Some(seconds) => Some(seconds * SECOND)
  }

  /** What the manager reads back is never less than the real timeout, and less than one second more. */
  lemma AnnotationRoundTrip(annotations: map<string, string>, initiated: bool, software: bool, timeout: int)
    ensures var read := GetWatchdogTimeout(Annotated(annotations, initiated, software, timeout));
            read.Some? && timeout <= read.value < timeout + SECOND
  {
    AtoiItoa(CeilSeconds(timeout));
  }

  function Max(a: int, b: int): (m: int)
    ensures m >= a && m >= b && m in {a, b}
  {
    if a < b then b else a
  }

  function NoPeersWindow(spec: ConfigSpec): int {
    match spec.maxTimeForNoPeersResponse
    case Some(d) => d
    case None => DEFAULT_MAX_TIME_FOR_NO_PEERS_RESPONSE
  }

  /** Detect the API failure, confirm it with the peers, and reboot. */
  function MinimumRebootDuration(spec: ConfigSpec, workers: nat, watchdogTimeout: int): int {
    (spec.apiCheckInterval + spec.apiServerTimeout) * spec.maxApiErrorThreshold
    + Max(NrOfBatches(workers) * (spec.peerDialTimeout + spec.peerRequestTimeout), NoPeersWindow(spec))
    + watchdogTimeout + REBOOT_BUFFER
  }

  function EffectiveWatchdogTimeout(annotations: map<string, string>): int {
    match GetWatchdogTimeout(annotations)
    case Some(t) => t
    case None => DEFAULT_WATCHDOG_TIMEOUT
  }

  /** What a calculation starts from. */
  datatype Basis = Basis(spec: ConfigSpec, annotations: map<string, string>, workers: nat)

  function MinimumOf(basis: Basis): int {
    MinimumRebootDuration(basis.spec, basis.workers, EffectiveWatchdogTimeout(basis.annotations))
  }

  /** The user may ask for more than the minimum, but not for less. */
  function RebootDuration(basis: Basis): (duration: int)
    ensures duration >= MinimumOf(basis)
  {
    match basis.spec.safeTimeToAssumeNodeRebootedSeconds
    case Some(seconds) => Max(MinimumOf(basis), seconds * SECOND)
    case None => MinimumOf(basis)
  }

  predicate IsRebootCapable(annotations: map<string, string>) {
    IS_REBOOT_CAPABLE in annotations && annotations[IS_REBOOT_CAPABLE] == "true"
  }

  /** The node is taken for capable exactly if its agent found a way to reboot it, and the timeout in the calculation is
      then never shorter than the real one. */
  lemma AnnotatedBasis(spec: ConfigSpec, annotations: map<string, string>, initiated: bool, software: bool, timeout: int, workers: nat)
    ensures var basis := Basis(spec, Annotated(annotations, initiated, software, timeout), workers);
            && (IsRebootCapable(basis.annotations) <==> initiated || software)
            && timeout <= EffectiveWatchdogTimeout(basis.annotations) < timeout + SECOND
            && RebootDuration(basis) >= MinimumRebootDuration(spec, workers, EffectiveWatchdogTimeout(basis.annotations))
  {
    hide Atoi, Itoa, CeilSeconds, MinimumRebootDuration;
    AnnotationRoundTrip(annotations, initiated, software, timeout);
  }

  /** The timeout annotation is missing or no number. */
  predicate TimeoutUnreadable(annotations: map<string, string>) {
    WATCHDOG_TIMEOUT !in annotations || Atoi(annotations[WATCHDOG_TIMEOUT]) == None
  }

  /** Without a readable annotation the calculation takes the watchdog timeout to be sixty seconds, and otherwise to be
      what the annotation says. */
  lemma FallbackTimeout(annotations: map<string, string>)
    ensures TimeoutUnreadable(annotations) ==> EffectiveWatchdogTimeout(annotations) == 60 * 1_000_000_000
    ensures !TimeoutUnreadable(annotations) ==>
              EffectiveWatchdogTimeout(annotations) == Atoi(annotations[WATCHDOG_TIMEOUT]).value * 1_000_000_000
  {
    assert Atoi("") == None;
  }

  /** Three minutes for a node without annotation in a small cluster with usual settings: a minute to count the errors, half
      a minute for the peers, a minute for the watchdog and half a minute of reserve. */
  lemma UsualDuration(annotations: map<string, string>)
    requires TimeoutUnreadable(annotations)
    ensures var spec := ConfigSpec(15 * SECOND, 5 * SECOND, 3, 5 * SECOND, 7 * SECOND, None, None);
            RebootDuration(Basis(spec, annotations, 3)) == 180 * 1_000_000_000
  {
    hide Atoi;
    FallbackTimeout(annotations);
  }

  class RebootCalculator {
    var snrConfig: Option<ConfigSpec>

    constructor ()
      ensures snrConfig == None
    {
      snrConfig := None;
    }

    method SetConfig(config: ConfigSpec)
      modifies this
      ensures snrConfig == Some(config)
    {
      snrConfig := Some(config);
    }

    /** Fails without a configuration and when the workers cannot be listed. Otherwise the result is the
        least duration that is neither below the calculated minimum nor below what the user asked for. */
    method GetRebootDuration(annotations: map<string, string>, workers: Option<nat>) returns (duration: Option<int>)
      ensures duration.Some? <==> snrConfig.Some? && workers.Some?
      ensures duration.Some? ==> duration.value == RebootDuration(Basis(snrConfig.value, annotations, workers.value))
      ensures duration.Some? ==>
                var minimum := MinimumRebootDuration(snrConfig.value, workers.value, EffectiveWatchdogTimeout(annotations));
                var safe := snrConfig.value.safeTimeToAssumeNodeRebootedSeconds;
                && duration.value >= minimum
                && (safe.Some? ==> duration.value >= safe.value * SECOND)
                && (duration.value == minimum || (safe.Some? && duration.value == safe.value * SECOND))
    {
      if snrConfig == None {
        return None;
      }
      var watchdogTimeout;
      var read := GetWatchdogTimeout(annotations);
      if read == None {
        watchdogTimeout := DEFAULT_WATCHDOG_TIMEOUT;
      } else {
        watchdogTimeout := read.value;
      }
      var minimum := CalculateMinimumRebootDuration(snrConfig.value, watchdogTimeout, workers);
      if minimum == None {
        return None;
      }
      var safe := snrConfig.value.safeTimeToAssumeNodeRebootedSeconds;
      if safe == None {
        return minimum;
      }
      var specRebootDuration := safe.value * SECOND;
      if specRebootDuration < minimum.value {
        return minimum;
      }
      return Some(specRebootDuration);
    }

    method CalculateMinimumRebootDuration(spec: ConfigSpec, watchdogTimeout: int, workers: Option<nat>) returns (duration: Option<int>)
      ensures duration == if workers.Some? then Some(MinimumRebootDuration(spec, workers.value, watchdogTimeout)) else None
    {
      var apiCheckDuration := spec.apiCheckInterval + spec.apiServerTimeout;
      apiCheckDuration := apiCheckDuration * spec.maxApiErrorThreshold;
      if workers == None {
        return None;
      }
      var numBatches := GetNrOfBatches(workers.value);
      var peerRequestsDuration: int := numBatches;
      peerRequestsDuration := peerRequestsDuration * (spec.peerDialTimeout + spec.peerRequestTimeout);
      var maxTimeForNoPeersResponse := DEFAULT_MAX_TIME_FOR_NO_PEERS_RESPONSE;
      if spec.maxTimeForNoPeersResponse.Some? {
        maxTimeForNoPeersResponse := spec.maxTimeForNoPeersResponse.value;
      }
      if peerRequestsDuration < maxTimeForNoPeersResponse {
        peerRequestsDuration := maxTimeForNoPeersResponse;
      }
      var rebootDuration := watchdogTimeout;
      rebootDuration := rebootDuration + REBOOT_BUFFER;
      return Some(apiCheckDuration + peerRequestsDuration + rebootDuration);
    }
  }
}
