/** The values both crawler engines exchange with their callers: the record
    one lookup attempt returns, the proxy settings read from the environment,
    and the exceptions the browser can raise in the middle of an attempt. */
module Records {
  import opened Text

  datatype Option<+T> = None | Some(value: T)

  /** The object one call of `lookup_insurance_group` / `lookupInsuranceGroup`
      returns. A success carries no debug trace; a failure carries its trace
      and whichever optional diagnostic fields its exit path fills in. */
  datatype Attempt =
    | Success(registration: string, insuranceGroup: nat, maxGroup: nat, displayText: string)
    | Failure(registration: string, error: string, cloudflareBlocked: bool, debug: seq<string>,
              pageTitle: Option<string>, pageTextSample: Option<string>, finalUrl: Option<string>)

  const BlockedError := "Blocked by Cloudflare"
  const InputMissingError := "Could not find registration input field"
  const ButtonMissingError := "Could not find submit button"
  const TimeoutError := "Timeout waiting for results"
  const NoGroupError := "Could not find insurance group in response"

  /** The retry loops read this flag and nothing else. */
  predicate Blocked(a: Attempt)
  {
    a.Failure? && a.cloudflareBlocked
  }

  /** The record with its debug trace emptied: what an attempt decides, as
      opposed to what it logged along the way. */
  function Bare(a: Attempt): (b: Attempt)
    ensures b.Success? <==> a.Success?
    ensures Blocked(b) <==> Blocked(a)
    ensures b.registration == a.registration
  {
    if a.Failure? then a.(debug := []) else a
  }

  /** The `Blocked by Cloudflare` record, with or without the page title. */
  function BlockedRecord(registration: string, title: Option<string>): Attempt
  {
    Failure(registration, BlockedError, true, [], title, None, None)
  }

  /** What the catch-all handler turns an exception into. */
  function CrashRecord(registration: string, message: string): Attempt
  {
    Failure(registration, message, false, [], None, None, None)
  }

  /** `f"Group {n}/{m}"` and `` `Group ${n}/${m}` ``. */
  function DisplayText(group: nat, maxGroup: nat): string
  {
    "Group " + Show(group) + "/" + Show(maxGroup)
  }

  /** PROXY_HOST, PROXY_PORT, PROXY_USER and PROXY_PASS; an unset variable is "". */
  datatype ProxyEnv = ProxyEnv(host: string, port: string, user: string, pass: string)

  /** The step of an attempt at which the browser raised an exception. */
  datatype Stage =
    | Launch    // starting the browser, context or page
    | Navigate  // loading the target URL
    | Fill      // clicking, clearing and typing into the registration field
    | Submit    // clicking the submit control

  datatype Fault = Fault(stage: Stage, message: string)

  /** The exception message if the attempt's fault happens at `stage`. */
  function FaultAt(fault: Option<Fault>, stage: Stage): Option<string>
  {
    if fault.Some? && fault.value.stage == stage then Some(fault.value.message) else None
  }
}
