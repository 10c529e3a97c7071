/**
  The run outcome of `main`: URL check, connection check, the mandatory fetch
  at `--from-block`, the optional fetch at `--to-block`, the displayed
  MATCH/MISMATCH line, the JSON record and the exit code. Printing, timing,
  the chain id and argument parsing are not modelled; the environment
  (connectivity and the two fetch results) is an input.
 */
module App {
  import opened Wrappers
  import opened Ascii
  import opened StorageRoot

  /** The parsed command line. `toBlock` is None when `--to-block` was not given. */
  datatype Args = Args(rpc: string, address: string, fromBlock: string, toBlock: Option<string>, json: bool)

  /** The comparison line printed when a second block was given. */
  datatype Status = Match | Mismatch

  /** The JSON record, without the address and timing fields. `matched` is the
      `match` member (None is JSON null). */
  datatype Report = Report(
    rpc: string,
    fromBlock: string,
    toBlock: Option<string>,
    rootFrom: string,
    rootTo: Option<string>,
    matched: Option<bool>)

  /** How a run ends: the exit code, the blocks `get_storage_root` was called
      for (in order), the displayed status and the JSON record (if printed). */
  datatype Outcome = Outcome(exitCode: nat, queried: seq<string>, status: Option<Status>, report: Option<Report>)

  const UrlPrefix := "http"

  /** Python's `str.startswith`. */
  predicate StartsWith(s: string, prefix: string) {
    |prefix| <= |s| && s[..|prefix|] == prefix
  }

  /** Python truthiness of `args.to_block`: None and "" both count as absent. */
  predicate Given(toBlock: Option<string>) {
    toBlock.Some? && toBlock.value != ""
  }

  /** The displayed comparison: lower-cased roots are compared. */
  function Compare(a: string, b: string): (s: Status)
    ensures s == Match <==> SameLetters(a, b)
  {
    EqualsIgnoreCaseIsSameLetters(a, b);
    if EqualsIgnoreCase(a, b) then Match else Mismatch
  }

  /** The blocks of a completed run: the source block, then the destination block if given. */
  function Planned(args: Args): seq<string> {
    if Given(args.toBlock) then [args.fromBlock, args.toBlock.value] else [args.fromBlock]
  }

  /** `main` with its environment as inputs: whether the endpoint is connected,
      the root of the first fetch and the root of the second (ignored unless a
      non-empty `--to-block` was given). */
  function Decide(args: Args, connected: bool, rootFrom: Option<string>, rootTo: Option<string>): (o: Outcome)
    ensures o.exitCode == 1 <==> !StartsWith(args.rpc, UrlPrefix) || !connected
    ensures o.exitCode == 1 ==> o.queried == []
    ensures o.exitCode <= 2
    ensures o.queried <= Planned(args)
    ensures o.status.Some? || o.report.Some? ==> o.queried == Planned(args) && rootFrom.Some?
    ensures o.status.Some? <==> o.queried == Planned(args) && rootFrom.Some? && Given(args.toBlock) && rootTo.Some?
  {
    if !StartsWith(args.rpc, UrlPrefix) then
      Outcome(1, [], None, None)
    else if !connected then
      Outcome(1, [], None, None)
    else if rootFrom.None? then
      Outcome(2, [args.fromBlock], None, None)
    else if Given(args.toBlock) && rootTo.None? then
      Outcome(2, [args.fromBlock, args.toBlock.value], None, None)
    else
      var given := Given(args.toBlock);
      var status := if given then Some(Compare(rootFrom.value, rootTo.value)) else None;
      var matched := if given then Some(rootFrom.value == rootTo.value) else None;
      var report :=
        if args.json then Some(Report(args.rpc, args.fromBlock, args.toBlock, rootFrom.value,
                                      if given then rootTo else None, matched))
        else None;
      var code := if !given || rootFrom.value == rootTo.value then 0 else 2;
      Outcome(code, Planned(args), status, report)
  }

  /** The environment of a run: connectivity and the two foreign routines.
      `provider(n, request)` is the answer to the `n`-th proof request of the
      run (0 for the source block, 1 for the destination block): the two calls
      are separate network round trips, so the same request may be answered
      differently, e.g. after the chain advanced or when the second one times out. */
  datatype Env = Env(
    connected: bool,
    checksum: string -> Option<string>,
    provider: (nat, ProofRequest) -> Option<Payload>)

  /** The provider as seen by the `n`-th call of `get_storage_root`. */
  function Call(env: Env, n: nat): ProofRequest -> Option<Payload> {
    (request: ProofRequest) => env.provider(n, request)
  }

  /** A run together with the proof requests that reached the provider. */
  datatype Execution = Execution(outcome: Outcome, requests: seq<ProofRequest>)

  /** The requests issued by the fetches of `queried`, in order, the first of
      them being call number `n`. The call number only labels the fetches: a
      request is built from the checksummed address and the block before any
      answer arrives, so neither `n` nor the provider's answers affect it. */
  function Issued(env: Env, address: string, queried: seq<string>, n: nat): (rs: seq<ProofRequest>)
    ensures env.checksum(address).None? ==> rs == []
    ensures env.checksum(address).Some? ==>
      && |rs| == |queried|
      && forall i :: 0 <= i < |rs| ==> rs[i] == GetProof(env.checksum(address).value, [], queried[i])
  {
    if queried == [] then []
    else
      var f := FetchRoot(env.checksum, Call(env, n), address, queried[0]);
      (if f.request.Some? then [f.request.value] else []) + Issued(env, address, queried[1..], n + 1)
  }

  /** `main` with the fetches performed by `get_storage_root`. */
  function Run(args: Args, env: Env): (e: Execution)
    ensures e.outcome.exitCode == 0 ==> env.checksum(args.address).Some?
  {
    var rootFrom := FetchRoot(env.checksum, Call(env, 0), args.address, args.fromBlock).root;
    var rootTo :=
      if Given(args.toBlock) then FetchRoot(env.checksum, Call(env, 1), args.address, args.toBlock.value).root
      else None;
    var o := Decide(args, env.connected, rootFrom, rootTo);
    Execution(o, Issued(env, args.address, o.queried, 0))
  }
}
