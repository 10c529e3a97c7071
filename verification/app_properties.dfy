/**
  Properties of `main`'s outcome: the two exit-1 guards, the two fetch
  failures, the single-block run, and the disagreement between the displayed
  comparison (case-insensitive) and the JSON `match` member and exit code
  (raw string equality).
 */
module AppProperties {
  import opened Wrappers
  import opened Ascii
  import opened StorageRoot
  import opened App

  /** The URL test is a plain prefix test on "http". */
  lemma UrlPrefixIsPlain()
    ensures StartsWith("httpx://node", UrlPrefix)
    ensures StartsWith("https://node", UrlPrefix)
    ensures !StartsWith("ftp://node", UrlPrefix)
    ensures !StartsWith("htt", UrlPrefix)
    ensures !StartsWith("HTTP://node", UrlPrefix)
  {
    assert "httpx://node"[..4] == "http";
    assert "https://node"[..4] == "http";
    assert "ftp://node"[0] != "http"[0];
    assert "HTTP://node"[0] != "http"[0];
  }

  /** A URL not starting with "http" exits 1 before anything is fetched. */
  lemma BadUrlExitsOne(args: Args, connected: bool, rootFrom: Option<string>, rootTo: Option<string>)
    requires !StartsWith(args.rpc, UrlPrefix)
    ensures Decide(args, connected, rootFrom, rootTo) == Outcome(1, [], None, None)
  {
  }

  /** An unreachable endpoint exits 1 before anything is fetched. */
  lemma NotConnectedExitsOne(args: Args, rootFrom: Option<string>, rootTo: Option<string>)
    requires StartsWith(args.rpc, UrlPrefix)
    ensures Decide(args, false, rootFrom, rootTo) == Outcome(1, [], None, None)
  {
  }

  /** A failed source fetch exits 2 after that one fetch, with no comparison,
      even when a destination block was given. */
  lemma SourceFetchFailureExitsTwo(args: Args, rootTo: Option<string>)
    requires StartsWith(args.rpc, UrlPrefix)
    ensures Decide(args, true, None, rootTo) == Outcome(2, [args.fromBlock], None, None)
  {
  }

  /** A failed destination fetch exits 2 after both fetches, with no comparison. */
  lemma DestinationFetchFailureExitsTwo(args: Args, rootFrom: string)
    requires StartsWith(args.rpc, UrlPrefix) && Given(args.toBlock)
    ensures Decide(args, true, Some(rootFrom), None) == Outcome(2, [args.fromBlock, args.toBlock.value], None, None)
  {
  }

  /** Without a (non-empty) destination block a successful fetch exits 0, shows
      no comparison, and the JSON `match` member is null. */
  lemma SingleBlockSucceeds(args: Args, rootFrom: string, rootTo: Option<string>)
    requires StartsWith(args.rpc, UrlPrefix) && !Given(args.toBlock)
    ensures var o := Decide(args, true, Some(rootFrom), rootTo);
      && o.exitCode == 0
      && o.queried == [args.fromBlock]
      && o.status == None
      && (o.report.Some? <==> args.json)
      && (args.json ==> o.report.value == Report(args.rpc, args.fromBlock, args.toBlock, rootFrom, None, None))
  {
  }

  /** `--to-block ""` behaves like no `--to-block` at all; only the JSON
      `to_block` member differs ("" instead of null). */
  lemma EmptyToBlockIsAbsent(args: Args, connected: bool, rootFrom: Option<string>, rootTo: Option<string>)
    requires args.toBlock == Some("")
    ensures var o := Decide(args, connected, rootFrom, rootTo);
            var o' := Decide(args.(toBlock := None), connected, rootFrom, None);
      && o.exitCode == o'.exitCode
      && o.queried == o'.queried
      && o.status == o'.status
      && (o.report.Some? <==> o'.report.Some?)
      && (o.report.Some? ==> o.report.value == o'.report.value.(toBlock := Some("")))
  {
  }

  /** With two roots the displayed status is case-insensitive equality, while
      the exit code and the JSON `match` member use raw string equality. */
  lemma TwoRootComparison(args: Args, rootFrom: string, rootTo: string)
    requires StartsWith(args.rpc, UrlPrefix) && Given(args.toBlock)
    ensures var o := Decide(args, true, Some(rootFrom), Some(rootTo));
      && o.queried == [args.fromBlock, args.toBlock.value]
      && (o.status == Some(Match) <==> EqualsIgnoreCase(rootFrom, rootTo))
      && (o.status == Some(Mismatch) <==> !EqualsIgnoreCase(rootFrom, rootTo))
      && (o.exitCode == 0 <==> rootFrom == rootTo)
      && (o.exitCode == 2 <==> rootFrom != rootTo)
      && (o.report.Some? <==> args.json)
      && (args.json ==>
            o.report.value == Report(args.rpc, args.fromBlock, args.toBlock, rootFrom, Some(rootTo), Some(rootFrom == rootTo)))
  {
    EqualsIgnoreCaseIsSameLetters(rootFrom, rootTo);
  }

  /** Exit 0 never comes with a displayed MISMATCH, since raw equality implies
      case-insensitive equality. */
  lemma ExitZeroImpliesNoMismatch(args: Args, connected: bool, rootFrom: Option<string>, rootTo: Option<string>)
    ensures Decide(args, connected, rootFrom, rootTo).exitCode == 0 ==>
      Decide(args, connected, rootFrom, rootTo).status != Some(Mismatch)
  {
    var o := Decide(args, connected, rootFrom, rootTo);
    if o.exitCode == 0 && o.status.Some? {
      EqualsIgnoreCaseIsSameLetters(rootFrom.value, rootTo.value);
    }
  }

  /** The converse fails: roots differing only in case display MATCH, yet the
      run exits 2 and the JSON `match` member is false. */
  lemma DisplayedMatchButExitTwo()
    ensures var args := Args("https://node", "0x00", "latest", Some("0x100"), true);
            var o := Decide(args, true, Some("0xABCD"), Some("0xabcd"));
      && o.status == Some(Match)
      && o.exitCode == 2
      && o.report.Some? && o.report.value.matched == Some(false)
  {
    var args := Args("https://node", "0x00", "latest", Some("0x100"), true);
    assert StartsWith(args.rpc, UrlPrefix) by {
      assert args.rpc[..4] == "http";
    }
    EqualsIgnoreCaseIsCoarser();
    TwoRootComparison(args, "0xABCD", "0xabcd");
  }

  /** The exit code over all inputs: 1 for the URL and connection guards, 0
      exactly for a successful single fetch or two raw-identical roots, 2 otherwise. */
  lemma ExitCodeCharacterization(args: Args, connected: bool, rootFrom: Option<string>, rootTo: Option<string>)
    ensures var o := Decide(args, connected, rootFrom, rootTo);
            var reached := StartsWith(args.rpc, UrlPrefix) && connected;
      && (o.exitCode == 1 <==> !reached)
      && (o.exitCode == 0 <==>
            reached && rootFrom.Some? && (!Given(args.toBlock) || rootTo == rootFrom))
      && (o.exitCode == 2 <==>
            reached && (rootFrom.None? || (Given(args.toBlock) && rootTo != rootFrom)))
  {
  }

  /** When no destination block is given, the second fetch result is never looked at. */
  lemma DestinationIgnoredWhenAbsent(args: Args, connected: bool, rootFrom: Option<string>, t1: Option<string>, t2: Option<string>)
    requires !Given(args.toBlock)
    ensures Decide(args, connected, rootFrom, t1) == Decide(args, connected, rootFrom, t2)
  {
  }

  /** An address the checksum routine rejects is a fetch failure (exit 2) after
      the connection check, and no proof request reaches the provider. */
  lemma InvalidAddressIsFetchFailure(args: Args, env: Env)
    requires StartsWith(args.rpc, UrlPrefix) && env.connected
    requires env.checksum(args.address).None?
    ensures Run(args, env).outcome == Outcome(2, [args.fromBlock], None, None)
    ensures Run(args, env).requests == []
  {
  }

  /** Every proof request of a run carries the canonical address, an empty
      storage-key list and the block exactly as given on the command line. */
  lemma RunRequestsArePlain(args: Args, env: Env)
    requires env.checksum(args.address).Some?
    ensures var e := Run(args, env);
      && |e.requests| == |e.outcome.queried|
      && forall i :: 0 <= i < |e.requests| ==>
           e.requests[i] == GetProof(env.checksum(args.address).value, [], e.outcome.queried[i])
  {
  }

  /** A provider whose reply for `latest` and for `0x100` carries the given
      roots, the same on every call. */
  function TwoBlockEnv(rootLatest: string, root100: string): Env {
    Env(true, (a: string) => Some(a),
        (n: nat, r: ProofRequest) =>
          if r.block == "latest" then Some(ProofReply(rootLatest, map[]))
          else if r.block == "0x100" then Some(ProofReply(root100, map[]))
          else None)
  }

  /** Under `TwoBlockEnv` each block's fetch returns that block's root. */
  lemma TwoBlockFetches(rootLatest: string, root100: string, address: string, n: nat)
    ensures var env := TwoBlockEnv(rootLatest, root100);
      && FetchRoot(env.checksum, Call(env, n), address, "latest").root == Some(rootLatest)
      && FetchRoot(env.checksum, Call(env, n), address, "0x100").root == Some(root100)
  {
    var env := TwoBlockEnv(rootLatest, root100);
    assert Call(env, n)(GetProof(address, [], "latest")) == Some(ProofReply(rootLatest, map[]));
    assert "0x100" != "latest";
    assert Call(env, n)(GetProof(address, [], "0x100")) == Some(ProofReply(root100, map[]));
    ExtractProofReply(rootLatest, map[]);
    ExtractProofReply(root100, map[]);
  }

  /** The same root at both blocks: MATCH and exit 0. */
  lemma SameRootScenario()
    ensures var args := Args("https://node", "0x1234", "latest", Some("0x100"), false);
            var o := Run(args, TwoBlockEnv("0xaaaa", "0xaaaa")).outcome;
      && o.status == Some(Match)
      && o.exitCode == 0
  {
    var args := Args("https://node", "0x1234", "latest", Some("0x100"), false);
    assert StartsWith(args.rpc, UrlPrefix) by {
      assert args.rpc[..4] == "http";
    }
    TwoBlockFetches("0xaaaa", "0xaaaa", args.address, 0);
    TwoBlockFetches("0xaaaa", "0xaaaa", args.address, 1);
    TwoRootComparison(args, "0xaaaa", "0xaaaa");
  }

  /** Different roots at the two blocks: MISMATCH and exit 2. */
  lemma DifferentRootScenario()
    ensures var args := Args("https://node", "0x1234", "latest", Some("0x100"), false);
            var o := Run(args, TwoBlockEnv("0xaaaa", "0xbbbb")).outcome;
      && o.status == Some(Mismatch)
      && o.exitCode == 2
  {
    var args := Args("https://node", "0x1234", "latest", Some("0x100"), false);
    assert StartsWith(args.rpc, UrlPrefix) by {
      assert args.rpc[..4] == "http";
    }
    TwoBlockFetches("0xaaaa", "0xbbbb", args.address, 0);
    TwoBlockFetches("0xaaaa", "0xbbbb", args.address, 1);
    assert Lower("0xaaaa")[2] != Lower("0xbbbb")[2];
    TwoRootComparison(args, "0xaaaa", "0xbbbb");
  }

  /** A provider whose first answer carries `first` and whose second carries
      `second`, whatever block is asked for. */
  function ChangingEnv(first: string, second: string): Env {
    Env(true, (a: string) => Some(a),
        (n: nat, r: ProofRequest) => Some(ProofReply(if n == 0 then first else second, map[])))
  }

  /** The two fetches are separate round trips: comparing `latest` with
      `latest` still shows MISMATCH and exits 2 when the chain advanced in
      between. */
  lemma SameBlockCanDiffer()
    ensures var args := Args("https://node", "0x1234", "latest", Some("latest"), false);
            var o := Run(args, ChangingEnv("0xaaaa", "0xbbbb")).outcome;
      && o.queried == ["latest", "latest"]
      && o.status == Some(Mismatch)
      && o.exitCode == 2
  {
    var args := Args("https://node", "0x1234", "latest", Some("latest"), false);
    var env := ChangingEnv("0xaaaa", "0xbbbb");
    assert StartsWith(args.rpc, UrlPrefix) by {
      assert args.rpc[..4] == "http";
    }
    ExtractProofReply("0xaaaa", map[]);
    ExtractProofReply("0xbbbb", map[]);
    assert FetchRoot(env.checksum, Call(env, 0), args.address, "latest").root == Some("0xaaaa");
    assert FetchRoot(env.checksum, Call(env, 1), args.address, "latest").root == Some("0xbbbb");
    assert Lower("0xaaaa")[2] != Lower("0xbbbb")[2];
    TwoRootComparison(args, "0xaaaa", "0xbbbb");
  }
}
