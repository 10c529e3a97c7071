/**
  `get_storage_root`: normalise the address, ask the provider for an
  `eth_getProof` with no storage keys at the given block, and read
  `result.storageHash` out of the reply. Every failure on the way (an address
  the checksum routine rejects, a provider call that raises, a reply without a
  usable `result` object) ends in `None`.

  The checksum routine and the provider are foreign code (keccak hashing and
  the network), so they are parameters: partial behaviour is expressed by
  their `Option` results.
 */
module StorageRoot {
  import opened Wrappers

  const StorageHashKey := "storageHash"

  /** The value of a member of the `result` object: JSON null or a string.
      Real proof replies also carry list members (`accountProof`,
      `storageProof`); they are not representable here, which is harmless
      because extraction never reads any member but `storageHash`. */
  datatype Field = Null | Str(text: string)

  /** The decoded reply of the provider, as far as extraction looks at it. */
  datatype Payload =
    | NoResult                                // no "result" key (e.g. an RPC error object)
    | NullResult                              // "result": null
    | NonObjectResult                         // "result" holds a string, number or list
    | ObjectResult(members: map<string, Field>)

  /** The request handed to the provider: `eth_getProof(address, keys, block)`. */
  datatype ProofRequest = GetProof(address: string, storageKeys: seq<string>, block: string)

  /** What one call did: the request it issued (if it got that far) and the root. */
  datatype Fetch = Fetch(request: Option<ProofRequest>, root: Option<string>)

  /** The `storageHash` member of the reply's `result` object; a missing
      `result` reads as an empty object, and a null or non-object `result`
      raises, which the surrounding handler turns into `None`. */
  function ExtractStorageHash(p: Payload): (r: Option<string>)
    ensures !p.ObjectResult? ==> r == None
    ensures p.ObjectResult? && StorageHashKey !in p.members ==> r == None
    ensures r.Some? ==> p.ObjectResult? && p.members[StorageHashKey] == Str(r.value)
  {
    match p
    case ObjectResult(m) =>
      if StorageHashKey in m && m[StorageHashKey].Str? then Some(m[StorageHashKey].text) else None
    case _ => None
  }

  /** A well-formed proof reply carrying root `h` among any other proof members. */
  function ProofReply(h: string, others: map<string, Field>): Payload {
    ObjectResult(others[StorageHashKey := Str(h)])
  }

  /** Extraction recovers the root a proof reply carries, whatever else it holds. */
  lemma ExtractProofReply(h: string, others: map<string, Field>)
    ensures ExtractStorageHash(ProofReply(h, others)) == Some(h)
  {
  }

  /** Members other than `storageHash` (account proof, balance, nonce, ...)
      never influence the extracted root. */
  lemma ExtractIgnoresOtherMembers(m: map<string, Field>, k: string, v: Field)
    requires k != StorageHashKey
    ensures ExtractStorageHash(ObjectResult(m[k := v])) == ExtractStorageHash(ObjectResult(m))
  {
  }

  /** The whole of `get_storage_root`. `checksum` is `Web3.to_checksum_address`
      (None when it raises); `provider` is `make_request` (None when it raises). */
  function FetchRoot(
    checksum: string -> Option<string>,
    provider: ProofRequest -> Option<Payload>,
    address: string,
    block: string
  ): (f: Fetch)
    ensures f.request.Some? <==> checksum(address).Some?
    ensures f.request.Some? ==> f.request.value == GetProof(checksum(address).value, [], block)
    ensures f.root.Some? <==>
      && f.request.Some?
      && provider(f.request.value).Some?
      && ExtractStorageHash(provider(f.request.value).value).Some?
    ensures f.root.Some? ==> f.root == ExtractStorageHash(provider(f.request.value).value)
  {
    match checksum(address)
    case None => Fetch(None, None)
    case Some(canonical) =>
      var request := GetProof(canonical, [], block);
      match provider(request)
      case None => Fetch(Some(request), None)
      case Some(reply) => Fetch(Some(request), ExtractStorageHash(reply))
  }
}
