/** The on-chain records the crank reads, and the byte-range filter it
    hands to the server for an account scan. */
module Accounts {
  import opened Prelude

  /** One payout slot of a distribution: a token mint and the custodial
      wallet holding that token. */
  datatype DistributionOption = DistributionOption(mint: Pubkey, wallet: Pubkey)

  /** `governance_rewards::state::distribution::Distribution`, the fields the
      crank reads. */
  datatype Distribution = Distribution(
    realm: Pubkey,
    registrar: Option<Pubkey>,
    distributionOptions: seq<Option<DistributionOption>>)

  /** `DistributionInfo`: a Distribution together with its address, loaded
      once per run and read-only afterwards. */
  datatype DistributionInfo = DistributionInfo(address: Pubkey, account: Distribution)

  /** A `ClaimData` account, as its raw bytes. Its fields are decoded by the
      governance-rewards program, which is not part of this model; the crank
      relies only on the distribution key stored at bytes 16..48. */
  datatype ClaimData = ClaimData(data: seq<byte>)

  /** A voter-stake-registry `Voter` account, as its raw bytes; the crank
      relies only on the registrar key stored at bytes 40..72. */
  datatype Voter = Voter(data: seq<byte>)

  /** How a claimant wants to be paid; its variants belong to the
      governance-rewards program and are carried as an opaque tag. */
  datatype ResolutionPreference = ResolutionPreference(tag: seq<byte>)

  /** `UserPreferences`. */
  datatype UserPreferences = UserPreferences(resolutionPreference: ResolutionPreference)

  /** `rpc_filter::Memcmp` with raw bytes and no encoding: the account data
      must hold `bytes` starting at `offset`. */
  datatype Memcmp = Memcmp(offset: nat, bytes: seq<byte>)

  /** Whether an account's data passes a memcmp filter. */
  predicate Matches(f: Memcmp, data: seq<byte>)
  {
    f.offset + |f.bytes| <= |data| && data[f.offset..f.offset + |f.bytes|] == f.bytes
  }

  /** A memcmp filter selects an account exactly when the key field at the
      filter's offset equals the filter's bytes, whatever precedes or
      follows that field. */
  lemma MatchesKeyField(f: Memcmp, head: seq<byte>, key: seq<byte>, tail: seq<byte>)
    requires |head| == f.offset && |key| == |f.bytes|
    ensures Matches(f, head + key + tail) <==> key == f.bytes
  {
  }
}
