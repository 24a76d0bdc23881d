/** The crank's view of the chain: the instructions it builds, the requests
    it submits, the address derivations it relies on, and the remote
    client it reads from and submits to. */
module Chain {
  import opened Prelude
  import opened Failures
  import opened Accounts

  /** The instructions the crank emits. Each constructor stands for the
      encoder of that instruction and records the accounts it is given, in
      the encoder's argument order. */
  datatype Instruction =
      /** voter-stake-registry `UpdateVoterWeightRecord`. */
    | UpdateVoterWeightRecord(program: Pubkey, registrar: Pubkey, voter: Pubkey,
                              voterWeightRecord: Pubkey, systemProgram: Pubkey)
      /** `governance_rewards_client::register`. */
    | Register(user: Pubkey, distribution: Pubkey, realm: Pubkey,
               voterWeightRecord: Pubkey, payer: Pubkey)
      /** `governance_rewards_client::claim`. */
    | Claim(user: Pubkey, distribution: Pubkey, realm: Pubkey, wallet: Pubkey,
            payoutAddress: Pubkey, payer: Pubkey)
      /** `governance_rewards_client::reclaim_funds`. */
    | ReclaimFunds(distribution: Pubkey, admin: Pubkey, wallet: Pubkey, to: Pubkey)

  /** A `RequestBuilder` ready to send: its instructions in order, and the
      signers in the order they were added (`signer` appends). */
  datatype Request = Request(instructions: seq<Instruction>, signers: seq<Pubkey>)

  /** The empty `program.request()`. */
  const EmptyRequest := Request([], [])

  /** `RequestBuilder::instruction`. */
  function AddInstruction(r: Request, ix: Instruction): Request
  {
    r.(instructions := r.instructions + [ix])
  }

  /** `RequestBuilder::signer`. */
  function AddSigner(r: Request, key: Pubkey): Request
  {
    r.(signers := r.signers + [key])
  }

  /** The distinct keys that sign a request. */
  function SignerKeys(r: Request): set<Pubkey>
  {
    set i | 0 <= i < |r.signers| :: r.signers[i]
  }

  /** `solana_sdk::system_program::id()`, the all-zero key. */
  const SystemProgram: Pubkey := [0, 0, 0, 0, 0, 0, 0, 0, 0, 0, 0, 0, 0, 0, 0, 0, 0, 0, 0, 0, 0, 0, 0, 0, 0, 0, 0, 0, 0, 0, 0, 0]

  /** The derivations and library calls whose code is outside this
      repository. The model holds for every choice of them. */
  datatype Derivations = Derivations(
    /** `Pubkey::find_program_address(seeds, program).0`. */
    findProgramAddress: (seq<seq<byte>>, Pubkey) -> Pubkey,
    /** `get_associated_token_address(owner, mint)`. */
    associatedTokenAddress: (Pubkey, Pubkey) -> Pubkey,
    /** `ClaimData::chosen_option(distribution)`. */
    chosenOption: (ClaimData, Distribution) -> DistributionOption,
    /** `ResolutionPreference::payout_address(user, mint, realm)`. */
    payoutAddress: (ResolutionPreference, Pubkey, Pubkey, Pubkey) -> Pubkey,
    /** `UserPreferences::get_address(user, realm)`. */
    preferencesAddress: (Pubkey, Pubkey) -> Pubkey,
    /** `UserPreferences::default()`. */
    defaultPreferences: UserPreferences,
    /** `voter_stake_registry::id()`. */
    voterStakeRegistry: Pubkey)

  /** A transaction signature, returned by a successful submission. */
  type Signature = seq<byte>

  /** The outcome of one `send`. */
  type SendResult = Result<Signature, ClientError>

  /** The remote client, as an oracle: what each read returns, what each
      filtered scan yields (the scan itself may fail, and each entry may
      fail to load), and what the n-th submission of a run returns. */
  datatype Remote = Remote(
    distributionAt: Pubkey -> Result<Distribution, ClientError>,
    preferencesAt: Pubkey -> Result<UserPreferences, ClientError>,
    claimDataScan: Memcmp -> Result<seq<Result<(Pubkey, ClaimData), ClientError>>, ClientError>,
    voterScan: Memcmp -> Result<seq<Result<(Pubkey, Voter), ClientError>>, ClientError>,
    send: (nat, Request) -> SendResult)

  /** `GovernanceRewardsClient`: the distribution to crank and the public
      keys of the payer and admin keypairs. */
  datatype CrankClient = CrankClient(distribution: Pubkey, payer: Pubkey, admin: Pubkey)
}
