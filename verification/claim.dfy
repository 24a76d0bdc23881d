/** The claim workflow: pay every claimant of the distribution its chosen
    option, tolerating skips and possible degradations, stopping at the
    first fatal failure. */
module Claim {
  import opened Prelude
  import opened Failures
  import opened Accounts
  import opened Chain
  import opened Scan
  import opened Batches

  /** Offset of the distribution key in a `ClaimData` account: the 8-byte
      account discriminator and one 8-byte field come first. */
  const ClaimDataDistributionOffset: nat := 8 + 8

  /** The server-side filter selecting the claim records of a distribution. */
  function ClaimScanFilter(distribution: Pubkey): Memcmp
  {
    Memcmp(ClaimDataDistributionOffset, distribution)
  }

  /** The claim scan keeps exactly the records whose bytes 16..48 hold the
      distribution's address. */
  lemma ClaimScanSelectsDistribution(distribution: Pubkey, c: ClaimData)
    ensures Matches(ClaimScanFilter(distribution), c.data) <==>
            |c.data| >= 48 && c.data[16..48] == distribution
  {
  }

  /** `accounts_to_claim`: the scan's own failure, or its entries with
      vanished accounts dropped and the first other error kept. */
  function AccountsToClaim(remote: Remote, distribution: DistributionInfo)
    : (r: Result<seq<(Pubkey, ClaimData)>, ClientError>)
    ensures var scan := remote.claimDataScan(ClaimScanFilter(distribution.address));
            && (scan.Err? ==> r == Err(scan.error))
            && (scan.Ok? ==> Enumerates(scan.value, r))
  {
    match remote.claimDataScan(ClaimScanFilter(distribution.address))
    case Err(e) => Err(e)
    case Ok(entries) =>
      CollectAccountsEnumerates(entries);
      CollectAccounts(entries)
  }

  /** `unwrap_or_default` on the preference record. */
  function PreferencesOrDefault(env: Derivations, preferences: Option<UserPreferences>): UserPreferences
  {
    match preferences
    case Some(p) => p
    case None => env.defaultPreferences
  }

  /** `build_claim`: one claim instruction paying the chosen option's wallet
      out to the address the claimant's preference resolves, with the
      payer added as signer. */
  function BuildClaim(env: Derivations, user: Pubkey, distribution: DistributionInfo, realm: Pubkey,
                      payer: Pubkey, preferences: Option<UserPreferences>, claim: ClaimData): (r: Request)
    ensures |r.instructions| == 1 && r.instructions[0].Claim?
    ensures var ix := r.instructions[0];
            var chosen := env.chosenOption(claim, distribution.account);
            && ix.user == user
            && ix.distribution == distribution.address
            && ix.realm == distribution.account.realm
            && ix.wallet == chosen.wallet
            && ix.payoutAddress == env.payoutAddress(
                 PreferencesOrDefault(env, preferences).resolutionPreference, user, chosen.mint, realm)
            && ix.payer == payer
    ensures r.signers == [payer]
  {
    var prefs := PreferencesOrDefault(env, preferences);
    var chosen := env.chosenOption(claim, distribution.account);
    var payout := env.payoutAddress(prefs.resolutionPreference, user, chosen.mint, realm);
    var ix := Instruction.Claim(user, distribution.address, distribution.account.realm,
                                chosen.wallet, payout, payer);
    AddSigner(AddInstruction(EmptyRequest, ix), payer)
  }

  /** `get_preferences(...).ok()`: the claimant's preference record, or
      nothing when the read fails for any reason. */
  function GetPreferences(env: Derivations, remote: Remote, user: Pubkey, realm: Pubkey)
    : (o: Option<UserPreferences>)
    ensures o.None? <==> remote.preferencesAt(env.preferencesAddress(user, realm)).Err?
    ensures o.Some? ==> o.value == remote.preferencesAt(env.preferencesAddress(user, realm)).value
  {
    remote.preferencesAt(env.preferencesAddress(user, realm)).ToOption()
  }

  /** The request the claim loop sends for one claimant: the built claim,
      with the payer added as signer a second time by the loop. */
  function ClaimRequest(env: Derivations, remote: Remote, distribution: DistributionInfo,
                        payer: Pubkey, entry: (Pubkey, ClaimData)): (r: Request)
    ensures |r.instructions| == 1 && r.instructions[0].Claim? && r.instructions[0].user == entry.0
    ensures r.signers == [payer, payer] && SignerKeys(r) == {payer}
  {
    var realm := distribution.account.realm;
    var preferences := GetPreferences(env, remote, entry.0, realm);
    var r := AddSigner(BuildClaim(env, entry.0, distribution, realm, payer, preferences, entry.1), payer);
    assert r.signers[0] in SignerKeys(r);
    r
  }

  /** Any failed preference read, not only a missing record, builds the
      same claim as the default preferences do. */
  lemma FailedPreferenceReadUsesDefault(env: Derivations, user: Pubkey, distribution: DistributionInfo,
                                        realm: Pubkey, payer: Pubkey, claim: ClaimData,
                                        read: Result<UserPreferences, ClientError>)
    requires read.Err?
    ensures BuildClaim(env, user, distribution, realm, payer, read.ToOption(), claim) ==
            BuildClaim(env, user, distribution, realm, payer, Some(env.defaultPreferences), claim)
  {
  }

  /** The claimant's payout address in the request the loop sends: the
      one its stored preference resolves when the read succeeds, and the
      one the default preference resolves when the read fails for any
      reason. */
  lemma ClaimRequestPayout(env: Derivations, remote: Remote, distribution: DistributionInfo,
                           payer: Pubkey, entry: (Pubkey, ClaimData))
    ensures var read := remote.preferencesAt(env.preferencesAddress(entry.0, distribution.account.realm));
            var ix := ClaimRequest(env, remote, distribution, payer, entry).instructions[0];
            var mint := env.chosenOption(entry.1, distribution.account).mint;
            var payoutFor := (p: UserPreferences) =>
              env.payoutAddress(p.resolutionPreference, entry.0, mint, distribution.account.realm);
            && ix.Claim?
            && (read.Ok? ==> ix.payoutAddress == payoutFor(read.value))
            && (read.Err? ==> ix.payoutAddress == payoutFor(env.defaultPreferences))
  {
  }

  /** `Failure::assess(result)?` in the claim loop: only a fatal failure
      ends the run, carrying the error unchanged. */
  function ClaimVerdict(r: SendResult): (v: Option<Failure<ClientError>>)
    ensures v.Some? <==> r.Err? && IsFatalError(r.error)
    ensures v.Some? ==> v.value == Fatal(r.error)
  {
    match Assess(r)
    case Err(f) => Some(f)
    case Ok(_) => None
  }

  /** The strict first two steps of `claim`: read the distribution, then
      enumerate its claim records. Any failure is fatal. */
  function ClaimDiscovery(remote: Remote, client: CrankClient)
    : (d: Result<(DistributionInfo, seq<(Pubkey, ClaimData)>), Failure<ClientError>>)
    ensures d.Err? ==> d.error.Fatal?
    ensures var read := remote.distributionAt(client.distribution);
            && (read.Err? ==> d == Err(Fatal(read.error)))
            && (read.Ok? ==>
                  var distribution := DistributionInfo(client.distribution, read.value);
                  var scan := remote.claimDataScan(ClaimScanFilter(client.distribution));
                  && (scan.Err? ==> d == Err(Fatal(scan.error)))
                  && (scan.Ok? && d.Ok? ==>
                        d.value.0 == distribution && Enumerates(scan.value, Ok(d.value.1)))
                  && (scan.Ok? && d.Err? ==> Enumerates(scan.value, Err(d.error.error))))
  {
    match MustSucceed(remote.distributionAt(client.distribution))
    case Err(f) => Err(f)
    case Ok(account) =>
      var distribution := DistributionInfo(client.distribution, account);
      match MustSucceed(AccountsToClaim(remote, distribution))
      case Err(f) => Err(f)
      case Ok(users) => Ok((distribution, users))
  }

  /** The per-claimant request builder of the claim loop. */
  function ClaimBuilder(env: Derivations, remote: Remote, distribution: DistributionInfo, payer: Pubkey)
    : ((Pubkey, ClaimData)) -> Request
  {
    entry => ClaimRequest(env, remote, distribution, payer, entry)
  }

  /** The loop of `claim` over the enumerated claimants. */
  function ClaimBatch(env: Derivations, remote: Remote, client: CrankClient, distribution: DistributionInfo,
                      users: seq<(Pubkey, ClaimData)>): (o: Batch<Failure<ClientError>>)
    ensures IsBatchFrom(users, 0, ClaimBuilder(env, remote, distribution, client.payer), remote.send, ClaimVerdict, o)
  {
    RunBatch(users, ClaimBuilder(env, remote, distribution, client.payer), remote.send, ClaimVerdict)
  }

  /** Each claimant is sent its own request, in enumeration order. */
  lemma ClaimBatchSends(env: Derivations, remote: Remote, client: CrankClient, distribution: DistributionInfo,
                        users: seq<(Pubkey, ClaimData)>)
    ensures var o := ClaimBatch(env, remote, client, distribution, users);
            && |o.sent| <= |users|
            && forall i :: 0 <= i < |o.sent| ==> o.sent[i] == ClaimRequest(env, remote, distribution, client.payer, users[i])
  {
  }

  /** The loop succeeds iff every claimant was sent its request and no
      submission failed fatally: skips and possible degradations are passed
      over. */
  lemma ClaimBatchSucceeds(env: Derivations, remote: Remote, client: CrankClient, distribution: DistributionInfo,
                           users: seq<(Pubkey, ClaimData)>)
    ensures var o := ClaimBatch(env, remote, client, distribution, users);
            o.result.Ok? <==>
              && |o.sent| == |users|
              && forall i :: 0 <= i < |o.sent| ==> Assess(remote.send(i, o.sent[i])).Ok?
  {
  }

  /** The first fatal submission ends the loop with its assessment, and the
      later claimants are never attempted. */
  lemma ClaimBatchFails(env: Derivations, remote: Remote, client: CrankClient, distribution: DistributionInfo,
                        users: seq<(Pubkey, ClaimData)>)
    ensures var o := ClaimBatch(env, remote, client, distribution, users);
            o.result.Err? ==>
              && 0 < |o.sent|
              && o.result.error.Fatal?
              && Assess(remote.send(|o.sent| - 1, o.sent[|o.sent| - 1])) == Err(o.result.error)
              && forall i :: 0 <= i < |o.sent| - 1 ==> Assess(remote.send(i, o.sent[i])).Ok?
  {
  }

  /** `claim`: a failed discovery ends the run before any claimant is
      attempted; otherwise the run is the loop over the claimants, in which
      skips and possible degradations are passed over (their 0/1 is never
      accumulated). Either way, a run that fails, fails fatally. */
  function ClaimRun(env: Derivations, remote: Remote, client: CrankClient): (o: Batch<Failure<ClientError>>)
    ensures o.result.Err? ==> o.result.error.Fatal?
    ensures ClaimDiscovery(remote, client).Err? ==>
              o == Batch(Err(ClaimDiscovery(remote, client).error), [])
    ensures ClaimDiscovery(remote, client).Ok? ==>
              o == ClaimBatch(env, remote, client, ClaimDiscovery(remote, client).value.0,
                              ClaimDiscovery(remote, client).value.1)
  {
    match ClaimDiscovery(remote, client)
    case Err(f) => Batch(Err(f), [])
    case Ok((distribution, users)) =>
      ClaimBatchFails(env, remote, client, distribution, users);
      ClaimBatch(env, remote, client, distribution, users)
  }
}
