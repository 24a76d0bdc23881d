/** The reclaim workflow: sweep what is left in every populated option's
    custodial wallet back to the admin. An option that was already swept
    is passed over; any other error is fatal. */
module Reclaim {
  import opened Prelude
  import opened Failures
  import opened Accounts
  import opened Chain
  import opened Batches

  /** `build_reclaim`: one instruction moving the option's wallet to the
      admin's associated token account for the option's mint, with the
      admin as the only signer the builder adds. */
  function BuildReclaim(env: Derivations, admin: Pubkey, option: DistributionOption,
                        distribution: DistributionInfo): (r: Request)
    ensures |r.instructions| == 1 && r.instructions[0].ReclaimFunds?
    ensures var ix := r.instructions[0];
            && ix.distribution == distribution.address
            && ix.admin == admin
            && ix.wallet == option.wallet
            && ix.to == env.associatedTokenAddress(admin, option.mint)
    ensures r.signers == [admin] && SignerKeys(r) == {admin}
  {
    var to := env.associatedTokenAddress(admin, option.mint);
    var r := AddSigner(AddInstruction(EmptyRequest,
                                      ReclaimFunds(distribution.address, admin, option.wallet, to)), admin);
    assert r.signers[0] in SignerKeys(r);
    r
  }

  /** `anchor_lang::error::ERROR_CODE_OFFSET`: custom program errors are
      numbered from here. */
  const ErrorCodeOffset: u32 := 6000

  /** `is_already_claimed_err`, where `alreadyReclaimed` is the value the
      offset-relative code is compared with. The subtraction is guarded,
      so it never leaves `u32`: the test holds exactly for an Anchor error
      whose code is the offset plus that value. */
  function IsAlreadyClaimedErr(err: AnchorLangError, alreadyReclaimed: u32): (b: bool)
    ensures b <==> err.AnchorErr? &&
                   err.errorCodeNumber as int == ErrorCodeOffset as int + alreadyReclaimed as int
  {
    match err
    case AnchorErr(code) =>
      if code >= ErrorCodeOffset then code - ErrorCodeOffset == alreadyReclaimed else false
    case ProgramErr(_) => false
  }

  /** A client error that the reclaim loop treats as "already reclaimed". */
  predicate IsAlreadyReclaimed(err: ClientError, alreadyReclaimed: u32)
  {
    err.AnchorError? && IsAlreadyClaimedErr(err.anchor, alreadyReclaimed)
  }

  /** The error handling of the reclaim loop: an "already reclaimed"
      rejection is passed over, and every other error, transport errors
      included, is fatal and carried unchanged. */
  function ReclaimVerdict(alreadyReclaimed: u32, r: SendResult): (v: Option<Failure<ClientError>>)
    ensures v.Some? <==> r.Err? && !IsAlreadyReclaimed(r.error, alreadyReclaimed)
    ensures v.Some? ==> v.value == Fatal(r.error)
  {
    match r
    case Ok(_) => None
    case Err(AnchorError(anchor)) =>
      if IsAlreadyClaimedErr(anchor, alreadyReclaimed) then None else Some(Fatal(r.error))
    case Err(e) => Some(Fatal(e))
  }

  /** The options the reclaim loop visits: the populated slots, in order. */
  function ReclaimOptions(distribution: DistributionInfo): seq<DistributionOption>
  {
    Flatten(distribution.account.distributionOptions)
  }

  /** A submission outcome the reclaim loop moves past. */
  predicate PassesReclaim(alreadyReclaimed: u32, r: SendResult)
  {
    r.Ok? || IsAlreadyReclaimed(r.error, alreadyReclaimed)
  }

  /** The per-option request builder of the reclaim loop. */
  function ReclaimBuilder(env: Derivations, distribution: DistributionInfo, admin: Pubkey)
    : DistributionOption -> Request
  {
    option => BuildReclaim(env, admin, option, distribution)
  }

  /** The verdict of the reclaim loop for a given "already reclaimed" code. */
  function ReclaimVerdictFor(alreadyReclaimed: u32): SendResult -> Option<Failure<ClientError>>
  {
    r => ReclaimVerdict(alreadyReclaimed, r)
  }

  /** The loop of `reclaim` over the given options. */
  function ReclaimBatch(env: Derivations, remote: Remote, client: CrankClient, distribution: DistributionInfo,
                        options: seq<DistributionOption>, alreadyReclaimed: u32): (o: Batch<Failure<ClientError>>)
    ensures IsBatchFrom(options, 0, ReclaimBuilder(env, distribution, client.admin), remote.send,
                        ReclaimVerdictFor(alreadyReclaimed), o)
  {
    RunBatch(options, ReclaimBuilder(env, distribution, client.admin), remote.send, ReclaimVerdictFor(alreadyReclaimed))
  }

  /** Each populated option is sent its own reclaim request, in slot order. */
  lemma ReclaimBatchSends(env: Derivations, remote: Remote, client: CrankClient, distribution: DistributionInfo,
                          options: seq<DistributionOption>, alreadyReclaimed: u32)
    ensures var o := ReclaimBatch(env, remote, client, distribution, options, alreadyReclaimed);
            && |o.sent| <= |options|
            && forall i :: 0 <= i < |o.sent| ==> o.sent[i] == BuildReclaim(env, client.admin, options[i], distribution)
  {
  }

  /** The loop succeeds iff every option was attempted and each attempt
      succeeded or was already reclaimed. */
  lemma ReclaimBatchSucceeds(env: Derivations, remote: Remote, client: CrankClient, distribution: DistributionInfo,
                             options: seq<DistributionOption>, alreadyReclaimed: u32)
    ensures var o := ReclaimBatch(env, remote, client, distribution, options, alreadyReclaimed);
            o.result.Ok? <==>
              && |o.sent| == |options|
              && forall i :: 0 <= i < |o.sent| ==> PassesReclaim(alreadyReclaimed, remote.send(i, o.sent[i]))
  {
  }

  /** The first error that is not "already reclaimed" ends the loop as a
      fatal failure carrying that error, with the remaining options never
      attempted. */
  lemma ReclaimBatchFails(env: Derivations, remote: Remote, client: CrankClient, distribution: DistributionInfo,
                          options: seq<DistributionOption>, alreadyReclaimed: u32)
    ensures var o := ReclaimBatch(env, remote, client, distribution, options, alreadyReclaimed);
            o.result.Err? ==>
              && 0 < |o.sent|
              && !PassesReclaim(alreadyReclaimed, remote.send(|o.sent| - 1, o.sent[|o.sent| - 1]))
              && o.result.error == Fatal(remote.send(|o.sent| - 1, o.sent[|o.sent| - 1]).error)
              && forall i :: 0 <= i < |o.sent| - 1 ==> PassesReclaim(alreadyReclaimed, remote.send(i, o.sent[i]))
  {
  }

  /** `reclaim`: a failed distribution read is fatal before any option is
      attempted; otherwise the run is the loop over the populated options,
      and any failure it ends with is fatal. */
  function ReclaimRun(env: Derivations, remote: Remote, client: CrankClient, alreadyReclaimed: u32)
    : (o: Batch<Failure<ClientError>>)
    ensures o.result.Err? ==> o.result.error.Fatal?
    ensures remote.distributionAt(client.distribution).Err? ==>
              o == Batch(Err(Fatal(remote.distributionAt(client.distribution).error)), [])
    ensures remote.distributionAt(client.distribution).Ok? ==>
              var distribution := DistributionInfo(client.distribution, remote.distributionAt(client.distribution).value);
              o == ReclaimBatch(env, remote, client, distribution, ReclaimOptions(distribution), alreadyReclaimed)
  {
    match MustSucceed(remote.distributionAt(client.distribution))
    case Err(f) => Batch(Err(f), [])
    case Ok(account) =>
      var distribution := DistributionInfo(client.distribution, account);
      ReclaimBatch(env, remote, client, distribution, ReclaimOptions(distribution), alreadyReclaimed)
  }

  /** The reclaim run only ever visits populated option slots, in slot
      order, and a successful run has visited each of them once. */
  lemma ReclaimVisitsPopulatedOptions(env: Derivations, remote: Remote, client: CrankClient, alreadyReclaimed: u32)
    requires remote.distributionAt(client.distribution).Ok?
    ensures var account := remote.distributionAt(client.distribution).value;
            var distribution := DistributionInfo(client.distribution, account);
            var o := ReclaimRun(env, remote, client, alreadyReclaimed);
            && |o.sent| <= CountSome(account.distributionOptions)
            && (o.result.Ok? ==> |o.sent| == CountSome(account.distributionOptions))
            && forall i :: 0 <= i < |o.sent| ==>
                 && i < |ReclaimOptions(distribution)|
                 && Some(ReclaimOptions(distribution)[i]) in account.distributionOptions
                 && o.sent[i] == BuildReclaim(env, client.admin, ReclaimOptions(distribution)[i], distribution)
  {
    var account := remote.distributionAt(client.distribution).value;
    var distribution := DistributionInfo(client.distribution, account);
    var options := ReclaimOptions(distribution);
    ReclaimBatchSends(env, remote, client, distribution, options, alreadyReclaimed);
    ReclaimBatchSucceeds(env, remote, client, distribution, options, alreadyReclaimed);
    FlattenKeepsPopulated(account.distributionOptions);
    forall i | 0 <= i < |options|
      ensures Some(options[i]) in account.distributionOptions
    {
      assert options[i] in options;
    }
  }

  /** Anchor's numbering of a program's error enum: variant number
      `variant` is raised with code ERROR_CODE_OFFSET + variant, and the
      `u32::from` conversion Anchor derives for the enum yields that same
      code. */
  function AnchorErrorCode(variant: u32): u32
    requires variant as int + ErrorCodeOffset as int < 0x1_0000_0000
  {
    variant + ErrorCodeOffset
  }

  /** As written, the test compares the offset-relative code with
      `u32::from(AlreadyReclaimed)`, which already includes the offset: it
      rejects the code the program actually raises, and accepts only a
      code twice offset. */
  lemma AsWrittenCheckMissesAlreadyReclaimed(variant: u32, err: AnchorLangError)
    requires variant as int + 2 * ErrorCodeOffset as int < 0x1_0000_0000
    ensures !IsAlreadyClaimedErr(AnchorErr(AnchorErrorCode(variant)), AnchorErrorCode(variant))
    ensures IsAlreadyClaimedErr(err, AnchorErrorCode(variant)) <==>
            err == AnchorErr(AnchorErrorCode(AnchorErrorCode(variant)))
  {
  }

  /** As written, a reclaim that meets an option already swept ends the
      whole run right there with a fatal failure, instead of moving on to
      the next option. */
  lemma AsWrittenReclaimAbortsOnAlreadyReclaimed(env: Derivations, remote: Remote, client: CrankClient,
                                                 variant: u32, k: nat)
    requires variant as int + ErrorCodeOffset as int < 0x1_0000_0000
    requires remote.distributionAt(client.distribution).Ok?
    requires var distribution := DistributionInfo(client.distribution, remote.distributionAt(client.distribution).value);
             var options := ReclaimOptions(distribution);
             && k < |options|
             && (forall i :: 0 <= i < k ==>
                   remote.send(i, BuildReclaim(env, client.admin, options[i], distribution)).Ok?)
             && remote.send(k, BuildReclaim(env, client.admin, options[k], distribution))
                == Err(AnchorError(AnchorErr(AnchorErrorCode(variant))))
    ensures ReclaimRun(env, remote, client, AnchorErrorCode(variant)).result ==
            Err(Fatal(AnchorError(AnchorErr(AnchorErrorCode(variant)))))
    ensures |ReclaimRun(env, remote, client, AnchorErrorCode(variant)).sent| == k + 1
  {
    var distribution := DistributionInfo(client.distribution, remote.distributionAt(client.distribution).value);
    var options := ReclaimOptions(distribution);
    var code := AnchorErrorCode(variant);
    var o := ReclaimRun(env, remote, client, code);
    ReclaimBatchSends(env, remote, client, distribution, options, code);
    ReclaimBatchSucceeds(env, remote, client, distribution, options, code);
    ReclaimBatchFails(env, remote, client, distribution, options, code);
    if o.result.Ok? {
      assert false;
    }
    var last := |o.sent| - 1;
    if last < k {
      assert false;
    }
    if last > k {
      assert false;
    }
  }

  /** Compared with the variant number itself, the test recognises
      exactly the error the program raises for that variant. */
  lemma CorrectedCheckRecognisesAlreadyReclaimed(variant: u32, err: AnchorLangError)
    requires variant as int + ErrorCodeOffset as int < 0x1_0000_0000
    ensures IsAlreadyClaimedErr(err, variant) <==> err == AnchorErr(AnchorErrorCode(variant))
  {
  }

  /** With the corrected comparison, a reclaim in which every option either
      succeeds or was already swept visits every populated option and
      succeeds. */
  lemma CorrectedReclaimPassesAlreadyReclaimed(env: Derivations, remote: Remote, client: CrankClient,
                                               variant: u32)
    requires variant as int + ErrorCodeOffset as int < 0x1_0000_0000
    requires remote.distributionAt(client.distribution).Ok?
    requires var distribution := DistributionInfo(client.distribution, remote.distributionAt(client.distribution).value);
             forall i :: 0 <= i < |ReclaimOptions(distribution)| ==>
               var r := remote.send(i, BuildReclaim(env, client.admin, ReclaimOptions(distribution)[i], distribution));
               r.Ok? || r.error == AnchorError(AnchorErr(AnchorErrorCode(variant)))
    ensures ReclaimRun(env, remote, client, variant).result == Ok(())
    ensures |ReclaimRun(env, remote, client, variant).sent| ==
            |ReclaimOptions(DistributionInfo(client.distribution, remote.distributionAt(client.distribution).value))|
  {
    var distribution := DistributionInfo(client.distribution, remote.distributionAt(client.distribution).value);
    var options := ReclaimOptions(distribution);
    var o := ReclaimRun(env, remote, client, variant);
    ReclaimBatchSends(env, remote, client, distribution, options, variant);
    ReclaimBatchSucceeds(env, remote, client, distribution, options, variant);
    ReclaimBatchFails(env, remote, client, distribution, options, variant);
    forall i | 0 <= i < |o.sent|
      ensures PassesReclaim(variant, remote.send(i, o.sent[i]))
    {
      CorrectedCheckRecognisesAlreadyReclaimed(variant, AnchorErr(AnchorErrorCode(variant)));
    }
    if o.result.Err? {
      assert false;
    }
    var u: () := o.result.value;
    assert u == ();
  }
}
