/** The register workflow: register every voter of the distribution's
    registrar, refreshing its voter-weight record first. Any error ends
    the run. */
module Register {
  import opened Prelude
  import opened Failures
  import opened Accounts
  import opened Chain
  import opened Scan
  import opened Batches

  /** Offset of the registrar key in a `Voter` account: the 8-byte account
      discriminator and the 32-byte voter authority come first. */
  const VoterRegistrarOffset: nat := 8 + 32

  /** The server-side filter selecting the voters of a registrar. */
  function VoterScanFilter(registrar: Pubkey): Memcmp
  {
    Memcmp(VoterRegistrarOffset, registrar)
  }

  /** The voter scan keeps exactly the voters whose bytes 40..72 hold the
      registrar's address. */
  lemma VoterScanSelectsRegistrar(registrar: Pubkey, v: Voter)
    ensures Matches(VoterScanFilter(registrar), v.data) <==>
            |v.data| >= 72 && v.data[40..72] == registrar
  {
  }

  /** How the register workflow ends early: with the client error it
      propagates, or with the panic of `unwrap` on a distribution that has
      no registrar. */
  datatype RegisterError = ClientFailure(error: ClientError) | RegistrarUnwrapPanic

  /** The address part of a scan entry. */
  function KeyOf(entry: (Pubkey, Voter)): Pubkey
  {
    entry.0
  }

  /** `.map(|e| e.map(|e| e.0))` on one entry. */
  function KeyOfResult(r: Result<(Pubkey, Voter), ClientError>): Result<Pubkey, ClientError>
  {
    MapOk(r, KeyOf)
  }

  /** What enumerating the voters yields, stated over the scan's answer:
      its own failure, or the addresses of the loaded entries in scan order
      when nothing but missing accounts failed, or else the first other
      error. */
  ghost predicate EnumeratesVoters(scan: Result<seq<Result<(Pubkey, Voter), ClientError>>, ClientError>,
                                   r: Result<seq<Pubkey>, RegisterError>)
  {
    match scan
    case Err(e) => r == Err(ClientFailure(e))
    case Ok(entries) =>
      match r
      case Ok(keys) =>
        && (forall i :: 0 <= i < |entries| ==> entries[i].Ok? || IsNotFound(entries[i]))
        && keys == Map(OkValues(entries), KeyOf)
      case Err(RegistrarUnwrapPanic) => false
      case Err(ClientFailure(e)) => exists i :: FirstRealError(entries, i) && entries[i].error == e
  }

  /** `accounts_to_register`: the voters of the distribution's registrar,
      as addresses in scan order, vanished accounts dropped. */
  function AccountsToRegister(remote: Remote, distribution: DistributionInfo)
    : (r: Result<seq<Pubkey>, RegisterError>)
    ensures r == Err(RegistrarUnwrapPanic) <==> distribution.account.registrar.None?
    ensures distribution.account.registrar.Some? ==>
              EnumeratesVoters(remote.voterScan(VoterScanFilter(distribution.account.registrar.value)), r)
  {
    match distribution.account.registrar
    case None => Err(RegistrarUnwrapPanic)
    case Some(registrar) =>
      match remote.voterScan(VoterScanFilter(registrar))
      case Err(e) => Err(ClientFailure(e))
      case Ok(entries) =>
        var kept := FilterMap(entries, FilterAccountResult);
        CollectAccountsEnumerates(entries);
        CollectMapOk(kept, KeyOf, KeyOfResult);
        match Collect(Map(kept, KeyOfResult))
        case Ok(keys) => Ok(keys)
        case Err(e) => Err(ClientFailure(e))
  }

  /** Seed of the voter-weight-record address. */
  const VoterWeightRecordSeed := Ascii("voter-weight-record")

  /** Seed of the voter address. */
  const VoterSeed := Ascii("voter")

  /** The voter-weight record of a user under a registrar. */
  function VoterWeightRecordAddress(env: Derivations, registrar: Pubkey, user: Pubkey): Pubkey
  {
    env.findProgramAddress([registrar, VoterWeightRecordSeed, user], env.voterStakeRegistry)
  }

  /** The voter account of a user under a registrar. */
  function VoterAddress(env: Derivations, registrar: Pubkey, user: Pubkey): Pubkey
  {
    env.findProgramAddress([registrar, VoterSeed, user], env.voterStakeRegistry)
  }

  /** `build_register`: first refresh the user's voter-weight record, then
      register the user against the distribution with that same record;
      the payer is added as signer. */
  function BuildRegister(env: Derivations, user: Pubkey, distribution: DistributionInfo,
                         realm: Pubkey, payer: Pubkey): (r: Request)
    requires distribution.account.registrar.Some?
    ensures |r.instructions| == 2
    ensures r.instructions[0].UpdateVoterWeightRecord? && r.instructions[1].Register?
    ensures var registrar := distribution.account.registrar.value;
            var refresh := r.instructions[0];
            var register := r.instructions[1];
            && refresh.program == env.voterStakeRegistry
            && refresh.registrar == registrar
            && refresh.voter == VoterAddress(env, registrar, user)
            && refresh.voterWeightRecord == VoterWeightRecordAddress(env, registrar, user)
            && refresh.systemProgram == SystemProgram
            && register.voterWeightRecord == refresh.voterWeightRecord
            && register.user == user
            && register.distribution == distribution.address
            && register.realm == realm
            && register.payer == payer
    ensures r.signers == [payer]
  {
    var registrar := distribution.account.registrar.value;
    var vwr := VoterWeightRecordAddress(env, registrar, user);
    var refresh := UpdateVoterWeightRecord(env.voterStakeRegistry, registrar,
                                           VoterAddress(env, registrar, user), vwr, SystemProgram);
    var register := Instruction.Register(user, distribution.address, realm, vwr, payer);
    AddSigner(AddInstruction(AddInstruction(EmptyRequest, refresh), register), payer)
  }

  /** The request the register loop sends for one user: the built pair of
      instructions, with the payer added as signer a second time. */
  function RegisterRequest(env: Derivations, distribution: DistributionInfo, payer: Pubkey, user: Pubkey)
    : (r: Request)
    requires distribution.account.registrar.Some?
    ensures |r.instructions| == 2 && r.instructions[1].Register? && r.instructions[1].user == user
    ensures r.signers == [payer, payer] && SignerKeys(r) == {payer}
  {
    var r := AddSigner(BuildRegister(env, user, distribution, distribution.account.realm, payer), payer);
    assert r.signers[0] in SignerKeys(r);
    r
  }

  /** `send()?` in the register loop: every error ends the run, unclassified. */
  function RegisterVerdict(r: SendResult): (v: Option<RegisterError>)
    ensures v.Some? <==> r.Err?
    ensures v.Some? ==> v.value == ClientFailure(r.error)
  {
    match r
    case Ok(_) => None
    case Err(e) => Some(ClientFailure(e))
  }

  /** The first two steps of `register`: read the distribution, then
      enumerate its registrar's voters. */
  function RegisterDiscovery(remote: Remote, client: CrankClient)
    : (d: Result<(DistributionInfo, seq<Pubkey>), RegisterError>)
    ensures var read := remote.distributionAt(client.distribution);
            && (read.Err? ==> d == Err(ClientFailure(read.error)))
            && (read.Ok? ==>
                  var distribution := DistributionInfo(client.distribution, read.value);
                  && (d == Err(RegistrarUnwrapPanic) <==> read.value.registrar.None?)
                  && (d.Ok? ==> d.value.0 == distribution && AccountsToRegister(remote, distribution) == Ok(d.value.1))
                  && (d.Err? ==> AccountsToRegister(remote, distribution) == Err(d.error)))
    ensures d.Ok? ==> d.value.0.account.registrar.Some?
  {
    match remote.distributionAt(client.distribution)
    case Err(e) => Err(ClientFailure(e))
    case Ok(account) =>
      var distribution := DistributionInfo(client.distribution, account);
      match AccountsToRegister(remote, distribution)
      case Err(e) => Err(e)
      case Ok(users) => Ok((distribution, users))
  }

  /** The per-user request builder of the register loop. */
  function RegisterBuilder(env: Derivations, distribution: DistributionInfo, payer: Pubkey): Pubkey -> Request
    requires distribution.account.registrar.Some?
  {
    (user: Pubkey) => RegisterRequest(env, distribution, payer, user)
  }

  /** The loop of `register` over the enumerated users. */
  function RegisterBatch(env: Derivations, remote: Remote, client: CrankClient,
                         distribution: DistributionInfo, users: seq<Pubkey>): (o: Batch<RegisterError>)
    requires distribution.account.registrar.Some?
    ensures IsBatchFrom(users, 0, RegisterBuilder(env, distribution, client.payer), remote.send, RegisterVerdict, o)
  {
    RunBatch(users, RegisterBuilder(env, distribution, client.payer), remote.send, RegisterVerdict)
  }

  /** Each user is sent its own request, in scan order. */
  lemma RegisterBatchSends(env: Derivations, remote: Remote, client: CrankClient,
                           distribution: DistributionInfo, users: seq<Pubkey>)
    requires distribution.account.registrar.Some?
    ensures var o := RegisterBatch(env, remote, client, distribution, users);
            && |o.sent| <= |users|
            && forall i :: 0 <= i < |o.sent| ==> o.sent[i] == RegisterRequest(env, distribution, client.payer, users[i])
  {
  }

  /** The loop succeeds iff every user was sent its request and every
      submission succeeded. */
  lemma RegisterBatchSucceeds(env: Derivations, remote: Remote, client: CrankClient,
                              distribution: DistributionInfo, users: seq<Pubkey>)
    requires distribution.account.registrar.Some?
    ensures var o := RegisterBatch(env, remote, client, distribution, users);
            o.result.Ok? <==> |o.sent| == |users| && forall i :: 0 <= i < |o.sent| ==> remote.send(i, o.sent[i]).Ok?
  {
  }

  /** The first submission error ends the loop, carried unchanged, with the
      later users never attempted. */
  lemma RegisterBatchFails(env: Derivations, remote: Remote, client: CrankClient,
                           distribution: DistributionInfo, users: seq<Pubkey>)
    requires distribution.account.registrar.Some?
    ensures var o := RegisterBatch(env, remote, client, distribution, users);
            o.result.Err? ==>
              && 0 < |o.sent|
              && o.result.error.ClientFailure?
              && remote.send(|o.sent| - 1, o.sent[|o.sent| - 1]) == Err(o.result.error.error)
              && forall i :: 0 <= i < |o.sent| - 1 ==> remote.send(i, o.sent[i]).Ok?
  {
  }

  /** `register`: a failed distribution read, a missing registrar or a
      failed enumeration ends the run before any user is attempted;
      otherwise the run is the loop over the enumerated users. */
  function RegisterRun(env: Derivations, remote: Remote, client: CrankClient): (o: Batch<RegisterError>)
    ensures RegisterDiscovery(remote, client).Err? ==>
              o == Batch(Err(RegisterDiscovery(remote, client).error), [])
    ensures RegisterDiscovery(remote, client).Ok? ==>
              o == RegisterBatch(env, remote, client, RegisterDiscovery(remote, client).value.0,
                                 RegisterDiscovery(remote, client).value.1)
    ensures o.result.Ok? ==>
              && RegisterDiscovery(remote, client).Ok?
              && |o.sent| == |RegisterDiscovery(remote, client).value.1|
              && forall i :: 0 <= i < |o.sent| ==> remote.send(i, o.sent[i]).Ok?
  {
    match RegisterDiscovery(remote, client)
    case Err(e) => Batch(Err(e), [])
    case Ok((distribution, users)) =>
      RegisterBatchSucceeds(env, remote, client, distribution, users);
      RegisterBatch(env, remote, client, distribution, users)
  }
}
