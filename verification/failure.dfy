/** The three-way failure taxonomy of the crank and its two entry points:
    the strict `must_succeed` and the tolerant `assess`. */
module Failures {
  import opened Prelude

  /** `anchor_lang::error::Error`: an Anchor error carrying its numeric code,
      or a raw Solana program error. */
  datatype AnchorLangError =
    | AnchorErr(errorCodeNumber: u32)
    | ProgramErr(detail: string)

  /** `anchor_client::ClientError`, the error of every remote read and
      submission. Payloads other than the Anchor error code are opaque. */
  datatype ClientError =
    | AccountNotFound
    | AnchorError(anchor: AnchorLangError)
    | ProgramError(detail: string)
    | SolanaClientError(detail: string)
    | SolanaClientPubsubError(detail: string)
    | LogParseError(detail: string)

  /** `Failure<E>`. */
  datatype Failure<+E> = Fatal(error: E) | PossibleDegradation(error: E) | Skip

  /** Program-level rejections and unparseable responses. */
  predicate IsFatalError(err: ClientError)
  {
    err.AnchorError? || err.ProgramError? || err.LogParseError?
  }

  /** Transport and subscription failures: the transaction may or may not have landed. */
  predicate IsTransportError(err: ClientError)
  {
    err.SolanaClientError? || err.SolanaClientPubsubError?
  }

  /** `impl From<ClientError> for Failure<ClientError>`. */
  function Classify(err: ClientError): (f: Failure<ClientError>)
    ensures f.Skip? <==> err.AccountNotFound?
    ensures f.Fatal? <==> IsFatalError(err)
    ensures f.PossibleDegradation? <==> IsTransportError(err)
    ensures !f.Skip? ==> f.error == err
  {
    match err
    case AccountNotFound => Skip
    case AnchorError(_) => Fatal(err)
    case ProgramError(_) => Fatal(err)
    case SolanaClientError(_) => PossibleDegradation(err)
    case SolanaClientPubsubError(_) => PossibleDegradation(err)
    case LogParseError(_) => Fatal(err)
  }

  /** `Failure::must_succeed`: every error is terminal. */
  function MustSucceed<T, E>(r: Result<T, E>): (o: Result<T, Failure<E>>)
    ensures o.Ok? <==> r.Ok?
    ensures r.Ok? ==> o.value == r.value
    ensures r.Err? ==> o.error.Fatal? && o.error.error == r.error
  {
    match r
    case Ok(v) => Ok(v)
    case Err(e) => Err(Fatal(e))
  }

  /** `Failure::assess`: 1 for a possible degradation, 0 for success or a
      skip, and an error only for a fatal failure. */
  function Assess<T>(r: Result<T, ClientError>): (o: Result<nat, Failure<ClientError>>)
    ensures o.Ok? ==> o.value <= 1
    ensures r.Ok? ==> o == Ok(0)
    ensures o == Ok(1) <==> r.Err? && Classify(r.error).PossibleDegradation?
    ensures o.Err? <==> r.Err? && Classify(r.error).Fatal?
    ensures o.Err? ==> o.error == Fatal(r.error)
  {
    if r.Err? then
      match Classify(r.error)
      case Fatal(e) => Err(Fatal(e))
      case PossibleDegradation(_) => Ok(1)
      case Skip => Ok(0)
    else
      Ok(0)
  }

  /** The error a strict or tolerant entry point carries, if any. */
  function Payload<E>(f: Failure<E>): Option<E>
  {
    match f
    case Fatal(e) => Some(e)
    case PossibleDegradation(e) => Some(e)
    case Skip => None
  }

  /** Classification loses nothing: every error except a missing account
      can be recovered from its classification. */
  lemma ClassifyKeepsError(err: ClientError)
    ensures Payload(Classify(err)) == (if err.AccountNotFound? then None else Some(err))
  {
  }

  /** `must_succeed` is undone by taking the payload back out of `Fatal`,
      so it never turns an error into a Skip or a degradation. */
  lemma MustSucceedRoundTrip<T, E>(r: Result<T, E>)
    ensures match MustSucceed(r)
            case Ok(v) => r == Ok(v)
            case Err(f) => f.Fatal? && Payload(f) == Some(r.error)
  {
  }

  /** The composed decision table of `assess`, per error variant. */
  lemma AssessTable(err: ClientError)
    ensures err.AccountNotFound? ==> Assess<()>(Err(err)) == Ok(0)
    ensures IsTransportError(err) ==> Assess<()>(Err(err)) == Ok(1)
    ensures IsFatalError(err) ==> Assess<()>(Err(err)) == Err(Fatal(err))
  {
  }

  /** The tolerant entry point is strict exactly on fatal errors: whenever
      `assess` fails, `must_succeed` fails with the same failure, and on a
      fatal error the two coincide. */
  lemma AssessAgreesWithMustSucceedOnFatal<T>(r: Result<T, ClientError>)
    ensures Assess(r).Err? ==> MustSucceed(r).Err? && MustSucceed(r).error == Assess(r).error
    ensures r.Err? && IsFatalError(r.error) ==> Assess(r).Err? && Assess(r).error == MustSucceed(r).error
    ensures r.Err? && !IsFatalError(r.error) ==> Assess(r).Ok? && MustSucceed(r).Err?
  {
  }
}
