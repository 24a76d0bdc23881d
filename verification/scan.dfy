/** Turning the entries of a lazy account scan into a work list: entries
    that vanished between listing and loading are dropped, and the first
    other error fails the whole enumeration. */
module Scan {
  import opened Prelude
  import opened Failures

  /** An entry that failed only because its account no longer exists. */
  predicate IsNotFound<T>(r: Result<T, ClientError>)
  {
    r.Err? && r.error.AccountNotFound?
  }

  /** `filter_account_result`. */
  function FilterAccountResult<T>(r: Result<T, ClientError>): (o: Option<Result<T, ClientError>>)
    ensures o.None? <==> IsNotFound(r)
    ensures o.Some? ==> o.value == r
  {
    match r
    case Err(AccountNotFound) => None
    case _ => Some(r)
  }

  /** The filter never lets a missing-account error through, and it keeps
      whatever it let through once when applied again. */
  lemma FilterAccountResultIdempotent<T>(r: Result<T, ClientError>)
    ensures FilterAccountResult(r).Some? ==> !IsNotFound(FilterAccountResult(r).value)
    ensures FilterAccountResult(r).Some? ==>
              FilterAccountResult(FilterAccountResult(r).value) == FilterAccountResult(r)
  {
  }

  /** `Iterator::filter_map`. */
  function FilterMap<A, B>(xs: seq<A>, f: A -> Option<B>): (ys: seq<B>)
    ensures |ys| <= |xs|
  {
    if |xs| == 0 then []
    else (match f(xs[0]) case Some(y) => [y] case None => []) + FilterMap(xs[1..], f)
  }

  /** `Iterator::map`. */
  function Map<A, B>(xs: seq<A>, f: A -> B): (ys: seq<B>)
    ensures |ys| == |xs|
    ensures forall i :: 0 <= i < |xs| ==> ys[i] == f(xs[i])
  {
    seq(|xs|, i requires 0 <= i < |xs| => f(xs[i]))
  }

  /** `Result::map`. */
  function MapOk<T, U, E>(r: Result<T, E>, f: T -> U): Result<U, E>
  {
    match r
    case Ok(v) => Ok(f(v))
    case Err(e) => Err(e)
  }

  /** `collect::<Result<Vec<T>, E>>()`: all the values when every entry is
      `Ok`, otherwise the first error, without looking further. */
  function Collect<T, E(==)>(rs: seq<Result<T, E>>): (r: Result<seq<T>, E>)
    ensures r.Ok? <==> forall i :: 0 <= i < |rs| ==> rs[i].Ok?
    ensures r.Ok? ==> |r.value| == |rs| && forall i :: 0 <= i < |rs| ==> r.value[i] == rs[i].value
    ensures r.Err? ==> exists i :: 0 <= i < |rs| && rs[i].Err? && rs[i].error == r.error &&
                                   forall j :: 0 <= j < i ==> rs[j].Ok?
  {
    if |rs| == 0 then Ok([])
    else
      match rs[0]
      case Err(e) => Err(e)
      case Ok(v) =>
        var rest := Collect(rs[1..]);
        if rest.Err? then
          assert exists i :: 0 <= i < |rs| && rs[i].Err? && rs[i].error == rest.error &&
                             forall j :: 0 <= j < i ==> rs[j].Ok? by {
            var k :| 0 <= k < |rs[1..]| && rs[1..][k].Err? && rs[1..][k].error == rest.error &&
                     forall j :: 0 <= j < k ==> rs[1..][j].Ok?;
            assert rs[k + 1] == rs[1..][k];
            assert forall j :: 0 < j < k + 1 ==> rs[j] == rs[1..][j - 1];
          }
          Err(rest.error)
        else
          Ok([v] + rest.value)
  }

  /** `.filter_map(filter_account_result).collect()`, the enumeration step
      shared by the claim scan. */
  function CollectAccounts<T>(rs: seq<Result<T, ClientError>>): Result<seq<T>, ClientError>
  {
    Collect(FilterMap(rs, FilterAccountResult))
  }

  /** The loaded values, in scan order. */
  function OkValues<T, E>(rs: seq<Result<T, E>>): seq<T>
  {
    if |rs| == 0 then []
    else (if rs[0].Ok? then [rs[0].value] else []) + OkValues(rs[1..])
  }

  /** Entry `i` is the first one that failed for a reason other than a
      missing account. */
  predicate FirstRealError<T>(rs: seq<Result<T, ClientError>>, i: int)
  {
    && 0 <= i < |rs|
    && rs[i].Err? && !rs[i].error.AccountNotFound?
    && forall j :: 0 <= j < i ==> rs[j].Ok? || IsNotFound(rs[j])
  }

  /** What an enumeration yields, stated over the raw scan entries. */
  ghost predicate Enumerates<T>(rs: seq<Result<T, ClientError>>, r: Result<seq<T>, ClientError>)
  {
    match r
    case Ok(vs) => (forall i :: 0 <= i < |rs| ==> rs[i].Ok? || IsNotFound(rs[i])) && vs == OkValues(rs)
    case Err(e) => exists i :: FirstRealError(rs, i) && rs[i].error == e
  }

  /** One step of `CollectAccounts`: a missing account is dropped, another
      error ends the collection, and a loaded entry is prepended. */
  lemma CollectAccountsStep<T>(rs: seq<Result<T, ClientError>>)
    requires 0 < |rs|
    ensures IsNotFound(rs[0]) ==> CollectAccounts(rs) == CollectAccounts(rs[1..])
    ensures rs[0].Err? && !IsNotFound(rs[0]) ==> CollectAccounts(rs) == Err(rs[0].error)
    ensures rs[0].Ok? ==>
              CollectAccounts(rs) == match CollectAccounts(rs[1..])
                                     case Ok(vs) => Ok([rs[0].value] + vs)
                                     case Err(e) => Err(e)
  {
    var fm := FilterMap(rs, FilterAccountResult);
    assert fm == (match FilterAccountResult(rs[0]) case Some(y) => [y] case None => []) +
                 FilterMap(rs[1..], FilterAccountResult);
    if IsNotFound(rs[0]) {
      assert fm == FilterMap(rs[1..], FilterAccountResult);
    } else {
      assert fm[0] == rs[0] && fm[1..] == FilterMap(rs[1..], FilterAccountResult);
    }
  }

  /** A missing first entry changes nothing about what is enumerated. */
  lemma EnumeratesSkipsMissing<T>(rs: seq<Result<T, ClientError>>, r: Result<seq<T>, ClientError>)
    requires 0 < |rs| && IsNotFound(rs[0]) && Enumerates(rs[1..], r)
    ensures Enumerates(rs, r)
  {
  }

  /** A loaded first entry is prepended to what is enumerated, or leaves a
      later error in place. */
  lemma EnumeratesKeepsLoaded<T>(rs: seq<Result<T, ClientError>>, r: Result<seq<T>, ClientError>)
    requires 0 < |rs| && rs[0].Ok? && Enumerates(rs[1..], r)
    ensures Enumerates(rs, match r case Ok(vs) => Ok([rs[0].value] + vs) case Err(e) => Err(e))
  {
  }

  /** Dropping missing accounts and collecting yields the loaded values in
      scan order when nothing else failed, and otherwise the first error
      that is not a missing account. */
  lemma {:induction false} CollectAccountsEnumerates<T>(rs: seq<Result<T, ClientError>>)
    ensures Enumerates(rs, CollectAccounts(rs))
  {
    if |rs| == 0 {
    } else {
      CollectAccountsEnumerates(rs[1..]);
      CollectAccountsStep(rs);
      if IsNotFound(rs[0]) {
        EnumeratesSkipsMissing(rs, CollectAccounts(rs[1..]));
      } else if rs[0].Err? {
        assert FirstRealError(rs, 0);
      } else {
        EnumeratesKeepsLoaded(rs, CollectAccounts(rs[1..]));
      }
    }
  }

  /** `collect` commutes with mapping the success values: projecting each
      entry with `g` and then collecting is collecting and then projecting
      the list with `f`. */
  lemma CollectMapOk<T, U, E>(rs: seq<Result<T, E>>, f: T -> U, g: Result<T, E> -> Result<U, E>)
    requires forall r :: g(r) == MapOk(r, f)
    ensures Collect(Map(rs, g)).Ok? <==> Collect(rs).Ok?
    ensures Collect(rs).Ok? ==> Collect(Map(rs, g)).value == Map(Collect(rs).value, f)
    ensures Collect(rs).Err? ==> Collect(Map(rs, g)).error == Collect(rs).error
  {
  }
}
