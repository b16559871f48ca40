/** The affiliate workflow on the list of requests, as values: the linear scan
    for a request, the decision an enrolment or an approval reaches, and what
    that decision does to the list. `Store.Contract` runs these steps on its
    own `affiliateRequests` field.

    A scan that finds nothing yields the index NOT_FOUND rather than "none",
    and the list is then read at that index. While the list has at most
    NOT_FOUND entries that read finds nothing; past that length it finds the
    record stored at NOT_FOUND, whatever it is. Both are modelled. */
module Affiliates {
  import opened Types

  /** `r` is a request of `account` for `series`; with `pendingOnly`, one not yet approved. */
  predicate Matches(r: Request, account: Account, series: SeriesId, pendingOnly: bool)
  {
    r.accountId == account && r.seriesId == series && (!pendingOnly || !r.approved)
  }

  predicate HasRequest(requests: seq<Request>, account: Account, series: SeriesId, pendingOnly: bool)
  {
    exists k :: 0 <= k < |requests| && Matches(requests[k], account, series, pendingOnly)
  }

  /** No two requests are for the same account and series. */
  predicate UniquePairs(requests: seq<Request>)
  {
    forall i, j :: 0 <= i < j < |requests| ==>
      !(requests[i].accountId == requests[j].accountId && requests[i].seriesId == requests[j].seriesId)
  }

  /** The index of the first matching request, if any. */
  function Position(requests: seq<Request>, account: Account, series: SeriesId, pendingOnly: bool): (r: Option<nat>)
    ensures r.Some? ==> r.value < |requests| && Matches(requests[r.value], account, series, pendingOnly)
    ensures r.Some? ==> forall j :: 0 <= j < r.value ==> !Matches(requests[j], account, series, pendingOnly)
    ensures r.None? <==> !HasRequest(requests, account, series, pendingOnly)
    decreases |requests|
  {
    if requests == [] then None
    else if Matches(requests[0], account, series, pendingOnly) then Some(0)
    else
      match Position(requests[1..], account, series, pendingOnly)
      case None => None
      case Some(i) => Some(i + 1)
  }

  /** `position(..).unwrap_or_else(|| 11111111)`. */
  function OrSentinel(p: Option<nat>): nat
  {
    match p
    case Some(i) => i
    case None => NOT_FOUND
  }

  /** `Vector::get`: the record at `index`, if the list is that long. */
  function Get(requests: seq<Request>, index: nat): Option<Request>
  {
    if index < |requests| then Some(requests[index]) else None
  }

  /** The scan, as the contract runs it: first matching index, or NOT_FOUND. */
  method FindPosition(requests: seq<Request>, account: Account, series: SeriesId, pendingOnly: bool)
    returns (index: nat)
    ensures index == OrSentinel(Position(requests, account, series, pendingOnly))
  {
    var i := 0;
    while i < |requests|
      invariant 0 <= i <= |requests|
      invariant forall j :: 0 <= j < i ==> !Matches(requests[j], account, series, pendingOnly)
    {
      if Matches(requests[i], account, series, pendingOnly) {
        return i;
      }
      i := i + 1;
    }
    return NOT_FOUND;
  }

  /** The record an enrolment appends. */
  function NewRequest(account: Account, series: SeriesId): Request
  {
    Request(account, series, false)
  }

  /** Whether `affiliate_request(series, account)` with `deposit` attached is accepted. */
  function RequestDecision(requests: seq<Request>, seriesById: map<SeriesId, Series>, deposit: Balance,
                           series: SeriesId, account: Account): (r: Result<()>)
    // any earlier request for the pair, approved or not, is a duplicate
    ensures HasRequest(requests, account, series, false) ==>
              r.Err? && r.error.AlreadyApplied? && Matches(r.error.existing, account, series, false)
    // the checks after the duplicate scan, in order
    ensures |requests| <= NOT_FOUND && !HasRequest(requests, account, series, false) ==>
              (series !in seriesById ==> r == Err(NotASeries)) &&
              (series in seriesById && seriesById[series].affiliate.None? ==> r == Err(AffiliatesNotAccepted)) &&
              (series in seriesById && seriesById[series].affiliate.Some? && deposit <= ONE_YOCTO ==>
                 r == Err(RequestDepositTooSmall))
    ensures r.Ok? <==>
              |requests| <= NOT_FOUND && !HasRequest(requests, account, series, false) &&
              series in seriesById && seriesById[series].affiliate.Some? && deposit > ONE_YOCTO
  {
    match Get(requests, OrSentinel(Position(requests, account, series, false)))
    case Some(a) => Err(AlreadyApplied(a))
    case None =>
      if series !in seriesById then Err(NotASeries)
      else if seriesById[series].affiliate.None? then Err(AffiliatesNotAccepted)
      else if deposit <= ONE_YOCTO then Err(RequestDepositTooSmall)
      else Ok(())
  }

  /** The index `approve_affiliate(series, account, _)` called by `predecessor`
      with `deposit` attached would mark approved. The method is not `#[payable]`,
      so any deposit is refused before its body runs. */
  function ApprovalDecision(requests: seq<Request>, seriesById: map<SeriesId, Series>, owner: Account,
                            predecessor: Account, deposit: Balance, series: SeriesId, account: Account): (r: Result<nat>)
    ensures deposit != 0 ==> r == Err(DepositNotAccepted)
    ensures deposit == 0 && predecessor != owner ==> r == Err(OnlyContractOwner)
    ensures r.Ok? ==>
              deposit == 0 && predecessor == owner && r.value < |requests| && series in seriesById &&
              (seriesById[series].affiliate.Some? ==> account in seriesById[series].affiliate.value)
    // the checks after the owner guard, in order
    ensures deposit == 0 && predecessor == owner && |requests| <= NOT_FOUND &&
            !HasRequest(requests, account, series, true) ==>
              r == Err(RequestNotFound)
    ensures deposit == 0 && predecessor == owner && HasRequest(requests, account, series, true) ==>
              (series !in seriesById ==> r == Err(NotASeries)) &&
              ((series in seriesById && seriesById[series].affiliate.Some? &&
                account !in seriesById[series].affiliate.value) ==> r == Err(AffiliateNotInSeries))
    // within the sentinel bound, or whenever a pending request exists, the approved
    // index is the first pending request of the pair
    ensures r.Ok? && (|requests| <= NOT_FOUND || HasRequest(requests, account, series, true)) ==>
              && Matches(requests[r.value], account, series, true)
              && forall j :: 0 <= j < r.value ==> !Matches(requests[j], account, series, true)
    ensures (|requests| <= NOT_FOUND || HasRequest(requests, account, series, true)) ==>
              (r.Ok? <==>
                 deposit == 0 && predecessor == owner && HasRequest(requests, account, series, true) &&
                 series in seriesById &&
                 (seriesById[series].affiliate.None? || account in seriesById[series].affiliate.value))
  {
    if deposit != 0 then Err(DepositNotAccepted)
    else if predecessor != owner then Err(OnlyContractOwner)
    else
      var index := OrSentinel(Position(requests, account, series, true));
      match Get(requests, index)
      case None => Err(RequestNotFound)
      case Some(_) =>
        if series !in seriesById then Err(NotASeries)
        else if seriesById[series].affiliate.Some? && account !in seriesById[series].affiliate.value then
          Err(AffiliateNotInSeries)
        else Ok(index)
  }

  /** The list after the record at `index` is replaced by its approved copy. */
  function ApplyApproval(requests: seq<Request>, index: nat): (r: seq<Request>)
    requires index < |requests|
    ensures |r| == |requests|
    ensures r[index].approved
    ensures r[index].accountId == requests[index].accountId && r[index].seriesId == requests[index].seriesId
    ensures forall j :: 0 <= j < |requests| && j != index ==> r[j] == requests[j]
  {
    requests[index := Request(requests[index].accountId, requests[index].seriesId, true)]
  }

  /** An accepted enrolment keeps every (account, series) pair unique. */
  lemma RequestKeepsPairsUnique(requests: seq<Request>, seriesById: map<SeriesId, Series>, deposit: Balance,
                                series: SeriesId, account: Account)
    requires UniquePairs(requests)
    requires RequestDecision(requests, seriesById, deposit, series, account).Ok?
    ensures UniquePairs(requests + [NewRequest(account, series)])
    ensures |requests + [NewRequest(account, series)]| <= NOT_FOUND + 1
  {
  }

  /** An approval never changes which pairs the list holds, so uniqueness survives it. */
  lemma ApprovalKeepsPairsUnique(requests: seq<Request>, index: nat)
    requires UniquePairs(requests) && index < |requests|
    ensures UniquePairs(ApplyApproval(requests, index))
  {
  }

  /** Right after an accepted enrolment, the same enrolment is refused as a duplicate of the new record. */
  lemma {:induction false} RequestTwiceFails(requests: seq<Request>, seriesById: map<SeriesId, Series>,
                                             deposit: Balance, deposit': Balance, series: SeriesId, account: Account)
    requires RequestDecision(requests, seriesById, deposit, series, account).Ok?
    ensures RequestDecision(requests + [NewRequest(account, series)], seriesById, deposit', series, account)
            == Err(AlreadyApplied(NewRequest(account, series)))
  {
    var s := requests + [NewRequest(account, series)];
    assert Matches(s[|requests|], account, series, false);
    assert Position(s, account, series, false) == Some(|requests|);
  }

  /** After an enrolment, the owner can approve it, at the index it was appended at,
      as long as the series' affiliate map lists the account. */
  lemma {:induction false} RequestThenApprove(requests: seq<Request>, seriesById: map<SeriesId, Series>,
                                              deposit: Balance, owner: Account, series: SeriesId, account: Account)
    requires RequestDecision(requests, seriesById, deposit, series, account).Ok?
    requires account in seriesById[series].affiliate.value
    ensures ApprovalDecision(requests + [NewRequest(account, series)], seriesById, owner, owner, 0, series, account)
            == Ok(|requests|)
  {
    var s := requests + [NewRequest(account, series)];
    assert Matches(s[|requests|], account, series, true);
  }

  /** With unique pairs, a request once approved cannot be approved again. */
  lemma {:induction false} ApprovalOnlyOnce(requests: seq<Request>, seriesById: map<SeriesId, Series>, owner: Account,
                                            series: SeriesId, account: Account)
    requires UniquePairs(requests) && |requests| <= NOT_FOUND
    requires ApprovalDecision(requests, seriesById, owner, owner, 0, series, account).Ok?
    ensures var index := ApprovalDecision(requests, seriesById, owner, owner, 0, series, account).value;
            ApprovalDecision(ApplyApproval(requests, index), seriesById, owner, owner, 0, series, account)
            == Err(RequestNotFound)
  {
  }

  /** Once the list holds more than NOT_FOUND records every enrolment is refused as
      "already applied", including one for a pair that has no record at all. */
  lemma RequestRefusedPastSentinel(requests: seq<Request>, seriesById: map<SeriesId, Series>, deposit: Balance,
                                   series: SeriesId, account: Account)
    requires |requests| > NOT_FOUND
    ensures !HasRequest(requests, account, series, false) ==>
              RequestDecision(requests, seriesById, deposit, series, account)
              == Err(AlreadyApplied(requests[NOT_FOUND]))
  {
  }

  /** Once the list holds more than NOT_FOUND records, an owner's approval with no
      pending request for the pair is decided by the series checks alone: for an
      existing series whose map (if any) lists the account it succeeds, and marks
      the record at NOT_FOUND approved, whoever it belongs to. */
  lemma ApprovalPastSentinel(requests: seq<Request>, seriesById: map<SeriesId, Series>, owner: Account,
                             series: SeriesId, account: Account)
    requires |requests| > NOT_FOUND
    requires !HasRequest(requests, account, series, true)
    ensures ApprovalDecision(requests, seriesById, owner, owner, 0, series, account)
            == if series !in seriesById then Err(NotASeries)
               else if seriesById[series].affiliate.Some? && account !in seriesById[series].affiliate.value
               then Err(AffiliateNotInSeries)
               else Ok(NOT_FOUND)
  {
  }
}
