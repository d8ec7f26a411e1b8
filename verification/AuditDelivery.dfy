// Audit delivery through the outbox: the sink is called outside the database, and a
// delivery is reported only once its fenced settlement has been applied.
module AuditDelivery {
  import opened Common
  import opened Outbox

  const AuditTopic := "audit.publish"
  const SinkUnavailable := "audit_sink_unavailable"

  // ---- the retry delay ----

  function Pow2(n: nat): (r: nat)
    ensures r >= 1
  {
    if n == 0 then 1 else 2 * Pow2(n - 1)
  }
  function Min(a: int, b: int): int { if a <= b then a else b }

  // The delay as computed: the quotient test comes first, so the product is formed
  // only when it fits under the maximum.
  function RetryDelay(base: int, maximum: int, attempt: int): int
    requires 0 < base <= maximum && attempt >= 1
  {
    var multiplier := Pow2(Min(attempt - 1, 30));
    if base > maximum / multiplier then maximum else base * multiplier
  }

  lemma {:induction false} Pow2Grows(m: nat, n: nat)
    requires m <= n
    ensures Pow2(m) <= Pow2(n)
    decreases n - m
  {
    if m < n { Pow2Grows(m, n - 1); }
  }

  lemma ProductGrows(base: int, a: int, b: int)
    requires base > 0 && a <= b
    ensures base * a <= base * b
  {
  }

  // Testing against the floored quotient caps the product exactly.
  lemma QuotientCaps(base: int, maximum: int, multiplier: int)
    requires 0 < base <= maximum && multiplier >= 1
    ensures (if base > maximum / multiplier then maximum else base * multiplier) == Min(maximum, base * multiplier)
    ensures base <= base * multiplier
  {
    var q := maximum / multiplier;
    assert q * multiplier <= maximum < q * multiplier + multiplier;
    if base > q {
      ProductGrows(multiplier, q + 1, base);
    } else {
      ProductGrows(multiplier, base, q);
    }
    ProductGrows(base, 1, multiplier);
  }

  // The delay is capped exponential backoff, exactly, in whole microseconds.
  lemma DelayIsCappedBackoff(base: int, maximum: int, attempt: int)
    requires 0 < base <= maximum && attempt >= 1
    ensures RetryDelay(base, maximum, attempt) == Min(maximum, base * Pow2(Min(attempt - 1, 30)))
    ensures base <= RetryDelay(base, maximum, attempt) <= maximum
    ensures var m := Pow2(Min(attempt - 1, 30)); base <= maximum / m ==> base * m <= maximum
  {
    QuotientCaps(base, maximum, Pow2(Min(attempt - 1, 30)));
  }

  lemma DelayNeverShrinks(base: int, maximum: int, attempt: int, later: int)
    requires 0 < base <= maximum && 1 <= attempt <= later
    ensures RetryDelay(base, maximum, attempt) <= RetryDelay(base, maximum, later)
  {
    DelayIsCappedBackoff(base, maximum, attempt);
    DelayIsCappedBackoff(base, maximum, later);
    Pow2Grows(Min(attempt - 1, 30), Min(later - 1, 30));
    ProductGrows(base, Pow2(Min(attempt - 1, 30)), Pow2(Min(later - 1, 30)));
  }

  // ---- one delivery ----

  // `canonical(payload)` is the canonical form of a payload that is valid audit JSON.
  datatype Config = Config(maxAttempts: int, baseDelay: int, maxDelay: int,
                           sha256: Bytes -> Digest, canonical: Bytes -> Option<Bytes>)

  predicate ConfigOk(c: Config) { c.maxAttempts >= 1 && 0 < c.baseDelay <= c.maxDelay }

  datatype DeliveryError = NotAuditEntry | ClaimInvalid | PayloadCorrupt | LeaseExpired | RetryOutOfRange
                         | NotApplied(failure: Failure)

  datatype Report =
    | Delivered(entryId: string, attempt: nat)
    | RetryScheduled(entryId: string, attempt: nat, at: Instant)
    | DeadLettered(entryId: string, attempt: nat)

  function ClaimError(c: Config, g: Grant): Option<DeliveryError> {
    if g.entry.topic != AuditTopic then Some(NotAuditEntry)
    else if g.version < 1 || g.attempt < 1 then Some(ClaimInvalid)
    else if c.sha256(g.entry.payload) != g.entry.payloadSha256
            || c.canonical(g.entry.payload) != Some(g.entry.payload) then Some(PayloadCorrupt)
    else None
  }

  // The settlement a delivery asks of the outbox, given what the sink did.
  function Settlement(c: Config, g: Grant, now: Instant, published: bool): Result<Event, DeliveryError>
    requires ConfigOk(c)
  {
    var id := g.entry.entryId;
    if ClaimError(c, g).Some? then Err(ClaimError(c, g).value)
    else if now >= g.expires then Err(LeaseExpired)
    else if published then Ok(Ack(id, g.worker, g.version, now))
    else if g.attempt >= c.maxAttempts then Ok(Bury(id, g.worker, g.version, SinkUnavailable, now))
    else
      var delay := RetryDelay(c.baseDelay, c.maxDelay, g.attempt);
      if delay > MaxInstant - now then Err(RetryOutOfRange)
      else Ok(RetryAt(id, g.worker, g.version, now + delay, SinkUnavailable, now))
  }

  // What the caller is told once the settlement has its reply.
  function ReportOf(g: Grant, e: Event, reply: Reply): Result<Report, DeliveryError> {
    match reply
    case Refused(failure) => Err(NotApplied(failure))
    case _ =>
      match e
      case Ack(id, _, _, _) => Ok(Delivered(id, g.attempt))
      case RetryAt(id, _, _, at, _, _) => Ok(RetryScheduled(id, g.attempt, at))
      case _ => Ok(DeadLettered(g.entry.entryId, g.attempt))
  }

  // A retry is never scheduled past the last representable instant, and its time is
  // the capped backoff after `now`.
  lemma RetryTimeIsBounded(c: Config, g: Grant, now: Instant)
    requires ConfigOk(c) && Settlement(c, g, now, false).Ok? && Settlement(c, g, now, false).value.RetryAt?
    ensures var at := Settlement(c, g, now, false).value.availableAt;
            && now < at <= MaxInstant && g.attempt < c.maxAttempts
            && at == now + Min(c.maxDelay, c.baseDelay * Pow2(Min(g.attempt - 1, 30)))
  {
    DelayIsCappedBackoff(c.baseDelay, c.maxDelay, g.attempt);
  }

  // The claim's payload is what was enqueued for audit: the digest fits, and it is the
  // canonical form of an audit event.
  predicate Deliverable(c: Config, g: Grant) {
    && g.entry.topic == "audit.publish" && g.version >= 1 && g.attempt >= 1
    && c.sha256(g.entry.payload) == g.entry.payloadSha256 && c.canonical(g.entry.payload) == Some(g.entry.payload)
  }

  // The claim is the one stored, and the stored lease has not run out.
  predicate Live(t: Table, g: Grant, now: Instant) {
    var id := g.entry.entryId;
    && id in t && t[id].status == Claimed && t[id].leaseOwner == Some(g.worker) && t[id].version == g.version
    && t[id].leaseExpires.Some? && now < t[id].leaseExpires.value
  }

  // The capped backoff after `now`.
  function RetryTime(c: Config, g: Grant, now: Instant): Instant
    requires g.attempt >= 1
  {
    now + Min(c.maxDelay, c.baseDelay * Pow2(Min(g.attempt - 1, 30)))
  }

  // What becomes of the entry and what the caller is told: a live claim that the sink took
  // is delivered; one it did not take is buried at the last attempt and otherwise put off by
  // the capped backoff; anything else is an error that changes nothing.
  predicate Concluded(c: Config, t: Table, g: Grant, now: Instant, published: bool, after: Table,
                      r: Result<Report, DeliveryError>)
    requires ConfigOk(c)
  {
    var id := g.entry.entryId;
    if !(Deliverable(c, g) && now < g.expires && Live(t, g, now)) then
      && r.Err? && after == t && (r.error == LeaseExpired <==> Deliverable(c, g) && now >= g.expires)
      && (r.error.NotApplied? || r.error == RetryOutOfRange <==> Deliverable(c, g) && now < g.expires)
      && (r.error == RetryOutOfRange ==> && !published && 1 <= g.attempt < c.maxAttempts
                                         && RetryTime(c, g, now) > MaxInstant)
    else
      var at := RetryTime(c, g, now);
      if !published && g.attempt < c.maxAttempts && at > MaxInstant then r == Err(RetryOutOfRange) && after == t
      else
        && id in after && after == t[id := after[id]] && Ended(t[id], after[id])
        && (if published then
              r == Ok(Delivered(id, g.attempt)) && after[id].status == Succeeded && after[id].lastError == None
            else
              && after[id].lastError == Some("audit_sink_unavailable")
              && if g.attempt >= c.maxAttempts
                 then r == Ok(DeadLettered(id, g.attempt)) && after[id].status == DeadLetter
                 else && r == Ok(RetryScheduled(id, g.attempt, at)) && after[id].status == Retry
                      && after[id].entry.availableAt == at)
  }

  // The error a claim is turned away with names what is wrong with it.
  lemma ClaimErrors(c: Config, g: Grant)
    ensures ClaimError(c, g).None? <==> Deliverable(c, g)
    ensures ClaimError(c, g) == Some(NotAuditEntry) <==> g.entry.topic != "audit.publish"
    ensures ClaimError(c, g) == Some(ClaimInvalid)
       <==> g.entry.topic == "audit.publish" && (g.version < 1 || g.attempt < 1)
    ensures ClaimError(c, g).Some? ==> ClaimError(c, g).value in {NotAuditEntry, ClaimInvalid, PayloadCorrupt}
  {
  }

  // The settlement of a deliverable claim within its lease, by what the sink did.
  lemma SettlementChosen(c: Config, g: Grant, now: Instant, published: bool)
    requires ConfigOk(c) && Deliverable(c, g) && now < g.expires
    ensures var at, s := RetryTime(c, g, now), Settlement(c, g, now, published);
            && (published ==> s == Ok(Ack(g.entry.entryId, g.worker, g.version, now)))
            && (!published && g.attempt >= c.maxAttempts
                ==> s == Ok(Bury(g.entry.entryId, g.worker, g.version, SinkUnavailable, now)))
            && (!published && g.attempt < c.maxAttempts
                ==> s == if at > MaxInstant then Err(RetryOutOfRange)
                         else Ok(RetryAt(g.entry.entryId, g.worker, g.version, at, SinkUnavailable, now)))
  {
    ClaimErrors(c, g);
    DelayIsCappedBackoff(c.baseDelay, c.maxDelay, g.attempt);
  }

  // Its reply concludes the delivery.
  lemma SettlementConcludes(c: Config, t: Table, g: Grant, now: Instant, published: bool, event: Event)
    requires ConfigOk(c) && Inv(c.sha256, t) && Deliverable(c, g) && now < g.expires
    requires Settlement(c, g, now, published) == Ok(event)
    ensures var (after, reply) := Step(c.sha256, t, event);
            Concluded(c, t, g, now, published, after, ReportOf(g, event, reply))
  {
    SettlementChosen(c, g, now, published);
    assert SafeErrorCode(SinkUnavailable);
    SettlementAnswers(c.sha256, t, event);
    if g.entry.entryId in t { assert RowOk(c.sha256, g.entry.entryId, t[g.entry.entryId]); }
  }

  // A claim that is no audit claim, or whose lease is over, is not settled at all.
  lemma RefusalConcludes(c: Config, t: Table, g: Grant, now: Instant, published: bool)
    requires ConfigOk(c) && !(Deliverable(c, g) && now < g.expires)
    ensures Settlement(c, g, now, published).Err?
    ensures Concluded(c, t, g, now, published, t, Err(Settlement(c, g, now, published).error))
  {
    ClaimErrors(c, g);
  }

  lemma DeliveryConcludes(c: Config, t: Table, g: Grant, now: Instant, published: bool)
    requires ConfigOk(c) && Inv(c.sha256, t)
    ensures match Settlement(c, g, now, published)
            case Err(e) => Concluded(c, t, g, now, published, t, Err(e))
            case Ok(event) =>
              var (after, reply) := Step(c.sha256, t, event);
              Concluded(c, t, g, now, published, after, ReportOf(g, event, reply))
  {
    var s := Settlement(c, g, now, published);
    if !(Deliverable(c, g) && now < g.expires) {
      RefusalConcludes(c, t, g, now, published);
    } else if s.Ok? {
      SettlementConcludes(c, t, g, now, published, s.value);
    } else {
      SettlementChosen(c, g, now, published);
    }
  }

  // A delivery whose settlement was event `at` of an outbox run, among whatever else
  // other workers and administrators did before, between and after.
  datatype Delivery = Delivery(claim: Grant, now: Instant, published: bool, at: nat)

  predicate PartOf(c: Config, h: History, d: Delivery)
    requires ConfigOk(c)
  {
    d.at < |h.events| && d.at < |h.replies| && Settlement(c, d.claim, d.now, d.published) == Ok(h.events[d.at])
  }

  function Told(c: Config, h: History, d: Delivery): Result<Report, DeliveryError>
    requires ConfigOk(c) && PartOf(c, h, d)
  {
    ReportOf(d.claim, h.events[d.at], h.replies[d.at])
  }

  lemma ToldMeansSettled(c: Config, h: History, d: Delivery)
    requires ConfigOk(c) && Run(c.sha256, h) && PartOf(c, h, d) && Told(c, h, d).Ok?
    ensures h.replies[d.at] == Settled && h.events[d.at].id == d.claim.entry.entryId
    ensures h.events[d.at].version == d.claim.version
    ensures Told(c, h, d).value.Delivered? ==> h.events[d.at].Ack? && d.published
    ensures Told(c, h, d).value.DeadLettered? ==> h.events[d.at].Bury? && d.claim.attempt >= c.maxAttempts
  {
    assert Linked(c.sha256, h, d.at);
  }

  // Over any run, and whatever claims the callers present, at most one delivery of an
  // entry is told that it was delivered or dead-lettered.
  lemma DeliveredAtMostOnce(c: Config, h: History, d: Delivery, d': Delivery)
    requires ConfigOk(c) && Run(c.sha256, h) && PartOf(c, h, d) && PartOf(c, h, d')
    requires Told(c, h, d).Ok? && !Told(c, h, d).value.RetryScheduled?
    requires Told(c, h, d').Ok? && !Told(c, h, d').value.RetryScheduled?
    requires d.claim.entry.entryId == d'.claim.entry.entryId
    ensures d.at == d'.at
  {
    ToldMeansSettled(c, h, d);
    ToldMeansSettled(c, h, d');
    if d.at <= d'.at { FinishedOnce(c.sha256, h, d.at, d'.at); } else { FinishedOnce(c.sha256, h, d'.at, d.at); }
  }

  // Two deliveries of the same claim cannot both be told of success of any kind, and a
  // holder whose claim was taken back is told of none.
  lemma ClaimIsSpentOnce(c: Config, h: History, d: Delivery, j: nat)
    requires ConfigOk(c) && Run(c.sha256, h) && PartOf(c, h, d) && j < |h.events|
    requires Told(c, h, d).Ok? && Closes(h.events[j], h.replies[j], d.claim.entry.entryId, d.claim.version)
    ensures d.at == j
  {
    ToldMeansSettled(c, h, d);
    ClosedOnce(c.sha256, h, d.at, j, d.claim.entry.entryId, d.claim.version);
  }

  class AuditOutboxDelivery {
    const config: Config
    const outbox: PostgresOutboxStore

    constructor (settings: Config, store: PostgresOutboxStore)
      requires ConfigOk(settings) && settings.sha256 == store.sha256
      ensures config == settings && outbox == store
    {
      config, outbox := settings, store;
    }

    // Leases audit entries; one invalid claim rolls the whole batch back.
    method Claim(worker: string, now: Instant, lease: int, limit: int, pick: set<string>)
      returns (reply: Result<set<Grant>, DeliveryError>)
      requires Claimable(outbox.rows, [AuditTopic], now, limit, pick)
      modifies outbox
      ensures reply.Ok? ==> && (outbox.rows, Granted(reply.value))
                               == Step(outbox.sha256, old(outbox.rows),
                                       Event.Claim(worker, [AuditTopic], now, lease, limit, pick))
                            && forall g <- reply.value :: ClaimError(config, g).None?
      ensures reply.Ok? ==> forall g <- reply.value :: Deliverable(config, g)
      ensures reply.Err? ==> outbox.rows == old(outbox.rows)
      ensures var answer := Step(outbox.sha256, old(outbox.rows),
                                 Event.Claim(worker, [AuditTopic], now, lease, limit, pick)).1;
              reply.Ok? <==> answer.Granted? && forall g <- answer.grants :: ClaimError(config, g).None?
    {
      var before := outbox.rows;
      var claimed := outbox.Claim(worker, [AuditTopic], now, lease, limit, pick);
      if claimed.Refused? {
        outbox.rows := before;
        return Err(NotApplied(claimed.failure));
      }
      var todo := claimed.grants;
      while todo != {}
        invariant todo <= claimed.grants
                  && outbox.rows == Step(outbox.sha256, before,
                                         Event.Claim(worker, [AuditTopic], now, lease, limit, pick)).0
        invariant forall g <- claimed.grants - todo :: ClaimError(config, g).None?
      {
        var g :| g in todo;
        var error := ClaimError(config, g);
        if error.Some? {
          outbox.rows := before;
          return Err(error.value);
        }
        todo := todo - {g};
      }
      assert claimed.grants - todo == claimed.grants;
      forall g | g in claimed.grants ensures Deliverable(config, g) { ClaimErrors(config, g); }
      return Ok(claimed.grants);
    }

    method Deliver(claim: Grant, now: Instant, published: bool) returns (r: Result<Report, DeliveryError>)
      requires ConfigOk(config)
      modifies outbox
      ensures config.sha256 == outbox.sha256 && Inv(outbox.sha256, old(outbox.rows)) ==>
                Concluded(config, old(outbox.rows), claim, now, published, outbox.rows, r)
      ensures match Settlement(config, claim, now, published)
              case Err(e) => r == Err(e) && outbox.rows == old(outbox.rows)
              case Ok(event) =>
                var (rows, reply) := Step(outbox.sha256, old(outbox.rows), event);
                outbox.rows == rows && r == ReportOf(claim, event, reply)
    {
      if config.sha256 == outbox.sha256 && Inv(outbox.sha256, outbox.rows) {
        DeliveryConcludes(config, outbox.rows, claim, now, published);
      }
      var error := ClaimError(config, claim);
      if error.Some? { return Err(error.value); }
      if now >= claim.expires { return Err(LeaseExpired); }
      if !published {
        r := SettleFailure(claim, now);
        return;
      }
      var reply := outbox.Ack(claim.entry.entryId, claim.worker, claim.version, now);
      if reply.Refused? { return Err(NotApplied(reply.failure)); }
      return Ok(Delivered(claim.entry.entryId, claim.attempt));
    }

    method SettleFailure(claim: Grant, now: Instant) returns (r: Result<Report, DeliveryError>)
      requires ConfigOk(config) && ClaimError(config, claim).None? && now < claim.expires
      modifies outbox
      ensures match Settlement(config, claim, now, false)
              case Err(e) => r == Err(e) && outbox.rows == old(outbox.rows)
              case Ok(event) =>
                var (rows, reply) := Step(outbox.sha256, old(outbox.rows), event);
                outbox.rows == rows && r == ReportOf(claim, event, reply)
    {
      if claim.attempt >= config.maxAttempts {
        var buried := outbox.Bury(claim.entry.entryId, claim.worker, claim.version, SinkUnavailable, now);
        if buried.Refused? { return Err(NotApplied(buried.failure)); }
        return Ok(DeadLettered(claim.entry.entryId, claim.attempt));
      }
      var delay := RetryDelay(config.baseDelay, config.maxDelay, claim.attempt);
      if delay > MaxInstant - now { return Err(RetryOutOfRange); }
      var put := outbox.RetryAt(claim.entry.entryId, claim.worker, claim.version, now + delay, SinkUnavailable, now);
      if put.Refused? { return Err(NotApplied(put.failure)); }
      return Ok(RetryScheduled(claim.entry.entryId, claim.attempt, now + delay));
    }
  }
}
