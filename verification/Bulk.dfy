/** Bounded, adaptive bulk writes: batches shrink when the server rejects them,
    rejected items are retried, and every action is accounted for. */
module Bulk {
  import opened Wrappers

  datatype BulkLimits = BulkLimits(maxActions: nat, maxBytes: nat, maxRetries: nat)

  /** The configured limits: at least one action and one byte, no negative retries. */
  function FromConfig(maxActions: int, maxBytes: int, maxRetries: int): (l: BulkLimits)
    ensures l.maxActions >= 1 && l.maxBytes >= 1
    ensures maxActions >= 1 ==> l.maxActions == maxActions
    ensures maxBytes >= 1 ==> l.maxBytes == maxBytes
    ensures if maxRetries >= 0 then l.maxRetries == maxRetries else l.maxRetries == 0
  {
    BulkLimits(if maxActions > 1 then maxActions else 1,
               if maxBytes > 1 then maxBytes else 1,
               if maxRetries > 0 then maxRetries else 0)
  }

  /** A serialized action and its size. */
  datatype Encoded = Encoded(action: string, size: nat)

  /** The server's verdict on one action of a request. */
  datatype Item = Item(status: nat, isDelete: bool)
  {
    /** Deleting a missing document is not a failure. */
    predicate Acknowledged()
    {
      status < 300 || (status == 404 && isDelete)
    }

    predicate Retryable()
    {
      status == 429 || status == 503
    }
  }

  /** A reply to a bulk request: rejected as a whole (413 or 429), failed as a
      whole, applied, or applied with a verdict per action. */
  datatype Reply = Rejected | Failed | Applied | Mixed(items: seq<Item>)

  datatype BulkError = RequestFailed | ItemsFailed(failed: nat, total: nat)

  datatype BulkReport = BulkReport(actions: nat, requests: nat, retried: nat, failed: nat)

  function Bytes(batch: seq<Encoded>): nat
  {
    if batch == [] then 0 else Bytes(batch[..|batch| - 1]) + batch[|batch| - 1].size
  }

  lemma {:induction false} BytesAppend(a: seq<Encoded>, b: seq<Encoded>)
    ensures Bytes(a + b) == Bytes(a) + Bytes(b)
    decreases |b|
  {
    if b == [] {
      assert a + b == a;
    } else {
      assert (a + b)[..|a + b| - 1] == a + b[..|b| - 1];
      BytesAppend(a, b[..|b| - 1]);
    }
  }

  /** A request stays within the limits, except that a single action is sent whatever its size. */
  predicate WithinLimits(limits: BulkLimits, batch: seq<Encoded>)
  {
    && 1 <= |batch| <= AtLeastOne(limits.maxActions)
    && (|batch| > 1 ==> Bytes(batch) <= limits.maxBytes)
  }

  function AtLeastOne(n: nat): (r: nat)
    ensures r >= 1 && (n >= 1 ==> r == n) && r <= n + 1
  {
    if n > 1 then n else 1
  }

  /** The server gives one verdict per action. */
  ghost predicate OnePerAction(respond: (nat, seq<Encoded>) -> Reply)
  {
    forall n: nat, batch: seq<Encoded> :: respond(n, batch).Mixed? ==> |respond(n, batch).items| == |batch|
  }

  /** What becomes of one action under its verdict. */
  datatype Fate = Acked | Retried | Lost

  function FateOf(item: Item, mayRetry: bool): Fate
  {
    if item.Acknowledged() then Acked else if item.Retryable() && mayRetry then Retried else Lost
  }

  /** Success, or a deletion of what is not there, is acknowledged; a busy server
      (429 or 503) is asked again while retries are left; all else is lost. */
  lemma FateMeans(item: Item, mayRetry: bool)
    ensures FateOf(item, mayRetry) == Acked <==> item.status < 300 || (item.isDelete && item.status == 404)
    ensures FateOf(item, mayRetry) == Retried <==> item.status in {429, 503} && mayRetry
  {
  }

  /** The actions of `sent` with the given fate, in order; actions without a verdict have none. */
  function WithFate(sent: seq<Encoded>, items: seq<Item>, mayRetry: bool, fate: Fate): (r: seq<Encoded>)
    requires |sent| <= |items|
    ensures |r| <= |sent|
  {
    if sent == [] then []
    else
      var last := |sent| - 1;
      WithFate(sent[..last], items, mayRetry, fate) +
      if FateOf(items[last], mayRetry) == fate then [sent[last]] else []
  }

  function Shorter(a: nat, b: nat): (r: nat)
    ensures r <= a && r <= b && r in {a, b}
  {
    if a < b then a else b
  }

  function Count(s: seq<Encoded>, a: Encoded): nat
  {
    if s == [] then 0 else Count(s[..|s| - 1], a) + if s[|s| - 1] == a then 1 else 0
  }

  lemma {:induction false} CountAppend(s: seq<Encoded>, t: seq<Encoded>, a: Encoded)
    ensures Count(s + t, a) == Count(s, a) + Count(t, a)
    decreases |t|
  {
    if t == [] {
      assert s + t == s;
    } else {
      assert (s + t)[..|s + t| - 1] == s + t[..|t| - 1];
      CountAppend(s, t[..|t| - 1], a);
    }
  }

  lemma CountSnoc(s: seq<Encoded>, x: Encoded, a: Encoded)
    ensures Count(s + [x], a) == Count(s, a) + if x == a then 1 else 0
  {
    assert (s + [x])[..|s|] == s;
  }

  lemma BytesSnoc(s: seq<Encoded>, x: Encoded)
    ensures Bytes(s + [x]) == Bytes(s) + x.size
  {
    assert (s + [x])[..|s|] == s;
  }

  lemma OneMoreFate(sent: seq<Encoded>, items: seq<Item>, mayRetry: bool, fate: Fate, a: Encoded)
    requires 0 < |sent| <= |items|
    ensures var last := |sent| - 1;
      Count(WithFate(sent, items, mayRetry, fate), a) == Count(WithFate(sent[..last], items, mayRetry, fate), a) +
      if FateOf(items[last], mayRetry) == fate && sent[last] == a then 1 else 0
  {
    var front := WithFate(sent[..|sent| - 1], items, mayRetry, fate);
    CountSnoc(front, sent[|sent| - 1], a);
    assert front + [] == front;
  }

  /** Every action with a verdict is acknowledged, retried or lost, and just one of them. */
  lemma {:induction false} FatesPartition(sent: seq<Encoded>, items: seq<Item>, mayRetry: bool, a: Encoded)
    requires |sent| <= |items|
    ensures Count(sent, a) == Count(WithFate(sent, items, mayRetry, Acked), a) +
                              Count(WithFate(sent, items, mayRetry, Retried), a) +
                              Count(WithFate(sent, items, mayRetry, Lost), a)
    decreases |sent|
  {
    if sent != [] {
      FatesPartition(sent[..|sent| - 1], items, mayRetry, a);
      OneMoreFate(sent, items, mayRetry, Acked, a);
      OneMoreFate(sent, items, mayRetry, Retried, a);
      OneMoreFate(sent, items, mayRetry, Lost, a);
    }
  }

  lemma {:induction false} RetriedFits(sent: seq<Encoded>, items: seq<Item>, mayRetry: bool)
    requires |sent| <= |items|
    ensures Bytes(WithFate(sent, items, mayRetry, Retried)) <= Bytes(sent)
    ensures !mayRetry ==> WithFate(sent, items, mayRetry, Retried) == []
    decreases |sent|
  {
    if sent != [] {
      var front, x := sent[..|sent| - 1], sent[|sent| - 1];
      RetriedFits(front, items, mayRetry);
      BytesSnoc(WithFate(front, items, mayRetry, Retried), x);
      assert WithFate(front, items, mayRetry, Retried) + [] == WithFate(front, items, mayRetry, Retried);
    }
  }

  lemma BytesOfParts(a: seq<Encoded>, k: nat)
    requires k <= |a|
    ensures Bytes(a) == Bytes(a[..k]) + Bytes(a[k..])
  {
    assert a == a[..k] + a[k..];
    BytesAppend(a[..k], a[k..]);
  }

  /** Where every pushed action is. */
  datatype Ledger = Ledger(
    pushed: seq<Encoded>,
    acked: seq<Encoded>,
    failed: seq<Encoded>,
    /** of a request the server gave no verdict on */
    skipped: seq<Encoded>,
    /** given up by a failed flush */
    undelivered: seq<Encoded>)
  {
    /** `a` was pushed as often as it is found in one of the places, `batch` being in flight. */
    ghost predicate BalancedFor(batch: seq<Encoded>, a: Encoded)
    {
      Count(pushed, a) ==
      Count(acked, a) + Count(failed, a) + Count(skipped, a) + Count(undelivered, a) + Count(batch, a)
    }

    /** Every pushed action is in exactly one place. */
    ghost predicate Balanced(batch: seq<Encoded>)
    {
      forall a :: BalancedFor(batch, a)
    }

    /** Each action was acknowledged exactly as often as it was pushed. */
    ghost predicate AllAcked()
    {
      forall a :: Count(acked, a) == Count(pushed, a)
    }

    /** What the server said about the actions. */
    function Judged(): Verdicts
    {
      Verdicts(acked, failed, skipped)
    }

    function Push(a: Encoded): Ledger
    {
      this.(pushed := pushed + [a])
    }

    function Ack(sent: seq<Encoded>): Ledger
    {
      this.(acked := acked + sent)
    }

    function GiveUp(batch: seq<Encoded>): Ledger
    {
      this.(undelivered := undelivered + batch)
    }

    /** The verdicts `items` on the request `sent`. */
    function Settle(sent: seq<Encoded>, items: seq<Item>, mayRetry: bool): Ledger
    {
      var n := Shorter(|sent|, |items|);
      this.(acked := acked + WithFate(sent[..n], items, mayRetry, Acked),
            failed := failed + WithFate(sent[..n], items, mayRetry, Lost),
            skipped := skipped + sent[n..])
    }
  }

  lemma PushBalances(l: Ledger, batch: seq<Encoded>, x: Encoded)
    requires l.Balanced(batch)
    ensures l.Push(x).Balanced(batch + [x])
  {
    forall a
      ensures l.Push(x).BalancedFor(batch + [x], a)
    {
      assert l.BalancedFor(batch, a);
      CountSnoc(l.pushed, x, a);
      CountSnoc(batch, x, a);
    }
  }

  lemma AckBalances(l: Ledger, sent: seq<Encoded>, rest: seq<Encoded>)
    requires l.Balanced(sent + rest)
    ensures l.Ack(sent).Balanced(rest)
  {
    forall a
      ensures l.Ack(sent).BalancedFor(rest, a)
    {
      assert l.BalancedFor(sent + rest, a);
      CountAppend(sent, rest, a);
      CountAppend(l.acked, sent, a);
    }
  }

  lemma GiveUpBalances(l: Ledger, batch: seq<Encoded>)
    requires l.Balanced(batch)
    ensures l.GiveUp(batch).Balanced([])
  {
    forall a
      ensures l.GiveUp(batch).BalancedFor([], a)
    {
      assert l.BalancedFor(batch, a);
      CountAppend(l.undelivered, batch, a);
    }
  }

  lemma SettleBalances(l: Ledger, sent: seq<Encoded>, rest: seq<Encoded>, items: seq<Item>, mayRetry: bool)
    requires l.Balanced(sent + rest)
    ensures var n := Shorter(|sent|, |items|);
      l.Settle(sent, items, mayRetry).Balanced(WithFate(sent[..n], items, mayRetry, Retried) + rest)
  {
    var n := Shorter(|sent|, |items|);
    var retried := WithFate(sent[..n], items, mayRetry, Retried);
    forall a
      ensures l.Settle(sent, items, mayRetry).BalancedFor(retried + rest, a)
    {
      SettleBalancesFor(l, sent, rest, items, mayRetry, a);
    }
  }

  lemma SettleBalancesFor(
    l: Ledger, sent: seq<Encoded>, rest: seq<Encoded>, items: seq<Item>, mayRetry: bool, a: Encoded)
    requires l.BalancedFor(sent + rest, a)
    ensures var n := Shorter(|sent|, |items|);
      l.Settle(sent, items, mayRetry).BalancedFor(WithFate(sent[..n], items, mayRetry, Retried) + rest, a)
  {
    var n := Shorter(|sent|, |items|);
    CountAppend(sent, rest, a);
    assert sent == sent[..n] + sent[n..];
    CountAppend(sent[..n], sent[n..], a);
    FatesPartition(sent[..n], items, mayRetry, a);
    CountAppend(l.acked, WithFate(sent[..n], items, mayRetry, Acked), a);
    CountAppend(l.failed, WithFate(sent[..n], items, mayRetry, Lost), a);
    CountAppend(l.skipped, sent[n..], a);
    CountAppend(WithFate(sent[..n], items, mayRetry, Retried), rest, a);
  }

  /** With nothing failed, given up or in flight, exactly the actions without a verdict are missing. */
  lemma AckedIffNothingSkipped(l: Ledger)
    requires l.Balanced([]) && l.failed == [] && l.undelivered == []
    ensures l.AllAcked() <==> l.skipped == []
  {
    forall a
      ensures Count(l.pushed, a) == Count(l.acked, a) + Count(l.skipped, a)
    {
      assert l.BalancedFor([], a);
    }
    if l.skipped != [] {
      var last := l.skipped[|l.skipped| - 1];
      assert Count(l.skipped, last) > 0;
    }
  }

  // ---- what the server said -------------------------------------------------------------

  /** The server: its reply to the n-th request, whatever it may be. */
  type Server = (nat, seq<Encoded>) -> Reply

  /** A request that was sent, and whether its rejected items could still be retried. */
  datatype Sent = Sent(batch: seq<Encoded>, mayRetry: bool)

  datatype Verdicts = Verdicts(acked: seq<Encoded>, failed: seq<Encoded>, skipped: seq<Encoded>)
  {
    function Plus(more: Verdicts): Verdicts
    {
      Verdicts(acked + more.acked, failed + more.failed, skipped + more.skipped)
    }
  }

  /** What a reply says about the actions of its request. */
  function VerdictsOf(reply: Reply, sent: Sent): Verdicts
  {
    match reply
    case Applied => Verdicts(sent.batch, [], [])
    case Mixed(items) =>
      var n := Shorter(|sent.batch|, |items|);
      Verdicts(WithFate(sent.batch[..n], items, sent.mayRetry, Acked),
               WithFate(sent.batch[..n], items, sent.mayRetry, Lost), sent.batch[n..])
    case _ => Verdicts([], [], [])
  }

  /** What all replies together say. */
  function Judged(respond: Server, requests: seq<Sent>): Verdicts
  {
    if requests == [] then Verdicts([], [], [])
    else
      var k := |requests| - 1;
      Judged(respond, requests[..k]).Plus(VerdictsOf(respond(k, requests[k].batch), requests[k]))
  }

  /** The size of the next request: halved by a rejection, doubled by a success. */
  function NextTarget(limits: BulkLimits, target: nat, reply: Reply): nat
  {
    match reply
    case Rejected => AtLeastOne(target / 2)
    case Applied => Shorter(target * 2, limits.maxActions)
    case _ => target
  }

  function TargetAfter(limits: BulkLimits, respond: Server, requests: seq<Sent>): nat
  {
    if requests == [] then limits.maxActions
    else
      var k := |requests| - 1;
      NextTarget(limits, TargetAfter(limits, respond, requests[..k]), respond(k, requests[k].batch))
  }

  /** Request `k` is within the limits and the target the earlier replies left. */
  ghost predicate RequestOk(limits: BulkLimits, respond: Server, requests: seq<Sent>, k: nat)
    requires k < |requests|
  {
    && WithinLimits(limits, requests[k].batch)
    && |requests[k].batch| <= AtLeastOne(TargetAfter(limits, respond, requests[..k]))
  }

  lemma RequestKept(limits: BulkLimits, respond: Server, requests: seq<Sent>, sent: Sent, k: nat)
    requires k < |requests| && RequestOk(limits, respond, requests, k)
    ensures RequestOk(limits, respond, requests + [sent], k)
  {
    assert (requests + [sent])[..k] == requests[..k];
  }

  lemma LastRequestOk(limits: BulkLimits, respond: Server, requests: seq<Sent>, sent: Sent)
    requires WithinLimits(limits, sent.batch)
    requires |sent.batch| <= AtLeastOne(TargetAfter(limits, respond, requests))
    ensures RequestOk(limits, respond, requests + [sent], |requests|)
  {
    assert (requests + [sent])[..|requests|] == requests;
  }

  ghost predicate RequestsOk(limits: BulkLimits, respond: Server, requests: seq<Sent>)
  {
    forall k :: 0 <= k < |requests| ==> RequestOk(limits, respond, requests, k)
  }

  lemma OneMoreRequest(limits: BulkLimits, respond: Server, requests: seq<Sent>, sent: Sent)
    requires RequestsOk(limits, respond, requests) && WithinLimits(limits, sent.batch)
    requires |sent.batch| <= AtLeastOne(TargetAfter(limits, respond, requests))
    ensures RequestsOk(limits, respond, requests + [sent])
  {
    LastRequestOk(limits, respond, requests, sent);
    forall k | 0 <= k < |requests|
      ensures RequestOk(limits, respond, requests + [sent], k)
    {
      RequestKept(limits, respond, requests, sent, k);
    }
  }

  lemma OneMoreReply(limits: BulkLimits, respond: Server, requests: seq<Sent>, sent: Sent)
    ensures TargetAfter(limits, respond, requests + [sent])
      == NextTarget(limits, TargetAfter(limits, respond, requests), respond(|requests|, sent.batch))
    ensures Judged(respond, requests + [sent])
      == Judged(respond, requests).Plus(VerdictsOf(respond(|requests|, sent.batch), sent))
  {
    assert (requests + [sent])[..|requests|] == requests;
  }

  class BulkWriter {
    const limits: BulkLimits
    const respond: Server
    var target: nat
    var pending: seq<Encoded>
    var pendingBytes: nat
    var report: BulkReport

    ghost var ledger: Ledger
    ghost var requests: seq<Sent>

    /** The ledger balances and the report counts what it says. */
    ghost predicate Accounted(batch: seq<Encoded>)
      reads this
    {
      && ledger.Balanced(batch)
      && report.failed == |ledger.failed|
      && report.actions == |ledger.pushed|
      && (OnePerAction(respond) ==> ledger.skipped == [])
    }

    ghost predicate Bounded()
      reads this
    {
      && target <= AtLeastOne(limits.maxActions)
      && |requests| == report.requests
      && RequestsOk(limits, respond, requests)
    }

    /** The ledger is what the server's replies say, and the target follows from them. */
    ghost predicate Settled()
      reads this
    {
      && target == TargetAfter(limits, respond, requests)
      && ledger.Judged() == Judged(respond, requests)
    }

    /** The last reply is still to be worked in. */
    ghost predicate Unsettled(sent: Sent, reply: Reply)
      reads this
    {
      && TargetAfter(limits, respond, requests) == NextTarget(limits, target, reply)
      && Judged(respond, requests) == ledger.Judged().Plus(VerdictsOf(reply, sent))
    }

    /** The reply to the last request refused it as a whole. */
    ghost predicate LastRefused()
      reads this
    {
      requests != [] &&
      var reply := respond(|requests| - 1, requests[|requests| - 1].batch);
      reply.Rejected? || reply.Failed?
    }

    /** What is pending fits one request by size. */
    ghost predicate FitsBytes(batch: seq<Encoded>)
      reads this
    {
      |batch| > 1 ==> Bytes(batch) <= limits.maxBytes
    }

    /** `batch` is in flight. */
    ghost predicate InFlight(batch: seq<Encoded>)
      reads this
    {
      Accounted(batch) && Bounded() && FitsBytes(batch)
    }

    ghost predicate Valid()
      reads this
    {
      InFlight(pending) && Settled() && pendingBytes == Bytes(pending)
    }

    constructor (limits: BulkLimits, respond: Server)
      ensures Valid() && ledger == Ledger([], [], [], [], []) && requests == []
      ensures this.limits == limits && this.respond == respond
    {
      this.limits, this.respond := limits, respond;
      target, pending, pendingBytes := limits.maxActions, [], 0;
      report := BulkReport(0, 0, 0, 0);
      ledger := Ledger([], [], [], [], []);
      requests := [];
    }

    /** Goes through the verdicts on `sent`: the returned actions are to be retried. */
    method Settle(sent: seq<Encoded>, items: seq<Item>, mayRetry: bool) returns (retry: seq<Encoded>)
      modifies `report
      ensures var n := Shorter(|sent|, |items|);
        && retry == WithFate(sent[..n], items, mayRetry, Retried)
        && report == old(report).(failed := old(report).failed + |WithFate(sent[..n], items, mayRetry, Lost)|)
    {
      retry := [];
      for i := 0 to Shorter(|sent|, |items|)
        invariant retry == WithFate(sent[..i], items, mayRetry, Retried)
        invariant report == old(report).(failed := old(report).failed + |WithFate(sent[..i], items, mayRetry, Lost)|)
      {
        assert sent[..i + 1][..i] == sent[..i];
        if items[i].Acknowledged() {
        } else if items[i].Retryable() && mayRetry {
          retry := retry + [sent[i]];
        } else {
          report := report.(failed := report.failed + 1);
        }
      }
    }

    /** How many rejections and retries a batch of this size still stands. */
    function RetriesLeft(attempt: nat): nat
      reads this
    {
      2 * (if attempt < limits.maxRetries then limits.maxRetries - attempt else 0) + if target == 0 then 1 else 0
    }

    /** Sends the first actions of `batch` as one request. */
    method Send(batch: seq<Encoded>, mayRetry: bool) returns (sent: seq<Encoded>, rest: seq<Encoded>, reply: Reply)
      requires InFlight(batch) && Settled() && batch != []
      modifies `report, `requests
      ensures InFlight(batch) && batch == sent + rest && sent != []
      ensures requests == old(requests) + [Sent(sent, mayRetry)] && reply == respond(|old(requests)|, sent)
      ensures report == old(report).(requests := old(report).requests + 1)
      ensures Bytes(batch) == Bytes(sent) + Bytes(rest)
      ensures OnePerAction(respond) && reply.Mixed? ==> |reply.items| == |sent|
    {
      var take := Shorter(|batch|, AtLeastOne(target));
      sent, rest := batch[..take], batch[take..];
      BytesOfParts(batch, take);
      reply := respond(report.requests, sent);
      report := report.(requests := report.requests + 1);
      OneMoreRequest(limits, respond, requests, Sent(sent, mayRetry));
      requests := requests + [Sent(sent, mayRetry)];
    }

    /** The server's verdicts: retried actions go in front of the rest. */
    method Resend(sent: seq<Encoded>, rest: seq<Encoded>, items: seq<Item>, mayRetry: bool)
      returns (batch: seq<Encoded>, retried: bool)
      requires InFlight(sent + rest) && Bytes(sent + rest) == Bytes(sent) + Bytes(rest) && sent != []
      requires OnePerAction(respond) ==> |items| == |sent|
      modifies `report, `ledger
      ensures InFlight(batch) && |batch| <= |sent| + |rest|
      ensures retried || |batch| < |sent| + |rest|
      ensures retried ==> mayRetry
      ensures ledger == old(ledger).Settle(sent, items, mayRetry)
    {
      var n := Shorter(|sent|, |items|);
      SettleBalances(ledger, sent, rest, items, mayRetry);
      RetriedFits(sent[..n], items, mayRetry);
      BytesOfParts(sent, n);
      var retry := Settle(sent, items, mayRetry);
      retried := retry != [];
      if retried {
        report := report.(retried := report.retried + |retry|);
      }
      BytesAppend(retry, rest);
      batch := retry + rest;
      ledger := ledger.Settle(sent, items, mayRetry);
    }

    /** One request of a flush: its actions are acknowledged, retried or lost, or
        it is refused and, if that is final, the batch is given up. The batch
        gets shorter, the target smaller, or a retry is used up. */
    method Exchange(batch: seq<Encoded>, attempt: nat)
      returns (r: Result<(), BulkError>, left: seq<Encoded>, attempts: nat)
      requires InFlight(batch) && Settled() && batch != []
      modifies `target, `report, `ledger, `requests
      ensures InFlight(left) && Settled() && old(requests) < requests
      ensures ledger.pushed == old(ledger.pushed)
      ensures r.Ok? ==> ledger.undelivered == old(ledger.undelivered)
      ensures r.Ok? ==> Advanced(batch, old(target), old(RetriesLeft(attempt)), left, target, RetriesLeft(attempts))
      ensures r.Err? ==> left == [] && r.error == RequestFailed && LastRefused()
    {
      var mayRetry := attempt < limits.maxRetries;
      ghost var before := requests;
      var sent, rest, reply := Send(batch, mayRetry);
      OneMoreReply(limits, respond, before, Sent(sent, mayRetry));
      if reply.Applied? || reply.Mixed? {
        left, attempts := Accept(sent, rest, reply, attempt);
        r := Ok(());
      } else {
        r, left, attempts := Refuse(batch, Sent(sent, mayRetry), reply, attempt);
      }
    }

    /** Works in a reply that applied the request at least in part. */
    method Accept(sent: seq<Encoded>, rest: seq<Encoded>, reply: Reply, attempt: nat)
      returns (left: seq<Encoded>, attempts: nat)
      requires InFlight(sent + rest) && Bytes(sent + rest) == Bytes(sent) + Bytes(rest) && sent != []
      requires Unsettled(Sent(sent, attempt < limits.maxRetries), reply) && (reply.Applied? || reply.Mixed?)
      requires OnePerAction(respond) && reply.Mixed? ==> |reply.items| == |sent|
      modifies `target, `report, `ledger
      ensures InFlight(left) && Settled()
      ensures ledger.pushed == old(ledger.pushed) && ledger.undelivered == old(ledger.undelivered)
      ensures Advanced(sent + rest, old(target), old(RetriesLeft(attempt)), left, target, RetriesLeft(attempts))
    {
      attempts := attempt;
      if reply.Applied? {
        AckBalances(ledger, sent, rest);
        ledger := ledger.Ack(sent);
        target := Shorter(target * 2, limits.maxActions);
        left := rest;
      } else {
        var retried;
        left, retried := Resend(sent, rest, reply.items, attempt < limits.maxRetries);
        attempts := if retried then attempt + 1 else attempt;
      }
    }

    /** Works in a reply that refused the request: it is tried again with a
        smaller target, or given up. */
    method Refuse(batch: seq<Encoded>, ghost sent: Sent, reply: Reply, attempt: nat)
      returns (r: Result<(), BulkError>, left: seq<Encoded>, attempts: nat)
      requires InFlight(batch) && Unsettled(sent, reply) && (reply.Rejected? || reply.Failed?)
      modifies `target, `ledger
      ensures InFlight(left) && Settled() && ledger.pushed == old(ledger.pushed)
      ensures r.Err? <==> reply.Failed? || (attempt >= limits.maxRetries && old(target) == 1)
      ensures r.Ok? ==> left == batch && ledger.undelivered == old(ledger.undelivered)
      ensures r.Ok? ==> Advanced(batch, old(target), old(RetriesLeft(attempt)), left, target, RetriesLeft(attempts))
      ensures r.Err? ==> left == [] && r.error == RequestFailed
    {
      r, left, attempts := Ok(()), batch, attempt;
      if reply.Failed? || (attempt >= limits.maxRetries && target == 1) {
        r := GiveUp(batch);
        left := [];
      } else {
        target, attempts := AtLeastOne(target / 2), attempt + 1;
      }
    }

    /** The measure of a flush went down. */
    static predicate Advanced(
      batch: seq<Encoded>, target: nat, retries: nat, left: seq<Encoded>, newTarget: nat, newRetries: nat)
    {
      || |left| < |batch|
      || (|left| == |batch| && AtLeastOne(newTarget) < AtLeastOne(target))
      || (|left| == |batch| && AtLeastOne(newTarget) == AtLeastOne(target) && newRetries < retries)
    }

    method GiveUp(batch: seq<Encoded>) returns (r: Result<(), BulkError>)
      requires Accounted(batch)
      modifies `ledger
      ensures Accounted([]) && ledger == old(ledger).GiveUp(batch) && r == Err(RequestFailed)
    {
      GiveUpBalances(ledger, batch);
      ledger := ledger.GiveUp(batch);
      r := Err(RequestFailed);
    }

    /** Sends what is pending, request by request. It terminates whatever the
        server replies. */
    method Flush() returns (r: Result<(), BulkError>)
      requires Valid()
      modifies this
      ensures Valid() && pending == [] && ledger.pushed == old(ledger.pushed)
      ensures r.Ok? ==> ledger.undelivered == old(ledger.undelivered)
      ensures r.Err? ==> r.error == RequestFailed && LastRefused()
      ensures old(requests) <= requests
    {
      var batch := pending;
      pending, pendingBytes := [], 0;
      var attempt := 0;
      while batch != []
        invariant pending == [] && pendingBytes == 0 && InFlight(batch) && Settled() && old(requests) <= requests
        invariant ledger.pushed == old(ledger.pushed) && ledger.undelivered == old(ledger.undelivered)
        decreases |batch|, AtLeastOne(target), RetriesLeft(attempt)
      {
        r, batch, attempt := Exchange(batch, attempt);
        if r.Err? {
          return;
        }
      }
      r := Ok(());
    }

    /** Adds an action, flushing first when it would not fit and afterwards
        when the batch is full. */
    method Push(enc: Encoded) returns (r: Result<(), BulkError>)
      requires Valid()
      modifies this
      ensures Valid() && old(requests) <= requests
      ensures r.Ok? ==> ledger.pushed == old(ledger.pushed) + [enc]
      ensures r.Ok? ==> ledger.undelivered == old(ledger.undelivered)
      ensures r.Ok? ==> |pending| < AtLeastOne(target)
      ensures r.Err? ==> r.error == RequestFailed && LastRefused()
    {
      if pending != [] && (|pending| + 1 > target || pendingBytes + enc.size > limits.maxBytes) {
        r := Flush();
        if r.Err? {
          return;
        }
      }
      Append(enc);
      r := Ok(());
      if |pending| >= target {
        r := Flush();
      }
    }

    method Append(enc: Encoded)
      requires Valid() && (pending == [] || pendingBytes + enc.size <= limits.maxBytes)
      modifies `pending, `pendingBytes, `report, `ledger
      ensures Valid() && pending == old(pending) + [enc]
      ensures ledger == old(ledger).Push(enc)
    {
      BytesSnoc(pending, enc);
      PushBalances(ledger, pending, enc);
      pending, pendingBytes, ledger := pending + [enc], pendingBytes + enc.size, ledger.Push(enc);
      report := report.(actions := report.actions + 1);
    }

    /** Flushes and reports. Success means every pushed action was acknowledged
        exactly once, exactly when the server gave a verdict on each. */
    method Finish() returns (r: Result<BulkReport, BulkError>)
      requires Valid()
      modifies this
      ensures Valid() && pending == [] && ledger.pushed == old(ledger.pushed)
      ensures r.Ok? ==> ledger.failed == [] && ledger.undelivered == old(ledger.undelivered)
      ensures r.Ok? && ledger.undelivered == [] ==>
        (ledger.AllAcked() <==> ledger.skipped == [])
      ensures r.Ok? && ledger.undelivered == [] && OnePerAction(respond) ==> ledger.AllAcked()
      ensures r.Ok? ==> r.value == report && report.actions == |ledger.pushed|
      ensures r.Err? && r.error.ItemsFailed? ==> r.error.failed == |ledger.failed| > 0
      ensures r.Err? && r.error.RequestFailed? ==> LastRefused()
    {
      var flushed := Flush();
      if flushed.Err? {
        return Err(flushed.error);
      }
      if report.failed > 0 {
        return Err(ItemsFailed(report.failed, report.actions));
      }
      if ledger.undelivered == [] {
        AckedIffNothingSkipped(ledger);
      }
      r := Ok(report);
    }
  }

  // ---- where the code falls short --------------------------------------------------------

  lemma {:induction false} NoVerdicts(respond: Server, requests: seq<Sent>)
    requires forall n: nat, batch: seq<Encoded> :: respond(n, batch) == Mixed([])
    ensures Judged(respond, requests).acked == [] && Judged(respond, requests).failed == []
    decreases |requests|
  {
    if requests != [] {
      var k := |requests| - 1;
      NoVerdicts(respond, requests[..k]);
      assert respond(k, requests[k].batch) == Mixed([]);
    }
  }

  /** A server that answers without verdicts: the write of one action succeeds,
      with no failure reported, and the action was not acknowledged. */
  method ShortReplyLosesAction(limits: BulkLimits, enc: Encoded)
    returns (r: Result<BulkReport, BulkError>, ghost acked: seq<Encoded>)
    ensures r.Ok? && r.value.actions == 1 && r.value.failed == 0 && acked == []
  {
    var respond: Server := (n: nat, batch: seq<Encoded>) => Mixed([]);
    var writer := new BulkWriter(limits, respond);
    var pushed := writer.Push(enc);
    var finished := writer.Finish();
    NoVerdicts(respond, writer.requests);
    r, acked := finished, writer.ledger.acked;
  }
}
