/** The vocabulary of the job-routing protocol: peers, capacities, jobs and the wire messages. */
module P2PTypes {
  import opened Ids
  import opened Options

  type ConnId = nat

  datatype Role = Provider | Renter

  /** What a provider advertises about its machine, besides its own peer id. */
  datatype Capacity = Capacity(gpuModel: string, vramGb: int, priceHalalaHr: int, announcedAt: int)

  /** One row of a PEER_LIST: a provider that registered without a capacity is listed bare. */
  datatype Entry = Entry(peer: PeerId, capacity: Option<Capacity>)

  datatype JobSpec = JobSpec(jobId: JobId, renter: PeerId, minVramGb: int, maxPriceHalalaHr: int, timeoutSecs: int)

  datatype Bid = Bid(jobId: JobId, provider: PeerId, renter: PeerId,
                     priceHalalaHr: int, vramGb: int, estimatedCostHalala: int)

  datatype Accept = Accept(jobId: JobId, provider: PeerId, renter: PeerId, agreedPriceHalalaHr: int)

  datatype Result = Result(jobId: JobId, provider: PeerId, renter: PeerId,
                           success: bool, output: string, durationSecs: int, costHalala: int)

  datatype Msg =
    | PeerHello(role: Role, hello: Option<Capacity>)
    | PeerList(entries: seq<Entry>)
    | AnnounceCapacity(peer: PeerId, capacity: Capacity)
    | PeerBye(gone: PeerId)
    | JobRequest(spec: JobSpec)
    | JobBid(bid: Bid)
    | JobAccept(accept: Accept)
    | JobResult(result: Result)

  /** Python's `int(a / b)`: the quotient truncated toward zero. */
  function TruncDiv(a: int, b: int): int
    requires b > 0
  {
    if a >= 0 then a / b else -((-a) / b)
  }

  /** Price per hour times seconds, in whole halala. */
  function CostHalala(priceHalalaHr: int, secs: int): int {
    TruncDiv(priceHalalaHr * secs, 3600)
  }

  /** Seconds at a price per hour of 3600 seconds, cut off toward zero. */
  predicate IsCost(cost: int, priceHalalaHr: int, secs: int) {
    var due := priceHalalaHr * secs;
    if due >= 0 then 3600 * cost <= due < 3600 * (cost + 1) else 3600 * (cost - 1) < due <= 3600 * cost
  }

  lemma CostIsCharged(priceHalalaHr: int, secs: int)
    ensures IsCost(CostHalala(priceHalalaHr, secs), priceHalalaHr, secs)
  {
  }

  /** And no other amount is. */
  lemma OnlyCostIsCharged(cost: int, priceHalalaHr: int, secs: int)
    requires IsCost(cost, priceHalalaHr, secs)
    ensures cost == CostHalala(priceHalalaHr, secs)
  {
  }

  lemma TruncDivMonotone(a: int, b: int, d: int)
    requires d > 0 && a <= b
    ensures TruncDiv(a, d) <= TruncDiv(b, d)
  {
    if 0 <= a {
      DivMonotone(a, b, d);
    } else if b < 0 {
      DivMonotone(-b, -a, d);
    } else {
      DivMonotone(0, -a, d);
      DivMonotone(0, b, d);
    }
  }

  lemma DivMonotone(a: int, b: int, d: int)
    requires d > 0 && 0 <= a <= b
    ensures 0 <= a / d <= b / d
  {
    assert (a / d) * d <= a;
    assert b < (b / d + 1) * d;
    MulCancel(a / d, b / d + 1, d);
  }

  lemma MulCancel(x: int, y: int, d: int)
    requires d > 0 && x * d < y * d
    ensures x < y
  {
  }

  /** A longer run never costs less at a price that is not negative, and never more at one that is not positive. */
  lemma CostMonotone(priceHalalaHr: int, secs: int, more: int)
    requires secs <= more
    ensures 0 <= priceHalalaHr ==> CostHalala(priceHalalaHr, secs) <= CostHalala(priceHalalaHr, more)
    ensures priceHalalaHr <= 0 ==> CostHalala(priceHalalaHr, more) <= CostHalala(priceHalalaHr, secs)
  {
    if 0 <= priceHalalaHr {
      assert priceHalalaHr * secs <= priceHalalaHr * more;
      TruncDivMonotone(priceHalalaHr * secs, priceHalalaHr * more, 3600);
    }
    if priceHalalaHr <= 0 {
      assert priceHalalaHr * more <= priceHalalaHr * secs;
      TruncDivMonotone(priceHalalaHr * more, priceHalalaHr * secs, 3600);
    }
  }

  /** Which of two durations costs no more, at any price: the order of price and durations decides, up to a tie. */
  lemma CostAtMostIff(priceHalalaHr: int, secs: int, limit: int)
    ensures CostHalala(priceHalalaHr, secs) <= CostHalala(priceHalalaHr, limit) <==>
      || (0 <= priceHalalaHr && secs <= limit)
      || (priceHalalaHr <= 0 && limit <= secs)
      || CostHalala(priceHalalaHr, secs) == CostHalala(priceHalalaHr, limit)
  {
    if secs <= limit {
      CostMonotone(priceHalalaHr, secs, limit);
    } else {
      CostMonotone(priceHalalaHr, limit, secs);
    }
  }
}
