/**
 The cache of slot leaders fetched over RPC (cluster-endpoints/src/json_rpc_leaders_getter.rs).
 The cluster answers with its leader of each slot, or the call fails.
 */
module LeaderCache {
  import opened Common

  datatype LeaderData = LeaderData(leaderSlot: Slot, pubkey: Pubkey)

  /** What the chain answers for a run of slots. */
  function Leaders(chain: Slot -> Pubkey, first: Slot, count: nat): (r: seq<LeaderData>)
    ensures |r| == count && forall i :: 0 <= i < count ==> r[i] == LeaderData(first + i, chain(first + i))
  {
    seq(count, i requires 0 <= i < count => LeaderData(first + i, chain(first + i)))
  }

  /** A contiguous run of cached slots. */
  datatype Window = Window(first: Slot, count: nat)

  datatype Config = Config(leadersToCache: nat, oldSlots: nat)

  /** The window without the slots before the bound. */
  function Trimmed(w: Window, bound: Slot): Window {
    if w.first < bound then
      var dropped := if bound - w.first < w.count then bound - w.first else w.count;
      Window(w.first + dropped, w.count - dropped)
    else w
  }

  /** The window after it was extended up to the slots needed. */
  function Extended(w: Window, slot: Slot, cfg: Config): Window {
    if w.count == 0 then Window(slot, cfg.leadersToCache)
    else if slot + cfg.leadersToCache >= w.first + w.count then Window(w.first, slot + cfg.leadersToCache - w.first)
    else w
  }

  /** Whether the update asks the cluster. */
  predicate Fetches(w: Window, slot: Slot, cfg: Config) {
    w.count == 0 || slot + cfg.leadersToCache >= w.first + w.count
  }

  function Update(w: Window, slot: Slot, cfg: Config, rpcOk: bool): (Window, bool) {
    var trimmed := Trimmed(w, SaturatingSub(slot, cfg.oldSlots));
    if Fetches(trimmed, slot, cfg) && !rpcOk then (trimmed, false) else (Extended(trimmed, slot, cfg), true)
  }

  datatype Request = Request(from: Slot, to: Slot, rpcOk: bool)

  predicate ValidRequest(r: Request, cfg: Config) {
    r.from < r.to && r.to - r.from <= cfg.leadersToCache
  }

  predicate Covers(w: Window, from: Slot, to: Slot) {
    w.count > 0 && w.first <= from && to <= w.first + w.count - 1
  }

  /** The window after a request, and whether the request succeeded. */
  function Served(w: Window, r: Request, cfg: Config): (Window, bool) {
    if !ValidRequest(r, cfg) then (w, false)
    else if Covers(w, r.from, r.to) then (w, true)
    else Update(w, r.from, cfg, r.rpcOk)
  }

  /** The cached leaders of the requested slots. */
  function Answer(chain: Slot -> Pubkey, w: Window, r: Request): seq<LeaderData>
    requires r.from <= r.to
  {
    var low := if w.first < r.from then r.from else w.first;
    var high := if w.first + w.count < r.to + 1 then w.first + w.count else r.to + 1;
    Leaders(chain, low, SaturatingSub(high, low))
  }

  class JsonRpcLeaderGetter {
    var leaderSchedule: seq<LeaderData>
    const config: Config

    /** The cluster's leader of each slot. */
    const chain: Slot -> Pubkey

    ghost var window: Window

    ghost predicate Valid()
      reads this
    {
      leaderSchedule == Leaders(chain, window.first, window.count)
    }

    constructor (config: Config, chain: Slot -> Pubkey)
      ensures Valid() && leaderSchedule == [] && this.config == config && this.chain == chain && window == Window(0, 0)
    {
      this.config, this.chain := config, chain;
      leaderSchedule, window := [], Window(0, 0);
    }

    /** The loop that removes old leaders from the front. */
    method RemoveOld(slot: Slot)
      requires Valid()
      modifies this
      ensures Valid() && window == Trimmed(old(window), SaturatingSub(slot, config.oldSlots))
    {
      var bound := SaturatingSub(slot, config.oldSlots);
      while leaderSchedule != [] && leaderSchedule[0].leaderSlot < bound
        invariant Valid()
        invariant window.first >= old(window).first
          && window.first + window.count == old(window).first + old(window).count
        invariant window.first > old(window).first ==> window.first <= bound
        decreases |leaderSchedule|
      {
        leaderSchedule := leaderSchedule[1..];
        window := Window(window.first + 1, window.count - 1);
      }
    }

    method PushBack(leader: LeaderData)
      requires Valid() && leader == LeaderData(window.first + window.count, chain(window.first + window.count))
      modifies this
      ensures Valid() && window == Window(old(window).first, old(window).count + 1)
    {
      leaderSchedule := leaderSchedule + [leader];
      window := Window(window.first, window.count + 1);
    }

    method UpdateLeaderSchedule(slot: Slot, rpcOk: bool) returns (ok: bool)
      requires Valid()
      modifies this
      ensures Valid() && (window, ok) == Update(old(window), slot, config, rpcOk)
    {
      RemoveOld(slot);
      ghost var trimmed := window;
      var lastSlotNeeded := slot + config.leadersToCache;
      var firstSlotToFetch :=
        if leaderSchedule == [] then slot else leaderSchedule[|leaderSchedule| - 1].leaderSlot + 1;
      if lastSlotNeeded >= firstSlotToFetch {
        if !rpcOk {
          return false;
        }
        var leaders := Leaders(chain, firstSlotToFetch, lastSlotNeeded - firstSlotToFetch);
        window := if window.count == 0 then Window(slot, 0) else window;
        for leaderSlot := firstSlotToFetch to lastSlotNeeded
          invariant Valid() && window.first + window.count == leaderSlot
          invariant window.first == if trimmed.count == 0 then slot else trimmed.first
        {
          PushBack(LeaderData(leaderSlot, leaders[leaderSlot - firstSlotToFetch].pubkey));
        }
      }
      ok := true;
    }

    method GetSlotLeaders(r: Request) returns (answer: Option<seq<LeaderData>>)
      requires Valid()
      modifies this
      ensures Valid() && window == Served(old(window), r, config).0
      ensures answer == if Served(old(window), r, config).1 then Some(Answer(chain, window, r)) else None
    {
      if r.to <= r.from || SaturatingSub(r.to, r.from) > config.leadersToCache {
        return None;
      }
      if leaderSchedule == [] || leaderSchedule[0].leaderSlot > r.from
        || leaderSchedule[|leaderSchedule| - 1].leaderSlot < r.to {
        var ok := UpdateLeaderSchedule(r.from, r.rpcOk);
        if !ok {
          return None;
        }
      }
      var found := Select(leaderSchedule, r.from, r.to);
      SelectIsAnswer(chain, window, r);
      answer := Some(found);
    }
  }

  /** The final filter over the queue. */
  function Select(queue: seq<LeaderData>, from: Slot, to: Slot): seq<LeaderData> {
    if queue == [] then []
    else
      Select(queue[..|queue| - 1], from, to) +
        if from <= queue[|queue| - 1].leaderSlot <= to then [queue[|queue| - 1]] else []
  }

  /** One more cached slot adds its leader to the answer if it is in the range. */
  lemma {:induction false} AnswerGrows(chain: Slot -> Pubkey, first: Slot, count: nat, r: Request)
    requires r.from <= r.to
    ensures Answer(chain, Window(first, count + 1), r) == Answer(chain, Window(first, count), r) +
      if r.from <= first + count <= r.to then [LeaderData(first + count, chain(first + count))] else []
  {
  }

  lemma {:induction false} SelectIsAnswer(chain: Slot -> Pubkey, w: Window, r: Request)
    requires r.from <= r.to
    ensures Select(Leaders(chain, w.first, w.count), r.from, r.to) == Answer(chain, w, r)
    decreases w.count
  {
    if w.count > 0 {
      var shorter := Leaders(chain, w.first, w.count - 1);
      SelectIsAnswer(chain, Window(w.first, w.count - 1), r);
      AnswerGrows(chain, w.first, w.count - 1, r);
      assert Leaders(chain, w.first, w.count)[..w.count - 1] == shorter;
    }
  }

  // ----- what is answered

  /** Exactly one leader for each slot of the range, as the chain would answer. */
  function Complete(chain: Slot -> Pubkey, r: Request): seq<LeaderData>
    requires r.from <= r.to
  {
    Leaders(chain, r.from, r.to - r.from + 1)
  }

  lemma {:induction false} AnswerComplete(chain: Slot -> Pubkey, w: Window, r: Request)
    requires r.from <= r.to
    ensures Answer(chain, w, r) == Complete(chain, r) <==> Covers(w, r.from, r.to)
  {
    var a, c := Answer(chain, w, r), Complete(chain, r);
    if |a| == |c| && a == c { assert a[0] == c[0]; }
  }

  /**
   A successful answer is complete exactly if the cache does not start after the range and either
   the range is shorter than the cache count or the cache reaches its end already.
   */
  lemma {:induction false} AnswerCompleteIff(chain: Slot -> Pubkey, w: Window, r: Request, cfg: Config)
    requires Served(w, r, cfg).1
    ensures Answer(chain, Served(w, r, cfg).0, r) == Complete(chain, r) <==>
      && (w.count == 0 || w.first <= r.from)
      && (r.to - r.from < cfg.leadersToCache || (w.count > 0 && r.to <= w.first + w.count - 1))
  {
    AnswerComplete(chain, Served(w, r, cfg).0, r);
  }

  function Run(requests: seq<Request>, cfg: Config): Window {
    if requests == [] then Window(0, 0)
    else Served(Run(requests[..|requests| - 1], cfg), requests[|requests| - 1], cfg).0
  }

  ghost predicate NonDecreasing(requests: seq<Request>) {
    forall i, j :: 0 <= i < j < |requests| ==> requests[i].from <= requests[j].from
  }

  /** With non-decreasing starts the cache never begins after the last requested start. */
  lemma {:induction false} CacheStartsEarly(requests: seq<Request>, cfg: Config, from: Slot)
    requires NonDecreasing(requests) && (requests != [] ==> requests[|requests| - 1].from <= from)
    ensures Run(requests, cfg).count == 0 || Run(requests, cfg).first <= from
  {
    if requests != [] {
      CacheStartsEarly(requests[..|requests| - 1], cfg, requests[|requests| - 1].from);
    }
  }

  /**
   For every run of requests with non-decreasing starts, a successful answer is what the chain would
   answer directly.
   */
  lemma {:induction false} AnswersAreComplete(chain: Slot -> Pubkey, requests: seq<Request>, r: Request, cfg: Config)
    requires NonDecreasing(requests + [r]) && r.to - r.from < cfg.leadersToCache
    requires Served(Run(requests, cfg), r, cfg).1
    ensures Answer(chain, Run(requests + [r], cfg), r) == Complete(chain, r)
  {
    assert (requests + [r])[..|requests|] == requests;
    if requests != [] { assert (requests + [r])[|requests| - 1].from <= (requests + [r])[|requests|].from; }
    assert NonDecreasing(requests) by { assert forall i :: 0 <= i < |requests| ==> requests[i] == (requests + [r])[i]; }
    CacheStartsEarly(requests, cfg, r.from);
    AnswerCompleteIff(chain, Run(requests, cfg), r, cfg);
  }

  /** A range as long as the cache count is accepted, and from an empty cache it lacks its last slot. */
  lemma {:induction false} FullRangeLacksLastSlot(chain: Slot -> Pubkey, from: Slot, cfg: Config)
    requires cfg.leadersToCache > 0
    ensures var r := Request(from, from + cfg.leadersToCache, true);
      Served(Window(0, 0), r, cfg).1 && Answer(chain, Served(Window(0, 0), r, cfg).0, r)
        == Leaders(chain, from, cfg.leadersToCache) != Complete(chain, r)
  {
    var r := Request(from, from + cfg.leadersToCache, true);
    AnswerCompleteIff(chain, Window(0, 0), r, cfg);
  }

  // ----- when a request succeeds, and which slots are cached

  predicate Cached(w: Window, slot: Slot) {
    w.first <= slot < w.first + w.count
  }

  /** Trimming drops exactly the slots before the bound. */
  lemma {:induction false} TrimmedSlots(w: Window, bound: Slot, slot: Slot)
    ensures Cached(Trimmed(w, bound), slot) <==> Cached(w, slot) && slot >= bound
  {
  }

  /** An update that works drops what is too old and appends what is missing up to the cache count. */
  lemma {:induction false} UpdatedSlots(w: Window, from: Slot, cfg: Config, rpcOk: bool, slot: Slot)
    ensures var bound := if from > cfg.oldSlots then from - cfg.oldSlots else 0;
      var kept := Cached(w, slot) && slot >= bound;
      var empty := w.count == 0 || w.first + w.count <= bound;
      var (after, ok) := Update(w, from, cfg, rpcOk);
      Cached(after, slot) <==>
        kept || (ok && (if empty then from else w.first + w.count) <= slot < from + cfg.leadersToCache)
  {
  }

  /**
   A request succeeds exactly if its range is valid and either it is cached as a whole, or the cluster
   answers, or the cache reaches beyond everything that would be fetched.
   */
  lemma {:induction false} SucceedsIff(w: Window, r: Request, cfg: Config)
    ensures Served(w, r, cfg).1 <==>
      && r.from < r.to <= r.from + cfg.leadersToCache
      && (|| (Cached(w, r.from) && Cached(w, r.to))
          || r.rpcOk
          || (w.count > 0 && w.first + w.count > r.from + cfg.leadersToCache))
  {
  }

  /** A request that is refused, or that the cache covers, changes nothing. */
  lemma {:induction false} CacheUntouched(w: Window, r: Request, cfg: Config)
    ensures r.to <= r.from || r.to > r.from + cfg.leadersToCache || (Cached(w, r.from) && Cached(w, r.to)) ==>
      Served(w, r, cfg).0 == w
  {
  }
}
