/** manager/registration.go: one registered collection, its live value and its staged values. */
module Registration {
  import opened Wrappers
  import opened Versions
  import opened Tables

  type Item(==, !new, 0)

  /** What a replica is configured with: JSON both ways, per-item defaults, the validator. */
  datatype Codec = Codec(decode: Bytes -> Option<seq<Item>>,
                         encode: seq<Item> -> Option<Bytes>,
                         defaults: Item -> Item,
                         validates: seq<Item> -> bool)

  /** `expires == None` is the zero expiry: held until commit or abort. */
  datatype Staged = Staged(ver: Version, items: seq<Item>, expires: Option<int>)

  datatype Reg = Reg(ver: Version, items: seq<Item>, staged: map<string, Staged>)

  const FRESH := Reg(UNSET, [], map[])

  datatype Outcome = Ok | Undecodable | Rejected | NotStaged | HookPanicked

  function WithDefaults(c: Codec, items: seq<Item>): (r: seq<Item>)
    ensures |r| == |items|
  {
    seq(|items|, i requires 0 <= i < |items| => c.defaults(items[i]))
  }

  /** Decode, fill defaults, validate: what both ways of taking stored bytes agree on. */
  function Accept(c: Codec, data: Bytes): Option<seq<Item>> {
    match c.decode(data)
    case None => None
    case Some(raw) =>
      if c.validates(WithDefaults(c, raw)) then Some(WithDefaults(c, raw)) else None
  }

  function Refusal(c: Codec, data: Bytes): Outcome {
    if c.decode(data).None? then Undecodable else Rejected
  }

  /** Publishing happens before hooks run, so a panicking hook changes only the outcome. */
  function AfterSwap(c: Codec, r: Reg, ver: Version, data: Bytes, panics: bool): (Reg, Outcome) {
    match Accept(c, data)
    case None => (r, Refusal(c, data))
    case Some(items) => (r.(ver := ver, items := items), if panics then HookPanicked else Ok)
  }

  function Expiry(now: int, ttl: nat): Option<int> {
    if ttl > 0 then Some(now + ttl) else None
  }

  function StashIn(r: Reg, round: string, s: Staged): Reg {
    r.(staged := r.staged[round := s])
  }

  function Unstage(r: Reg, round: string): Reg {
    r.(staged := r.staged - {round})
  }

  function AfterStage(c: Codec, r: Reg, ver: Version, round: string, data: Bytes, now: int, ttl: nat): (Reg, Outcome) {
    match Accept(c, data)
    case None => (r, Refusal(c, data))
    case Some(items) => (StashIn(r, round, Staged(ver, items, Expiry(now, ttl))), Ok)
  }

  /** What the leader stages and hands to SaveSnapshot, from freshly listed items. */
  function AfterFetch(c: Codec, r: Reg, ver: Version, round: string, listed: seq<Item>, now: int, ttl: nat)
    : (Reg, Option<Bytes>)
  {
    var items := WithDefaults(c, listed);
    if !c.validates(items) || c.encode(items).None? then (r, None)
    else (StashIn(r, round, Staged(ver, items, Expiry(now, ttl))), c.encode(items))
  }

  /** The leader holds the staged value itself (`s`), not only its round. */
  function AfterCommitStaged(r: Reg, round: string, s: Staged, panics: bool): (Reg, Outcome) {
    if round !in r.staged then (r, NotStaged)
    else
      (Reg(s.ver, s.items, if r.staged[round] == s then r.staged - {round} else r.staged),
       if panics then HookPanicked else Ok)
  }

  function AfterCommitByRound(r: Reg, round: string, panics: bool): (Reg, Outcome) {
    if round !in r.staged then (r, NotStaged)
    else
      (Reg(r.staged[round].ver, r.staged[round].items, r.staged - {round}),
       if panics then HookPanicked else Ok)
  }

  predicate Expired(s: Staged, now: int) {
    s.expires.Some? && s.expires.value <= now
  }

  function AfterSweep(r: Reg, now: int): Reg {
    r.(staged := map k | k in r.staged && !Expired(r.staged[k], now) :: r.staged[k])
  }

  /** `xs` is `raw`, item by item, with the codec's defaults filled in. */
  ghost predicate FilledIn(c: Codec, raw: seq<Item>, xs: seq<Item>) {
    |xs| == |raw| && forall i :: 0 <= i < |raw| ==> xs[i] == c.defaults(raw[i])
  }

  lemma FillsIn(c: Codec, raw: seq<Item>)
    ensures forall xs :: FilledIn(c, raw, xs) <==> xs == WithDefaults(c, raw)
  {
  }

  /** Stored bytes are served as their decoded items with the defaults filled in, if and only if
      they decode and the validator accepts that very sequence; anything else changes nothing.
      Staging them asks the same and stashes the same items. */
  lemma TakesFilledIn(c: Codec, r: Reg, ver: Version, data: Bytes, round: string, panics: bool, now: int, ttl: nat)
    ensures c.decode(data).None? ==>
              AfterSwap(c, r, ver, data, panics) == (r, Undecodable)
              && AfterStage(c, r, ver, round, data, now, ttl) == (r, Undecodable)
    ensures c.decode(data).Some? ==>
              forall xs :: FilledIn(c, c.decode(data).value, xs) ==>
                if c.validates(xs) then
                  && AfterSwap(c, r, ver, data, panics) == (Reg(ver, xs, r.staged), if panics then HookPanicked else Ok)
                  && AfterStage(c, r, ver, round, data, now, ttl) ==
                     (r.(staged := r.staged[round := Staged(ver, xs, if ttl > 0 then Some(now + ttl) else None)]), Ok)
                else
                  && AfterSwap(c, r, ver, data, panics) == (r, Rejected)
                  && AfterStage(c, r, ver, round, data, now, ttl) == (r, Rejected)
  {
    if c.decode(data).Some? {
      FillsIn(c, c.decode(data).value);
    }
  }

  /** What the leader stages and what it hands to storage are both the listed items with the
      defaults filled in, and nothing is staged unless they validate and encode. */
  lemma FetchesFilledIn(c: Codec, r: Reg, ver: Version, round: string, listed: seq<Item>, now: int, ttl: nat)
    ensures forall xs :: FilledIn(c, listed, xs) ==>
              AfterFetch(c, r, ver, round, listed, now, ttl) ==
                if c.validates(xs) && c.encode(xs).Some? then
                  (r.(staged := r.staged[round := Staged(ver, xs, if ttl > 0 then Some(now + ttl) else None)]),
                   c.encode(xs))
                else (r, None)
  {
    FillsIn(c, listed);
  }

  /** After a sweep at `now` everything left outlives `now`, what was stashed with a TTL lapses
      at most that long after it was stashed, and what was stashed without one never lapses. */
  lemma SweepKeepsTheLiving(r: Reg, now: int, round: string, at: int, ttl: nat)
    ensures var s := AfterSweep(r, now);
            && (forall k :: k in s.staged ==> k in r.staged && s.staged[k] == r.staged[k] && !Expired(s.staged[k], now))
            && (forall k :: k in r.staged && k !in s.staged ==> Expired(r.staged[k], now))
    ensures round in r.staged && r.staged[round].expires == Expiry(at, ttl) ==>
              (round in AfterSweep(r, now).staged <==> ttl == 0 || now < at + ttl)
  {
  }

  /** A staged value goes live at most once: the second commit of a round finds nothing, and so
      does a commit after an abort or after the sweep that dropped it. */
  lemma CommitsOnce(r: Reg, round: string, p: bool, q: bool, now: int)
    ensures var s := AfterCommitByRound(r, round, p).0; AfterCommitByRound(s, round, q) == (s, NotStaged)
    ensures AfterCommitByRound(Unstage(r, round), round, q) == (Unstage(r, round), NotStaged)
    ensures round in r.staged && Expired(r.staged[round], now) ==>
              AfterCommitByRound(AfterSweep(r, now), round, q) == (AfterSweep(r, now), NotStaged)
    ensures round in r.staged ==>
              var (s, _) := AfterCommitByRound(r, round, p);
              s.ver == r.staged[round].ver && s.items == r.staged[round].items
              && forall k :: k != round ==>
                   (k in s.staged <==> k in r.staged) && (k in s.staged ==> s.staged[k] == r.staged[k])
  {
  }

  class CollectionReg {
    const name: string
    const codec: Codec
    var ver: Version
    var items: seq<Item>
    var staged: map<string, Staged>

    constructor (name: string, codec: Codec)
      ensures this.name == name && this.codec == codec && View() == FRESH
    {
      this.name, this.codec := name, codec;
      ver, items, staged := UNSET, [], map[];
    }

    function View(): Reg
      reads this
    {
      Reg(ver, items, staged)
    }

    /** Overwrites each item with its defaulted self. */
    method ApplyDefaults(items: array<Item>)
      modifies items
      ensures items[..] == WithDefaults(codec, old(items[..]))
      ensures forall i :: 0 <= i < items.Length ==> items[i] == codec.defaults(old(items[i]))
    {
      for i := 0 to items.Length
        invariant forall k :: 0 <= k < i ==> items[k] == codec.defaults(old(items[k]))
        invariant forall k :: i <= k < items.Length ==> items[k] == old(items[k])
      {
        items[i] := codec.defaults(items[i]);
      }
    }

    /** Unmarshal, defaults, validator; None with the reason when the bytes are refused. */
    method Take(data: Bytes) returns (got: Option<seq<Item>>, why: Outcome)
      ensures got == Accept(codec, data)
      ensures why == if got.Some? then Ok else Refusal(codec, data)
    {
      var decoded := codec.decode(data);
      if decoded.None? {
        return None, Undecodable;
      }
      var xs := decoded.value;
      var buf := new Item[|xs|](i requires 0 <= i < |xs| => xs[i]);
      assert buf[..] == xs;
      ApplyDefaults(buf);
      if !codec.validates(buf[..]) {
        return None, Rejected;
      }
      return Some(buf[..]), Ok;
    }

    /** Publishes, then runs the change hooks: a panic is an error with the value live. */
    method Swap(v: Version, xs: seq<Item>, panics: bool) returns (out: Outcome)
      modifies this`ver, this`items
      ensures View() == Reg(v, xs, old(staged)) && out == if panics then HookPanicked else Ok
    {
      ver, items := v, xs;
      out := if panics then HookPanicked else Ok;
    }

    method SwapFromBytes(v: Version, data: Bytes, panics: bool) returns (out: Outcome)
      modifies this`ver, this`items
      ensures (View(), out) == AfterSwap(codec, old(View()), v, data, panics)
      ensures codec.decode(data).None? ==> View() == old(View()) && out == Undecodable
      ensures codec.decode(data).Some? ==>
                forall xs :: FilledIn(codec, codec.decode(data).value, xs) ==>
                  if codec.validates(xs)
                  then ver == v && items == xs && out == (if panics then HookPanicked else Ok)
                  else View() == old(View()) && out == Rejected
    {
      TakesFilledIn(codec, View(), v, data, "", panics, 0, 0);
      var got;
      got, out := Take(data);
      if got.Some? {
        out := Swap(v, got.value, panics);
      }
    }

    method Stash(v: Version, round: string, xs: seq<Item>, now: int, ttl: nat) returns (s: Staged)
      modifies this`staged
      ensures s == Staged(v, xs, Expiry(now, ttl)) && View() == StashIn(old(View()), round, s)
      ensures s.expires == if ttl > 0 then Some(now + ttl) else None
      ensures staged == old(staged)[round := s]
    {
      s := Staged(v, xs, None);
      if ttl > 0 {
        s := s.(expires := Some(now + ttl));
      }
      staged := staged[round := s];
    }

    method StageFromBytes(v: Version, round: string, data: Bytes, now: int, ttl: nat) returns (out: Outcome)
      modifies this`staged
      ensures (View(), out) == AfterStage(codec, old(View()), v, round, data, now, ttl)
      ensures codec.decode(data).None? ==> staged == old(staged) && out == Undecodable
      ensures codec.decode(data).Some? ==>
                forall xs :: FilledIn(codec, codec.decode(data).value, xs) ==>
                  if codec.validates(xs) then
                    && staged == old(staged)[round := Staged(v, xs, if ttl > 0 then Some(now + ttl) else None)]
                    && out == Ok
                  else staged == old(staged) && out == Rejected
    {
      TakesFilledIn(codec, View(), v, data, round, false, now, ttl);
      var got;
      got, out := Take(data);
      if got.Some? {
        var _ := Stash(v, round, got.value, now, ttl);
      }
    }

    method FetchAndStage(v: Version, round: string, listed: seq<Item>, now: int, ttl: nat)
      returns (content: Option<Bytes>)
      modifies this`staged
      ensures (View(), content) == AfterFetch(codec, old(View()), v, round, listed, now, ttl)
      ensures forall xs :: FilledIn(codec, listed, xs) ==>
                if codec.validates(xs) && codec.encode(xs).Some? then
                  && staged == old(staged)[round := Staged(v, xs, if ttl > 0 then Some(now + ttl) else None)]
                  && content == codec.encode(xs)
                else staged == old(staged) && content == None
    {
      FetchesFilledIn(codec, View(), v, round, listed, now, ttl);
      var fetched := new Item[|listed|](i requires 0 <= i < |listed| => listed[i]);
      assert fetched[..] == listed;
      ApplyDefaults(fetched);
      if !codec.validates(fetched[..]) {
        return None;
      }
      content := codec.encode(fetched[..]);
      if content.Some? {
        var _ := Stash(v, round, fetched[..], now, ttl);
      }
    }

    /** The sweep of the staging map at `now`; the rounds it lost are the result. */
    method DropExpiredStages(now: int) returns (dropped: set<string>)
      modifies this`staged
      ensures View() == AfterSweep(old(View()), now)
      ensures forall k :: k in staged <==>
                k in old(staged) && (old(staged)[k].expires.None? || now < old(staged)[k].expires.value)
      ensures forall k :: k in staged ==> staged[k] == old(staged)[k]
      ensures dropped == old(staged).Keys - staged.Keys
    {
      dropped := {};
      var todo := staged.Keys;
      while todo != {}
        invariant todo <= old(staged).Keys && dropped <= old(staged).Keys - todo
        invariant forall k :: k in dropped <==> k in old(staged).Keys - todo && Expired(old(staged)[k], now)
        invariant staged == map k | k in old(staged) && k !in dropped :: old(staged)[k]
      {
        var k :| k in todo;
        todo := todo - {k};
        if staged[k].expires.Some? && staged[k].expires.value <= now {
          staged := staged - {k};
          dropped := dropped + {k};
        }
      }
    }

    method CommitStaged(round: string, s: Staged, panics: bool) returns (out: Outcome)
      modifies this
      ensures (View(), out) == AfterCommitStaged(old(View()), round, s, panics)
      ensures round !in old(staged) ==> View() == old(View()) && out == NotStaged
      ensures round in old(staged) ==>
                && ver == s.ver && items == s.items && out == (if panics then HookPanicked else Ok)
                && staged == if old(staged)[round] == s then old(staged) - {round} else old(staged)
    {
      if round !in staged {
        return NotStaged;
      }
      if staged[round] == s {
        staged := staged - {round};
      }
      out := Swap(s.ver, s.items, panics);
    }

    method CommitByRoundID(round: string, panics: bool) returns (out: Outcome)
      modifies this
      ensures (View(), out) == AfterCommitByRound(old(View()), round, panics)
      ensures round !in old(staged) ==> View() == old(View()) && out == NotStaged
      ensures round in old(staged) ==>
                && ver == old(staged)[round].ver && items == old(staged)[round].items
                && staged == old(staged) - {round} && out == (if panics then HookPanicked else Ok)
    {
      if round !in staged {
        return NotStaged;
      }
      var s := staged[round];
      staged := staged - {round};
      out := Swap(s.ver, s.items, panics);
    }

    method AbortByRoundID(round: string)
      modifies this`staged
      ensures View() == Unstage(old(View()), round)
      ensures staged == old(staged) - {round} && ver == old(ver) && items == old(items)
    {
      staged := staged - {round};
    }
  }
}
