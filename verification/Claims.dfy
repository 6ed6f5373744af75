/** Set-if-absent claims with an expiry, each taken before a handler is called, and
    what jobs that consume keyed items through them add up to. */
module Claims {

  const TTL_MS: int := 86_400 * 1000

  /** A handler call, and when its key was claimed. */
  datatype Call<T> = Call(item: T, at: int)

  datatype Store<T> = Store(claims: map<string, int>, calls: seq<Call<T>>)

  predicate Claimed(claims: map<string, int>, key: string, now: int) {
    key in claims && now < claims[key]
  }

  /** Claim, then call; `reaches` is false when the job stops between the two. */
  function Consume<T>(key: T -> string, st: Store<T>, item: T, now: int, reaches: bool): Store<T> {
    if Claimed(st.claims, key(item), now) then st
    else Store(st.claims[key(item) := now + TTL_MS], if reaches then st.calls + [Call(item, now)] else st.calls)
  }

  // -------------------------------------------------------------------------
  // Any interleaving of jobs, stops and retries
  // -------------------------------------------------------------------------

  datatype Event<T> = Event(item: T, at: int, reaches: bool)

  /** The store after the first n events. */
  function RunAll<T>(key: T -> string, st: Store<T>, events: seq<Event<T>>, n: nat): Store<T>
    requires n <= |events|
  {
    if n == 0 then st
    else
      var e := events[n - 1];
      Consume(key, RunAll(key, st, events, n - 1), e.item, e.at, e.reaches)
  }

  ghost predicate InOrder<T>(events: seq<Event<T>>) {
    forall i, j :: 0 <= i < j < |events| ==> events[i].at <= events[j].at
  }

  /** Every call has left a claim, and calls of one key are a lifetime apart. */
  ghost predicate CallsInv<T>(key: T -> string, st: Store<T>) {
    && (forall i :: 0 <= i < |st.calls| ==>
          key(st.calls[i].item) in st.claims && st.calls[i].at + TTL_MS <= st.claims[key(st.calls[i].item)])
    && (forall i, j :: 0 <= i < j < |st.calls| && key(st.calls[i].item) == key(st.calls[j].item) ==>
          st.calls[i].at + TTL_MS <= st.calls[j].at)
  }

  ghost predicate ClaimsUpTo<T>(st: Store<T>, now: int) {
    forall k :: k in st.claims ==> st.claims[k] <= now + TTL_MS
  }

  lemma {:induction false} RunKeeps<T>(key: T -> string, events: seq<Event<T>>, n: nat, now: int)
    requires InOrder(events) && n <= |events| && (n > 0 ==> events[n - 1].at <= now)
    ensures CallsInv(key, RunAll(key, Store(map[], []), events, n))
    ensures ClaimsUpTo(RunAll(key, Store(map[], []), events, n), now)
  {
    if n > 0 {
      var e := events[n - 1];
      RunKeeps(key, events, n - 1, e.at);
    }
  }

  /** No key reaches a handler twice within the lifetime of a claim, a day, whatever
      jobs run, stop midway, retry or interleave. */
  lemma AtMostOncePerLifetime<T>(key: T -> string, events: seq<Event<T>>, i: nat, j: nat)
    requires InOrder(events) && i < j < |RunAll(key, Store(map[], []), events, |events|).calls|
    requires var calls := RunAll(key, Store(map[], []), events, |events|).calls;
             key(calls[i].item) == key(calls[j].item)
    ensures var calls := RunAll(key, Store(map[], []), events, |events|).calls;
            calls[i].at + 24 * 60 * 60 * 1000 <= calls[j].at
  {
    RunKeeps(key, events, |events|, if events == [] then 0 else events[|events| - 1].at);
  }

  // -------------------------------------------------------------------------
  // A job that runs to its end
  // -------------------------------------------------------------------------

  /** The first n items of a job, consumed in order; claim k is taken at `clock(from + k)`. */
  function ConsumeFirst<T>(key: T -> string, st: Store<T>, items: seq<T>, n: nat, clock: nat -> int, from: nat): Store<T>
    requires n <= |items|
  {
    if n == 0 then st
    else Consume(key, ConsumeFirst(key, st, items, n - 1, clock, from), items[n - 1], clock(from + n - 1), true)
  }

  function ConsumeAll<T>(key: T -> string, st: Store<T>, items: seq<T>, clock: nat -> int, from: nat): Store<T> {
    ConsumeFirst(key, st, items, |items|, clock, from)
  }

  lemma {:induction false} PrefixSuffices<T>(
    key: T -> string, st: Store<T>, items: seq<T>, more: seq<T>, n: nat, clock: nat -> int, from: nat)
    requires n <= |items|
    ensures ConsumeFirst(key, st, items + more, n, clock, from) == ConsumeFirst(key, st, items, n, clock, from)
  {
    if n > 0 {
      PrefixSuffices(key, st, items, more, n - 1, clock, from);
    }
  }

  lemma {:induction false} ConsumeContinues<T>(
    key: T -> string, st: Store<T>, items: seq<T>, more: seq<T>, n: nat, clock: nat -> int, from: nat)
    requires n <= |more|
    ensures ConsumeFirst(key, st, items + more, |items| + n, clock, from)
         == ConsumeFirst(key, ConsumeAll(key, st, items, clock, from), more, n, clock, from + |items|)
  {
    if n > 0 {
      ConsumeContinues(key, st, items, more, n - 1, clock, from);
      assert from + (|items| + n) - 1 == (from + |items|) + n - 1;
    } else {
      PrefixSuffices(key, st, items, more, |items|, clock, from);
    }
  }

  // -------------------------------------------------------------------------
  // Items that come in batches
  // -------------------------------------------------------------------------

  /** The items of the first n batches. */
  function Flat<B, T>(batch: B -> seq<T>, list: seq<B>, n: nat): seq<T>
    requires n <= |list|
  {
    if n == 0 then [] else Flat(batch, list, n - 1) + batch(list[n - 1])
  }

  /** The store after the first n batches, each consumed whole. */
  function ConsumeBatches<B, T>(
    key: T -> string, batch: B -> seq<T>, st: Store<T>, list: seq<B>, n: nat, clock: nat -> int, from: nat): Store<T>
    requires n <= |list|
  {
    if n == 0 then st
    else
      ConsumeAll(key, ConsumeBatches(key, batch, st, list, n - 1, clock, from), batch(list[n - 1]), clock,
                 from + |Flat(batch, list, n - 1)|)
  }

  /** One batch more. */
  lemma NextBatch<B, T>(
    key: T -> string, batch: B -> seq<T>, st: Store<T>, list: seq<B>, n: nat, clock: nat -> int, from: nat, at: nat,
    items: seq<T>, end: Store<T>)
    requires n < |list| && at == from + |Flat(batch, list, n)| && items == batch(list[n])
    requires end == ConsumeAll(key, ConsumeBatches(key, batch, st, list, n, clock, from), items, clock, at)
    ensures at + |items| == from + |Flat(batch, list, n + 1)|
    ensures end == ConsumeBatches(key, batch, st, list, n + 1, clock, from)
  {
  }

  /** Batch by batch or flattened, the items are consumed the same way. */
  lemma {:induction false} BatchesFlatten<B, T>(
    key: T -> string, batch: B -> seq<T>, st: Store<T>, list: seq<B>, n: nat, clock: nat -> int, from: nat)
    requires n <= |list|
    ensures ConsumeBatches(key, batch, st, list, n, clock, from)
         == ConsumeAll(key, st, Flat(batch, list, n), clock, from)
  {
    if n > 0 {
      BatchesFlatten(key, batch, st, list, n - 1, clock, from);
      var items := batch(list[n - 1]);
      ConsumeContinues(key, st, Flat(batch, list, n - 1), items, |items|, clock, from);
    }
  }

  // -------------------------------------------------------------------------
  // What a whole job does
  // -------------------------------------------------------------------------

  ghost predicate Forward(clock: nat -> int, n: nat) {
    forall i, j :: 0 <= i <= j < n ==> clock(i) <= clock(j)
  }

  /** Item k is due: no claim from before the job covers it, and neither does a due
      item of the same key before it. */
  ghost predicate Due<T>(key: T -> string, st: Store<T>, items: seq<T>, clock: nat -> int, k: nat)
    requires k < |items|
    decreases k
  {
    && !Claimed(st.claims, key(items[k]), clock(k))
    && forall j | 0 <= j < k && key(items[j]) == key(items[k]) && Due(key, st, items, clock, j) ::
         clock(j) + TTL_MS <= clock(k)
  }

  /** A due item before n with this key is still within its lifetime at t. */
  ghost predicate Covered<T>(
    key: T -> string, st: Store<T>, items: seq<T>, clock: nat -> int, n: nat, name: string, t: int)
    requires n <= |items|
  {
    exists j :: 0 <= j < n && key(items[j]) == name && Due(key, st, items, clock, j) && t < clock(j) + TTL_MS
  }

  /** The due items, in the order of the payload. */
  ghost function DueCalls<T>(key: T -> string, st: Store<T>, items: seq<T>, clock: nat -> int, n: nat): seq<Call<T>>
    requires n <= |items|
  {
    if n == 0 then []
    else
      DueCalls(key, st, items, clock, n - 1)
      + if Due(key, st, items, clock, n - 1) then [Call(items[n - 1], clock(n - 1))] else []
  }

  /** What is claimed after n items, at any time from then on. */
  lemma {:induction false} JobClaims<T>(
    key: T -> string, st: Store<T>, items: seq<T>, clock: nat -> int, n: nat, name: string, t: int)
    requires n <= |items| && Forward(clock, |items|) && (n > 0 ==> clock(n - 1) <= t)
    ensures Claimed(ConsumeFirst(key, st, items, n, clock, 0).claims, name, t)
       <==> Claimed(st.claims, name, t) || Covered(key, st, items, clock, n, name, t)
    decreases n
  {
    if n > 0 {
      var item, now := items[n - 1], clock(n - 1);
      var before := ConsumeFirst(key, st, items, n - 1, clock, 0);
      JobClaims(key, st, items, clock, n - 1, name, t);
      if key(item) == name {
        JobClaims(key, st, items, clock, n - 1, name, now);
        assert Due(key, st, items, clock, n - 1) <==> !Claimed(before.claims, name, now);
        if Due(key, st, items, clock, n - 1) {
          assert !Claimed(before.claims, name, t);
          assert Covered(key, st, items, clock, n, name, t) <==> t < now + TTL_MS;
        } else {
          assert Covered(key, st, items, clock, n, name, t) <==> Covered(key, st, items, clock, n - 1, name, t);
        }
      } else {
        assert Covered(key, st, items, clock, n, name, t) <==> Covered(key, st, items, clock, n - 1, name, t);
      }
    }
  }

  lemma {:induction false} JobCalls<T>(key: T -> string, st: Store<T>, items: seq<T>, clock: nat -> int, n: nat)
    requires n <= |items| && Forward(clock, |items|)
    ensures ConsumeFirst(key, st, items, n, clock, 0).calls == st.calls + DueCalls(key, st, items, clock, n)
    decreases n
  {
    if n > 0 {
      JobCalls(key, st, items, clock, n - 1);
      JobClaims(key, st, items, clock, n - 1, key(items[n - 1]), clock(n - 1));
    }
  }

  /** A whole job calls exactly its due items, in payload order, and afterwards a key is
      claimed exactly when an older claim or a due item still covers it. */
  lemma JobMeaning<T>(key: T -> string, st: Store<T>, items: seq<T>, clock: nat -> int, name: string, t: int)
    requires Forward(clock, |items|) && (items != [] ==> clock(|items| - 1) <= t)
    ensures var end := ConsumeAll(key, st, items, clock, 0);
            && end.calls == st.calls + DueCalls(key, st, items, clock, |items|)
            && (Claimed(end.claims, name, t) <==>
                Claimed(st.claims, name, t) || Covered(key, st, items, clock, |items|, name, t))
  {
    JobCalls(key, st, items, clock, |items|);
    JobClaims(key, st, items, clock, |items|, name, t);
  }

  lemma {:induction false} DueIsCalled<T>(
    key: T -> string, st: Store<T>, items: seq<T>, clock: nat -> int, n: nat, k: nat)
    requires k < n <= |items| && Due(key, st, items, clock, k)
    ensures Call(items[k], clock(k)) in DueCalls(key, st, items, clock, n)
  {
    if k < n - 1 {
      DueIsCalled(key, st, items, clock, n - 1, k);
    }
  }

  /** The first item of a key that no claim covers when the job begins is handled. */
  lemma FirstOfKeyIsCalled<T>(key: T -> string, st: Store<T>, items: seq<T>, clock: nat -> int, k: nat)
    requires k < |items| && Forward(clock, |items|) && !Claimed(st.claims, key(items[k]), clock(0))
    requires forall j :: 0 <= j < k ==> key(items[j]) != key(items[k])
    ensures var calls := ConsumeAll(key, st, items, clock, 0).calls;
            exists c :: |st.calls| <= c < |calls| && calls[c].item == items[k]
  {
    var due := DueCalls(key, st, items, clock, |items|);
    var calls := ConsumeAll(key, st, items, clock, 0).calls;
    DueIsCalled(key, st, items, clock, |items|, k);
    JobCalls(key, st, items, clock, |items|);
    var c :| 0 <= c < |due| && due[c] == Call(items[k], clock(k));
    assert calls[|st.calls| + c] == due[c];
  }

  lemma {:induction false} CalledIsAnItem<T>(
    key: T -> string, st: Store<T>, items: seq<T>, clock: nat -> int, n: nat, call: Call<T>)
    requires n <= |items| && call in DueCalls(key, st, items, clock, n)
    ensures call.item in items
  {
    if call in DueCalls(key, st, items, clock, n - 1) {
      CalledIsAnItem(key, st, items, clock, n - 1, call);
    }
  }

  /** In a job no longer than a claim's lifetime, the due items are the first
      occurrences of the keys no older claim covers. */
  lemma {:induction false} DueIsFirstUnclaimed<T>(
    key: T -> string, st: Store<T>, items: seq<T>, clock: nat -> int, k: nat)
    requires k < |items| && Forward(clock, |items|) && clock(k) < clock(0) + TTL_MS
    ensures Due(key, st, items, clock, k) <==>
              && !Claimed(st.claims, key(items[k]), clock(k))
              && forall j :: 0 <= j < k && key(items[j]) == key(items[k]) ==>
                               Claimed(st.claims, key(items[j]), clock(j))
    decreases k
  {
    forall j | 0 <= j < k && key(items[j]) == key(items[k]) && !Claimed(st.claims, key(items[j]), clock(j))
      ensures !Due(key, st, items, clock, k)
    {
    }
  }

  /** So after a whole job every key of its payload that no older claim covered when
      it came up is claimed: sent again within the lifetime, none of it is handled. */
  lemma JobLeavesKeysClaimed<T>(
    key: T -> string, st: Store<T>, items: seq<T>, clock: nat -> int, k: nat, t: int)
    requires k < |items| && Forward(clock, |items|)
    requires clock(|items| - 1) <= t < clock(0) + TTL_MS
    ensures Claimed(ConsumeAll(key, st, items, clock, 0).claims, key(items[k]), t) <==>
              || Claimed(st.claims, key(items[k]), t)
              || exists j :: 0 <= j < |items| && key(items[j]) == key(items[k])
                             && !Claimed(st.claims, key(items[j]), clock(j))
  {
    JobMeaning(key, st, items, clock, key(items[k]), t);
    forall j | 0 <= j < |items| && key(items[j]) == key(items[k]) && !Claimed(st.claims, key(items[j]), clock(j))
      ensures Covered(key, st, items, clock, |items|, key(items[k]), t)
    {
      var i :| 0 <= i <= j && key(items[i]) == key(items[j]) && Due(key, st, items, clock, i)
               && clock(j) < clock(i) + TTL_MS;
      assert clock(0) <= clock(i);
    }
  }

  /** A payload delivered again, whole, while the first delivery's claims last, is not handled at all. */
  lemma RedeliveryIsSilent<T>(
    key: T -> string, st: Store<T>, items: seq<T>, clock: nat -> int, again: nat -> int)
    requires var n := |items|;
             && Forward(clock, n) && Forward(again, n)
             && (n > 0 ==> clock(n - 1) <= again(0) && again(n - 1) < clock(0) + TTL_MS)
    requires forall k :: 0 <= k < |items| ==> !Claimed(st.claims, key(items[k]), clock(k))
    ensures var once := ConsumeAll(key, st, items, clock, 0);
            ConsumeAll(key, once, items, again, 0).calls == once.calls
  {
    var once := ConsumeAll(key, st, items, clock, 0);
    JobCalls(key, once, items, again, |items|);
    forall k | 0 <= k < |items| ensures !Due(key, once, items, again, k) {
      JobLeavesKeysClaimed(key, st, items, clock, k, again(k));
    }
    NoneDue(key, once, items, again, |items|);
  }

  lemma {:induction false} NoneDue<T>(key: T -> string, st: Store<T>, items: seq<T>, clock: nat -> int, n: nat)
    requires n <= |items| && forall k :: 0 <= k < n ==> !Due(key, st, items, clock, k)
    ensures DueCalls(key, st, items, clock, n) == []
  {
    if n > 0 {
      NoneDue(key, st, items, clock, n - 1);
    }
  }

  /** The job as part of a run: claims taken one after the other, none stopping. */
  function JobEvents<T>(items: seq<T>, clock: nat -> int): (events: seq<Event<T>>)
    ensures |events| == |items|
  {
    seq(|items|, k requires 0 <= k < |items| => Event(items[k], clock(k), true))
  }

  lemma {:induction false} JobIsARun<T>(key: T -> string, st: Store<T>, items: seq<T>, n: nat, clock: nat -> int)
    requires n <= |items|
    ensures ConsumeFirst(key, st, items, n, clock, 0) == RunAll(key, st, JobEvents(items, clock), n)
  {
    if n > 0 {
      JobIsARun(key, st, items, n - 1, clock);
    }
  }
}
