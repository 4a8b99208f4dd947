/** client.go: how the confirm loop of HandShake ends, as a function of what its select gives it. */
module Confirmation {
  import opened Basics
  import opened Fields

  const NEXT_VALID_ID := 9
  const MANAGED_ACCTS := 15

  // ---------------------------------------------------------------- what arrives

  /** ParseInt with its error ignored; what matters here is only whether it is one of the two IDs. */
  function MsgId(m: Text): int
    requires SplitMsgBytes(m) != []
  {
    match ParseInt(SplitMsgBytes(m)[0]) case Some(i) => i case None => 0
  }

  /** A select branch of the confirm loop: a message (and whether interpreting it panics), or timeout/cancellation. */
  datatype Arrival = Message(m: Text, panics: bool) | Abort

  /** A message that the loop body gets through. */
  predicate Plain(a: Arrival) { a.Message? && SplitMsgBytes(a.m) != [] && !a.panics }

  predicate AllPlain(arrivals: seq<Arrival>) { forall i :: 0 <= i < |arrivals| ==> Plain(arrivals[i]) }

  function Seen(arrivals: seq<Arrival>): set<int>
    requires AllPlain(arrivals)
  {
    set i | 0 <= i < |arrivals| :: MsgId(arrivals[i].m)
  }

  /** The two IDs minus those seen, in their original order. */
  function Missing(seen: set<int>): seq<int> {
    (if NEXT_VALID_ID in seen then [] else [NEXT_VALID_ID]) + (if MANAGED_ACCTS in seen then [] else [MANAGED_ACCTS])
  }

  /** The messages among the arrivals that reach the decoder: the loop indexes a message's first field before. */
  function Reaching(arrivals: seq<Arrival>): seq<Text>
    decreases |arrivals|
  {
    if arrivals == [] then []
    else
      var last := arrivals[|arrivals| - 1];
      Reaching(arrivals[..|arrivals| - 1]) + (if last.Message? && SplitMsgBytes(last.m) != [] then [last.m] else [])
  }

  /** Of messages the loop gets through, every one is interpreted, once and in order. */
  lemma {:induction false} PlainReach(arrivals: seq<Arrival>)
    requires AllPlain(arrivals)
    ensures |Reaching(arrivals)| == |arrivals|
    ensures forall i :: 0 <= i < |arrivals| ==> Reaching(arrivals)[i] == arrivals[i].m
    decreases |arrivals|
  {
    hide SplitMsgBytes;
    if arrivals != [] {
      var init := arrivals[..|arrivals| - 1];
      assert Plain(arrivals[|init|]);
      PlainReach(init);
      assert Reaching(arrivals) == Reaching(init) + [arrivals[|init|].m];
    }
  }

  /** All the messages among the arrivals. */
  function Texts(arrivals: seq<Arrival>): seq<Text>
    decreases |arrivals|
  {
    if arrivals == [] then []
    else
      var last := arrivals[|arrivals| - 1];
      Texts(arrivals[..|arrivals| - 1]) + (if last.Message? then [last.m] else [])
  }

  lemma {:induction false} PlainTexts(arrivals: seq<Arrival>)
    requires AllPlain(arrivals)
    ensures Texts(arrivals) == Reaching(arrivals)
    decreases |arrivals|
  {
    hide SplitMsgBytes;
    if arrivals != [] {
      assert Plain(arrivals[|arrivals| - 1]);
      PlainTexts(arrivals[..|arrivals| - 1]);
    }
  }

  // ---------------------------------------------------------------- how the loop ends

  datatype Ending = Confirmed | Aborted | Panicked | Waiting

  predicate Fails(e: Ending) { e.Aborted? || e.Panicked? }

  /** How HandShake comes back to its caller, if it does. */
  datatype Return = Nil | Unsent | Unread | AlreadyConnected | Unwound

  /** The loop got through the first n arrivals and has not seen both IDs. */
  ghost predicate Unconfirmed(arrivals: seq<Arrival>, n: nat) {
    n <= |arrivals| && AllPlain(arrivals[..n]) && Missing(Seen(arrivals[..n])) != []
  }

  /** How the loop ends on a sequence of arrivals, and after how many of them. */
  ghost predicate Ends(arrivals: seq<Arrival>, ending: Ending, n: nat) {
    match ending
    case Waiting => n == |arrivals| && Unconfirmed(arrivals, n)
    case Confirmed => 0 < n <= |arrivals| && Unconfirmed(arrivals, n - 1) && Plain(arrivals[n - 1])
                      && Missing(Seen(arrivals[..n])) == []
    case Aborted => 0 < n <= |arrivals| && Unconfirmed(arrivals, n - 1) && arrivals[n - 1].Abort?
    case Panicked => 0 < n <= |arrivals| && Unconfirmed(arrivals, n - 1) && arrivals[n - 1].Message?
                     && !Plain(arrivals[n - 1])
  }

  lemma SeenMore(arrivals: seq<Arrival>, k: nat, n: nat)
    requires k <= n <= |arrivals| && AllPlain(arrivals[..n])
    ensures AllPlain(arrivals[..k]) && Seen(arrivals[..k]) <= Seen(arrivals[..n])
  {
    forall id | id in Seen(arrivals[..k]) ensures id in Seen(arrivals[..n]) {
      var i :| 0 <= i < k && MsgId(arrivals[..k][i].m) == id;
      assert arrivals[..n][i] == arrivals[i];
    }
  }

  /** The end is determined by the arrivals: confirmation comes at the shortest prefix with both IDs or never. */
  lemma EndsOnce(arrivals: seq<Arrival>, a: Ending, n: nat, b: Ending, k: nat)
    requires Ends(arrivals, a, n) && Ends(arrivals, b, k)
    ensures a == b && n == k
  {
    if k <= n && (a.Waiting? || k < n) {
      NotEarlier(arrivals, b, k, if a.Waiting? then n else n - 1);
    }
    if n <= k && (b.Waiting? || n < k) {
      NotEarlier(arrivals, a, n, if b.Waiting? then k else k - 1);
    }
  }

  lemma NotEarlier(arrivals: seq<Arrival>, b: Ending, k: nat, n: nat)
    requires Ends(arrivals, b, k) && k <= n && Unconfirmed(arrivals, n)
    ensures b.Waiting?
  {
    if k > 0 {
      assert arrivals[..n][k - 1] == arrivals[k - 1];
    }
    if b.Confirmed? {
      SeenMore(arrivals, k, n);
    }
  }

  /** Every message that arrives before the loop ends is interpreted, except one without a field, which ends it. */
  lemma AllButFieldlessReach(arrivals: seq<Arrival>, e: Ending)
    requires Ends(arrivals, e, |arrivals|)
    ensures Texts(arrivals) == Reaching(arrivals)
              + (if e.Panicked? && SplitMsgBytes(arrivals[|arrivals| - 1].m) == [] then [arrivals[|arrivals| - 1].m]
                else [])
  {
    hide SplitMsgBytes;
    if e.Waiting? {
      assert arrivals[..|arrivals|] == arrivals;
      PlainTexts(arrivals);
    } else {
      PlainTexts(arrivals[..|arrivals| - 1]);
    }
  }

  // ---------------------------------------------------------------- one turn

  /** A list without the first occurrence of an ID. */
  function Without(ids: seq<int>, id: int): seq<int> {
    if ids == [] then [] else if ids[0] == id then ids[1..] else [ids[0]] + Without(ids[1..], id)
  }

  lemma MissingWithout(seen: set<int>, id: int)
    ensures Missing(seen + {id}) == Without(Missing(seen), id)
  {
    assert Without([NEXT_VALID_ID, MANAGED_ACCTS], id)
      == if id == NEXT_VALID_ID then [MANAGED_ACCTS] else [NEXT_VALID_ID] + Without([MANAGED_ACCTS], id);
  }

  /** The loop has got through the arrivals and misses these IDs. */
  ghost predicate Listening(arrivals: seq<Arrival>, ids: seq<int>) {
    AllPlain(arrivals) && ids == Missing(Seen(arrivals)) != []
  }

  lemma NothingHeard()
    ensures Listening([], [NEXT_VALID_ID, MANAGED_ACCTS])
  {
  }

  lemma ListeningWaits(arrivals: seq<Arrival>, ids: seq<int>)
    requires Listening(arrivals, ids)
    ensures Ends(arrivals, Waiting, |arrivals|)
  {
    assert arrivals[..|arrivals|] == arrivals;
  }

  /** What one more arrival does to a loop that is listening. */
  lemma Turn(arrivals: seq<Arrival>, ids: seq<int>, a: Arrival)
    requires Listening(arrivals, ids)
    ensures a.Abort? ==> Ends(arrivals + [a], Aborted, |arrivals| + 1)
    ensures a.Message? && !Plain(a) ==> Ends(arrivals + [a], Panicked, |arrivals| + 1)
    ensures Plain(a) && Without(ids, MsgId(a.m)) != [] ==> Listening(arrivals + [a], Without(ids, MsgId(a.m)))
    ensures Plain(a) && Without(ids, MsgId(a.m)) == [] ==> Ends(arrivals + [a], Confirmed, |arrivals| + 1)
  {
    hide SplitMsgBytes, MsgId, Missing;
    var all := arrivals + [a];
    assert all[..|arrivals|] == arrivals && all[..|all|] == all;
    if Plain(a) {
      OneMoreSeen(all, |arrivals|);
      MissingWithout(Seen(arrivals), MsgId(a.m));
    }
  }

  lemma Removed(seen: set<int>, id: int, i: nat)
    requires i < |Missing(seen)| && Missing(seen)[i] == id
    ensures Missing(seen)[..i] + Missing(seen)[i + 1..] == Missing(seen + {id}) != Missing(seen)
  {
  }

  lemma Kept(seen: set<int>, id: int)
    requires forall k :: 0 <= k < |Missing(seen)| ==> Missing(seen)[k] != id
    ensures Missing(seen + {id}) == Missing(seen)
  {
    assert NEXT_VALID_ID !in seen ==> Missing(seen)[0] == NEXT_VALID_ID;
    assert MANAGED_ACCTS !in seen ==> Missing(seen)[|Missing(seen)| - 1] == MANAGED_ACCTS;
  }

  lemma OneMoreReaches(arrivals: seq<Arrival>, n: nat)
    requires n < |arrivals|
    ensures Reaching(arrivals[..n + 1]) == Reaching(arrivals[..n])
              + (if arrivals[n].Message? && SplitMsgBytes(arrivals[n].m) != [] then [arrivals[n].m] else [])
  {
    assert arrivals[..n + 1][..n] == arrivals[..n];
  }

  lemma NothingSeen(arrivals: seq<Arrival>)
    ensures AllPlain(arrivals[..0]) && Reaching(arrivals[..0]) == []
    ensures Missing(Seen(arrivals[..0])) == [NEXT_VALID_ID, MANAGED_ACCTS]
  {
  }

  lemma OneMoreSeen(arrivals: seq<Arrival>, n: nat)
    requires n < |arrivals| && AllPlain(arrivals[..n]) && Plain(arrivals[n])
    ensures AllPlain(arrivals[..n + 1])
    ensures Seen(arrivals[..n + 1]) == Seen(arrivals[..n]) + {MsgId(arrivals[n].m)}
  {
    assert arrivals[..n + 1] == arrivals[..n] + [arrivals[n]];
    var all := arrivals[..n + 1];
    forall id | id in Seen(arrivals[..n]) + {MsgId(arrivals[n].m)} ensures id in Seen(all) {
      if id == MsgId(arrivals[n].m) {
        assert MsgId(all[n].m) == id;
      } else {
        SeenMore(arrivals, n, n + 1);
      }
    }
    forall id | id in Seen(all) ensures id in Seen(arrivals[..n]) + {MsgId(arrivals[n].m)} {
      var i :| 0 <= i < |all| && MsgId(all[i].m) == id;
      if i < n {
        assert arrivals[..n][i] == all[i];
      }
    }
  }
}
