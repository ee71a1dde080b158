/** What the pieces of the delivery buffer do to the messages they move. */
module DeliveryFacts {
  import opened Prelude
  import opened Dedup
  import opened Delivery

  lemma {:induction false} MessagesPush(f: seq<Entry>, e: Entry)
    ensures Messages(f + [e]) == Messages(f) + [e.msg]
  {
    assert Front(f + [e]) == f;
  }

  lemma {:induction false} ReversedMultiset<T>(s: seq<T>)
    ensures multiset(Reversed(s)) == multiset(s)
  {
    if s != [] {
      ReversedMultiset(Front(s));
      assert s == Front(s) + [Last(s)];
    }
  }

  lemma {:induction false} MessagesLast(f: seq<Entry>)
    requires f != []
    ensures multiset(Messages(f)) == multiset(Messages(Front(f))) + multiset{Last(f).msg}
  {
  }

  lemma {:induction false} MessagesSnoc(f: seq<Entry>, e: Entry)
    ensures multiset(Messages(f + [e])) == multiset(Messages(f)) + multiset{e.msg}
  {
    MessagesPush(f, e);
  }

  lemma {:induction false} UnderOneMore<T>(x: multiset<T>, y: multiset<T>, k: T, l: T)
    requires x == y + multiset{k}
    ensures x + multiset{l} == (y + multiset{l}) + multiset{k}
  {
  }

  lemma {:induction false} SwapUnderOneMore<T>(x: multiset<T>, y: multiset<T>, e: T, k: T, l: T)
    requires x + multiset{e} == y + multiset{k}
    ensures (x + multiset{l}) + multiset{e} == (y + multiset{l}) + multiset{k}
    ensures (x + multiset{l}) + multiset{e} == (x + multiset{e}) + multiset{l}
  {
    assert (x + multiset{l}) + multiset{e} == (x + multiset{e}) + multiset{l};
    assert (y + multiset{l}) + multiset{k} == (y + multiset{k}) + multiset{l};
  }

  lemma {:induction false} RemoveTakesOne(f: seq<Entry>, id: DeliveryId)
    requires Has(f, id)
    ensures multiset(Messages(f)) == multiset(Messages(Remove(f, id))) + multiset{Lookup(f, id).msg}
    ensures IdOf(Lookup(f, id).msg) == id && Lookup(f, id) in f
  {
    hide Messages;
    MessagesLast(f);
    if IdOf(Last(f).msg) != id {
      RemoveTakesOne(Front(f), id);
      var rest := Remove(Front(f), id);
      MessagesSnoc(rest, Last(f));
      UnderOneMore(multiset(Messages(Front(f))), multiset(Messages(rest)), Lookup(f, id).msg, Last(f).msg);
    }
  }

  lemma {:induction false} OverwriteSwapsOne(f: seq<Entry>, e: Entry)
    requires Has(f, IdOf(e.msg))
    ensures multiset(Messages(f)) + multiset{e.msg}
         == multiset(Messages(Overwrite(f, e))) + multiset{Lookup(f, IdOf(e.msg)).msg}
  {
    hide Messages;
    var x, old1, l := multiset(Messages(Front(f))), Lookup(f, IdOf(e.msg)).msg, Last(f).msg;
    MessagesLast(f);
    if IdOf(l) == IdOf(e.msg) {
      MessagesSnoc(Front(f), e);
      SwapUnderOneMore(x, x, e.msg, e.msg, l);
    } else {
      OverwriteSwapsOne(Front(f), e);
      var rest := Overwrite(Front(f), e);
      MessagesSnoc(rest, Last(f));
      SwapUnderOneMore(x, multiset(Messages(rest)), e.msg, old1, l);
    }
  }

  lemma {:induction false} ExpiryPartitions(f: seq<Entry>, now: real)
    ensures multiset(Messages(f)) == multiset(Expired(f, now)) + multiset(Messages(Kept(f, now)))
  {
    if f != [] {
      ExpiryPartitions(Front(f), now);
      MessagesPush(Kept(Front(f), now), Last(f));
      assert Kept(Front(f), now) + [] == Kept(Front(f), now);
      assert Expired(Front(f), now) + [] == Expired(Front(f), now);
    }
  }

  lemma {:induction false} NothingExpired(f: seq<Entry>, now: real)
    requires Expired(f, now) == []
    ensures Kept(f, now) == f
  {
    if f != [] {
      NothingExpired(Front(f), now);
    }
  }

  lemma {:induction false} RequeueConserves(pending: seq<Message>, f: seq<Entry>, now: real)
    ensures multiset(pending) + multiset(Messages(f))
         == multiset(Requeued(pending, f, now)) + multiset(Messages(Kept(f, now)))
  {
    ExpiryPartitions(f, now);
    ReversedMultiset(Expired(f, now));
  }

  lemma {:induction false} PutConserves(f: seq<Entry>, e: Entry)
    ensures multiset(Messages(f)) + multiset{e.msg}
         == multiset(Messages(Put(f, e))) + multiset(Displaced(f, IdOf(e.msg)))
  {
    if Has(f, IdOf(e.msg)) {
      OverwriteSwapsOne(f, e);
    } else {
      MessagesPush(f, e);
    }
  }

  lemma {:induction false} DrainConserves(f: seq<Entry>, ms: seq<Message>, now: real)
    ensures multiset(Messages(f)) + multiset(ms)
         == multiset(Messages(Drain(f, ms, now))) + multiset(PushedOut(f, ms, now))
  {
    hide Messages, Put, Displaced;
    if ms != [] {
      var front, m := Front(ms), Last(ms);
      DrainConserves(f, front, now);
      var before := Drain(f, front, now);
      PutConserves(before, Entry(m, now));
      var out, one := PushedOut(f, front, now), Displaced(before, IdOf(m));
      assert PushedOut(f, ms, now) == out + one;
      assert Drain(f, ms, now) == Put(before, Entry(m, now));
      hide *;
      LastMultiset(ms);
      OneMoreMoves(multiset(Messages(f)), multiset(front), multiset(Messages(before)), multiset(out), multiset{m},
                   multiset(Messages(Put(before, Entry(m, now)))), multiset(one));
    }
  }

  lemma {:induction false} LastMultiset<T>(s: seq<T>)
    requires s != []
    ensures multiset(s) == multiset(Front(s)) + multiset{Last(s)}
  {
    assert s == Front(s) + [Last(s)];
  }

  lemma {:induction false} OneMoreMoves<T>(
      f: multiset<T>, ms: multiset<T>, d: multiset<T>, out: multiset<T>, m: multiset<T>, p: multiset<T>,
      one: multiset<T>)
    requires f + ms == d + out && d + m == p + one
    ensures f + (ms + m) == p + (out + one)
  {
    assert f + (ms + m) == (f + ms) + m;
    assert (d + out) + m == (d + m) + out;
    assert p + (out + one) == (p + one) + out;
  }

  lemma {:induction false} HeadMoves<T>(a: seq<T>, b: seq<T>)
    requires b != []
    ensures (a + [b[0]]) + b[1..] == a + b
  {
  }

  /** Draining one more message. */
  lemma {:induction false} DrainSnoc(f: seq<Entry>, ms: seq<Message>, m: Message, now: real)
    ensures Drain(f, ms + [m], now) == Put(Drain(f, ms, now), Entry(m, now))
  {
    assert Front(ms + [m]) == ms;
  }

  lemma {:induction false} AcksConserve(f: seq<Entry>, ids: seq<DeliveryId>)
    ensures multiset(Messages(f)) == multiset(Messages(AfterAcks(f, ids))) + multiset(AckedBy(f, ids))
  {
    if ids != [] {
      AcksConserve(f, Front(ids));
      var rest := AfterAcks(f, Front(ids));
      if Has(rest, Last(ids)) {
        RemoveTakesOne(rest, Last(ids));
      } else {
        assert AckedBy(f, Front(ids)) + [] == AckedBy(f, Front(ids));
      }
    }
  }

  /** Acknowledging ids that are not in flight changes nothing. */
  lemma {:induction false} UnknownAcksChangeNothing(f: seq<Entry>, ids: seq<DeliveryId>)
    requires forall id :: id in ids ==> !Has(f, id)
    ensures AfterAcks(f, ids) == f && AckedBy(f, ids) == []
  {
    if ids != [] {
      assert forall id :: id in Front(ids) ==> id in ids;
      assert Last(ids) in ids;
      UnknownAcksChangeNothing(f, Front(ids));
    }
  }

  // ----- Keys -----

  lemma {:induction false} RemoveKeys(f: seq<Entry>, id: DeliveryId)
    requires IsMap(f) && Has(f, id)
    ensures IsMap(Remove(f, id)) && forall k :: Has(Remove(f, id), k) <==> Has(f, k) && k != id
  {
    if IdOf(Last(f).msg) != id {
      RemoveKeys(Front(f), id);
      assert Front(Remove(Front(f), id) + [Last(f)]) == Remove(Front(f), id);
    }
  }

  lemma {:induction false} PutKeys(f: seq<Entry>, e: Entry)
    requires IsMap(f)
    ensures IsMap(Put(f, e)) && forall k :: Has(Put(f, e), k) <==> Has(f, k) || k == IdOf(e.msg)
  {
    if !Has(f, IdOf(e.msg)) {
      assert Front(f + [e]) == f;
    } else if IdOf(Last(f).msg) == IdOf(e.msg) {
      assert Front(Front(f) + [e]) == Front(f);
    } else {
      PutKeys(Front(f), e);
      assert Front(Overwrite(Front(f), e) + [Last(f)]) == Overwrite(Front(f), e);
    }
  }

  lemma {:induction false} KeptKeys(f: seq<Entry>, now: real)
    requires IsMap(f)
    ensures IsMap(Kept(f, now)) && forall k :: Has(Kept(f, now), k) ==> Has(f, k)
  {
    if f != [] {
      KeptKeys(Front(f), now);
      var k := Kept(Front(f), now);
      assert Front(k + [Last(f)]) == k && k + [] == k;
    }
  }

  lemma {:induction false} DrainKeys(f: seq<Entry>, ms: seq<Message>, now: real)
    requires IsMap(f)
    ensures IsMap(Drain(f, ms, now))
  {
    if ms != [] {
      DrainKeys(f, Front(ms), now);
      PutKeys(Drain(f, Front(ms), now), Entry(Last(ms), now));
    }
  }

  /** Everything drained is in flight under its key. */
  lemma {:induction false} DrainedAreKeys(f: seq<Entry>, ms: seq<Message>, now: real)
    requires IsMap(f)
    ensures forall m :: m in ms ==> Has(Drain(f, ms, now), IdOf(m))
  {
    if ms != [] {
      var front, last := Front(ms), Last(ms);
      assert ms == front + [last];
      DrainedAreKeys(f, front, now);
      DrainKeys(f, front, now);
      var before := Drain(f, front, now);
      assert Drain(f, ms, now) == Put(before, Entry(last, now));
      hide Has, IsMap, Drain, Put;
      PutKeys(before, Entry(last, now));
      forall m | m in ms ensures Has(Put(before, Entry(last, now)), IdOf(m)) {
        assert m == last || m in front;
      }
    }
  }

  lemma {:induction false} AckKeys(f: seq<Entry>, ids: seq<DeliveryId>)
    requires IsMap(f)
    ensures IsMap(AfterAcks(f, ids))
    ensures forall k :: Has(AfterAcks(f, ids), k) <==> Has(f, k) && k !in ids
  {
    if ids != [] {
      AckKeys(f, Front(ids));
      var rest := AfterAcks(f, Front(ids));
      assert ids == Front(ids) + [Last(ids)];
      if Has(rest, Last(ids)) {
        RemoveKeys(rest, Last(ids));
      }
    }
  }

  // ----- The requeue loop deletes the expired entries by key -----

  /** Deleting one by one the keys of `ms`. */
  function RemoveAll(f: seq<Entry>, ms: seq<Message>): seq<Entry> {
    if ms == [] then f
    else
      var rest := RemoveAll(f, Front(ms));
      if Has(rest, IdOf(Last(ms))) then Remove(rest, IdOf(Last(ms))) else rest
  }

  lemma {:induction false} RemoveSkipsTail(f: seq<Entry>, e: Entry, id: DeliveryId)
    requires Has(f, id) && id != IdOf(e.msg)
    ensures Has(f + [e], id) && Remove(f + [e], id) == Remove(f, id) + [e]
  {
    assert Front(f + [e]) == f;
  }

  lemma {:induction false} RemoveAllSkipsTail(f: seq<Entry>, e: Entry, ms: seq<Message>)
    requires forall m :: m in ms ==> IdOf(m) != IdOf(e.msg)
    ensures RemoveAll(f + [e], ms) == RemoveAll(f, ms) + [e]
  {
    if ms != [] {
      assert forall m :: m in Front(ms) ==> m in ms;
      assert Last(ms) in ms;
      RemoveAllSkipsTail(f, e, Front(ms));
      var rest := RemoveAll(f, Front(ms));
      assert Front(rest + [e]) == rest;
      if Has(rest, IdOf(Last(ms))) {
        RemoveSkipsTail(rest, e, IdOf(Last(ms)));
      }
    }
  }

  lemma {:induction false} ExpiredAreKeys(f: seq<Entry>, now: real)
    ensures forall m :: m in Expired(f, now) ==> Has(f, IdOf(m))
  {
    if f != [] {
      ExpiredAreKeys(Front(f), now);
    }
  }

  lemma {:induction false} RemoveAllPush(f: seq<Entry>, ms: seq<Message>, m: Message)
    ensures var rest := RemoveAll(f, ms);
      RemoveAll(f, ms + [m]) == if Has(rest, IdOf(m)) then Remove(rest, IdOf(m)) else rest
  {
    assert Front(ms + [m]) == ms && Last(ms + [m]) == m;
  }

  lemma {:induction false} RemoveLast(f: seq<Entry>, e: Entry)
    ensures Has(f + [e], IdOf(e.msg)) && Remove(f + [e], IdOf(e.msg)) == f
  {
    assert Front(f + [e]) == f;
  }

  /** In a map, deleting the expired entries by key leaves exactly the others, in their order. */
  lemma {:induction false} RemovingExpiredKeepsTheRest(f: seq<Entry>, now: real)
    requires IsMap(f)
    ensures RemoveAll(f, Expired(f, now)) == Kept(f, now)
  {
    if f != [] {
      var front, e := Front(f), Last(f);
      var gone, rest := Expired(front, now), Kept(front, now);
      RemovingExpiredKeepsTheRest(front, now);
      ExpiredAreKeys(front, now);
      assert f == front + [e];
      RemoveAllSkipsTail(front, e, gone);
      if IsExpired(e, now) {
        RemoveAllPush(f, gone, e.msg);
        RemoveLast(rest, e);
        assert Expired(f, now) == gone + [e.msg];
        assert rest + [] == rest;
      } else {
        assert gone + [] == gone;
      }
    }
  }

  /** Each expired entry is still in the map when its turn to be deleted comes. */
  lemma {:induction false} ExpiredStillThere(f: seq<Entry>, now: real, i: nat)
    requires IsMap(f) && i < |Expired(f, now)|
    ensures Has(RemoveAll(f, Expired(f, now)[..i]), IdOf(Expired(f, now)[i]))
  {
    var front, e := Front(f), Last(f);
    var gone, all := Expired(front, now), Expired(f, now);
    assert f == front + [e];
    assert all[..i] == gone[..i];
    ExpiredAreKeys(front, now);
    assert forall m :: m in gone[..i] ==> m in gone;
    RemoveAllSkipsTail(front, e, gone[..i]);
    var rest := RemoveAll(front, gone[..i]);
    assert Front(rest + [e]) == rest;
    if i < |gone| {
      ExpiredStillThere(front, now, i);
      assert all[i] == gone[i];
    }
  }
}
