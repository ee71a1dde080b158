/** The append-only message log and its bounded page query (src/history.rs). */
module History {
  import opened Prelude

  /** The sender of messages the server stores in its own name. */
  const SERVER_NAME := "aircd"

  datatype StoredMessage = StoredMessage(
    seqNo: int,
    msgId: string,
    channel: string,
    senderId: string,
    body: string,
    createdAt: int
  )

  const MIN_PAGE := 1
  const MAX_PAGE := 500

  /** Sequence numbers strictly increase along the log and stay below the AUTOINCREMENT counter. */
  ghost predicate ValidLog(log: seq<StoredMessage>, counter: nat) {
    && (forall i, j :: 0 <= i < j < |log| ==> log[i].seqNo < log[j].seqNo)
    && (forall i :: 0 <= i < |log| ==> 0 < log[i].seqNo <= counter)
  }

  /** Messages of `channel` whose sequence number lies in (lo, hi], in log order. */
  ghost function Window(log: seq<StoredMessage>, channel: string, lo: int, hi: int): seq<StoredMessage> {
    if log == [] then []
    else
      var m := Last(log);
      Window(Front(log), channel, lo, hi) +
      if m.channel == channel && lo < m.seqNo <= hi then [m] else []
  }

  /** Messages of `channel` after `lo`: the WHERE clause of the page query, without its LIMIT. */
  function Above(log: seq<StoredMessage>, channel: string, lo: int): seq<StoredMessage> {
    if log == [] then []
    else
      var m := Last(log);
      Above(Front(log), channel, lo) + if m.channel == channel && lo < m.seqNo then [m] else []
  }

  /** COALESCE(MAX(seq), 0) over one channel. */
  function MaxSeq(log: seq<StoredMessage>, channel: string): int {
    if log == [] then 0
    else
      var rest := MaxSeq(Front(log), channel);
      if Last(log).channel == channel then Max(Last(log).seqNo, rest) else rest
  }

  function Page(log: seq<StoredMessage>, channel: string, after: int, limit: int): seq<StoredMessage> {
    Take(Above(log, channel, after), Clamp(limit, MIN_PAGE, MAX_PAGE))
  }

  // ----- The store -----

  class HistoryStore {
    var messages: seq<StoredMessage>
    var counter: nat

    ghost predicate Valid()
      reads this
    {
      ValidLog(messages, counter)
    }

    constructor ()
      ensures Valid() && messages == [] && counter == 0
    {
      messages, counter := [], 0;
    }

    /** The fresh message id and the clock reading are the caller's. */
    method Append(channel: string, senderId: string, body: string, msgId: string, createdAt: int)
      returns (m: StoredMessage)
      requires Valid()
      modifies this
      ensures Valid()
      ensures m == StoredMessage(old(counter) + 1, msgId, channel, senderId, body, createdAt)
      ensures messages == old(messages) + [m] && counter == m.seqNo
    {
      counter := counter + 1;
      m := StoredMessage(counter, msgId, channel, senderId, body, createdAt);
      messages := messages + [m];
    }

    method After(channel: string, afterSeq: int, limit: int) returns (page: seq<StoredMessage>)
      requires Valid()
      ensures page == Page(messages, channel, afterSeq, limit)
    {
      var capped := Clamp(limit, MIN_PAGE, MAX_PAGE);
      page := [];
      var i := 0;
      while i < |messages| && |page| < capped
        invariant 0 <= i <= |messages|
        invariant page == Above(messages[..i], channel, afterSeq)
        invariant |page| <= capped
      {
        var m := messages[i];
        assert Front(messages[..i + 1]) == messages[..i];
        if m.channel == channel && m.seqNo > afterSeq {
          page := page + [m];
        }
        i := i + 1;
      }
      AbovePrefix(messages, i, channel, afterSeq);
      assert messages[..|messages|] == messages;
    }
  }

  // ----- Facts about the query functions -----

  lemma {:induction false} AbovePrefix(log: seq<StoredMessage>, n: nat, channel: string, lo: int)
    requires n <= |log|
    ensures Above(log[..n], channel, lo) <= Above(log, channel, lo)
  {
    if n == |log| {
      assert log[..n] == log;
    } else {
      AbovePrefix(Front(log), n, channel, lo);
      assert Front(log)[..n] == log[..n];
    }
  }

  lemma {:induction false} AboveAll(log: seq<StoredMessage>, c: string, lo: int)
    ensures forall m :: m in Above(log, c, lo) ==> m.channel == c && lo < m.seqNo && m in log
  {
    if log != [] {
      AboveAll(Front(log), c, lo);
      assert log == Front(log) + [Last(log)];
    }
  }

  lemma {:induction false} WindowMember(log: seq<StoredMessage>, channel: string, lo: int, hi: int, m: StoredMessage)
    ensures m in Window(log, channel, lo, hi)
       <==> m in log && m.channel == channel && lo < m.seqNo <= hi
  {
    if log != [] {
      WindowMember(Front(log), channel, lo, hi, m);
      assert log == Front(log) + [Last(log)];
    }
  }

  lemma {:induction false} WindowAscends(log: seq<StoredMessage>, counter: nat, channel: string, lo: int, hi: int)
    requires ValidLog(log, counter)
    ensures forall i, j :: 0 <= i < j < |Window(log, channel, lo, hi)| ==>
        Window(log, channel, lo, hi)[i].seqNo < Window(log, channel, lo, hi)[j].seqNo
  {
    if log != [] {
      WindowAscends(Front(log), counter, channel, lo, hi);
      var w := Window(Front(log), channel, lo, hi);
      forall i | 0 <= i < |w| ensures w[i].seqNo < Last(log).seqNo {
        WindowMember(Front(log), channel, lo, hi, w[i]);
      }
    }
  }

  lemma {:induction false} WindowLast(log: seq<StoredMessage>, channel: string, lo: int, hi: int)
    requires log != []
    ensures Window(log, channel, lo, hi) == Window(Front(log), channel, lo, hi)
      + if Last(log).channel == channel && lo < Last(log).seqNo <= hi then [Last(log)] else []
  {
  }

  lemma {:induction false} WindowSplits(
      log: seq<StoredMessage>, counter: nat, channel: string, lo: int, mid: int, hi: int)
    requires ValidLog(log, counter) && lo <= mid <= hi
    ensures Window(log, channel, lo, mid) + Window(log, channel, mid, hi) == Window(log, channel, lo, hi)
  {
    if log != [] {
      WindowSplits(Front(log), counter, channel, lo, mid, hi);
      WindowLast(log, channel, lo, mid);
      WindowLast(log, channel, mid, hi);
      WindowLast(log, channel, lo, hi);
      var m := Last(log);
      if m.channel == channel && lo < m.seqNo <= mid {
        WindowEmptyAbove(Front(log), channel, mid, hi, m.seqNo);
      }
      hide Window;
    }
  }

  lemma {:induction false} WindowEmptyAbove(log: seq<StoredMessage>, channel: string, lo: int, hi: int, top: int)
    requires forall i :: 0 <= i < |log| ==> log[i].seqNo <= top
    requires top <= lo
    ensures Window(log, channel, lo, hi) == []
  {
    if log != [] {
      WindowEmptyAbove(Front(log), channel, lo, hi, top);
    }
  }

  lemma {:induction false} WindowEmpty(log: seq<StoredMessage>, channel: string, lo: int, hi: int)
    requires hi <= lo
    ensures Window(log, channel, lo, hi) == []
  {
    if log != [] {
      WindowEmpty(Front(log), channel, lo, hi);
    }
  }

  lemma {:induction false} MaxSeqBounds(log: seq<StoredMessage>, counter: nat, channel: string)
    requires ValidLog(log, counter)
    ensures 0 <= MaxSeq(log, channel) <= counter
    ensures forall m :: m in log && m.channel == channel ==> m.seqNo <= MaxSeq(log, channel)
    ensures MaxSeq(log, channel) == 0 || exists m :: m in log && m.channel == channel && m.seqNo == MaxSeq(log, channel)
  {
    if log != [] {
      MaxSeqBounds(Front(log), counter, channel);
      assert log == Front(log) + [Last(log)];
      assert Last(log) in log;
    }
  }

  /** Everything after `lo` is the window up to the channel's maximum. */
  lemma {:induction false} AboveIsWindow(log: seq<StoredMessage>, counter: nat, channel: string, lo: int, hi: int)
    requires ValidLog(log, counter) && MaxSeq(log, channel) <= hi
    ensures Above(log, channel, lo) == Window(log, channel, lo, hi)
  {
    if log != [] {
      AboveIsWindow(Front(log), counter, channel, lo, hi);
    }
  }

  /** A page is a gap-free window that starts right after the cursor it was asked for; it is empty only at the end. */
  lemma {:induction false} PageIsWindow(log: seq<StoredMessage>, counter: nat, channel: string, after: int, limit: int)
    requires ValidLog(log, counter)
    ensures var page := Page(log, channel, after, limit);
      page != [] ==>
        && after < Last(page).seqNo <= MaxSeq(log, channel)
        && page == Window(log, channel, after, Last(page).seqNo)
        && Above(log, channel, Last(page).seqNo) == Above(log, channel, after)[|page|..]
    ensures Page(log, channel, after, limit) == [] <==> Above(log, channel, after) == []
  {
    var page := Page(log, channel, after, limit);
    var top := MaxSeq(log, channel);
    if page != [] {
      var all := Above(log, channel, after);
      var b := Last(page).seqNo;
      AboveIsWindow(log, counter, channel, after, top);
      WindowMember(log, channel, after, top, Last(page));
      WindowSplits(log, counter, channel, after, b, top);
      AboveIsWindow(log, counter, channel, b, top);
      SplitPoint(log, counter, channel, after, b, top, |page|);
    }
  }

  /** The element at which an ascending window is cut determines where the cut is. */
  lemma {:induction false} SplitPoint(
      log: seq<StoredMessage>, counter: nat, channel: string, lo: int, mid: int, hi: int, n: nat)
    requires ValidLog(log, counter) && lo <= mid <= hi
    requires 0 < n <= |Window(log, channel, lo, hi)|
    requires Window(log, channel, lo, hi)[n - 1].seqNo == mid
    ensures Window(log, channel, lo, mid) == Window(log, channel, lo, hi)[..n]
    ensures Window(log, channel, mid, hi) == Window(log, channel, lo, hi)[n..]
  {
    var w, a, b := Window(log, channel, lo, hi), Window(log, channel, lo, mid), Window(log, channel, mid, hi);
    WindowSplits(log, counter, channel, lo, mid, hi);
    WindowAscends(log, counter, channel, lo, hi);
    assert w == a + b;
    if |a| < n {
      assert w[n - 1] == b[n - 1 - |a|];
      WindowMember(log, channel, mid, hi, b[n - 1 - |a|]);
    } else if |a| > n {
      assert w[n] == a[n];
      WindowMember(log, channel, lo, mid, a[n]);
    }
  }

  // ----- Paging to the end -----

  /** Ask for page after page, each from the last sequence number seen, until one comes back empty. */
  ghost function Drain(log: seq<StoredMessage>, counter: nat, channel: string, cursor: int, limits: nat -> int, i: nat)
    : seq<StoredMessage>
    requires ValidLog(log, counter)
    decreases |Above(log, channel, cursor)|
  {
    var page := Page(log, channel, cursor, limits(i));
    if page == [] then []
    else
      PageIsWindow(log, counter, channel, cursor, limits(i));
      page + Drain(log, counter, channel, Last(page).seqNo, limits, i + 1)
  }

  /** Whatever limits are asked for, the pages concatenate to exactly the rest of the channel, in order. */
  lemma {:induction false} PagingIsComplete(
      log: seq<StoredMessage>, counter: nat, channel: string, cursor: int, limits: nat -> int, i: nat)
    requires ValidLog(log, counter)
    ensures Drain(log, counter, channel, cursor, limits, i) == Above(log, channel, cursor)
    ensures forall a, b :: 0 <= a < b < |Drain(log, counter, channel, cursor, limits, i)| ==>
        Drain(log, counter, channel, cursor, limits, i)[a].seqNo
          < Drain(log, counter, channel, cursor, limits, i)[b].seqNo
    ensures forall m :: m in Drain(log, counter, channel, cursor, limits, i) <==>
        m in log && m.channel == channel && cursor < m.seqNo
    decreases |Above(log, channel, cursor)|
  {
    var page := Page(log, channel, cursor, limits(i));
    if page != [] {
      PageIsWindow(log, counter, channel, cursor, limits(i));
      PagingIsComplete(log, counter, channel, Last(page).seqNo, limits, i + 1);
    }
    AboveIsTheRest(log, counter, channel, cursor);
  }

  lemma {:induction false} AboveIsTheRest(log: seq<StoredMessage>, counter: nat, channel: string, cursor: int)
    requires ValidLog(log, counter)
    ensures var above := Above(log, channel, cursor);
      && (forall a, b :: 0 <= a < b < |above| ==> above[a].seqNo < above[b].seqNo)
      && (forall m :: m in above <==> m in log && m.channel == channel && cursor < m.seqNo)
  {
    var top := MaxSeq(log, channel);
    MaxSeqBounds(log, counter, channel);
    AboveIsWindow(log, counter, channel, cursor, top);
    WindowAscends(log, counter, channel, cursor, top);
    forall m ensures m in Window(log, channel, cursor, top) <==> m in log && m.channel == channel && cursor < m.seqNo {
      WindowMember(log, channel, cursor, top, m);
    }
  }
}
