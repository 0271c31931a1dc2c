/**
 The alert log of the feed as a bounded FIFO. A tick pushes at most one
 alert on the end and then, if the log is longer than twenty, shifts exactly
 one entry off the front. Entries are never edited or reordered. The log is
 generic here because nothing in its behaviour depends on what an alert is.
 */
module AlertLog {
  import opened Types

  /** The length past which a tick evicts the oldest entry. */
  const MaxAlerts: nat := 20

  /** What a tick appends: nothing, or the one new alert. */
  function Added<T>(x: Option<T>): (a: seq<T>)
    ensures |a| <= 1
    ensures x.None? ==> a == []
    ensures x.Some? ==> a == [x.value]
  {
    match x
    case None => []
    case Some(v) => [v]
  }

  /** `t` ends with `s`. */
  ghost predicate IsSuffix<T>(s: seq<T>, t: seq<T>) {
    |s| <= |t| && s == t[|t| - |s|..]
  }

  /** The window a bounded log is meant to show: the newest `MaxAlerts` entries of `xs`. */
  function Newest<T>(xs: seq<T>): (w: seq<T>)
    ensures |w| <= MaxAlerts
    ensures IsSuffix(w, xs)
    ensures |w| == MaxAlerts || w == xs
  {
    if |xs| <= MaxAlerts then xs else xs[|xs| - MaxAlerts..]
  }

  /**
   One tick's effect on the log: `push` of the optional new alert, then one
   `shift` when the length exceeds twenty. The result is the old log with the
   new alert appended, less at most its first (oldest) entry, and the entry
   is dropped exactly when the log ran over capacity.
   */
  function Enqueue<T>(log: seq<T>, x: Option<T>): (r: seq<T>)
    ensures IsSuffix(r, log + Added(x)) && |r| + 1 >= |log + Added(x)|
    ensures |r| < |log + Added(x)| <==> |log + Added(x)| > MaxAlerts
    ensures |log| <= MaxAlerts ==> |r| <= MaxAlerts
  {
    var pushed := log + Added(x);
    if |pushed| > MaxAlerts then pushed[1..] else pushed
  }

  /**
   Under the bound, one tick keeps exactly the newest twenty of everything
   seen so far: the log behaves as the sliding window `Newest`.
   */
  lemma EnqueueIsWindow<T>(log: seq<T>, x: Option<T>)
    ensures |log| <= MaxAlerts ==> Enqueue(log, x) == Newest(log + Added(x))
  {
  }

  /**
   A single shift cannot repair an over-full log: above twenty-one entries the
   log stays above twenty after the tick, whatever the tick adds.
   */
  lemma BoundNotRestored<T>(log: seq<T>, x: Option<T>)
    requires |log| > MaxAlerts + 1
    ensures |Enqueue(log, x)| > MaxAlerts
  {
  }

  /**
   An over-full log loses exactly one entry per tick, net of what the tick
   adds: from twenty-one entries a tick with no alert is back at twenty, one
   with an alert stays at twenty-one.
   */
  lemma OverFullShiftsOne<T>(log: seq<T>, x: Option<T>)
    requires |log| > MaxAlerts
    ensures |Enqueue(log, x)| == |log| + |Added(x)| - 1
    ensures |log| == MaxAlerts + 1 ==> (|Enqueue(log, x)| == MaxAlerts <==> x.None?)
  {
  }

  /**
   Every entry of the log after a tick was already in the log or is the
   alert just added: a tick invents nothing and edits nothing.
   */
  lemma EnqueueEntries<T>(log: seq<T>, x: Option<T>, i: nat)
    requires i < |Enqueue(log, x)|
    ensures var t := log + Added(x);
            Enqueue(log, x)[i] == t[|t| - |Enqueue(log, x)| + i]
  {
  }

  /** Every alert a run of ticks adds, in order. */
  function AllAdded<T>(xs: seq<Option<T>>): (a: seq<T>)
    ensures |a| <= |xs|
  {
    if |xs| == 0 then [] else Added(xs[0]) + AllAdded(xs[1..])
  }

  /** The log after a run of ticks, the first tick first. */
  function EnqueueAll<T>(log: seq<T>, xs: seq<Option<T>>): seq<T>
    decreases |xs|
  {
    if |xs| == 0 then log else EnqueueAll(Enqueue(log, xs[0]), xs[1..])
  }

  /** Taking the newest twenty of a long enough tail is the same as taking them of the whole. */
  lemma NewestOfTail<T>(s: seq<T>, t: seq<T>)
    requires IsSuffix(s, t)
    requires |s| >= MaxAlerts || s == t
    ensures Newest(s) == Newest(t)
  {
    if |s| < |t| {
      assert |s| >= MaxAlerts;
      assert s[|s| - MaxAlerts..] == t[|t| - MaxAlerts..];
    }
  }

  lemma NewestThenAppend<T>(a: seq<T>, b: seq<T>)
    ensures Newest(Newest(a) + b) == Newest(a + b)
  {
    var w := Newest(a);
    assert (a + b)[|a + b| - |w + b|..] == w + b;
    NewestOfTail(w + b, a + b);
  }

  /** One tick followed by the window of what comes later is the window of both. */
  lemma WindowStep<T>(log: seq<T>, x: Option<T>, rest: seq<T>)
    requires |log| <= MaxAlerts
    ensures Newest(Enqueue(log, x) + rest) == Newest(log + (Added(x) + rest))
  {
    EnqueueIsWindow(log, x);
    NewestThenAppend(log + Added(x), rest);
    ConcatAssoc(log, Added(x), rest);
  }

  /** Concatenation regroups freely; kept apart so that the window proofs stay small. */
  lemma ConcatAssoc<T>(a: seq<T>, b: seq<T>, c: seq<T>)
    ensures a + b + c == a + (b + c)
  {
  }

  /**
   Over any number of ticks a log that starts within the bound is the newest
   twenty of its initial entries followed by every alert added: entries leave
   only from the front, oldest first, and only when the log is full.
   */
  lemma {:induction false} EnqueueAllIsWindow<T>(log: seq<T>, xs: seq<Option<T>>)
    requires |log| <= MaxAlerts
    ensures EnqueueAll(log, xs) == Newest(log + AllAdded(xs))
    decreases |xs|
  {
    if |xs| == 0 {
      assert log + AllAdded(xs) == log;
    } else {
      EnqueueAllIsWindow(Enqueue(log, xs[0]), xs[1..]);
      WindowStep(log, xs[0], AllAdded(xs[1..]));
    }
  }

  /** Every tick of the run adds one of `news`, in order. */
  function Always<T>(news: seq<T>): (xs: seq<Option<T>>)
    ensures |xs| == |news|
    ensures forall i :: 0 <= i < |news| ==> xs[i] == Some(news[i])
  {
    seq(|news|, i requires 0 <= i < |news| => Some(news[i]))
  }

  lemma {:induction false} AllAddedAlways<T>(news: seq<T>)
    ensures AllAdded(Always(news)) == news
    decreases |news|
  {
    if |news| > 0 {
      assert Always(news)[1..] == Always(news[1..]);
      AllAddedAlways(news[1..]);
    }
  }

  /**
   Twenty or more ticks in a row that each add an alert leave exactly the last
   twenty added, oldest of them first, whatever the log held before (within
   the bound).
   */
  lemma RunOfAddsKeepsLastTwenty<T>(log: seq<T>, news: seq<T>)
    requires |log| <= MaxAlerts && |news| >= MaxAlerts
    ensures EnqueueAll(log, Always(news)) == news[|news| - MaxAlerts..]
  {
    EnqueueAllIsWindow(log, Always(news));
    AllAddedAlways(news);
    NewestOfLongTail(log, news);
  }

  /** When the later part alone fills the window, the earlier part does not show. */
  lemma NewestOfLongTail<T>(a: seq<T>, b: seq<T>)
    requires |b| >= MaxAlerts
    ensures Newest(a + b) == b[|b| - MaxAlerts..]
  {
    var t := a + b;
    assert t[|t| - MaxAlerts..] == b[|b| - MaxAlerts..];
  }
}
