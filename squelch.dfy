/**
 * The sound recorder's squelch: a 65-slot circular window of RSSI readings,
 * a noise floor taken as the element of rank 65 div 3 = 21 of the sorted
 * window, a threshold with 6 dB of hysteresis, and an automatic close 45
 * blocks after the last block above the threshold.
 */
module SquelchLogic {
  import opened Wrappers

  const WindowSize: nat := 65
  const FloorRank: nat := WindowSize / 3
  const Hysteresis: int := 6
  const CloseAfter: int := 45

  predicate SortedSeq(s: seq<int>)
  {
    forall i, j :: 0 <= i < j < |s| ==> s[i] <= s[j]
  }

  /** x placed into sorted s before the first element not smaller than it. */
  function Insert(x: int, s: seq<int>): (r: seq<int>)
    ensures |r| == |s| + 1
    ensures multiset(r) == multiset(s) + multiset{x}
  {
    if s == [] || x <= s[0] then [x] + s
    else
      assert s == [s[0]] + s[1..];
      [s[0]] + Insert(x, s[1..])
  }

  /** Python's sorted() on a list of integers. */
  function Sort(s: seq<int>): (r: seq<int>)
    ensures |r| == |s|
    ensures multiset(r) == multiset(s)
  {
    if s == [] then []
    else
      assert s == [s[0]] + s[1..];
      Insert(s[0], Sort(s[1..]))
  }

  lemma {:induction false} InsertSorted(x: int, s: seq<int>)
    requires SortedSeq(s)
    ensures SortedSeq(Insert(x, s))
  {
    if s != [] && x > s[0] {
      InsertSorted(x, s[1..]);
      var r := Insert(x, s);
      var t := Insert(x, s[1..]);
      assert r == [s[0]] + t;
      assert t[0] == x || t[0] == s[1] by {
        if |s| > 1 && x > s[1] {
          assert t == [s[1]] + Insert(x, s[2..]);
        }
      }
    }
  }

  lemma {:induction false} SortSorted(s: seq<int>)
    ensures SortedSeq(Sort(s))
  {
    if s != [] {
      SortSorted(s[1..]);
      InsertSorted(s[0], Sort(s[1..]));
    }
  }

  /** How many elements are below v, and at most v. */
  function CountBelow(s: seq<int>, v: int): (n: nat)
    ensures n <= |s|
  {
    if s == [] then 0 else (if s[0] < v then 1 else 0) + CountBelow(s[1..], v)
  }

  function CountAtMost(s: seq<int>, v: int): (n: nat)
    ensures n <= |s|
  {
    if s == [] then 0 else (if s[0] <= v then 1 else 0) + CountAtMost(s[1..], v)
  }

  lemma {:induction false} CountsOfInsert(x: int, s: seq<int>, v: int)
    ensures CountBelow(Insert(x, s), v) == CountBelow(s, v) + (if x < v then 1 else 0)
    ensures CountAtMost(Insert(x, s), v) == CountAtMost(s, v) + (if x <= v then 1 else 0)
  {
    if s != [] && x > s[0] {
      CountsOfInsert(x, s[1..], v);
      assert Insert(x, s)[1..] == Insert(x, s[1..]);
    } else {
      assert Insert(x, s)[1..] == s;
    }
  }

  /** Sorting keeps how many elements lie below (or at most) any value. */
  lemma {:induction false} CountsOfSort(s: seq<int>, v: int)
    ensures CountBelow(Sort(s), v) == CountBelow(s, v)
    ensures CountAtMost(Sort(s), v) == CountAtMost(s, v)
  {
    if s != [] {
      CountsOfSort(s[1..], v);
      CountsOfInsert(s[0], Sort(s[1..]), v);
    }
  }

  /** In a sorted sequence the elements below v are exactly the first CountBelow of them. */
  lemma {:induction false} SortedCounts(t: seq<int>, v: int, i: nat)
    requires SortedSeq(t) && i < |t|
    ensures t[i] < v <==> i < CountBelow(t, v)
    ensures t[i] <= v <==> i < CountAtMost(t, v)
    decreases |t|
  {
    var rest := t[1..];
    assert SortedSeq(rest);
    if |rest| > 0 {
      SortedCounts(rest, v, 0);
    }
    if i > 0 {
      SortedCounts(rest, v, i - 1);
    }
  }

  /**
   * The element of rank k of the sorted window is v exactly when fewer
   * than k+1 readings are below v and more than k are at most v.
   */
  lemma RankByCounts(s: seq<int>, k: nat, v: int)
    requires k < |s|
    ensures Sort(s)[k] == v <==> CountBelow(s, v) <= k < CountAtMost(s, v)
  {
    SortSorted(s);
    CountsOfSort(s, v);
    SortedCounts(Sort(s), v, k);
  }

  /** The squelch fields of the recorder; onSeq is `_squelch_on_seq` (None while closed). */
  datatype SquelchState = SquelchState(window: seq<int>, index: nat, samples: nat, onSeq: Option<int>)

  predicate ValidSquelch(st: SquelchState)
  {
    |st.window| == WindowSize && st.index < WindowSize && st.samples <= WindowSize
  }

  const InitialSquelch: SquelchState := SquelchState(seq(WindowSize, _ => 0), 0, 0, None)

  /** What happens to the block: written, dropped, or dropped with the squelch closing (which clears the start time). */
  datatype Gate = Write | Drop | Close

  /** The noise floor: rank 21 of the sorted window. */
  function NoiseFloor(window: seq<int>): int
    requires |window| == WindowSize
  {
    Sort(window)[FloorRank]
  }

  /** The threshold for the block: floor + thresh, 6 lower while the squelch is open. */
  function Threshold(window: seq<int>, thresh: int, open: bool): int
    requires |window| == WindowSize
  {
    NoiseFloor(window) + thresh - (if open then Hysteresis else 0)
  }

  /** The window update: rssi stored at the index, which advances and wraps from 65 to 0. */
  function Record(st: SquelchState, rssi: int): (r: SquelchState)
    requires ValidSquelch(st)
    ensures ValidSquelch(r)
  {
    st.(window := st.window[st.index := rssi], index := if st.index + 1 == WindowSize then 0 else st.index + 1)
  }

  /** _process_audio_samples' squelch decision for one block. */
  function SquelchStep(st: SquelchState, thresh: Option<int>, seqNo: int, rssi: int): (r: (SquelchState, Gate))
    requires ValidSquelch(st)
    ensures ValidSquelch(r.0)
  {
    if thresh.None? then (st, Write)
    else
      var st1 := if st.samples < WindowSize || st.onSeq.None? then Record(st, rssi) else st;
      if st1.samples < WindowSize then (st1.(samples := st1.samples + 1), Drop)
      else Decide(st1, thresh.value, seqNo, rssi)
  }

  /** The decision once the window is full: open on a strong block, close after a long quiet spell. */
  function Decide(st1: SquelchState, thresh: int, seqNo: int, rssi: int): (r: (SquelchState, Gate))
    requires ValidSquelch(st1)
    ensures ValidSquelch(r.0) && r.0.window == st1.window && r.0.index == st1.index && r.0.samples == st1.samples
  {
    var st2 := if rssi >= Threshold(st1.window, thresh, st1.onSeq.Some?) then st1.(onSeq := Some(seqNo)) else st1;
    if st2.onSeq.None? then (st2, Drop)
    else if seqNo > st2.onSeq.value + CloseAfter then (st2.(onSeq := None), Close)
    else (st2, Write)
  }

  /** Without a threshold the squelch is off: every block is written and nothing changes. */
  lemma NoThresholdWritesAll(st: SquelchState, seqNo: int, rssi: int)
    requires ValidSquelch(st)
    ensures SquelchStep(st, None, seqNo, rssi) == (st, Write)
  {
  }

  /**
   * After warm-up: a block at or above the threshold opens (or keeps open)
   * the squelch from its own sequence number and is written; the window
   * changes only while the squelch is closed; a closed squelch drops the
   * block; an open one that saw nothing above threshold for more than 45
   * blocks closes and drops it.
   */
  lemma AfterWarmUp(st: SquelchState, thresh: int, seqNo: int, rssi: int)
    requires ValidSquelch(st) && st.samples == WindowSize
    ensures var (r, gate) := SquelchStep(st, Some(thresh), seqNo, rssi);
            var window := if st.onSeq.None? then st.window[st.index := rssi] else st.window;
            var t := Threshold(window, thresh, st.onSeq.Some?);
            && r.window == window && r.samples == WindowSize
            && (rssi >= t ==> gate == Write && r.onSeq == Some(seqNo))
            && (rssi < t && st.onSeq.None? ==> gate == Drop && r.onSeq.None?)
            && (rssi < t && st.onSeq.Some? && seqNo > st.onSeq.value + CloseAfter ==> gate == Close && r.onSeq.None?)
            && (rssi < t && st.onSeq.Some? && seqNo <= st.onSeq.value + CloseAfter ==> gate == Write && r.onSeq == st.onSeq)
  {
    var st1 := if st.onSeq.None? then Record(st, rssi) else st;
    assert st1.samples == WindowSize && st1.onSeq == st.onSeq;
    var t := Threshold(st1.window, thresh, st1.onSeq.Some?);
    var st2 := if rssi >= t then st1.(onSeq := Some(seqNo)) else st1;
    assert SquelchStep(st, Some(thresh), seqNo, rssi) == Decide(st1, thresh, seqNo, rssi);
  }

  /** A block is written only while the squelch is (or just became) open, or when there is no threshold. */
  lemma WrittenOnlyWhenOpen(st: SquelchState, thresh: Option<int>, seqNo: int, rssi: int)
    requires ValidSquelch(st)
    ensures var (r, gate) := SquelchStep(st, thresh, seqNo, rssi);
            gate == Write ==> thresh.None? || (st.samples == WindowSize && r.onSeq.Some? && seqNo <= r.onSeq.value + CloseAfter)
  {
  }

  /** The squelch run over a sequence of (seq, rssi) blocks, with the gate of each. */
  function Run(st: SquelchState, thresh: Option<int>, blocks: seq<(int, int)>): (r: (SquelchState, seq<Gate>))
    requires ValidSquelch(st)
    ensures ValidSquelch(r.0) && |r.1| == |blocks|
  {
    if blocks == [] then (st, [])
    else
      var (s1, gates) := Run(st, thresh, blocks[..|blocks| - 1]);
      var (s2, gate) := SquelchStep(s1, thresh, blocks[|blocks| - 1].0, blocks[|blocks| - 1].1);
      (s2, gates + [gate])
  }

  /**
   * Warm-up: with a threshold set, the first 65 blocks from the initial
   * state only fill the window in arrival order; every one is dropped.
   */
  lemma WarmUp(thresh: int, blocks: seq<(int, int)>)
    requires |blocks| <= WindowSize
    ensures var (st, gates) := Run(InitialSquelch, Some(thresh), blocks);
            && st.samples == |blocks|
            && st.index == (if |blocks| == WindowSize then 0 else |blocks|)
            && st.onSeq.None?
            && (forall i :: 0 <= i < |blocks| ==> st.window[i] == blocks[i].1)
            && (forall i :: |blocks| <= i < WindowSize ==> st.window[i] == 0)
            && (forall i :: 0 <= i < |blocks| ==> gates[i] == Drop)
  {
    FillWindow(InitialSquelch, thresh, blocks);
  }

  /** The run over a non-empty list: the run over all but the last block, then one step. */
  lemma RunSnoc(st: SquelchState, thresh: Option<int>, blocks: seq<(int, int)>)
    requires ValidSquelch(st) && blocks != []
    ensures var (s1, gates) := Run(st, thresh, blocks[..|blocks| - 1]);
            var (s2, gate) := SquelchStep(s1, thresh, blocks[|blocks| - 1].0, blocks[|blocks| - 1].1);
            Run(st, thresh, blocks) == (s2, gates + [gate])
  {
  }

  /** One warm-up block: recorded and dropped. */
  lemma WarmUpStep(st: SquelchState, thresh: int, seqNo: int, rssi: int)
    requires ValidSquelch(st) && st.samples < WindowSize
    ensures SquelchStep(st, Some(thresh), seqNo, rssi) == (Record(st, rssi).(samples := st.samples + 1), Drop)
  {
  }

  /** Warm-up from any window contents, as long as no block has been counted yet. */
  lemma {:induction false} FillWindow(st0: SquelchState, thresh: int, blocks: seq<(int, int)>)
    requires ValidSquelch(st0) && st0.index == 0 && st0.samples == 0 && st0.onSeq.None?
    requires |blocks| <= WindowSize
    ensures var (st, gates) := Run(st0, Some(thresh), blocks);
            && st.samples == |blocks|
            && st.index == (if |blocks| == WindowSize then 0 else |blocks|)
            && st.onSeq.None?
            && (forall i :: 0 <= i < |blocks| ==> st.window[i] == blocks[i].1)
            && (forall i :: |blocks| <= i < WindowSize ==> st.window[i] == st0.window[i])
            && (forall i :: 0 <= i < |blocks| ==> gates[i] == Drop)
  {
    if blocks != [] {
      var n := |blocks|;
      var init := blocks[..n - 1];
      FillWindow(st0, thresh, init);
      var (s1, g1) := Run(st0, Some(thresh), init);
      assert s1.samples == n - 1 && s1.index == n - 1;
      var last := blocks[n - 1];
      var s2 := Record(s1, last.1).(samples := n);
      WarmUpStep(s1, thresh, last.0, last.1);
      RunSnoc(st0, Some(thresh), blocks);
      assert Run(st0, Some(thresh), blocks) == (s2, g1 + [Drop]);
      assert s2.window == s1.window[n - 1 := last.1];
      forall i | 0 <= i < n
        ensures s2.window[i] == blocks[i].1 && (g1 + [Drop])[i] == Drop
      {
        if i < n - 1 {
          assert init[i] == blocks[i];
        }
      }
    }
  }
}
