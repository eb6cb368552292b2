/**
 * The frame files of the background-replacement services: frame `i` is
 * written as `f'{i:04d}.png'` into the frames directory, and the video is
 * reassembled from `sorted(...)` of the `.png` names found there.
 */
module Frames {
  import opened Text
  import opened Numerals
  import opened Ordering
  import opened Directory

  const PNG := ".png"

  /** The frame file name with the index zero-padded to width `w`. */
  function PaddedName(i: nat, w: nat): (name: string)
    ensures EndsWith(name, PNG)
  {
    var digits := FormatPadded(i, w);
    assert (digits + PNG)[|digits + PNG| - |PNG|..] == PNG;
    digits + PNG
  }

  /** `f'{i:04d}.png'`, the name both services give frame `i`. */
  function FrameName(i: nat): (name: string)
    ensures EndsWith(name, PNG)
  {
    PaddedName(i, 4)
  }

  /** Fixed-width digit strings order like the numbers they write. */
  lemma {:induction false} FixedDigitsOrdered(i: nat, j: nat, w: nat)
    requires i < j < Pow10(w)
    ensures Below(FixedDigits(i, w), FixedDigits(j, w))
    decreases w
  {
    assert w > 0;
    var hi := FixedDigits(i / 10, w - 1);
    var hj := FixedDigits(j / 10, w - 1);
    var di := [DigitChar(i % 10)];
    var dj := [DigitChar(j % 10)];
    assert FixedDigits(i, w) == hi + di && FixedDigits(j, w) == hj + dj;
    if i / 10 == j / 10 {
      assert i % 10 < j % 10;
      assert Below(di, dj);
      BelowCommonPrefix(hi, di, dj);
    } else {
      assert j / 10 < Pow10(w - 1) by {
        assert Pow10(w) == 10 * Pow10(w - 1);
      }
      FixedDigitsOrdered(i / 10, j / 10, w - 1);
      BelowExtend(hi, hj, di, dj);
    }
  }

  /** Names padded to width `w` sort in index order below `10^w`. */
  lemma PaddedNamesOrdered(i: nat, j: nat, w: nat)
    requires w >= 1 && i < j < Pow10(w)
    ensures Below(PaddedName(i, w), PaddedName(j, w))
  {
    FormatPaddedIsFixed(i, w);
    FormatPaddedIsFixed(j, w);
    FixedDigitsOrdered(i, j, w);
    BelowExtend(FixedDigits(i, w), FixedDigits(j, w), PNG, PNG);
  }

  /** `'{i:04d}.png'` sorts in frame order for every index below 10000. */
  lemma FrameNamesOrdered(i: nat, j: nat)
    requires i < j < 10000
    ensures Below(FrameName(i), FrameName(j))
  {
    assert Pow10(4) == 10000;
    PaddedNamesOrdered(i, j, 4);
  }

  /** A number at least `10^w` has more than `w` digits. */
  lemma {:induction false} ShowNatLengthAtLeast(n: nat, w: nat)
    requires Pow10(w) <= n
    ensures |ShowNat(n)| > w
  {
    if w > 0 {
      assert n >= 10;
      assert Pow10(w - 1) <= n / 10;
      ShowNatLengthAtLeast(n / 10, w - 1);
    }
  }

  /** "10000" is the five low digits of 10000, and so is what `{:04d}` prints for it. */
  lemma TenThousandPadded()
    ensures FormatPadded(10000, 4) == FixedDigits(10000, 5)
  {
    assert Pow10(5) == 100000 && Pow10(4) == 10000;
    ShowNatLength(10000, 5);
    ShowNatLengthAtLeast(10000, 4);
    FormatPaddedIsFixed(10000, 5);
  }

  /** From frame 10000 on the five-digit names sort among the four-digit ones: "10000.png" comes before "1001.png". */
  lemma FrameTenThousandSortsEarly()
    ensures Below(FrameName(10000), FrameName(1001))
  {
    TenThousandPadded();
    assert Pow10(4) == 10000;
    FormatPaddedIsFixed(1001, 4);
    var head := FixedDigits(100, 3);
    var a := ['0', '0'] + PNG;
    var b := ['1'] + PNG;
    assert FixedDigits(10000, 5) == head + ['0', '0'] by {
      assert FixedDigits(10000, 5) == FixedDigits(1000, 4) + ['0'];
      assert FixedDigits(1000, 4) == head + ['0'];
    }
    assert FixedDigits(1001, 4) == head + ['1'];
    assert FrameName(10000) == head + a;
    assert FrameName(1001) == head + b;
    assert Below(a, b);
    BelowCommonPrefix(head, a, b);
  }

  /** A natural number is below ten to the number of its digits. */
  lemma {:induction false} ShowNatBound(n: nat)
    ensures n < Pow10(|ShowNat(n)|)
  {
    if n >= 10 {
      ShowNatBound(n / 10);
      assert |ShowNat(n)| == |ShowNat(n / 10)| + 1;
    }
  }

  lemma {:induction false} Pow10Monotone(a: nat, b: nat)
    requires a <= b
    ensures Pow10(a) <= Pow10(b)
    decreases b
  {
    if a < b {
      Pow10Monotone(a, b - 1);
    }
  }

  /** A padding width wide enough for every index below `count`: at least four, and the digits of the last index. */
  function Width(count: nat): (w: nat)
    ensures w >= 4 && count <= Pow10(w)
  {
    var last := if count == 0 then 0 else count - 1;
    var d := |ShowNat(last)|;
    ShowNatBound(last);
    if d < 4 then (Pow10Monotone(d, 4); 4) else d
  }

  /** The corrected frame name: the index padded to the width of the frame count. */
  function FrameNameFor(i: nat, count: nat): (name: string)
    ensures EndsWith(name, PNG)
  {
    PaddedName(i, Width(count))
  }

  /** Corrected names sort in frame order for every frame of the video, however long. */
  lemma CorrectedNamesOrdered(i: nat, j: nat, count: nat)
    requires i < j < count
    ensures Below(FrameNameFor(i, count), FrameNameFor(j, count))
  {
    PaddedNamesOrdered(i, j, Width(count));
  }

  /** Up to 10000 frames the corrected names are the names the services write. */
  lemma CorrectedNamesAgreeUpToTenThousand(i: nat, count: nat)
    requires count <= 10000
    ensures FrameNameFor(i, count) == FrameName(i)
  {
    assert Pow10(4) == 10000;
    var last := if count == 0 then 0 else count - 1;
    ShowNatLength(last, 4);
  }

  /** Indices in strictly increasing order. */
  predicate Increasing(s: seq<nat>) {
    forall a, b :: 0 <= a < b < |s| ==> s[a] < s[b]
  }

  /** How a video reads: the frame count it reports, how many reads succeed, and which frames the background remover fails on. */
  datatype Capture = Capture(frameCount: int, readable: nat, removalFails: nat -> bool)

  /** Frame `i` is written: inside the reported count, read successfully, and its background removed. */
  predicate Written(cap: Capture, i: nat) {
    i < cap.frameCount && i < cap.readable && !cap.removalFails(i)
  }

  /** The frames below `n` whose background removal succeeds, in order. */
  function FramesBelow(n: nat, fails: nat -> bool): (s: seq<nat>)
    ensures Increasing(s)
    ensures forall k :: 0 <= k < |s| ==> s[k] < n && !fails(s[k])
    ensures forall i: nat :: i < n && !fails(i) ==> i in s
  {
    if n == 0 then []
    else
      var prev := FramesBelow(n - 1, fails);
      if fails(n - 1) then prev else prev + [n - 1]
  }

  /** The loop reaches index `i`: inside the reported count, and every read so far succeeded. */
  predicate Reached(cap: Capture, i: nat) {
    i < cap.frameCount && i < cap.readable
  }

  /** How far the frame loop gets: the reported count, cut short by the first failed read. */
  function LoopBound(cap: Capture): (n: nat)
    ensures forall i: nat :: Reached(cap, i) <==> i < n
  {
    if cap.frameCount <= 0 then 0
    else if cap.frameCount < cap.readable then cap.frameCount
    else cap.readable
  }

  /** The indices of the frames written. */
  function WrittenFrames(cap: Capture): (s: seq<nat>)
    ensures Increasing(s)
    ensures forall k :: 0 <= k < |s| ==> Written(cap, s[k])
    ensures forall i: nat :: Written(cap, i) ==> i in s
  {
    FramesBelow(LoopBound(cap), cap.removalFails)
  }

  /**
   * The frame loop: for each index in the reported count, stop at the first
   * failed read, skip a frame whose background removal raises, and write
   * the rest.
   */
  method FrameLoop(cap: Capture) returns (written: seq<nat>)
    ensures written == WrittenFrames(cap)
  {
    written := [];
    var i: nat := 0;
    while i < cap.frameCount
      invariant i <= LoopBound(cap)
      invariant written == FramesBelow(i, cap.removalFails)
      decreases cap.frameCount - i
    {
      if i >= cap.readable {
        break;
      }
      if !cap.removalFails(i) {
        written := written + [i];
      }
      i := i + 1;
    }
  }

  /** The files the loop adds to the frames directory. */
  function NewFrames(written: seq<nat>): (m: map<string, Entry>)
    ensures forall k :: 0 <= k < |written| ==> FrameName(written[k]) in m
    ensures forall n :: n in m ==> exists k :: 0 <= k < |written| && n == FrameName(written[k])
  {
    var names := set k | 0 <= k < |written| :: FrameName(written[k]);
    map n | n in names :: File
  }

  /** The `.png` names of a directory listing. */
  function PngNames(children: map<string, Entry>): (names: set<string>)
    ensures forall n :: n in names <==> n in children && EndsWith(n, PNG)
  {
    set n | n in children && EndsWith(n, PNG)
  }

  /** The order the frames go into the video: `sorted` of the `.png` names. */
  function Reassembly(children: map<string, Entry>): (order: seq<string>)
    ensures StrictlySorted(order)
    ensures forall n :: n in order <==> n in children && EndsWith(n, PNG)
  {
    SortedNames(PngNames(children))
  }

  /**
   * When the frames directory held no `.png` before the loop and fewer
   * than 10000 frames were read, the video takes exactly the written
   * frames, in frame order.
   */
  lemma ReassemblyInFrameOrder(before: map<string, Entry>, written: seq<nat>)
    requires PngNames(before) == {}
    requires Increasing(written)
    requires forall k :: 0 <= k < |written| ==> written[k] < 10000
    ensures Reassembly(before + NewFrames(written)) == seq(|written|, k requires 0 <= k < |written| => FrameName(written[k]))
  {
    var names := seq(|written|, k requires 0 <= k < |written| => FrameName(written[k]));
    var after := before + NewFrames(written);
    forall a, b | 0 <= a < b < |names|
      ensures Below(names[a], names[b])
    {
      FrameNamesOrdered(written[a], written[b]);
    }
    forall n
      ensures n in names <==> n in after && EndsWith(n, PNG)
    {
      if n in names {
        var k :| 0 <= k < |names| && names[k] == n;
        assert FrameName(written[k]) in NewFrames(written);
      }
      if n in after && EndsWith(n, PNG) {
        assert n !in before || n in NewFrames(written);
        var k :| 0 <= k < |written| && n == FrameName(written[k]);
        assert names[k] == n;
      }
    }
    SortedUnique(Reassembly(after), names);
  }

  /**
   * Once 10000 frames or more are written, the video takes frame 10000
   * before frame 1001.
   */
  lemma ReassemblyMisordersLongVideos(before: map<string, Entry>, written: seq<nat>)
    requires 1001 in written && 10000 in written
    ensures var order := Reassembly(before + NewFrames(written));
            forall a, b :: 0 <= a < |order| && 0 <= b < |order| && order[a] == FrameName(10000) && order[b] == FrameName(1001) ==> a < b
  {
    var order := Reassembly(before + NewFrames(written));
    FrameTenThousandSortsEarly();
    forall a, b | 0 <= a < |order| && 0 <= b < |order| && order[a] == FrameName(10000) && order[b] == FrameName(1001)
      ensures a < b
    {
      if b < a {
        BelowTransitive(order[b], order[a], order[b]);
        BelowIrreflexive(order[b]);
      } else if a == b {
        BelowIrreflexive(order[a]);
      }
    }
  }

  /** The corrected frame files: names padded to the width of the frame count. */
  function NewFramesFor(written: seq<nat>, count: nat): (m: map<string, Entry>)
    ensures forall k :: 0 <= k < |written| ==> FrameNameFor(written[k], count) in m
    ensures forall n :: n in m ==> exists k :: 0 <= k < |written| && n == FrameNameFor(written[k], count)
  {
    var names := set k | 0 <= k < |written| :: FrameNameFor(written[k], count);
    map n | n in names :: File
  }

  /** With the corrected names the video takes the written frames in frame order, whatever their number. */
  lemma CorrectedReassemblyInFrameOrder(before: map<string, Entry>, written: seq<nat>, count: nat)
    requires PngNames(before) == {}
    requires Increasing(written)
    requires forall k :: 0 <= k < |written| ==> written[k] < count
    ensures Reassembly(before + NewFramesFor(written, count))
         == seq(|written|, k requires 0 <= k < |written| => FrameNameFor(written[k], count))
  {
    var names := seq(|written|, k requires 0 <= k < |written| => FrameNameFor(written[k], count));
    var after := before + NewFramesFor(written, count);
    forall a, b | 0 <= a < b < |names|
      ensures Below(names[a], names[b])
    {
      CorrectedNamesOrdered(written[a], written[b], count);
    }
    forall n
      ensures n in names <==> n in after && EndsWith(n, PNG)
    {
      if n in names {
        var k :| 0 <= k < |names| && names[k] == n;
        assert FrameNameFor(written[k], count) in NewFramesFor(written, count);
      }
      if n in after && EndsWith(n, PNG) {
        assert n !in before || n in NewFramesFor(written, count);
        var k :| 0 <= k < |written| && n == FrameNameFor(written[k], count);
        assert names[k] == n;
      }
    }
    SortedUnique(Reassembly(after), names);
  }
}
