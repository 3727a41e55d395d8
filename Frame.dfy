/**
 * Aquila::Frame and its iterator (branches/cache/src/Frame.cpp).
 *
 * A frame borrows a channel of integer samples and marks the range
 * [begin, end) of it. Frame.h is not part of this model: the iterators begin()
 * and end() (at _begin and _end) and getLength() (= _end - _begin) are
 * inferred from the way Frame.cpp and Transform.cpp use them.
 */
module Frames {
  import opened Maths

  class Frame {
    const sourceChannel: seq<int>
    const begin: nat
    const end: nat

    /** Frame(source, indexBegin, indexEnd): the frame keeps the source unchanged. */
    constructor(source: seq<int>, indexBegin: nat, indexEnd: nat)
      ensures sourceChannel == source && begin == indexBegin && end == indexEnd
    {
      sourceChannel := source;
      begin := indexBegin;
      end := indexEnd;
    }

    /** The range lies inside the source. */
    predicate Valid()
    {
      begin <= end <= |sourceChannel|
    }

    /** The samples an iteration from begin() to end() visits. */
    function Samples(): (s: seq<int>)
      requires Valid()
      ensures |s| == Length()
      ensures forall i :: 0 <= i < |s| ==> s[i] == sourceChannel[begin + i]
    {
      sourceChannel[begin..end]
    }

    function Length(): nat
      requires Valid()
    {
      end - begin
    }

    method Begin() returns (it: FrameIterator)
      ensures fresh(it) && it.frame == this && it.idx == begin
    {
      it := new FrameIterator(this, begin);
    }

    method End() returns (it: FrameIterator)
      ensures fresh(it) && it.frame == this && it.idx == end
    {
      it := new FrameIterator(this, end);
    }
  }

  /** Frame::iterator: a frame pointer and an index into the source. */
  class FrameIterator {
    var frame: Frame
    var idx: nat

    constructor(f: Frame, i: nat)
      ensures frame == f && idx == i
    {
      frame := f;
      idx := i;
    }

    /** operator=: both members are copied. */
    method Assign(other: FrameIterator) returns (self: FrameIterator)
      modifies this
      ensures frame == other.frame && idx == old(other.idx)
      ensures self == this
    {
      frame := other.frame;
      idx := other.idx;
      self := this;
    }

    /** operator==: same frame and same sample. */
    predicate Equals(other: FrameIterator)
      reads this, other
    {
      frame == other.frame && idx == other.idx
    }

    /** operator!=: the negation of operator==. */
    predicate NotEquals(other: FrameIterator)
      reads this, other
    {
      !Equals(other)
    }

    /** Prefix ++: one sample further, returning the iterator itself. */
    method PreIncrement() returns (self: FrameIterator)
      modifies this
      ensures idx == old(idx) + 1 && frame == old(frame)
      ensures self == this
    {
      idx := idx + 1;
      self := this;
    }

    /** Postfix ++: a copy at the old position; the original moves on. */
    method PostIncrement() returns (tmp: FrameIterator)
      modifies this
      ensures fresh(tmp) && tmp.frame == frame && tmp.idx == old(idx)
      ensures idx == old(idx) + 1 && frame == old(frame)
    {
      tmp := new FrameIterator(frame, idx);
      var _ := PreIncrement();
    }

    /** operator*: the source sample under the iterator. */
    function Deref(): (x: int)
      reads this
      requires idx < |frame.sourceChannel|
      ensures x == frame.sourceChannel[idx]
    {
      frame.sourceChannel[idx]
    }

    /** getPosition: idx - _begin in unsigned arithmetic. */
    function GetPosition(): (p: nat)
      reads this
      requires IsU32(idx) && IsU32(frame.begin)
      ensures frame.begin <= idx ==> p + frame.begin == idx
      ensures idx < frame.begin ==> p == idx - frame.begin + U32
    {
      SubU32(idx, frame.begin)
    }
  }

  /** Iterator equality is an equivalence, and != is its exact complement. */
  lemma EqualityLaws(a: FrameIterator, b: FrameIterator, c: FrameIterator)
    ensures a.Equals(a)
    ensures a.Equals(b) <==> b.Equals(a)
    ensures a.Equals(b) && b.Equals(c) ==> a.Equals(c)
    ensures a.NotEquals(b) <==> !a.Equals(b)
    ensures a.Equals(b) <==> a.frame == b.frame && a.idx == b.idx
  {
  }
}
