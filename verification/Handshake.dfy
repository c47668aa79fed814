/** The hand-over between the message loop and an external control loop: a slot with a ready flag in
    each direction. The locks make every method one atomic step. */
module Handshake {

  /** One slot per direction. T stands for a message of either kind. */
  class ControllerMotion<T(0)> {
    var readReady: bool
    var writeReady: bool
    var inputs: T
    var outputs: T

    /** History: the outputs written in this session, the outputs consumed, and how many writes the
        last consumed one had seen. */
    ghost var written: seq<T>
    ghost var consumed: seq<nat>

    /** Consumed outputs are writes of this session, in order and none twice; a pending output is the
        latest write and newer than all consumed ones. */
    ghost predicate Valid()
      reads this
    {
      && InOrder(consumed, |written|)
      && (writeReady ==> written != [] && outputs == written[|written| - 1] && NewerThan(consumed, |written| - 1))
    }

    constructor ()
      ensures Valid() && !readReady && !writeReady && written == [] && consumed == []
    {
      readReady, writeReady := false, false;
      written, consumed := [], [];
    }

    /** A new session forgets whatever either side had put up. */
    method Initialize(first: bool)
      requires Valid()
      modifies this
      ensures Valid() && inputs == old(inputs) && outputs == old(outputs)
      ensures first ==> !readReady && !writeReady && written == [] && consumed == []
      ensures !first ==>
                && readReady == old(readReady) && writeReady == old(writeReady)
                && written == old(written) && consumed == old(consumed)
    {
      if first {
        readReady, writeReady := false, false;
        written, consumed := [], [];
      }
    }

    method WriteInputs(i: T)
      requires Valid()
      modifies this`inputs, this`readReady
      ensures Valid() && inputs == i && readReady
    {
      inputs := i;
      readReady := true;
    }

    /** The reader's side. The flag is not consulted: reading twice gives the same inputs twice. */
    method ReadInputs() returns (i: T)
      requires Valid()
      modifies this`readReady
      ensures Valid() && i == inputs && !readReady
    {
      i := inputs;
      readReady := false;
    }

    /** A write replaces an output nobody has fetched. */
    method WriteOutputs(o: T)
      requires Valid()
      modifies this`outputs, this`writeReady, this`written
      ensures Valid() && outputs == o && writeReady && written == old(written) + [o]
    {
      WritesKeepOrder(consumed, |written|);
      outputs := o;
      writeReady := true;
      written := written + [o];
    }

    /** The message loop waits for an output or gives up. A time-out may win against a write that
        arrives at the last moment; that output then stays for the next message. `merge` lays the
        fields present in the output over the target. */
    method ReadOutputs(timedOut: bool, target: T, merge: (T, T) -> T) returns (o: T)
      requires Valid() && (!timedOut ==> writeReady)
      modifies this`writeReady, this`consumed
      ensures Valid() && written == old(written)
      ensures timedOut ==> o == target && consumed == old(consumed) && writeReady == old(writeReady)
      ensures !timedOut ==>
                && !writeReady && o == merge(target, written[|written| - 1])
                && consumed == old(consumed) + [|written| - 1]
    {
      o := target;
      if !timedOut {
        Consume(consumed, |written|);
        o := merge(target, outputs);
        writeReady := false;
        consumed := consumed + [|written| - 1];
      }
    }
  }

  /** Strictly increasing indices below n. */
  ghost predicate InOrder(c: seq<nat>, n: nat) {
    && (forall i :: 0 <= i < |c| ==> c[i] < n)
    && (forall i, j :: 0 <= i < j < |c| ==> c[i] < c[j])
  }

  ghost predicate NewerThan(c: seq<nat>, index: int) { forall i :: 0 <= i < |c| ==> c[i] < index }

  lemma WritesKeepOrder(c: seq<nat>, n: nat)
    requires InOrder(c, n)
    ensures InOrder(c, n + 1) && NewerThan(c, n)
  {
  }

  lemma Consume(c: seq<nat>, n: nat)
    requires InOrder(c, n) && n > 0 && NewerThan(c, n - 1)
    ensures InOrder(c + [n - 1], n)
  {
  }

  /** What InOrder means for the values: the consumed outputs are a subsequence of the writes, so no
      write is used twice and none overtakes another. */
  ghost function Values<T>(written: seq<T>, c: seq<nat>): (v: seq<T>)
    requires InOrder(c, |written|)
  {
    seq(|c|, i requires 0 <= i < |c| => written[c[i]])
  }

  ghost predicate IsSubsequence<T(!new)>(s: seq<T>, t: seq<T>) {
    if s == [] then true
    else if t == [] then false
    else (s[0] == t[0] && IsSubsequence(s[1..], t[1..])) || IsSubsequence(s, t[1..])
  }

  lemma {:induction false} ConsumedIsSubsequence<T(!new)>(written: seq<T>, c: seq<nat>)
    requires InOrder(c, |written|)
    ensures IsSubsequence(Values(written, c), written)
    decreases |written|
  {
    if c != [] {
      if c[0] == 0 {
        var c' := seq(|c| - 1, i requires 0 <= i < |c| - 1 => c[i + 1] - 1);
        ConsumedIsSubsequence(written[1..], c');
        assert Values(written, c)[1..] == Values(written[1..], c');
      } else {
        var c' := seq(|c|, i requires 0 <= i < |c| => c[i] - 1);
        assert forall i :: 0 <= i < |c| ==> c[0] <= c[i];
        ConsumedIsSubsequence(written[1..], c');
        assert Values(written, c) == Values(written[1..], c');
      }
    }
  }
}
