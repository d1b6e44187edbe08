/**
 * The pipe system: a fixed ring of pipes that is recycled as the player
 * advances (Assets/Scripts/PipeSystem.cs).
 *
 * The scene graph is abstracted to two things: how each pipe is placed
 * relative to the others (aligned to follow another pipe, or not aligned at
 * all), and which pipe sits at the system's origin. Re-basing the chain on a
 * new head moves every pipe rigidly, so the relative placements made when the
 * chain was built never change; only the pipe at the origin does.
 */
module PipeChain {
  import opened PipeMesh

  /** How a pipe is placed relative to the other pipes. */
  datatype Placement = Unaligned | AlignedAfter(predecessor: Pipe)

  // ---------------------------------------------------------------------------
  // Rotation of a sequence

  /** The sequence turned left by one: the head moves to the back. */
  function RotateLeft<T>(s: seq<T>): (r: seq<T>)
    requires |s| >= 1
    ensures |r| == |s|
    ensures forall i :: 1 <= i < |s| ==> r[i - 1] == s[i]
    ensures r[|s| - 1] == s[0]
    ensures |s| == 1 ==> r == s
  {
    s[1..] + [s[0]]
  }

  /** `s` turned left `k` times in a row. */
  function RotateLeftTimes<T>(s: seq<T>, k: nat): (r: seq<T>)
    requires |s| >= 1
    ensures |r| == |s|
  {
    if k == 0 then s else RotateLeft(RotateLeftTimes(s, k - 1))
  }

  /** Turning left `k` times (k at most the length) splits the sequence at `k`
      and swaps the two parts. */
  lemma {:induction false} RotateLeftTimesSplits<T>(s: seq<T>, k: nat)
    requires 1 <= |s| && k <= |s|
    ensures RotateLeftTimes(s, k) == s[k..] + s[..k]
  {
    if k > 0 {
      RotateLeftTimesSplits(s, k - 1);
      var t := s[k - 1..] + s[..k - 1];
      assert t[0] == s[k - 1];
      assert t[1..] == s[k..] + s[..k - 1];
      assert s[..k] == s[..k - 1] + [s[k - 1]];
    }
  }

  /** Turning a sequence left as many times as it is long restores it. */
  lemma RotateLeftLengthTimesRestores<T>(s: seq<T>)
    requires |s| >= 1
    ensures RotateLeftTimes(s, |s|) == s
  {
    RotateLeftTimesSplits(s, |s|);
  }

  /** A left turn only reorders: the elements and their counts are kept. */
  lemma RotateLeftPermutes<T>(s: seq<T>)
    requires |s| >= 1
    ensures multiset(RotateLeft(s)) == multiset(s)
  {
    assert s == [s[0]] + s[1..];
  }

  ghost predicate Distinct<T>(s: seq<T>)
  {
    forall i, j :: 0 <= i < j < |s| ==> s[i] != s[j]
  }

  /** A left turn of distinct elements keeps them distinct. */
  lemma RotateLeftKeepsDistinct<T>(s: seq<T>)
    requires |s| >= 1 && Distinct(s)
    ensures Distinct(RotateLeft(s))
  {
    var r := RotateLeft(s);
    forall i, j | 0 <= i < j < |r|
      ensures r[i] != r[j]
    {
      if j < |r| - 1 {
        assert r[i] == s[i + 1] && r[j] == s[j + 1];
      } else {
        assert r[i] == s[i + 1] && r[j] == s[0];
      }
    }
  }

  // ---------------------------------------------------------------------------
  // Chain alignment

  /** Pipes lo to hi - 1 of `pipes` are each aligned after the pipe before them. */
  ghost predicate AlignedBetween(pipes: seq<Pipe>, placement: map<Pipe, Placement>, lo: nat, hi: nat)
  {
    forall i :: 1 <= lo <= i < hi <= |pipes| ==>
      pipes[i] in placement && placement[pipes[i]] == AlignedAfter(pipes[i - 1])
  }

  /** A recycling turns the chain left and leaves every relative placement as
      it is: the aligned stretch ending at `hi` now ends at `hi - 1`, since
      nothing aligns the recycled pipe after the pipe now before it. */
  lemma RecyclingShortensAlignedChain(pipes: seq<Pipe>, placement: map<Pipe, Placement>, hi: nat)
    requires 1 <= hi <= |pipes|
    requires AlignedBetween(pipes, placement, 1, hi)
    ensures AlignedBetween(RotateLeft(pipes), placement, 1, hi - 1)
  {
    var r := RotateLeft(pipes);
    forall i | 1 <= i < hi - 1
      ensures r[i] in placement && placement[r[i]] == AlignedAfter(r[i - 1])
    {
      assert r[i] == pipes[i + 1] && r[i - 1] == pipes[i];
    }
  }

  /** The recycled pipe, now last, sits behind the new head: the new head is
      still aligned after it. */
  lemma RecycledPipeSitsBehindHead(pipes: seq<Pipe>, placement: map<Pipe, Placement>)
    requires |pipes| >= 2 && AlignedBetween(pipes, placement, 1, 2)
    ensures RotateLeft(pipes)[|pipes| - 1] == pipes[0]
    ensures placement[RotateLeft(pipes)[0]] == AlignedAfter(RotateLeft(pipes)[|pipes| - 1])
  {
    assert RotateLeft(pipes)[0] == pipes[1];
  }

  /** After `k` recyclings of a chain built in order, only the pipes up to the
      one built last follow the head; the pipe after them is the one built
      first, which is aligned after no pipe. */
  lemma {:induction false} AlignedAheadAfterRecyclings(s: seq<Pipe>, placement: map<Pipe, Placement>, k: nat)
    requires k < |s| && AlignedBetween(s, placement, 1, |s|)
    requires s[0] in placement && placement[s[0]] == Unaligned
    ensures AlignedBetween(RotateLeftTimes(s, k), placement, 1, |s| - k)
    ensures k > 0 ==>
      RotateLeftTimes(s, k)[|s| - k] == s[0] && placement[RotateLeftTimes(s, k)[|s| - k]] == Unaligned
  {
    RotateLeftTimesSplits(s, k);
    var r := RotateLeftTimes(s, k);
    forall i | 1 <= i < |s| - k
      ensures r[i] in placement && placement[r[i]] == AlignedAfter(r[i - 1])
    {
      assert r[i] == s[k + i] && r[i - 1] == s[k + i - 1];
    }
  }

  /** Recycling as evidently intended, applied to the chain already turned
      left: the recycled pipe, now last, is aligned after the pipe before it,
      and the new head, reset to the origin, no longer follows it. */
  function RealignRecycled(pipes: seq<Pipe>, placement: map<Pipe, Placement>): (r: map<Pipe, Placement>)
    requires |pipes| >= 2 && Distinct(pipes)
    ensures r.Keys == placement.Keys + {pipes[0], pipes[|pipes| - 1]}
    ensures r[pipes[0]] == Unaligned
    ensures r[pipes[|pipes| - 1]] == AlignedAfter(pipes[|pipes| - 2])
    ensures forall p :: p in placement && p != pipes[0] && p != pipes[|pipes| - 1] ==> r[p] == placement[p]
  {
    placement[pipes[|pipes| - 1] := AlignedAfter(pipes[|pipes| - 2])][pipes[0] := Unaligned]
  }

  /** With the recycled pipe re-aligned, a chain whose every pipe follows the
      one before it stays that way after any number of recyclings. */
  lemma {:induction false} RealignedRecyclingKeepsChain(pipes: seq<Pipe>, placement: map<Pipe, Placement>)
    requires |pipes| >= 2 && Distinct(pipes)
    requires AlignedBetween(pipes, placement, 1, |pipes|)
    ensures AlignedBetween(RotateLeft(pipes), RealignRecycled(RotateLeft(pipes), placement), 1, |pipes|)
  {
    var r := RotateLeft(pipes);
    RotateLeftKeepsDistinct(pipes);
    var m := RealignRecycled(r, placement);
    forall i | 1 <= i < |pipes|
      ensures r[i] in m && m[r[i]] == AlignedAfter(r[i - 1])
    {
      if i < |pipes| - 1 {
        assert r[i] == pipes[i + 1] && r[i - 1] == pipes[i];
        assert r[i] != r[0] && r[i] != r[|pipes| - 1];
      }
    }
  }

  // ---------------------------------------------------------------------------
  // The pipe system

  class PipeSystem {
    const pipes: array<Pipe>
    /** How each pipe was placed relative to the others when the chain was
        built; re-basing moves all pipes together, so it never changes. */
    const placement: map<Pipe, Placement>
    /** The pipe whose transform sits at the system's origin (none without
        pipes). */
    var anchor: Pipe?
    /** The system transform's local position. */
    var localPosition: Vector3
    /** The z Euler angle of the system transform's local rotation. */
    var localRotationZ: real

    /** The pipes are distinct, each has a relative placement, and each has
        the curve angle of its arc. */
    ghost predicate ChainValid()
      reads this, pipes, pipes[..]
    {
      && Distinct(pipes[..])
      && (forall k :: 0 <= k < pipes.Length ==> pipes[k] in placement)
      && (forall k :: 0 <= k < pipes.Length ==> pipes[k].AngleMatchesArc())
    }

    ghost predicate Valid()
      reads this, pipes, pipes[..]
    {
      ChainValid() && (pipes.Length > 0 ==> anchor == pipes[0])
    }

    /** Awake: `instances` are the `pipeCount` freshly instantiated pipes. The
        first keeps the pose it is parented with, which is the system's
        origin, and every later pipe is aligned to follow the one before it.
        The system's own transform is whatever the scene gave it. */
    constructor Awake(instances: seq<Pipe>, localPosition: Vector3, localRotationZ: real)
      requires Distinct(instances)
      requires forall k :: 0 <= k < |instances| ==> instances[k].AngleMatchesArc()
      ensures Valid()
      ensures pipes[..] == instances && fresh(pipes)
      ensures |instances| > 0 ==> placement[pipes[0]] == Unaligned
      ensures AlignedBetween(pipes[..], placement, 1, pipes.Length)
      ensures this.localPosition == localPosition && this.localRotationZ == localRotationZ
    {
      var n := |instances|;
      var a := new Pipe[n](k requires 0 <= k < n => instances[k]);
      var m: map<Pipe, Placement> := map[];
      var i := 0;
      while i < n
        invariant 0 <= i <= n
        invariant a[..] == instances
        invariant forall k :: 0 <= k < i ==> a[k] in m
        invariant 0 < i ==> m[a[0]] == Unaligned
        invariant forall k :: 1 <= k < i ==> m[a[k]] == AlignedAfter(a[k - 1])
      {
        m := m[a[i] := Unaligned];
        if i > 0 {
          m := m[a[i] := AlignedAfter(a[i - 1])];
        }
        i := i + 1;
      }
      pipes := a;
      placement := m;
      anchor := if n > 0 then a[0] else null;
      this.localPosition := localPosition;
      this.localRotationZ := localRotationZ;
    }

    /** The pipe that becomes the head at the next recycling. */
    function NextHead(): Pipe
      requires pipes.Length >= 1
      reads pipes
    {
      if pipes.Length == 1 then pipes[0] else pipes[1]
    }

    method SetupFirstPipe() returns (head: Pipe)
      requires pipes.Length >= 1
      modifies this`localPosition
      ensures head == pipes[0]
      ensures localPosition == Vector3(0.0, -(head.curveRadius as real), 0.0)
    {
      localPosition := Vector3(0.0, -(pipes[0].curveRadius as real), 0.0);
      head := pipes[0];
    }

    method SetupNextPipe() returns (head: Pipe)
      requires Valid() && pipes.Length >= 1
      modifies this, pipes
      ensures Valid()
      ensures pipes[..] == RotateLeft(old(pipes[..]))
      ensures head == anchor == pipes[0] == old(NextHead())
      ensures localPosition == Vector3(0.0, -(head.curveRadius as real), 0.0)
      ensures localRotationZ == old(localRotationZ)
    {
      ShiftPipes();
      AlignNextPipeWithOrigin();
      localPosition := Vector3(0.0, -(pipes[0].curveRadius as real), 0.0);
      head := pipes[0];
    }

    /** Moves every pipe one place towards the front and the front pipe to
        the back. */
    method ShiftPipes()
      requires ChainValid() && pipes.Length >= 1
      modifies pipes
      ensures forall i :: 1 <= i < pipes.Length ==> pipes[i - 1] == old(pipes[i])
      ensures pipes[pipes.Length - 1] == old(pipes[0])
      ensures pipes[..] == RotateLeft(old(pipes[..]))
      ensures ChainValid()
    {
      var temp := pipes[0];
      var i := 1;
      while i < pipes.Length
        invariant 1 <= i <= pipes.Length
        invariant forall k :: 0 <= k < i - 1 ==> pipes[k] == old(pipes[k + 1])
        invariant forall k :: i - 1 <= k < pipes.Length ==> pipes[k] == old(pipes[k])
      {
        pipes[i - 1] := pipes[i];
        i := i + 1;
      }
      pipes[pipes.Length - 1] := temp;
      RotateLeftKeepsDistinct(old(pipes[..]));
      forall k | 0 <= k < pipes.Length
        ensures pipes[k] in placement && pipes[k].AngleMatchesArc()
      {
        if k < pipes.Length - 1 {
          assert pipes[k] == old(pipes[k + 1]);
        }
      }
    }

    /** Re-bases the chain on its head: every other pipe is parented under the
        head, the head's transform is reset to the origin, and the pipes are
        parented back, so the whole chain moves with the head and only the
        pipe at the origin changes. */
    method AlignNextPipeWithOrigin()
      requires ChainValid() && pipes.Length >= 1
      modifies this`anchor
      ensures anchor == pipes[0]
      ensures Valid()
    {
      anchor := pipes[0];
    }
  }
}
