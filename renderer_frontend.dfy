/**
 * The renderer front end: it owns the one backend, counts frames, and turns a
 * frame into a begin and an end call on the backend. What the backend's own
 * initialize, begin-frame and end-frame answer is a parameter of each call.
 */
module RendererFrontEnd {
  import opened Defines
  import TMemory

  /** What the backend answers to the begin and to the end of one drawn frame. */
  datatype FrameOutcome = FrameOutcome(begin: bool, end: bool)

  /**
   * One RendererDrawFrame on a frame counter: a frame whose begin fails is
   * skipped and reported as fine; otherwise the frame is ended, which counts it,
   * and the answer is the end's.
   */
  function AfterDraw(frameNumber: nat, o: FrameOutcome): (r: (nat, bool))
    ensures r.0 == frameNumber + 1 <==> o.begin
    ensures r.0 == frameNumber <==> !o.begin
    ensures !r.1 <==> o.begin && !o.end
  {
    if o.begin then (frameNumber + 1, o.end) else (frameNumber, true)
  }

  /** The frame counter after drawing the frames `os` in order, from `start`. */
  function FrameNumberAfter(start: nat, os: seq<FrameOutcome>): nat
    decreases |os|
  {
    if os == [] then start else FrameNumberAfter(AfterDraw(start, os[0]).0, os[1..])
  }

  /** How many of the frames `os` began successfully. */
  function SucceededBegins(os: seq<FrameOutcome>): nat
    decreases |os|
  {
    if os == [] then 0
    else SucceededBegins(os[..|os| - 1]) + (if os[|os| - 1].begin then 1 else 0)
  }

  /** Counting successful begins from the front agrees with counting from the back. */
  lemma {:induction false} SucceededBeginsFront(os: seq<FrameOutcome>)
    requires os != []
    ensures SucceededBegins(os) == (if os[0].begin then 1 else 0) + SucceededBegins(os[1..])
    decreases |os|
  {
    if |os| > 1 {
      SucceededBeginsFront(os[..|os| - 1]);
      assert os[..|os| - 1][1..] == os[1..][..|os[1..]| - 1];
    } else {
      assert os[1..] == [];
      assert os[..|os| - 1] == [];
    }
  }

  /** The frame counter goes up by exactly the number of frames whose begin succeeded. */
  lemma {:induction false} FrameNumberCountsBegunFrames(start: nat, os: seq<FrameOutcome>)
    ensures FrameNumberAfter(start, os) == start + SucceededBegins(os)
    decreases |os|
  {
    if os != [] {
      FrameNumberCountsBegunFrames(AfterDraw(start, os[0]).0, os[1..]);
      SucceededBeginsFront(os);
    }
  }

  /** Skipped frames leave the counter where it was. */
  lemma {:induction false} SkippedFramesNotCounted(start: nat, os: seq<FrameOutcome>)
    requires forall i :: 0 <= i < |os| ==> !os[i].begin
    ensures FrameNumberAfter(start, os) == start
  {
    FrameNumberCountsBegunFrames(start, os);
    NoBegins(os);
  }

  lemma {:induction false} NoBegins(os: seq<FrameOutcome>)
    requires forall i :: 0 <= i < |os| ==> !os[i].begin
    ensures SucceededBegins(os) == 0
    decreases |os|
  {
    if os != [] {
      NoBegins(os[..|os| - 1]);
    }
  }

  /**
   * The front end's state: whether the backend has been allocated, its frame
   * counter, and the sizes passed on to its `resized`.
   */
  class Renderer {
    var backendExists: bool
    var frameNumber: nat
    var resizes: seq<(u16, u16)>

    /** No backend yet. */
    constructor ()
      ensures !backendExists && frameNumber == 0 && resizes == []
    {
      backendExists, frameNumber, resizes := false, 0, [];
    }

    /**
     * RendererInitialize: allocates the backend under the renderer tag (the
     * backend then exists even if its initialize fails), zeroes the frame
     * counter and answers what the backend's initialize answers.
     */
    method Initialize(stats: TMemory.MemoryStats, backendSize: nat, backendInitialized: bool) returns (ok: bool)
      requires stats.Valid()
      modifies this, stats, stats.tagged
      ensures stats.Valid() && stats.tagged == old(stats.tagged)
      ensures stats.totalAllocated == old(stats.totalAllocated) + backendSize
      ensures stats.tagged[..] == TMemory.Charged(old(stats.tagged[..]), TMemory.TagRenderer, backendSize)
      ensures backendExists && frameNumber == 0 && resizes == []
      ensures ok == backendInitialized
    {
      var block, warned := stats.Allocate(backendSize, TMemory.TagRenderer);
      backendExists := true;
      resizes := [];
      frameNumber := 0;
      if !backendInitialized {
        return false;
      }
      return true;
    }

    /**
     * RendererShutdown: shuts the backend down and frees it under the renderer
     * tag. The pointer is not cleared, so the front end still sees a backend.
     */
    method Shutdown(stats: TMemory.MemoryStats, backendSize: nat)
      requires backendExists
      requires stats.Valid() && backendSize <= stats.tagged[TMemory.TagRenderer]
      modifies stats, stats.tagged
      ensures stats.Valid() && stats.tagged == old(stats.tagged)
      ensures stats.totalAllocated + backendSize == old(stats.totalAllocated)
      ensures stats.tagged[..] == TMemory.Refunded(old(stats.tagged[..]), TMemory.TagRenderer, backendSize)
    {
      var warned := stats.Free(backendSize, TMemory.TagRenderer);
    }

    /** RendererBeginFrame: the backend's answer, nothing else. */
    method BeginFrame(backendResult: bool) returns (ok: bool)
      requires backendExists
      ensures ok == backendResult
    {
      ok := backendResult;
    }

    /** RendererEndFrame: counts the frame whatever the backend answers, and passes the answer on. */
    method EndFrame(backendResult: bool) returns (ok: bool)
      requires backendExists
      modifies this`frameNumber
      ensures frameNumber == old(frameNumber) + 1
      ensures ok == backendResult
    {
      ok := backendResult;
      frameNumber := frameNumber + 1;
    }

    /** RendererOnResized: passed on when there is a backend, only logged otherwise. */
    method OnResized(width: u16, height: u16) returns (forwarded: bool)
      modifies this`resizes
      ensures forwarded == backendExists
      ensures resizes == old(resizes) + (if backendExists then [(width, height)] else [])
    {
      if backendExists {
        resizes := resizes + [(width, height)];
        forwarded := true;
      } else {
        forwarded := false;
      }
    }

    /**
     * RendererDrawFrame: `beginResult` and `endResult` are the backend's
     * answers; `ended` says whether the end was reached.
     */
    method DrawFrame(beginResult: bool, endResult: bool) returns (ok: bool, ended: bool)
      requires backendExists
      modifies this`frameNumber
      ensures (frameNumber, ok) == AfterDraw(old(frameNumber), FrameOutcome(beginResult, endResult))
      ensures ended == beginResult
    {
      ended := false;
      var begun := BeginFrame(beginResult);
      if begun {
        ended := true;
        var result := EndFrame(endResult);
        if !result {
          return false, ended;
        }
      }
      return true, ended;
    }
  }
}
