/**
 * The request handler of `POST /api/query/stream` (server.js:19-160):
 * resolve the thread, post the query, start a run, write a `textCreated`
 * frame, then poll the run and translate each observed status into at most
 * one frame until a terminal status; any exception becomes one generic
 * `error` frame. The remote engine is replaced by its observed answers.
 */
module Relay {
  import opened Wrappers
  import opened Sessions
  import opened Citations

  /** The run statuses the engine reports. */
  datatype RunStatus =
    | Queued | InProgress | RequiresAction | Cancelling | Cancelled
    | Failed | Completed | Incomplete | Expired

  /** One poll of the run: the status retrieved, or the retrieval threw. */
  datatype Poll = Observed(status: RunStatus) | PollThrew

  /** The payloads of the frames the handler writes (their JSON text is not modelled). */
  datatype Payload =
    | TextCreated(threadId: string)                      // {event:'textCreated', content:'', status:'started', threadId}
    | InProgressEvent(threadId: string)                  // {event:'inProgress', content:'', status:'in_progress', threadId}
    | ToolCallCreated                                    // {event:'toolCallCreated', type:'file_search'}
    | MessageDone(messages: seq<Entry>, threadId: string) // {event:'messageDone', messages, status:'completed', threadId, done:true}
    | ErrorEvent(error: string)                          // {event:'error', error, done:true}

  const RunFailedMessage: string := "Assistant run failed"
  const GenericErrorMessage: string := "An error occurred while processing your request"

  /** The frames that carry `done: true`. */
  predicate IsTerminal(p: Payload) {
    p.MessageDone? || p.ErrorEvent?
  }

  /** A poll after which the loop stops: completed, failed, or an exception. */
  predicate IsTerminalPoll(p: Poll) {
    p.PollThrew? || p.status == Completed || p.status == Failed
  }

  /** The frames written so far and whether the response has been ended. */
  datatype Stream = Stream(frames: seq<Payload>, ended: bool)

  /**
   * The frame a terminal poll writes. On `completed` the message listing is
   * fetched (`None`: the listing call threw, which the outer handler turns
   * into the generic error).
   */
  function TerminalFrame(threadId: string, p: Poll, listing: Option<seq<ApiMessage>>, lookup: Lookup): (r: Payload)
    requires IsTerminalPoll(p)
    ensures IsTerminal(r)
  {
    if p.PollThrew? then ErrorEvent(GenericErrorMessage)
    else if p.status == Failed then ErrorEvent(RunFailedMessage)
    else if listing.None? then ErrorEvent(GenericErrorMessage)
    else MessageDone(FinalHistory(listing.value, lookup), threadId)
  }

  /** The frames a non-terminal poll writes: one for `in_progress` and `requires_action`, none otherwise. */
  function ProgressFrames(threadId: string, p: Poll): (r: seq<Payload>)
    requires !IsTerminalPoll(p)
    ensures |r| <= 1 && forall j :: 0 <= j < |r| ==> !IsTerminal(r[j])
  {
    if p.status == InProgress then [InProgressEvent(threadId)]
    else if p.status == RequiresAction then [ToolCallCreated]
    else []
  }

  /** The frames the polling loop writes over a finite run of observed polls. */
  function PollStream(threadId: string, polls: seq<Poll>, listing: Option<seq<ApiMessage>>, lookup: Lookup): Stream
  {
    if |polls| == 0 then Stream([], false)
    else if IsTerminalPoll(polls[0]) then Stream([TerminalFrame(threadId, polls[0], listing, lookup)], true)
    else
      var rest := PollStream(threadId, polls[1..], listing, lookup);
      Stream(ProgressFrames(threadId, polls[0]) + rest.frames, rest.ended)
  }

  /** `k` is the first terminal poll. */
  predicate FirstTerminalAt(polls: seq<Poll>, k: nat) {
    k < |polls| && IsTerminalPoll(polls[k]) && forall j :: 0 <= j < k ==> !IsTerminalPoll(polls[j])
  }

  /** At most one frame per poll. */
  lemma {:induction false} PollStreamLength(threadId: string, polls: seq<Poll>, listing: Option<seq<ApiMessage>>, lookup: Lookup)
    ensures |PollStream(threadId, polls, listing, lookup).frames| <= |polls|
  {
    if |polls| > 0 && !IsTerminalPoll(polls[0]) {
      PollStreamLength(threadId, polls[1..], listing, lookup);
    }
  }

  /** The stream ends exactly when some observed poll is terminal. */
  lemma {:induction false} PollStreamEndsIff(threadId: string, polls: seq<Poll>, listing: Option<seq<ApiMessage>>, lookup: Lookup)
    ensures PollStream(threadId, polls, listing, lookup).ended <==> exists i :: 0 <= i < |polls| && IsTerminalPoll(polls[i])
  {
    if |polls| > 0 && !IsTerminalPoll(polls[0]) {
      PollStreamEndsIff(threadId, polls[1..], listing, lookup);
      if PollStream(threadId, polls[1..], listing, lookup).ended {
        var i :| 0 <= i < |polls[1..]| && IsTerminalPoll(polls[1..][i]);
        assert IsTerminalPoll(polls[i + 1]);
      }
      if exists i :: 0 <= i < |polls| && IsTerminalPoll(polls[i]) {
        var i :| 0 <= i < |polls| && IsTerminalPoll(polls[i]);
        assert IsTerminalPoll(polls[1..][i - 1]);
      }
    }
  }

  /** A frame is terminal exactly when the stream has ended and it is the last frame. */
  lemma {:induction false} PollStreamOneTerminal(threadId: string, polls: seq<Poll>, listing: Option<seq<ApiMessage>>, lookup: Lookup)
    ensures var s := PollStream(threadId, polls, listing, lookup);
      (s.ended ==> |s.frames| > 0) &&
      forall j :: 0 <= j < |s.frames| ==> (IsTerminal(s.frames[j]) <==> s.ended && j == |s.frames| - 1)
  {
    if |polls| > 0 && !IsTerminalPoll(polls[0]) {
      PollStreamOneTerminal(threadId, polls[1..], listing, lookup);
      var rest := PollStream(threadId, polls[1..], listing, lookup);
      var pre := ProgressFrames(threadId, polls[0]);
      assert forall j :: |pre| <= j < |pre| + |rest.frames| ==> (pre + rest.frames)[j] == rest.frames[j - |pre|];
    }
  }

  /** The last frame is the one of the first terminal poll. */
  lemma {:induction false} PollStreamLastFrame(threadId: string, polls: seq<Poll>, listing: Option<seq<ApiMessage>>, lookup: Lookup, k: nat)
    requires FirstTerminalAt(polls, k)
    ensures var s := PollStream(threadId, polls, listing, lookup);
      |s.frames| > 0 && s.frames[|s.frames| - 1] == TerminalFrame(threadId, polls[k], listing, lookup)
  {
    if k > 0 {
      assert FirstTerminalAt(polls[1..], k - 1);
      PollStreamLastFrame(threadId, polls[1..], listing, lookup, k - 1);
    }
  }

  /**
   * Observing more polls only extends the stream: once it has ended nothing
   * is added, and until then the frames of the later polls are appended.
   */
  lemma {:induction false} PollStreamExtends(threadId: string, polls: seq<Poll>, more: seq<Poll>, listing: Option<seq<ApiMessage>>, lookup: Lookup)
    ensures var s := PollStream(threadId, polls, listing, lookup);
      var t := PollStream(threadId, polls + more, listing, lookup);
      var m := PollStream(threadId, more, listing, lookup);
      (s.ended ==> t == s) && (!s.ended ==> t == Stream(s.frames + m.frames, m.ended))
  {
    if |polls| == 0 {
      assert polls + more == more;
    } else {
      assert (polls + more)[0] == polls[0];
      assert (polls + more)[1..] == polls[1..] + more;
      if !IsTerminalPoll(polls[0]) {
        PollStreamExtends(threadId, polls[1..], more, listing, lookup);
      }
    }
  }

  /** `in_progress` is not de-duplicated: n such polls write n `inProgress` frames. */
  lemma {:induction false} InProgressRepeats(threadId: string, n: nat, listing: Option<seq<ApiMessage>>, lookup: Lookup)
    ensures PollStream(threadId, seq(n, _ => Observed(InProgress)), listing, lookup)
         == Stream(seq(n, _ => InProgressEvent(threadId)), false)
  {
    if n > 0 {
      InProgressRepeats(threadId, n - 1, listing, lookup);
      assert seq(n, _ => Observed(InProgress))[1..] == seq(n - 1, _ => Observed(InProgress));
      assert [InProgressEvent(threadId)] + seq(n - 1, _ => InProgressEvent(threadId)) == seq(n, _ => InProgressEvent(threadId));
    }
  }

  /** `cancelled`, `expired` and `incomplete`: final for the engine, yet not a reason for the loop to stop. */
  predicate IsSilentFinal(p: Poll) {
    p.Observed? && (p.status == Cancelled || p.status == Expired || p.status == Incomplete)
  }

  /**
   * The loop neither writes a frame nor ends the response on these final
   * statuses: a run that ends in one of them is polled forever.
   */
  lemma {:induction false} SilentFinalNeverEnds(threadId: string, polls: seq<Poll>, listing: Option<seq<ApiMessage>>, lookup: Lookup)
    requires forall i :: 0 <= i < |polls| ==> IsSilentFinal(polls[i])
    ensures PollStream(threadId, polls, listing, lookup) == Stream([], false)
  {
    if |polls| > 0 {
      SilentFinalNeverEnds(threadId, polls[1..], listing, lookup);
    }
  }

  /**
   * Lines 69-145: one pass of the polling loop on one retrieved status (or
   * the exception of `runs.retrieve`, caught at lines 152-159): the frames it
   * writes and whether the loop stops.
   */
  method PollOnce(threadId: string, poll: Poll, listing: Option<seq<ApiMessage>>, lookup: Lookup)
    returns (written: seq<Payload>, stop: bool)
    ensures stop == IsTerminalPoll(poll)
    ensures stop ==> written == [TerminalFrame(threadId, poll, listing, lookup)]
    ensures !stop ==> written == ProgressFrames(threadId, poll)
  {
    written := [];
    stop := false;
    if poll.PollThrew? {
      written, stop := [ErrorEvent(GenericErrorMessage)], true;
      return;
    }
    if poll.status == InProgress {
      written := written + [InProgressEvent(threadId)];
    }
    if poll.status == Completed {
      if listing.None? {
        written := written + [ErrorEvent(GenericErrorMessage)];
      } else {
        var history := CompleteHistory(listing.value, lookup);
        written := written + [MessageDone(history, threadId)];
      }
      stop := true;
    } else if poll.status == Failed {
      written := written + [ErrorEvent(RunFailedMessage)];
      stop := true;
    } else if poll.status == RequiresAction {
      written := written + [ToolCallCreated];
    }
  }

  /**
   * Lines 67-149: the polling loop over the observed polls. It stops at the
   * first terminal poll; if the polls run out first, the loop is still
   * waiting (`ended` is false).
   */
  method PollRun(threadId: string, polls: seq<Poll>, listing: Option<seq<ApiMessage>>, lookup: Lookup)
    returns (frames: seq<Payload>, ended: bool)
    ensures Stream(frames, ended) == PollStream(threadId, polls, listing, lookup)
  {
    frames := [];
    ended := false;
    var i := 0;
    while i < |polls|
      invariant 0 <= i <= |polls|
      invariant PollStream(threadId, polls, listing, lookup)
             == Stream(frames + PollStream(threadId, polls[i..], listing, lookup).frames,
                       PollStream(threadId, polls[i..], listing, lookup).ended)
    {
      assert polls[i..][0] == polls[i] && polls[i..][1..] == polls[i + 1..];
      var written, stop := PollOnce(threadId, polls[i], listing, lookup);
      frames := frames + written;
      if stop {
        ended := true;
        return;
      }
      i := i + 1;
    }
    assert frames + [] == frames;
  }

  /** What the engine answers to one request, in the order the handler asks. */
  datatype Engine = Engine(
    created: Option<string>,                // threads.create(): the new id, or None when it throws
    posted: bool,                           // messages.create() returned
    runStarted: bool,                       // runs.create() returned
    polls: seq<Poll>,                       // successive runs.retrieve() results
    listing: Option<seq<ApiMessage>>,       // messages.list() on completion
    lookup: Lookup)                         // files.retrieve()

  datatype Response = Response(stream: Stream, registry: Registry)

  /** The handler's setup (thread, message, run) went through, on this thread. */
  predicate SetupSucceeds(reg: Registry, incoming: Option<string>, e: Engine) {
    Resolve(reg, incoming, e.created).threadId.Some? && e.posted && e.runStarted
  }

  /**
   * The whole response: the first frame is `textCreated` with the resolved
   * thread id when the setup went through, and the lone generic error
   * otherwise; a response that has ended carries exactly one terminal frame,
   * its last, and one that has not carries none.
   */
  function Handled(reg: Registry, incoming: Option<string>, e: Engine): (r: Response)
    ensures r.registry == Resolve(reg, incoming, e.created).registry
    ensures |r.stream.frames| >= 1
    ensures SetupSucceeds(reg, incoming, e) ==>
      r.stream.frames[0] == TextCreated(Resolve(reg, incoming, e.created).threadId.value)
    ensures !SetupSucceeds(reg, incoming, e) ==> r.stream == Stream([ErrorEvent(GenericErrorMessage)], true)
    ensures forall j :: 0 <= j < |r.stream.frames| ==>
      (IsTerminal(r.stream.frames[j]) <==> r.stream.ended && j == |r.stream.frames| - 1)
  {
    var res := Resolve(reg, incoming, e.created);
    if !SetupSucceeds(reg, incoming, e) then Response(Stream([ErrorEvent(GenericErrorMessage)], true), res.registry)
    else
      var s := PollStream(res.threadId.value, e.polls, e.listing, e.lookup);
      PollStreamOneTerminal(res.threadId.value, e.polls, e.listing, e.lookup);
      var frames := [TextCreated(res.threadId.value)] + s.frames;
      assert forall j :: 0 < j < |frames| ==> frames[j] == s.frames[j - 1];
      Response(Stream(frames, s.ended), res.registry)
  }

  /** A run whose first terminal status is `failed` ends with the run-failed error and no `messageDone`. */
  lemma FailedRunEndsWithError(reg: Registry, incoming: Option<string>, e: Engine, k: nat)
    requires SetupSucceeds(reg, incoming, e)
    requires FirstTerminalAt(e.polls, k) && e.polls[k] == Observed(Failed)
    ensures var s := Handled(reg, incoming, e).stream;
      s.ended && s.frames[|s.frames| - 1] == ErrorEvent(RunFailedMessage) &&
      forall j :: 0 <= j < |s.frames| ==> !s.frames[j].MessageDone?
  {
    var tid := Resolve(reg, incoming, e.created).threadId.value;
    PollStreamLastFrame(tid, e.polls, e.listing, e.lookup, k);
    PollStreamOneTerminal(tid, e.polls, e.listing, e.lookup);
  }

  /** Lines 19-160: the handler, on the shared registry. */
  method HandleQuery(registry: ThreadRegistry, incoming: Option<string>, e: Engine)
    returns (frames: seq<Payload>, ended: bool)
    modifies registry
    ensures Response(Stream(frames, ended), registry.active) == Handled(old(registry.active), incoming, e)
  {
    var threadId := registry.GetOrCreate(incoming, e.created);
    if threadId.None? || !e.posted || !e.runStarted {
      frames, ended := [ErrorEvent(GenericErrorMessage)], true;
      return;
    }
    frames := [TextCreated(threadId.value)];
    var polled;
    polled, ended := PollRun(threadId.value, e.polls, e.listing, e.lookup);
    frames := frames + polled;
  }
}
