/**
 * The browser client's request controller (client/src/App.js:24-111): the
 * React state it keeps, submitting a query, reducing the decoded stream into
 * that state, cancelling, and the catch/finally paths.
 */
module Client {
  import opened Wrappers
  import opened Text
  import opened Citations
  import opened EventStream

  /** The fields of a parsed payload the client reads; an absent field is `None`. */
  datatype Data = Data(
    event: Option<string>,
    error: Option<string>,
    threadId: Option<string>,
    status: Option<string>,
    messages: Option<seq<Entry>>)

  /** `JSON.parse`: the parsed payload, or `None` when it throws. */
  type Parser = string -> Option<Data>

  const ThinkingText: string := "Assistant is thinking..."
  const SearchingText: string := "Searching documentation..."
  const CancelledText: string := "Request cancelled"
  const FailedText: string := "Failed to send message"

  /**
   * The React state of the component. `messages` is `None` when a payload
   * without a `messages` field set it to `undefined`; `error` and `threadId`
   * are `None` for `null`.
   */
  datatype Ui = Ui(
    query: string,
    messages: Option<seq<Entry>>,
    loading: bool,
    status: string,
    error: Option<string>,
    threadId: Option<string>)

  /** How processing of a line ends: go on, `return` (error event), or an exception (`JSON.parse`). */
  datatype Exit = Continue | Returned | Threw

  datatype Step = Step(ui: Ui, exit: Exit)

  /**
   * Lines 75-98 on one parsed payload. `start` is the `threadId` the
   * running `handleSubmit` saw when it was called (the closure's value).
   */
  function ApplyData(ui: Ui, start: Option<string>, d: Data): (r: Step)
    ensures d.event == Some("error") ==> r == Step(ui.(error := d.error, loading := false), Returned)
    ensures d.event != Some("error") ==> r.exit == Continue
    ensures Truthy(start) ==> r.ui.threadId == ui.threadId
    ensures r.ui.threadId == ui.threadId || (r.ui.threadId == d.threadId && Truthy(d.threadId))
    ensures d.event != Some("error") && d.status == Some("started") ==> r.ui.status == ThinkingText
    ensures d.event != Some("error") && d.status == Some("in_progress") ==> r.ui.status == SearchingText
    ensures d.event != Some("error") && d.status == Some("completed") ==>
      r.ui.messages == d.messages && r.ui.status == "" && !r.ui.loading && r.ui.query == ""
    ensures d.event != Some("error") && d.status != Some("completed") ==>
      r.ui.messages == ui.messages && r.ui.loading == ui.loading && r.ui.query == ui.query
    ensures d.event != Some("error") ==> r.ui.error == ui.error
    ensures d.event != Some("error") && d.status !in {Some("started"), Some("in_progress"), Some("completed")} ==>
      r.ui == ui.(threadId := r.ui.threadId)
  {
    if d.event == Some("error") then Step(ui.(error := d.error, loading := false), Returned)
    else
      var u1 := if Truthy(d.threadId) && !Truthy(start) then ui.(threadId := d.threadId) else ui;
      var u2 := if d.status == Some("started") then u1.(status := ThinkingText) else u1;
      var u3 := if d.status == Some("in_progress") then u2.(status := SearchingText) else u2;
      var u4 := if d.status == Some("completed") then u3.(messages := d.messages, status := "", loading := false, query := "") else u3;
      Step(u4, Continue)
  }

  /** Line 73 and on: parse one payload and apply it. */
  function ApplyPayload(ui: Ui, start: Option<string>, payload: string, parse: Parser): Step {
    match parse(payload)
    case None => Step(ui, Threw)
    case Some(d) => ApplyData(ui, start, d)
  }

  /** The payloads of a chunk applied in order, stopping at the first that does not continue. */
  function ApplyPayloads(ui: Ui, start: Option<string>, payloads: seq<string>, parse: Parser): Step
    decreases |payloads|
  {
    if |payloads| == 0 then Step(ui, Continue)
    else
      var s := ApplyPayload(ui, start, payloads[0], parse);
      if s.exit == Continue then ApplyPayloads(s.ui, start, payloads[1..], parse) else s
  }

  /**
   * Nothing after an `error` payload (or a payload that fails to parse) is
   * applied: once processing stops, further payloads change nothing; until
   * then, more payloads continue from the state reached.
   */
  lemma {:induction false} ApplyPayloadsStops(ui: Ui, start: Option<string>, ps: seq<string>, more: seq<string>, parse: Parser)
    ensures var s := ApplyPayloads(ui, start, ps, parse);
      ApplyPayloads(ui, start, ps + more, parse)
      == if s.exit == Continue then ApplyPayloads(s.ui, start, more, parse) else s
    decreases |ps|
  {
    if |ps| == 0 {
      assert ps + more == more;
    } else {
      assert (ps + more)[0] == ps[0] && (ps + more)[1..] == ps[1..] + more;
      var s0 := ApplyPayload(ui, start, ps[0], parse);
      if s0.exit == Continue {
        ApplyPayloadsStops(s0.ui, start, ps[1..], more, parse);
      }
    }
  }

  /** One line, as the loop of lines 71-100 treats it. */
  function ApplyLineText(ui: Ui, start: Option<string>, line: string, parse: Parser): Step {
    if StartsWith(line, DataPrefix) then ApplyPayload(ui, start, line[5..], parse) else Step(ui, Continue)
  }

  /** The payloads of a run of lines are applied line by line. */
  lemma DataLinesStep(ui: Ui, start: Option<string>, lines: seq<string>, parse: Parser)
    requires |lines| > 0
    ensures var s := ApplyLineText(ui, start, lines[0], parse);
      ApplyPayloads(ui, start, DataLines(lines), parse)
      == if s.exit == Continue then ApplyPayloads(s.ui, start, DataLines(lines[1..]), parse) else s
  {
    if StartsWith(lines[0], DataPrefix) {
      var ps := [lines[0][5..]] + DataLines(lines[1..]);
      assert ps[0] == lines[0][5..] && ps[1..] == DataLines(lines[1..]);
    } else {
      assert DataLines(lines) == DataLines(lines[1..]);
    }
  }

  /** A thread id the request started with is never overwritten, whatever the payloads say. */
  lemma {:induction false} ThreadIdKept(ui: Ui, start: Option<string>, ps: seq<string>, parse: Parser)
    requires Truthy(start)
    ensures ApplyPayloads(ui, start, ps, parse).ui.threadId == ui.threadId
    decreases |ps|
  {
    if |ps| > 0 {
      var s0 := ApplyPayload(ui, start, ps[0], parse);
      if s0.exit == Continue {
        ThreadIdKept(s0.ui, start, ps[1..], parse);
      }
    }
  }

  /** The name of the exception caught at line 102. */
  datatype ErrorName = AbortError | OtherError

  /** The message the catch block shows for an exception. */
  function ErrorText(name: ErrorName): (r: string)
    ensures name == AbortError <==> r == CancelledText
    ensures name != AbortError <==> r == FailedText
  {
    if name == AbortError then CancelledText else FailedText
  }

  /** What one `reader.read()` (or the `fetch` before it) yields. */
  datatype ReadResult = Chunk(text: string) | Done | Rejected(name: ErrorName)

  /** An `AbortController`: aborting it makes the fetch listening to it reject with `AbortError`. */
  class AbortController {
    var aborted: bool

    constructor ()
      ensures !aborted
    {
      aborted := false;
    }

    method Abort()
      modifies this
      ensures aborted
    {
      aborted := true;
    }
  }

  /** The component's state and its request handlers. */
  class App {
    var query: string
    var messages: Option<seq<Entry>>
    var loading: bool
    var status: string
    var error: Option<string>
    var threadId: Option<string>
    /** `abortControllerRef.current`. */
    var controller: AbortController?
    /** A `handleSubmit` call is running past its `fetch`. */
    var inFlight: bool
    /** The controller whose signal that call's `fetch` listens to. */
    var signal: AbortController?
    /** The `threadId` that call saw when it started. */
    var startThreadId: Option<string>

    function View(): Ui
      reads this
    {
      Ui(query, messages, loading, status, error, threadId)
    }

    /**
     * An installed controller belongs to the request in flight and has not
     * been aborted; a request in flight has the controller its fetch listens to.
     */
    ghost predicate Valid()
      reads this, signal
    {
      (controller != null ==> inFlight && controller == signal && !controller.aborted) &&
      (inFlight ==> signal != null)
    }

    /** The initial state of lines 7-14. */
    constructor ()
      ensures Valid() && !inFlight && controller == null
      ensures View() == Ui("", Some([]), false, "", None, None)
    {
      query, messages, loading, status, error, threadId := "", Some([]), false, "", None, None;
      controller, inFlight, signal, startThreadId := null, false, null, None;
    }

    /** Lines 24-31: with no controller nothing happens; otherwise abort it and show the cancellation. */
    method Cancel()
      requires Valid()
      modifies this, controller
      ensures Valid()
      ensures old(controller) == null ==> unchanged(this)
      ensures old(controller) != null ==>
        old(controller).aborted && controller == null &&
        View() == old(View()).(loading := false, status := CancelledText) &&
        inFlight == old(inFlight) && signal == old(signal) && startThreadId == old(startThreadId)
    {
      if controller != null {
        controller.Abort();
        controller := null;
        loading := false;
        status := CancelledText;
      }
    }

    /**
     * Lines 33-47: a blank query changes nothing and aborts nothing; any
     * other query aborts the installed controller, installs a fresh one,
     * sets `loading` and clears `error`. The fetch then starts on the
     * state's `threadId`.
     */
    method Submit() returns (started: bool)
      requires Valid()
      modifies this, controller
      ensures Valid()
      ensures started <==> Trim(old(query)) != ""
      ensures !started ==> unchanged(this) && (old(controller) != null ==> unchanged(old(controller)))
      ensures started ==>
        (old(controller) != null ==> old(controller).aborted) &&
        controller != null && fresh(controller) && inFlight && signal == controller &&
        startThreadId == old(threadId) &&
        View() == old(View()).(loading := true, error := None)
    {
      var trimmed := Trim(query);
      if trimmed == "" {
        return false;
      }
      if controller != null {
        controller.Abort();
      }
      var next := new AbortController();
      controller := next;
      loading := true;
      error := None;
      inFlight, signal, startThreadId := true, next, threadId;
      started := true;
    }

    /** Lines 72-98: one line of a chunk; lines not starting with `data: ` are skipped. */
    method ApplyLine(line: string, parse: Parser) returns (exit: Exit)
      modifies this
      ensures Step(View(), exit) == ApplyLineText(old(View()), startThreadId, line, parse)
      ensures controller == old(controller) && inFlight == old(inFlight)
      ensures signal == old(signal) && startThreadId == old(startThreadId)
    {
      exit := Continue;
      if StartsWith(line, DataPrefix) {
        var parsed := parse(line[5..]);
        if parsed.None? {
          return Threw;
        }
        var data := parsed.value;
        if data.event == Some("error") {
          error := data.error;
          loading := false;
          return Returned;
        }
        if Truthy(data.threadId) && !Truthy(startThreadId) {
          threadId := data.threadId;
        }
        if data.status == Some("started") {
          status := ThinkingText;
        }
        if data.status == Some("in_progress") {
          status := SearchingText;
        }
        if data.status == Some("completed") {
          messages := data.messages;
          status := "";
          loading := false;
          query := "";
        }
      }
    }

    /** Lines 109-111: the `finally` block. */
    method Settle()
      requires Valid()
      modifies this
      ensures Valid() && !inFlight && controller == null
      ensures View() == old(View()) && signal == old(signal) && startThreadId == old(startThreadId)
    {
      controller := null;
      inFlight := false;
    }

    /** Lines 102-111: the `catch` block and then the `finally` block. */
    method Fail(name: ErrorName)
      requires Valid()
      modifies this
      ensures Valid() && !inFlight && controller == null
      ensures View() == old(View()).(error := Some(ErrorText(name)), loading := false)
      ensures signal == old(signal) && startThreadId == old(startThreadId)
    {
      if name == AbortError {
        error := Some(CancelledText);
      } else {
        error := Some(FailedText);
      }
      loading := false;
      Settle();
    }

    /**
     * Lines 68-100: a chunk is split into lines and applied line by line
     * until an `error` payload returns or `JSON.parse` throws.
     */
    method ReceiveChunk(text: string, parse: Parser)
      requires Valid() && inFlight
      modifies this
      ensures Valid() && signal == old(signal) && startThreadId == old(startThreadId)
      ensures var s := ApplyPayloads(old(View()), old(startThreadId), Decode(text), parse);
        (s.exit == Continue ==> View() == s.ui && inFlight && controller == old(controller)) &&
        (s.exit == Returned ==> View() == s.ui && !inFlight && controller == null) &&
        (s.exit == Threw ==> View() == s.ui.(error := Some(FailedText), loading := false) && !inFlight && controller == null)
    {
      var lines := Split(text, '\n');
      var i := 0;
      while i < |lines|
        invariant 0 <= i <= |lines|
        invariant Valid() && inFlight && controller == old(controller)
        invariant signal == old(signal) && startThreadId == old(startThreadId)
        invariant ApplyPayloads(old(View()), startThreadId, DataLines(lines), parse)
               == ApplyPayloads(View(), startThreadId, DataLines(lines[i..]), parse)
      {
        assert lines[i..][0] == lines[i] && lines[i..][1..] == lines[i + 1..];
        DataLinesStep(View(), startThreadId, lines[i..], parse);
        var exit := ApplyLine(lines[i], parse);
        if exit == Returned {
          Settle();
          return;
        }
        if exit == Threw {
          Fail(OtherError);
          return;
        }
        i := i + 1;
      }
      assert lines[i..] == [];
    }

    /**
     * Lines 64-101: one turn of the read loop. Once the request's controller
     * is aborted the read rejects with `AbortError`, so nothing it would have
     * carried is applied.
     */
    method Read(r: ReadResult, parse: Parser)
      requires Valid() && inFlight
      modifies this
      ensures Valid() && signal == old(signal) && startThreadId == old(startThreadId)
      ensures old(signal.aborted) ==>
        View() == old(View()).(error := Some(CancelledText), loading := false) && !inFlight && controller == null
      ensures !old(signal.aborted) && r.Done? ==>
        View() == old(View()) && !inFlight && controller == null
      ensures !old(signal.aborted) && r.Rejected? ==>
        View() == old(View()).(error := Some(ErrorText(r.name)), loading := false) && !inFlight && controller == null
      ensures !old(signal.aborted) && r.Chunk? ==>
        var s := ApplyPayloads(old(View()), old(startThreadId), Decode(r.text), parse);
        (s.exit == Continue ==> View() == s.ui && inFlight && controller == old(controller)) &&
        (s.exit == Returned ==> View() == s.ui && !inFlight && controller == null) &&
        (s.exit == Threw ==> View() == s.ui.(error := Some(FailedText), loading := false) && !inFlight && controller == null)
    {
      if signal.aborted {
        Fail(AbortError);
        return;
      }
      match r
      case Done =>
        Settle();
      case Rejected(name) =>
        Fail(name);
      case Chunk(text) =>
        ReceiveChunk(text, parse);
    }
  }
}
