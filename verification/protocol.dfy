/**
 * The stream contract between the two sides: the fields each server
 * payload carries (server.js:60-65, 73-78, 125-131, 134-138, 141-144,
 * 154-158) as the client reads them, and what the client's state becomes
 * after reading a whole response (client/src/App.js:64-101).
 */
module Protocol {
  import opened Wrappers
  import opened Text
  import opened Sessions
  import opened Citations
  import opened Relay
  import opened EventStream
  import opened Client

  /** The client's view of the JSON object the server writes for a payload. */
  function Decoded(p: Payload): (d: Data)
    ensures d.event == Some("error") <==> p.ErrorEvent?
    ensures d.status == Some("completed") <==> p.MessageDone?
    ensures p.ErrorEvent? ==> d.error == Some(p.error)
    ensures p.MessageDone? ==> d.messages == Some(p.messages)
  {
    match p
    case TextCreated(tid) => Data(Some("textCreated"), None, Some(tid), Some("started"), None)
    case InProgressEvent(tid) => Data(Some("inProgress"), None, Some(tid), Some("in_progress"), None)
    case ToolCallCreated => Data(Some("toolCallCreated"), None, None, None, None)
    case MessageDone(msgs, tid) => Data(Some("messageDone"), None, Some(tid), Some("completed"), Some(msgs))
    case ErrorEvent(e) => Data(Some("error"), Some(e), None, None, None)
  }

  /**
   * The JSON text of payloads is not modelled: `encode` stands for
   * `JSON.stringify` and `parse` for `JSON.parse`. They agree when parsing
   * the encoding (behind the space `slice(5)` keeps) gives the decoded
   * fields, and the encoding is a single line.
   */
  ghost predicate JsonAgrees(encode: Payload -> string, parse: Parser) {
    forall p :: '\n' !in encode(p) && parse(" " + encode(p)) == Some(Decoded(p))
  }

  /** Every frame that carries a thread id carries `tid`. */
  predicate CarriesOnly(fs: seq<Payload>, tid: string) {
    forall j :: 0 <= j < |fs| && !fs[j].ToolCallCreated? && !fs[j].ErrorEvent? ==> fs[j].threadId == tid
  }

  /** The payload strings the client decodes from the frames. */
  function Spaced(fs: seq<Payload>, encode: Payload -> string): seq<string> {
    seq(|fs|, i requires 0 <= i < |fs| => " " + encode(fs[i]))
  }

  /** The frames of the polling loop all carry the thread they were polled on. */
  lemma {:induction false} PollStreamCarries(tid: string, polls: seq<Poll>, listing: Option<seq<ApiMessage>>, lookup: Lookup)
    ensures CarriesOnly(PollStream(tid, polls, listing, lookup).frames, tid)
  {
    if |polls| > 0 && !IsTerminalPoll(polls[0]) {
      PollStreamCarries(tid, polls[1..], listing, lookup);
      var pre := ProgressFrames(tid, polls[0]);
      var rest := PollStream(tid, polls[1..], listing, lookup).frames;
      assert forall j :: |pre| <= j < |pre| + |rest| ==> (pre + rest)[j] == rest[j - |pre|];
    }
  }

  /**
   * Reading frames in which only the last may be terminal: the non-terminal
   * frames touch only status and thread id; a final `messageDone` installs
   * its messages, clears status and query and ends loading; a final `error`
   * shows its message, ends loading and returns. A thread id the request
   * started with is kept; without one, the frames' thread id is adopted
   * from the first frame that carries it.
   */
  lemma {:induction false} ClientAppliesFrames(ui: Ui, start: Option<string>, fs: seq<Payload>, tid: string,
                                               encode: Payload -> string, parse: Parser)
    requires JsonAgrees(encode, parse)
    requires forall j :: 0 <= j < |fs| - 1 ==> !IsTerminal(fs[j])
    requires CarriesOnly(fs, tid)
    ensures var s := ApplyPayloads(ui, start, Spaced(fs, encode), parse);
      ((|fs| == 0 || !IsTerminal(fs[|fs| - 1])) ==>
         s.exit == Continue && s.ui.loading == ui.loading && s.ui.messages == ui.messages &&
         s.ui.error == ui.error && s.ui.query == ui.query) &&
      (|fs| > 0 && fs[|fs| - 1].MessageDone? ==>
         s.exit == Continue && s.ui.messages == Some(fs[|fs| - 1].messages) && !s.ui.loading &&
         s.ui.status == "" && s.ui.query == "" && s.ui.error == ui.error) &&
      (|fs| > 0 && fs[|fs| - 1].ErrorEvent? ==>
         s.exit == Returned && s.ui.error == Some(fs[|fs| - 1].error) && !s.ui.loading &&
         s.ui.messages == ui.messages) &&
      (Truthy(start) ==> s.ui.threadId == ui.threadId) &&
      (!Truthy(start) && tid != "" && (ui.threadId == Some(tid) || (|fs| > 0 && fs[0].TextCreated?)) ==>
         s.ui.threadId == Some(tid))
    decreases |fs|
  {
    if |fs| > 0 {
      var ps := Spaced(fs, encode);
      assert ps[0] == " " + encode(fs[0]);
      assert ps[1..] == Spaced(fs[1..], encode);
      var s0 := ApplyPayload(ui, start, ps[0], parse);
      assert s0 == ApplyData(ui, start, Decoded(fs[0]));
      if s0.exit == Continue {
        ClientAppliesFrames(s0.ui, start, fs[1..], tid, encode, parse);
      }
    }
  }

  /**
   * One request from submit to the end of its response, read as one chunk:
   * the client's state follows the server's terminal frame. A completed run
   * installs the delivered history; a failed run, a failed setup or an
   * exception shows the server's error message; and a client without a
   * thread id adopts the one the server resolved.
   */
  lemma RequestRoundTrip(reg: Registry, incoming: Option<string>, e: Engine, ui: Ui,
                         encode: Payload -> string, parse: Parser)
    requires JsonAgrees(encode, parse)
    requires incoming == ui.threadId
    ensures var resp := Handled(reg, incoming, e);
      var fs := resp.stream.frames;
      var s := ApplyPayloads(ui, ui.threadId, Decode(Body(seq(|fs|, i requires 0 <= i < |fs| => encode(fs[i])))), parse);
      (fs[|fs| - 1].MessageDone? ==>
         s.ui.messages == Some(fs[|fs| - 1].messages) && !s.ui.loading && s.ui.status == "" && s.ui.query == "") &&
      (fs[|fs| - 1].ErrorEvent? ==>
         s.exit == Returned && s.ui.error == Some(fs[|fs| - 1].error) && !s.ui.loading) &&
      (!resp.stream.ended ==> s.exit == Continue && s.ui.loading == ui.loading && s.ui.messages == ui.messages) &&
      (!SetupSucceeds(reg, incoming, e) ==> s.ui.error == Some(GenericErrorMessage)) &&
      (Truthy(incoming) ==> s.ui.threadId == ui.threadId) &&
      (SetupSucceeds(reg, incoming, e) && !Truthy(incoming) && Resolve(reg, incoming, e.created).threadId.value != "" ==>
         s.ui.threadId == Resolve(reg, incoming, e.created).threadId)
  {
    var resp := Handled(reg, incoming, e);
    var fs := resp.stream.frames;
    var texts := seq(|fs|, i requires 0 <= i < |fs| => encode(fs[i]));
    BodyDecodes(texts);
    assert Decode(Body(texts)) == Spaced(fs, encode);
    var res := Resolve(reg, incoming, e.created);
    if SetupSucceeds(reg, incoming, e) {
      var tid := res.threadId.value;
      var polled := PollStream(tid, e.polls, e.listing, e.lookup).frames;
      PollStreamCarries(tid, e.polls, e.listing, e.lookup);
      assert fs == [TextCreated(tid)] + polled;
      assert forall j :: 1 <= j < |fs| ==> fs[j] == polled[j - 1];
      ClientAppliesFrames(ui, ui.threadId, fs, tid, encode, parse);
    } else {
      ClientAppliesFrames(ui, ui.threadId, fs, "", encode, parse);
    }
  }
}
