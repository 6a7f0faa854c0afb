/**
 * The `text/event-stream` framing shared by both sides: the server writes
 * each payload as one `data:` field line followed by a blank line
 * (server.js:60-65 and the other `res.write` calls), and the client splits
 * every chunk it reads on newlines and keeps the lines that begin with
 * `data: `, taking `line.slice(5)` as the payload (client/src/App.js:68-73).
 * The client does no buffering across chunks.
 */
module EventStream {
  import opened Text

  const DataPrefix: string := "data: "

  /** One frame: `data: ${payload}\n\n`. */
  function Frame(payload: string): string {
    DataPrefix + payload + "\n\n"
  }

  /** A response body made of whole frames, in order. */
  function Body(payloads: seq<string>): string {
    if |payloads| == 0 then "" else Frame(payloads[0]) + Body(payloads[1..])
  }

  /** The payloads the client's line loop hands to `JSON.parse`: `slice(5)` of every `data: ` line. */
  function DataLines(lines: seq<string>): seq<string> {
    if |lines| == 0 then []
    else (if StartsWith(lines[0], DataPrefix) then [lines[0][5..]] else []) + DataLines(lines[1..])
  }

  /** The payloads decoded from one chunk on its own. */
  function Decode(chunk: string): seq<string> {
    DataLines(Split(chunk, '\n'))
  }

  /**
   * A frame whose payload has no newline splits into its `data: ` line and
   * two empty lines; the decoder yields exactly one payload, the original
   * one behind the space that `slice(5)` keeps.
   */
  lemma FrameDecodes(p: string)
    requires '\n' !in p
    ensures Split(Frame(p), '\n') == [DataPrefix + p, "", ""]
    ensures Decode(Frame(p)) == [" " + p]
  {
    var x := DataPrefix + p;
    assert '\n' !in x;
    assert Frame(p) == x + ['\n'] + ("" + ['\n'] + "");
    SplitAfterHead(x, '\n', "" + ['\n'] + "");
    SplitAfterHead("", '\n', "");
    assert Split("", '\n') == [""];
    assert ([""] + Split("", '\n')) == ["", ""];
    var lines := [x, "", ""];
    assert x[5..] == " " + p;
    assert DataLines(lines[2..]) == [];
    assert DataLines(lines[1..]) == [];
  }

  /** A whole frame at the head of a chunk contributes its payload and nothing else. */
  lemma FrameThenDecodes(p: string, rest: string)
    requires '\n' !in p
    ensures Decode(Frame(p) + rest) == [" " + p] + Decode(rest)
  {
    var x := DataPrefix + p;
    assert '\n' !in x;
    assert Frame(p) + rest == x + ['\n'] + ("" + ['\n'] + rest);
    SplitAfterHead(x, '\n', "" + ['\n'] + rest);
    SplitAfterHead("", '\n', rest);
    var lines := [x] + ([""] + Split(rest, '\n'));
    assert lines[1..] == [""] + Split(rest, '\n');
    assert lines[1..][1..] == Split(rest, '\n');
    assert x[5..] == " " + p;
    assert DataLines(lines[1..]) == DataLines(Split(rest, '\n'));
  }

  /**
   * A chunk that holds whole frames decodes to their payloads, in order, each
   * behind the space that `slice(5)` keeps.
   */
  lemma {:induction false} BodyDecodes(ps: seq<string>)
    requires forall i :: 0 <= i < |ps| ==> '\n' !in ps[i]
    ensures Decode(Body(ps)) == seq(|ps|, i requires 0 <= i < |ps| => " " + ps[i])
  {
    if |ps| == 0 {
      assert Split("", '\n') == [""];
    } else {
      BodyDecodes(ps[1..]);
      FrameThenDecodes(ps[0], Body(ps[1..]));
      var tail := seq(|ps| - 1, i requires 0 <= i < |ps| - 1 => " " + ps[1..][i]);
      assert [" " + ps[0]] + tail == seq(|ps|, i requires 0 <= i < |ps| => " " + ps[i]);
    }
  }

  /**
   * Without buffering, a chunk boundary inside a frame hands the truncated
   * payload to `JSON.parse`: the first piece decodes to a cut-off payload.
   */
  lemma CutFrameDecodesPartially(p: string, k: nat)
    requires '\n' !in p
    requires |DataPrefix| <= k <= |DataPrefix| + |p|
    ensures Decode(Frame(p)[..k]) == [" " + p[..k - |DataPrefix|]]
  {
    var c := Frame(p)[..k];
    assert c == DataPrefix + p[..k - |DataPrefix|];
    assert '\n' !in c;
    SplitNoSep(c, '\n');
    assert c[5..] == " " + p[..k - |DataPrefix|];
    assert DataLines([c]) == [c[5..]] + DataLines([]);
  }
}
