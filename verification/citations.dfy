/**
 * Conversation history and citation resolution for a completed run
 * (server.js:84-123): the listed messages become oldest-first history
 * entries, and the newest message's annotations are turned into ordinal
 * markers `[k]` and a list of resolved citations.
 */
module Citations {
  import opened Wrappers
  import opened Text

  datatype Role = User | Assistant

  /** One annotation of a text part: its literal marker text and, for a file citation, the cited file's id. */
  datatype Annotation = Annotation(marker: string, fileId: Option<string>)

  /** A content part of a listed message; only text parts carry a value and annotations. */
  datatype ContentPart = TextPart(value: string, annotations: seq<Annotation>) | OtherPart

  /** A message as the engine's listing returns it (newest first). */
  datatype ApiMessage = ApiMessage(role: Role, content: seq<ContentPart>)

  /** A resolved citation `{text, filename}`. */
  datatype Citation = Citation(text: string, filename: string)

  /** A history entry `{role, content, citations}` as delivered to the client. */
  datatype Entry = Entry(role: Role, content: string, citations: seq<Citation>)

  /** The file lookup `openai.files.retrieve`: a file id gives its filename, or `None` when the call throws. */
  type Lookup = string -> Option<string>

  /** The message's first content part, when that part is text. */
  predicate StartsWithText(m: ApiMessage) {
    |m.content| > 0 && m.content[0].TextPart?
  }

  /** The value of the first content part if it is text, '' otherwise. */
  function FirstText(m: ApiMessage): string {
    if StartsWithText(m) then m.content[0].value else ""
  }

  function ToEntry(m: ApiMessage): Entry {
    Entry(m.role, FirstText(m), [])
  }

  function Reverse<T>(s: seq<T>): (r: seq<T>)
    ensures |r| == |s|
    ensures forall i :: 0 <= i < |s| ==> r[i] == s[|s| - 1 - i]
  {
    if |s| == 0 then [] else Reverse(s[1..]) + [s[0]]
  }

  /**
   * Lines 84-88: each message becomes an entry with empty citations, and the
   * list is reversed to put the oldest first.
   */
  function History(msgs: seq<ApiMessage>): (r: seq<Entry>)
    ensures |r| == |msgs|
    ensures forall i :: 0 <= i < |r| ==>
      var m := msgs[|msgs| - 1 - i];
      r[i].role == m.role && r[i].citations == [] &&
      (StartsWithText(m) ==> r[i].content == m.content[0].value) &&
      (!StartsWithText(m) ==> r[i].content == "")
  {
    Reverse(seq(|msgs|, i requires 0 <= i < |msgs| => ToEntry(msgs[i])))
  }

  /** The marker text `[k]` that replaces the k-th annotation. */
  function Ordinal(k: nat): string {
    "[" + Decimal(k) + "]"
  }

  /** Distinct annotation positions get distinct ordinals. */
  lemma OrdinalInjective(j: nat, k: nat)
    requires Ordinal(j) == Ordinal(k)
    ensures j == k
  {
    assert Decimal(j) == Ordinal(j)[1..|Ordinal(j)| - 1];
    assert Decimal(k) == Ordinal(k)[1..|Ordinal(k)| - 1];
    DecimalInjective(j, k);
  }

  /**
   * The text after the annotations have been processed in order: the k-th
   * annotation replaces the first remaining occurrence of its marker with
   * `[k]`, whether or not it cites a file.
   */
  function Processed(text: string, anns: seq<Annotation>): string {
    if |anns| == 0 then text
    else ReplaceFirst(Processed(text, anns[..|anns| - 1]), anns[|anns| - 1].marker, Ordinal(|anns| - 1))
  }

  /** The annotation cites a file and the lookup of that file succeeds. */
  predicate Resolves(a: Annotation, lookup: Lookup) {
    a.fileId.Some? && lookup(a.fileId.value).Some?
  }

  function CitationOf(a: Annotation, lookup: Lookup): Citation
    requires Resolves(a, lookup)
  {
    Citation(a.marker, lookup(a.fileId.value).value)
  }

  /** The citations collected in annotation order: one per resolving annotation. */
  function Cited(anns: seq<Annotation>, lookup: Lookup): seq<Citation> {
    if |anns| == 0 then []
    else
      var last := anns[|anns| - 1];
      Cited(anns[..|anns| - 1], lookup) + (if Resolves(last, lookup) then [CitationOf(last, lookup)] else [])
  }

  /** The positions of the resolving annotations, in increasing order. */
  ghost function ResolvedIndices(anns: seq<Annotation>, lookup: Lookup): seq<nat> {
    if |anns| == 0 then []
    else ResolvedIndices(anns[..|anns| - 1], lookup) + (if Resolves(anns[|anns| - 1], lookup) then [|anns| - 1] else [])
  }

  /**
   * The citations are the subsequence of the annotations that cite a file
   * whose lookup succeeds, in annotation order; a failed lookup drops only
   * its own citation.
   */
  lemma {:induction false} CitedIsSubsequence(anns: seq<Annotation>, lookup: Lookup)
    ensures var idx := ResolvedIndices(anns, lookup);
      |Cited(anns, lookup)| == |idx| <= |anns| &&
      (forall k :: 0 <= k < |idx| ==> idx[k] < |anns| && Resolves(anns[idx[k]], lookup)
                                      && Cited(anns, lookup)[k] == CitationOf(anns[idx[k]], lookup)) &&
      (forall k, l :: 0 <= k < l < |idx| ==> idx[k] < idx[l]) &&
      (forall i :: 0 <= i < |anns| && Resolves(anns[i], lookup) ==> i in idx)
  {
    if |anns| > 0 {
      var init := anns[..|anns| - 1];
      CitedIsSubsequence(init, lookup);
      forall i | 0 <= i < |init| ensures init[i] == anns[i] { }
    }
  }

  /**
   * The ordinals do not depend on the file references: two annotation lists
   * with the same markers give the same processed text.
   */
  lemma {:induction false} ProcessedIgnoresFiles(text: string, a: seq<Annotation>, b: seq<Annotation>)
    requires |a| == |b|
    requires forall k :: 0 <= k < |a| ==> a[k].marker == b[k].marker
    ensures Processed(text, a) == Processed(text, b)
  {
    if |a| > 0 {
      ProcessedIgnoresFiles(text, a[..|a| - 1], b[..|b| - 1]);
    }
  }

  /**
   * Lines 94-118: the citation loop. `processedText` and `citations` are
   * updated once per annotation and `index` advances for every annotation.
   */
  method ResolveCitations(text: string, anns: seq<Annotation>, lookup: Lookup)
    returns (processed: string, citations: seq<Citation>)
    ensures processed == Processed(text, anns)
    ensures citations == Cited(anns, lookup)
    ensures anns == [] ==> processed == text && citations == []
  {
    processed := text;
    citations := [];
    var index := 0;
    while index < |anns|
      invariant 0 <= index <= |anns|
      invariant processed == Processed(text, anns[..index])
      invariant citations == Cited(anns[..index], lookup)
    {
      var annotation := anns[index];
      assert anns[..index + 1][..index] == anns[..index];
      processed := ReplaceFirst(processed, annotation.marker, Ordinal(index));
      if annotation.fileId.Some? {
        var file := lookup(annotation.fileId.value);
        if file.Some? {
          citations := citations + [Citation(annotation.marker, file.value)];
        }
      }
      index := index + 1;
    }
    assert anns[..index] == anns;
  }

  /**
   * The history delivered on completion: only the newest entry (the last one
   * after reversal) gets the processed text and the citations, and only when
   * the newest message starts with a text part; every other entry is the
   * plain mapping of its message.
   */
  function FinalHistory(msgs: seq<ApiMessage>, lookup: Lookup): (r: seq<Entry>)
    ensures |r| == |msgs|
    ensures forall i :: 0 <= i < |msgs| - 1 ==> r[i] == ToEntry(msgs[|msgs| - 1 - i])
    ensures |msgs| > 0 && !StartsWithText(msgs[0]) ==> r[|msgs| - 1] == ToEntry(msgs[0])
    ensures |msgs| > 0 && StartsWithText(msgs[0]) ==>
      var part := msgs[0].content[0];
      r[|msgs| - 1] == Entry(msgs[0].role, Processed(part.value, part.annotations), Cited(part.annotations, lookup))
  {
    var h := History(msgs);
    if |msgs| > 0 && StartsWithText(msgs[0]) then
      var part := msgs[0].content[0];
      h[|h| - 1 := Entry(h[|h| - 1].role, Processed(part.value, part.annotations), Cited(part.annotations, lookup))]
    else h
  }

  /** Lines 84-123: build the history, then rewrite its newest entry. */
  method CompleteHistory(msgs: seq<ApiMessage>, lookup: Lookup) returns (history: seq<Entry>)
    ensures history == FinalHistory(msgs, lookup)
  {
    history := History(msgs);
    if |msgs| > 0 && StartsWithText(msgs[0]) {
      var latest := msgs[0].content[0];
      var processed, citations := ResolveCitations(latest.value, latest.annotations, lookup);
      var last := |history| - 1;
      history := history[last := Entry(history[last].role, processed, citations)];
    }
  }

  /**
   * A worked case: one file-citation annotation whose marker occurs once in
   * the answer becomes `[0]`, and its citation carries the resolved filename.
   */
  lemma RefundWindowExample(lookup: Lookup)
    requires lookup("file-1") == Some("refunds.pdf")
    ensures var text := "Refunds are allowed within 30 days\U{3010}abc123\U{3011}.";
      var anns := [Annotation("\U{3010}abc123\U{3011}", Some("file-1"))];
      Processed(text, anns) == "Refunds are allowed within 30 days[0]." &&
      Cited(anns, lookup) == [Citation("\U{3010}abc123\U{3011}", "refunds.pdf")]
  {
    var text := "Refunds are allowed within 30 days\U{3010}abc123\U{3011}.";
    var marker := "\U{3010}abc123\U{3011}";
    var anns := [Annotation(marker, Some("file-1"))];
    assert anns[..0] == [];
    assert OccursAt(text, marker, 34);
    forall j: nat | j < 34 ensures !OccursAt(text, marker, j) {
      assert text[j] != marker[0];
      assert j + |marker| <= |text| ==> text[j..j + |marker|][0] == text[j];
    }
    assert FirstOccurrence(text, marker, 34);
    assert Decimal(0) == "0";
    assert text[..34] + Ordinal(0) + text[34 + |marker|..] == "Refunds are allowed within 30 days[0].";
  }
}
