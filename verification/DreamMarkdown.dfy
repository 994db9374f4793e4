/** Managed blocks in the dreaming reports: marked text replaced in place inside a file that also grows. */
module DreamMarkdown {
  import opened DreamPhases
  import opened Text
  import opened Wrappers

  datatype Edge = Start | End

  function Name(phase: Phase): string {
    match phase
    case Light => "light"
    case Rem => "rem"
    case Deep => "deep"
  }

  function UpperName(phase: Phase): string {
    match phase
    case Light => "LIGHT"
    case Rem => "REM"
    case Deep => "DEEP"
  }

  const LEAD := "!-- openagent:dreaming:"

  function Closing(edge: Edge): string {
    match edge
    case Start => ":start -->"
    case End => ":end -->"
  }

  function Marker(phase: Phase, edge: Edge): string {
    "<" + (LEAD + Name(phase) + Closing(edge))
  }

  /** The markers as they stand in a file. */
  lemma {:induction false} MarkerIs(phase: Phase, edge: Edge)
    ensures Marker(phase, edge) ==
            "<!-- openagent:dreaming:" + (match phase case Light => "light" case Rem => "rem" case Deep => "deep") +
            (match edge case Start => ":start -->" case End => ":end -->")
  {
    LeadIs();
    Regroup("<", LEAD, Name(phase), Closing(edge));
  }

  lemma {:induction false} LeadIs()
    ensures "<" + LEAD == "<!-- openagent:dreaming:"
  {}

  lemma {:induction false} Regroup(a: string, b: string, c: string, d: string)
    ensures a + (b + c + d) == (a + b) + c + d
  {}

  // ------------------------------------------------------------------ the writer's text functions

  const FRESH_TEXT := "# Dreams\n\n"

  const DIARY_HEADING := "## Dream Diary"

  /** A managed block: start marker, body line(s), end marker. */
  function Core(phase: Phase, body: string): string {
    Marker(phase, Start) + ("\n" + body + "\n") + Marker(phase, End)
  }

  /** The text after replacing the managed block of a phase, or appending it when there is none. */
  function ReplaceBlock(text: string, phase: Phase, body: string): string {
    var start, end := Find(text, Marker(phase, Start)), Find(text, Marker(phase, End));
    LStrip(
      if start >= 0 && end >= start then
        RStrip(text[..start]) + "\n\n" + Core(phase, RStrip(body)) + text[end + |Marker(phase, End)|..]
      else
        RStrip(text) + "\n\n" + Core(phase, RStrip(body)) + "\n")
  }

  const ENTRY_FOOT := "\n\n_Dream Diary is not a promotion source._\n"

  function EntryHead(phase: Phase, day: string): string {
    "### " + day + " " + UpperName(phase) + "\n\n"
  }

  function DiaryEntry(phase: Phase, narrative: string, day: string): string {
    EntryHead(phase, day) + (narrative + ENTRY_FOOT)
  }

  /** A diary entry as it stands in a file. */
  lemma {:induction false} EntryIs(narrative: string, day: string)
    ensures DiaryEntry(Rem, narrative, day) ==
            "### " + day + " REM\n\n" + narrative + "\n\n_Dream Diary is not a promotion source._\n"
    ensures DiaryEntry(Light, narrative, day) ==
            "### " + day + " LIGHT\n\n" + narrative + "\n\n_Dream Diary is not a promotion source._\n"
    ensures DiaryEntry(Deep, narrative, day) ==
            "### " + day + " DEEP\n\n" + narrative + "\n\n_Dream Diary is not a promotion source._\n"
  {}

  function Headed(text: string): string {
    if Occurs(text, DIARY_HEADING) then text else RStrip(text) + ("\n\n" + DIARY_HEADING + "\n\n")
  }

  /** The narrative is looked for in the whole headed file, managed blocks included. */
  function AppendDiary(text: string, phase: Phase, narrative: string, day: string): string {
    if Occurs(Headed(text), narrative) then text
    else RStrip(Headed(text)) + ("\n\n" + DiaryEntry(phase, narrative, day))
  }

  // ------------------------------------------------------------------ marker-free text

  ghost predicate Free(s: string) {
    forall phase, edge :: !Occurs(s, Marker(phase, edge))
  }

  /** No character of a marker but its first is an angle bracket, and none is a line break. */
  lemma {:induction false} MarkerShape(phase: Phase, edge: Edge)
    ensures var m := Marker(phase, edge);
            m[0] == '<' && (forall i :: 0 < i < |m| ==> m[i] != '<' && m[i] != '\n') && m[|m| - 1] == '>'
  {
    var tail := LEAD + Name(phase) + Closing(edge);
    assert forall i :: 0 <= i < |LEAD| ==> LEAD[i] != '<' && LEAD[i] != '\n';
    assert forall i :: 0 <= i < |Name(phase)| ==> Name(phase)[i] != '<' && Name(phase)[i] != '\n';
    assert forall i :: 0 <= i < |Closing(edge)| ==> Closing(edge)[i] != '<' && Closing(edge)[i] != '\n';
    assert forall i :: 0 <= i < |tail| ==> tail[i] != '<' && tail[i] != '\n';
  }

  lemma {:induction false} MarkerLetters(phase: Phase, edge: Edge)
    ensures var m, at := Marker(phase, edge), 1 + |LEAD|;
            && at + |Name(phase)| + 1 < |m|
            && m[at] == Name(phase)[0]
            && m[at + |Name(phase)| + 1] == Closing(edge)[1]
  {
    var m := Marker(phase, edge);
    assert m == ("<" + LEAD) + (Name(phase) + Closing(edge));
  }

  /** A marker occurs in no other marker. */
  lemma {:induction false} OccurringMarkers(phase: Phase, edge: Edge, p: Phase, e: Edge)
    requires Occurs(Marker(p, e), Marker(phase, edge))
    ensures phase == p && edge == e
  {
    hide Marker;
    var m, n := Marker(phase, edge), Marker(p, e);
    var i :| 0 <= i <= |n| && OccursAt(n, m, i);
    MarkerShape(p, e);
    MarkerShape(phase, edge);
    MarkerLetters(p, e);
    MarkerLetters(phase, edge);
    assert n[i..i + |m|][0] == n[i];
  }

  lemma {:induction false} MarkerHasAngle(s: string, phase: Phase, edge: Edge)
    requires Occurs(s, Marker(phase, edge))
    ensures '<' in s
  {
    var m := Marker(phase, edge);
    var i :| 0 <= i <= |s| && OccursAt(s, m, i);
    assert s[i..i + |m|][0] == s[i];
  }

  lemma {:induction false} NoAngleFree(s: string)
    requires '<' !in s
    ensures Free(s)
  {
    forall phase, edge
      ensures !Occurs(s, Marker(phase, edge))
    {
      if Occurs(s, Marker(phase, edge)) {
        MarkerHasAngle(s, phase, edge);
      }
    }
  }

  /** Where a marker may begin or a line break stands, no marker straddles the seam. */
  predicate Seam(a: string, b: string) {
    b == [] || b[0] == '<' || b[0] == '\n' || '<' !in a
  }

  lemma {:induction false} NotAcrossSeam(a: string, b: string, phase: Phase, edge: Edge, i: nat)
    requires Seam(a, b) && OccursAt(a + b, Marker(phase, edge), i)
    ensures OccursAt(a, Marker(phase, edge), i) || (i >= |a| && OccursAt(b, Marker(phase, edge), i - |a|))
  {
    MarkerShape(phase, edge);
    OccursInConcat(a, b, Marker(phase, edge), i);
  }

  lemma {:induction false} OccursInParts(a: string, b: string, phase: Phase, edge: Edge)
    requires Seam(a, b) && Occurs(a + b, Marker(phase, edge))
    ensures Occurs(a, Marker(phase, edge)) || Occurs(b, Marker(phase, edge))
  {
    var i :| 0 <= i <= |a + b| && OccursAt(a + b, Marker(phase, edge), i);
    NotAcrossSeam(a, b, phase, edge, i);
  }

  lemma {:induction false} MarkerFreeConcat(a: string, b: string, phase: Phase, edge: Edge)
    requires Seam(a, b) && !Occurs(a, Marker(phase, edge)) && !Occurs(b, Marker(phase, edge))
    ensures !Occurs(a + b, Marker(phase, edge))
  {
    if Occurs(a + b, Marker(phase, edge)) {
      OccursInParts(a, b, phase, edge);
    }
  }

  lemma {:induction false} FreeConcat(a: string, b: string)
    requires Seam(a, b) && Free(a) && Free(b)
    ensures Free(a + b)
  {
    forall phase, edge
      ensures !Occurs(a + b, Marker(phase, edge))
    {
      MarkerFreeConcat(a, b, phase, edge);
    }
  }

  lemma {:induction false} FreePrefix(p: string, s: string)
    requires p <= s && Free(s)
    ensures Free(p)
  {
    forall phase, edge | Occurs(p, Marker(phase, edge))
      ensures false
    {
      PrefixOccurs(p, s, Marker(phase, edge));
    }
  }

  /** A marker after text without it is found at once. */
  lemma {:induction false} FindAfter(a: string, phase: Phase, edge: Edge, c: string)
    requires !Occurs(a, Marker(phase, edge))
    ensures Find(a + Marker(phase, edge) + c, Marker(phase, edge)) == |a|
  {
    var m := Marker(phase, edge);
    var s := a + m + c;
    OccursAtConcat(a, m, c);
    forall j | 0 <= j < |a|
      ensures !OccursAt(s, m, j)
    {
      if OccursAt(s, m, j) {
        assert s == a + (m + c) && (m + c)[0] == '<';
        NotAcrossSeam(a, m + c, phase, edge, j);
      }
    }
    FindFromFirst(s, m, 0, |a|);
  }

  // ------------------------------------------------------------------ the file as a document

  /** A managed block and the text between it and the next block. */
  datatype Block = Block(phase: Phase, body: string, gap: string)

  datatype Doc = Doc(prelude: string, blocks: seq<Block>)

  function RenderBlock(b: Block): string {
    Core(b.phase, b.body) + b.gap
  }

  function RenderBlocks(blocks: seq<Block>): string {
    if blocks == [] then "" else RenderBlock(blocks[0]) + RenderBlocks(blocks[1..])
  }

  function Render(doc: Doc): string {
    doc.prelude + RenderBlocks(doc.blocks)
  }

  /** Text that a block may follow: trimmed, then one empty line. */
  predicate Spaced(s: string) {
    s == RStrip(s) + "\n\n"
  }

  ghost predicate BlockValid(b: Block) {
    Free(b.body) && b.body == RStrip(b.body) && Free(b.gap) && b.gap != [] && b.gap[0] == '\n'
  }

  /** Distinct phases, marker-free text between markers, and one empty line before every block. */
  ghost predicate DocValid(doc: Doc) {
    && Free(doc.prelude) && doc.prelude != [] && !IsSpace(doc.prelude[0])
    && (doc.blocks != [] ==> Spaced(doc.prelude))
    && (forall i :: 0 <= i < |doc.blocks| ==> BlockValid(doc.blocks[i]))
    && (forall i :: 0 <= i < |doc.blocks| - 1 ==> Spaced(doc.blocks[i].gap))
    && (forall i, j :: 0 <= i < j < |doc.blocks| ==> doc.blocks[i].phase != doc.blocks[j].phase)
  }

  /** The body a document holds for a phase. */
  function BodyOf(doc: Doc, phase: Phase): Option<string> {
    var i := IndexOf(doc.blocks, phase);
    if i < |doc.blocks| then Some(doc.blocks[i].body) else None
  }

  lemma {:induction false} CoreParts(p: Phase, body: string, phase: Phase, edge: Edge)
    requires Free(body) && p != phase
    ensures !Occurs(Core(p, body), Marker(phase, edge))
  {
    BodyFree(body);
    MarkersApart(phase, edge, p, Start);
    MarkersApart(phase, edge, p, End);
    MarkerFreeConcat(Marker(p, Start), "\n" + body + "\n", phase, edge);
    MarkerFreeConcat(Marker(p, Start) + ("\n" + body + "\n"), Marker(p, End), phase, edge);
  }

  lemma {:induction false} CoreEdges(phase: Phase, body: string)
    ensures Core(phase, body) != [] && Core(phase, body)[0] == '<' && Core(phase, body)[|Core(phase, body)| - 1] == '>'
  {
    MarkerShape(phase, Start);
    MarkerShape(phase, End);
  }

  lemma {:induction false} MarkersApart(phase: Phase, edge: Edge, p: Phase, e: Edge)
    requires phase != p || edge != e
    ensures !Occurs(Marker(p, e), Marker(phase, edge))
  {
    if Occurs(Marker(p, e), Marker(phase, edge)) {
      OccurringMarkers(phase, edge, p, e);
    }
  }

  lemma {:induction false} BodyFree(body: string)
    requires Free(body)
    ensures Free("\n" + body + "\n")
  {
    NoAngleFree("\n");
    FreeConcat("\n", body);
    FreeConcat("\n" + body, "\n");
  }

  /** Blocks of other phases hold no marker of this one. */
  lemma {:induction false} BlocksFree(blocks: seq<Block>, phase: Phase, edge: Edge)
    requires forall i :: 0 <= i < |blocks| ==> BlockValid(blocks[i]) && blocks[i].phase != phase
    ensures !Occurs(RenderBlocks(blocks), Marker(phase, edge))
  {
    if blocks == [] {
      NoAngleFree("");
    } else {
      BlocksFree(blocks[1..], phase, edge);
      CoreParts(blocks[0].phase, blocks[0].body, phase, edge);
      MarkerFreeConcat(Core(blocks[0].phase, blocks[0].body), blocks[0].gap, phase, edge);
      BlocksStart(blocks[1..]);
      MarkerFreeConcat(RenderBlock(blocks[0]), RenderBlocks(blocks[1..]), phase, edge);
    }
  }

  lemma {:induction false} BlocksStart(blocks: seq<Block>)
    ensures blocks != [] ==> RenderBlocks(blocks) != [] && RenderBlocks(blocks)[0] == '<'
  {
    if blocks != [] {
      CoreEdges(blocks[0].phase, blocks[0].body);
    }
  }

  lemma {:induction false} RenderConcat(a: seq<Block>, b: seq<Block>)
    ensures RenderBlocks(a + b) == RenderBlocks(a) + RenderBlocks(b)
  {
    if a == [] {
      assert a + b == b;
    } else {
      assert (a + b)[1..] == a[1..] + b;
      RenderConcat(a[1..], b);
    }
  }

  // ------------------------------------------------------------------ document operations

  /** The last stretch of plain text, trimmed, then `suffix`. */
  function TrimTail(doc: Doc, suffix: string): Doc {
    if doc.blocks == [] then doc.(prelude := RStrip(doc.prelude) + suffix)
    else
      var last := |doc.blocks| - 1;
      doc.(blocks := doc.blocks[last := doc.blocks[last].(gap := RStrip(doc.blocks[last].gap) + suffix)])
  }

  function IndexOf(blocks: seq<Block>, phase: Phase): (i: nat)
    ensures i <= |blocks|
    ensures i < |blocks| ==> blocks[i].phase == phase
    ensures forall j :: 0 <= j < i ==> blocks[j].phase != phase
  {
    if blocks == [] || blocks[0].phase == phase then 0 else 1 + IndexOf(blocks[1..], phase)
  }

  function WriteBlock(doc: Doc, phase: Phase, body: string): Doc {
    var i := IndexOf(doc.blocks, phase);
    if i < |doc.blocks| then doc.(blocks := doc.blocks[i := doc.blocks[i].(body := RStrip(body))])
    else
      var spaced := TrimTail(doc, "\n\n");
      spaced.(blocks := spaced.blocks + [Block(phase, RStrip(body), "\n")])
  }

  lemma {:induction false} Regroup4(a: string, b: string, c: string, d: string)
    ensures a + (b + (c + d)) == a + b + c + d
  {}

  lemma {:induction false} Regroup5(a: string, b: string, c: string, d: string, e: string)
    ensures a + (b + ((c + d) + e)) == a + b + c + (d + e)
  {}

  lemma {:induction false} RenderLast(prelude: string, init: seq<Block>, b: Block)
    ensures Render(Doc(prelude, init + [b])) == Render(Doc(prelude, init)) + Core(b.phase, b.body) + b.gap
  {
    RenderConcat(init, [b]);
    assert RenderBlocks([b]) == RenderBlock(b) + "" == RenderBlock(b);
    Regroup4(prelude, RenderBlocks(init), Core(b.phase, b.body), b.gap);
  }

  lemma {:induction false} RenderTrimTail(doc: Doc, suffix: string)
    requires DocValid(doc)
    ensures Render(TrimTail(doc, suffix)) == RStrip(Render(doc)) + suffix
  {
    hide DocValid, RStrip;
    if doc.blocks == [] {
      assert Render(doc) == doc.prelude;
    } else {
      var last := |doc.blocks| - 1;
      var init, b := doc.blocks[..last], doc.blocks[last];
      TrimLast(doc.prelude, init, b, suffix);
      assert doc == Doc(doc.prelude, init + [b]);
      assert TrimTail(doc, suffix) == Doc(doc.prelude, init + [b.(gap := RStrip(b.gap) + suffix)]);
    }
  }

  lemma {:induction false} TrimAfter(head: string, core: string, gap: string, suffix: string)
    requires core != [] && !IsSpace(core[|core| - 1])
    ensures RStrip(head + core + gap) + suffix == head + core + (RStrip(gap) + suffix)
  {
    assert (head + core)[|head + core| - 1] == core[|core| - 1];
    RStripConcat(head + core, gap);
  }

  lemma {:induction false} TrimLast(prelude: string, init: seq<Block>, b: Block, suffix: string)
    ensures Render(Doc(prelude, init + [b.(gap := RStrip(b.gap) + suffix)])) ==
            RStrip(Render(Doc(prelude, init + [b]))) + suffix
  {
    RenderLast(prelude, init, b);
    RenderLast(prelude, init, b.(gap := RStrip(b.gap) + suffix));
    CoreEdges(b.phase, b.body);
    TrimAfter(Render(Doc(prelude, init)), Core(b.phase, b.body), b.gap, suffix);
  }

  lemma {:induction false} TrimmedText(s: string, suffix: string)
    requires Free(s) && Free(suffix) && suffix != [] && suffix[0] == '\n'
    ensures Free(RStrip(s) + suffix)
    ensures s != [] && s[0] == '\n' ==> (RStrip(s) + suffix)[0] == '\n'
    ensures s != [] && !IsSpace(s[0]) ==> RStrip(s) != [] && RStrip(s)[0] == s[0]
  {
    RStripPrefix(s);
    FreePrefix(RStrip(s), s);
    FreeConcat(RStrip(s), suffix);
    if s != [] && !IsSpace(s[0]) {
      RStripConcat(s[..1], s[1..]);
      assert s == s[..1] + s[1..];
    }
  }

  lemma {:induction false} TrimTailValid(doc: Doc, suffix: string)
    requires DocValid(doc) && Free(suffix) && suffix != [] && suffix[0] == '\n'
    ensures DocValid(TrimTail(doc, suffix))
  {
    if doc.blocks == [] {
      TrimmedText(doc.prelude, suffix);
    } else {
      TrimmedText(doc.blocks[|doc.blocks| - 1].gap, suffix);
    }
  }

  // ------------------------------------------------------------------ replacing a block refines the map

  /** The text before block `i`. */
  lemma {:induction false} BeforeBlockFree(doc: Doc, i: nat, phase: Phase, edge: Edge)
    requires DocValid(doc) && i <= |doc.blocks|
    requires forall j :: 0 <= j < i ==> doc.blocks[j].phase != phase
    ensures !Occurs(Render(Doc(doc.prelude, doc.blocks[..i])), Marker(phase, edge))
  {
    BlocksFree(doc.blocks[..i], phase, edge);
    BlocksStart(doc.blocks[..i]);
    MarkerFreeConcat(doc.prelude, RenderBlocks(doc.blocks[..i]), phase, edge);
  }

  lemma {:induction false} TrimTailSame(doc: Doc)
    requires Spaced(if doc.blocks == [] then doc.prelude else doc.blocks[|doc.blocks| - 1].gap)
    ensures TrimTail(doc, "\n\n") == doc
  {}

  /** Before every block the text is trimmed, then one empty line. */
  lemma {:induction false} BeforeBlockSpaced(doc: Doc, i: nat)
    requires DocValid(doc) && i < |doc.blocks|
    ensures var before := Render(Doc(doc.prelude, doc.blocks[..i]));
            before == RStrip(before) + "\n\n" && before != [] && !IsSpace(before[0])
  {
    var part := Doc(doc.prelude, doc.blocks[..i]);
    assert DocValid(part);
    RenderTrimTail(part, "\n\n");
    TrimTailSame(part);
    RenderStarts(part);
  }

  lemma {:induction false} RStripNonBlank(s: string)
    requires s != [] && !IsSpace(s[0])
    ensures RStrip(s) != [] && RStrip(s)[0] == s[0]
  {
    RStripConcat(s[..1], s[1..]);
    assert s == s[..1] + s[1..];
  }

  /** A text split around one managed block. */
  lemma {:induction false} RenderAround(doc: Doc, i: nat)
    requires i < |doc.blocks|
    ensures var b := doc.blocks[i];
            Render(doc) == Render(Doc(doc.prelude, doc.blocks[..i])) + Core(b.phase, b.body)
                           + (b.gap + RenderBlocks(doc.blocks[i + 1..]))
  {
    var b, rest := doc.blocks[i], doc.blocks[i + 1..];
    assert doc.blocks == doc.blocks[..i] + ([b] + rest);
    RenderConcat(doc.blocks[..i], [b] + rest);
    assert ([b] + rest)[1..] == rest;
    Regroup5(doc.prelude, RenderBlocks(doc.blocks[..i]), Core(b.phase, b.body), b.gap, RenderBlocks(rest));
  }

  lemma {:induction false} SplitCore(x: string, s: string, b: string, e: string, y: string)
    ensures x + (s + b + e) + y == x + s + (b + e + y)
    ensures x + (s + b + e) + y == x + s + b + e + y
  {}

  /** Both markers of a block are found where they stand, when the text before it has neither. */
  lemma {:induction false} MarkersFound(before: string, phase: Phase, body: string, after: string)
    requires !Occurs(before, Marker(phase, Start)) && !Occurs(before, Marker(phase, End)) && Free(body)
    ensures var text := before + Core(phase, body) + after;
            && Find(text, Marker(phase, Start)) == |before|
            && Find(text, Marker(phase, End)) == |before| + |Core(phase, body)| - |Marker(phase, End)|
  {
    var s, e, lines := Marker(phase, Start), Marker(phase, End), "\n" + body + "\n";
    SplitCore(before, s, lines, e, after);
    FindAfter(before, phase, Start, lines + e + after);
    BodyFree(body);
    MarkersApart(phase, End, phase, Start);
    MarkerFreeConcat(before, s, phase, End);
    MarkerFreeConcat(before + s, lines, phase, End);
    FindAfter(before + s + lines, phase, End, after);
  }

  lemma {:induction false} LStripNonBlank(s: string)
    requires s != [] && !IsSpace(s[0])
    ensures LStrip(s) == s
  {}

  /** What replacing does around a block that is there. */
  lemma {:induction false} ReplaceAround(before: string, phase: Phase, old_: string, after: string, body: string)
    requires !Occurs(before, Marker(phase, Start)) && !Occurs(before, Marker(phase, End)) && Free(old_)
    requires before == RStrip(before) + "\n\n" && before != [] && !IsSpace(before[0])
    ensures ReplaceBlock(before + Core(phase, old_) + after, phase, body) == before + Core(phase, RStrip(body)) + after
  {
    hide Marker, Occurs, Free, RStrip;
    var core := Core(phase, old_);
    var text := before + core + after;
    MarkersFound(before, phase, old_, after);
    assert text[..|before|] == before;
    assert text[|before| + |core|..] == after;
    LStripNonBlank(before + Core(phase, RStrip(body)) + after);
  }

  lemma {:induction false} ReplacePresent(doc: Doc, phase: Phase, body: string)
    requires DocValid(doc) && IndexOf(doc.blocks, phase) < |doc.blocks|
    ensures ReplaceBlock(Render(doc), phase, body) == Render(WriteBlock(doc, phase, body))
  {
    var i := IndexOf(doc.blocks, phase);
    var b := doc.blocks[i];
    var before, after := Render(Doc(doc.prelude, doc.blocks[..i])), b.gap + RenderBlocks(doc.blocks[i + 1..]);
    BeforeBlockFree(doc, i, phase, Start);
    BeforeBlockFree(doc, i, phase, End);
    BeforeBlockSpaced(doc, i);
    RenderAround(doc, i);
    ReplaceAround(before, phase, b.body, after, body);
    var written := WriteBlock(doc, phase, body);
    assert written.blocks[..i] == doc.blocks[..i] && written.blocks[i + 1..] == doc.blocks[i + 1..];
    RenderAround(written, i);
  }

  lemma {:induction false} ReplaceMissing(text: string, phase: Phase, body: string)
    requires !Occurs(text, Marker(phase, Start)) && text != [] && !IsSpace(text[0])
    ensures ReplaceBlock(text, phase, body) == RStrip(text) + "\n\n" + Core(phase, RStrip(body)) + "\n"
  {
    FindFromNone(text, Marker(phase, Start), 0);
    RStripNonBlank(text);
    LStripNonBlank(RStrip(text) + "\n\n" + Core(phase, RStrip(body)) + "\n");
  }

  lemma {:induction false} RenderStarts(doc: Doc)
    requires doc.prelude != []
    ensures Render(doc) != [] && Render(doc)[0] == doc.prelude[0]
  {}

  lemma {:induction false} ReplaceAbsent(doc: Doc, phase: Phase, body: string)
    requires DocValid(doc) && IndexOf(doc.blocks, phase) == |doc.blocks|
    ensures ReplaceBlock(Render(doc), phase, body) == Render(WriteBlock(doc, phase, body))
  {
    var spaced := TrimTail(doc, "\n\n");
    BeforeBlockFree(doc, |doc.blocks|, phase, Start);
    assert doc.blocks[..|doc.blocks|] == doc.blocks;
    RenderStarts(doc);
    ReplaceMissing(Render(doc), phase, body);
    RenderTrimTail(doc, "\n\n");
    RenderLast(spaced.prelude, spaced.blocks, Block(phase, RStrip(body), "\n"));
  }

  lemma {:induction false} TrimTailSpaced(doc: Doc)
    ensures var t := TrimTail(doc, "\n\n");
            Spaced(if t.blocks == [] then t.prelude else t.blocks[|t.blocks| - 1].gap)
  {
    var tail := if doc.blocks == [] then doc.prelude else doc.blocks[|doc.blocks| - 1].gap;
    RStripBlankTail(RStrip(tail), "\n\n");
    RStripIdempotent(tail);
  }

  lemma {:induction false} StrippedBody(body: string)
    requires Free(body)
    ensures Free(RStrip(body)) && RStrip(body) == RStrip(RStrip(body))
  {
    RStripPrefix(body);
    RStripIdempotent(body);
    FreePrefix(RStrip(body), body);
  }

  /** A block of a new phase may follow a document that ends with an empty line. */
  lemma {:induction false} OneMoreBlock(doc: Doc, b: Block)
    requires DocValid(doc) && BlockValid(b) && (forall i :: 0 <= i < |doc.blocks| ==> doc.blocks[i].phase != b.phase)
    requires Spaced(if doc.blocks == [] then doc.prelude else doc.blocks[|doc.blocks| - 1].gap)
    ensures DocValid(doc.(blocks := doc.blocks + [b]))
  {
    hide BlockValid, Spaced, Free;
  }

  lemma {:induction false} AppendBlockValid(doc: Doc, phase: Phase, body: string)
    requires DocValid(doc) && Free(body) && IndexOf(doc.blocks, phase) == |doc.blocks|
    ensures DocValid(WriteBlock(doc, phase, body))
  {
    hide RStrip, Occurs, Free, Render, DocValid, Spaced;
    StrippedBody(body);
    NoAngleFree("\n\n");
    NoAngleFree("\n");
    TrimTailValid(doc, "\n\n");
    TrimTailSpaced(doc);
    OneMoreBlock(TrimTail(doc, "\n\n"), Block(phase, RStrip(body), "\n"));
  }

  lemma {:induction false} WriteBlockValid(doc: Doc, phase: Phase, body: string)
    requires DocValid(doc) && Free(body)
    ensures DocValid(WriteBlock(doc, phase, body))
  {
    if IndexOf(doc.blocks, phase) == |doc.blocks| {
      AppendBlockValid(doc, phase, body);
    } else {
      StrippedBody(body);
    }
  }

  lemma {:induction false} IndexOfSame(a: seq<Block>, b: seq<Block>, phase: Phase)
    requires |a| <= |b| && (forall i :: 0 <= i < |a| ==> a[i].phase == b[i].phase)
    ensures IndexOf(a, phase) < |a| ==> IndexOf(b, phase) == IndexOf(a, phase)
    ensures IndexOf(a, phase) == |a| ==> IndexOf(b, phase) >= |a|
  {
    var i, j := IndexOf(a, phase), IndexOf(b, phase);
    assert i < |a| ==> b[i].phase == phase;
    assert j < |a| ==> a[j].phase == b[j].phase;
  }

  /** Trimming the tail keeps every body. */
  lemma {:induction false} TrimTailKeepsBodies(doc: Doc, suffix: string, q: Phase)
    ensures BodyOf(TrimTail(doc, suffix), q) == BodyOf(doc, q)
  {
    IndexOfSame(doc.blocks, TrimTail(doc, suffix).blocks, q);
  }

  lemma {:induction false} AppendBlockBody(doc: Doc, b: Block, q: Phase)
    requires IndexOf(doc.blocks, b.phase) == |doc.blocks|
    ensures BodyOf(doc.(blocks := doc.blocks + [b]), q) == if q == b.phase then Some(b.body) else BodyOf(doc, q)
  {
    var longer := doc.blocks + [b];
    IndexOfSame(doc.blocks, longer, q);
    assert longer[|doc.blocks|] == b;
  }

  lemma {:induction false} AppendUpdates(doc: Doc, phase: Phase, body: string, q: Phase)
    requires IndexOf(doc.blocks, phase) == |doc.blocks|
    ensures BodyOf(WriteBlock(doc, phase, body), q) == if q == phase then Some(RStrip(body)) else BodyOf(doc, q)
  {
    hide RStrip, TrimTail;
    var spaced := TrimTail(doc, "\n\n");
    TrimTailKeepsBodies(doc, "\n\n", q);
    TrimTailPhases(doc, "\n\n");
    IndexOfSame(doc.blocks, spaced.blocks, phase);
    AppendBlockBody(spaced, Block(phase, RStrip(body), "\n"), q);
  }

  lemma {:induction false} TrimTailPhases(doc: Doc, suffix: string)
    ensures var t := TrimTail(doc, suffix);
            |t.blocks| == |doc.blocks| && forall i :: 0 <= i < |t.blocks| ==> t.blocks[i].phase == doc.blocks[i].phase
  {
    hide RStrip;
  }

  lemma {:induction false} RewriteUpdates(doc: Doc, phase: Phase, body: string, q: Phase)
    requires IndexOf(doc.blocks, phase) < |doc.blocks|
    ensures BodyOf(WriteBlock(doc, phase, body), q) == if q == phase then Some(RStrip(body)) else BodyOf(doc, q)
  {
    hide RStrip, TrimTail;
    IndexOfSame(doc.blocks, WriteBlock(doc, phase, body).blocks, q);
  }

  /** The file is a map from phase to last body: writing one phase sets its body and keeps the others'. */
  lemma {:induction false} WriteBlockUpdates(doc: Doc, phase: Phase, body: string, q: Phase)
    ensures BodyOf(WriteBlock(doc, phase, body), q) == if q == phase then Some(RStrip(body)) else BodyOf(doc, q)
  {
    if IndexOf(doc.blocks, phase) == |doc.blocks| {
      AppendUpdates(doc, phase, body, q);
    } else {
      RewriteUpdates(doc, phase, body, q);
    }
  }

  // ------------------------------------------------------------------ the diary

  /** The plain text outside the blocks: the prelude and the gaps. */
  function Prose(doc: Doc): (stretches: seq<string>)
    ensures |stretches| == |doc.blocks| + 1
  {
    [doc.prelude] + seq(|doc.blocks|, i requires 0 <= i < |doc.blocks| => doc.blocks[i].gap)
  }

  function WriteDiary(doc: Doc, phase: Phase, narrative: string, day: string): Doc {
    var headed := if Occurs(Render(doc), DIARY_HEADING) then doc else TrimTail(doc, "\n\n" + DIARY_HEADING + "\n\n");
    if Occurs(Render(headed), narrative) then doc else TrimTail(headed, "\n\n" + DiaryEntry(phase, narrative, day))
  }

  lemma {:induction false} FramedFree(head: string, narrative: string, foot: string)
    requires Free(narrative) && '<' !in head && '<' !in foot
    requires foot != [] && foot[0] == '\n'
    ensures Free(head + (narrative + foot))
  {
    hide Free;
    NoAngleFree(head);
    NoAngleFree(foot);
    FreeConcat(narrative, foot);
    FreeConcat(head, narrative + foot);
  }

  lemma {:induction false} FramePlain(phase: Phase, day: string)
    requires '<' !in day
    ensures '<' !in "\n\n" + EntryHead(phase, day) && '<' !in ENTRY_FOOT
  {
    assert '<' !in UpperName(phase) && '<' !in "### " && '<' !in "\n\n" && '<' !in " ";
  }

  lemma {:induction false} DiaryEntryFree(phase: Phase, narrative: string, day: string)
    requires Free(narrative) && '<' !in day
    ensures Free("\n\n" + DiaryEntry(phase, narrative, day))
  {
    hide Free, EntryHead;
    FramePlain(phase, day);
    var head := EntryHead(phase, day);
    FramedFree("\n\n" + head, narrative, ENTRY_FOOT);
    assert "\n\n" + (head + (narrative + ENTRY_FOOT)) == "\n\n" + head + (narrative + ENTRY_FOOT);
  }

  lemma {:induction false} HeadingFree()
    ensures Free("\n\n" + DIARY_HEADING + "\n\n")
  {
    NoAngleFree("\n\n" + DIARY_HEADING + "\n\n");
  }

  lemma {:induction false} TrimTailRefines(doc: Doc, suffix: string)
    requires DocValid(doc) && Free(suffix) && suffix != [] && suffix[0] == '\n'
    ensures DocValid(TrimTail(doc, suffix)) && Render(TrimTail(doc, suffix)) == RStrip(Render(doc)) + suffix
  {
    RenderTrimTail(doc, suffix);
    TrimTailValid(doc, suffix);
  }

  lemma {:induction false} TwoTrims(doc: Doc, heading: string, entry: string)
    requires DocValid(doc) && Free(heading) && heading != [] && heading[0] == '\n'
    requires Free(entry) && entry != [] && entry[0] == '\n'
    ensures var headed := TrimTail(doc, heading);
            && Render(headed) == RStrip(Render(doc)) + heading
            && Render(TrimTail(headed, entry)) == RStrip(Render(headed)) + entry
            && DocValid(TrimTail(headed, entry))
    ensures Render(TrimTail(doc, entry)) == RStrip(Render(doc)) + entry && DocValid(TrimTail(doc, entry))
  {
    TrimTailRefines(doc, heading);
    TrimTailRefines(TrimTail(doc, heading), entry);
    TrimTailRefines(doc, entry);
  }

  /** Appending to the diary extends the plain text at the end of the file. */
  lemma {:induction false} AppendDiaryRefines(doc: Doc, phase: Phase, narrative: string, day: string)
    requires DocValid(doc) && Free(narrative) && '<' !in day
    ensures AppendDiary(Render(doc), phase, narrative, day) == Render(WriteDiary(doc, phase, narrative, day))
    ensures DocValid(WriteDiary(doc, phase, narrative, day))
  {
    HeadingFree();
    DiaryEntryFree(phase, narrative, day);
    TwoTrims(doc, "\n\n" + DIARY_HEADING + "\n\n", "\n\n" + DiaryEntry(phase, narrative, day));
  }

  /** The diary touches no block. */
  lemma {:induction false} WriteDiaryKeepsBodies(doc: Doc, phase: Phase, narrative: string, day: string, q: Phase)
    ensures BodyOf(WriteDiary(doc, phase, narrative, day), q) == BodyOf(doc, q)
  {
    var heading, entry := "\n\n" + DIARY_HEADING + "\n\n", "\n\n" + DiaryEntry(phase, narrative, day);
    TrimTailKeepsBodies(doc, heading, q);
    var headed := if Occurs(Render(doc), DIARY_HEADING) then doc else TrimTail(doc, heading);
    TrimTailKeepsBodies(headed, entry, q);
  }

  /** Writing a block keeps all plain text but the blanks before a newly appended block. */
  lemma {:induction false} WriteBlockKeepsProse(doc: Doc, phase: Phase, body: string, i: nat)
    requires i <= |doc.blocks|
    ensures var written := WriteBlock(doc, phase, body);
            && |written.blocks| >= |doc.blocks|
            && RStrip(Prose(written)[i]) == RStrip(Prose(doc)[i])
            && (i < |doc.blocks| || IndexOf(doc.blocks, phase) < |doc.blocks| ==> Prose(written)[i] == Prose(doc)[i])
  {
    var tail := Prose(doc)[i];
    RStripBlankTail(RStrip(tail), "\n\n");
    RStripIdempotent(tail);
  }

  /** A diary entry extends the last stretch of plain text and leaves the others as they are. */
  lemma {:induction false} WriteDiaryExtendsProse(doc: Doc, phase: Phase, narrative: string, day: string, i: nat)
    requires i <= |doc.blocks|
    ensures var written := WriteDiary(doc, phase, narrative, day);
            && |written.blocks| == |doc.blocks|
            && (i < |doc.blocks| ==> Prose(written)[i] == Prose(doc)[i])
            && RStrip(Prose(doc)[i]) <= RStrip(Prose(written)[i])
  {
    var heading := "\n\n" + DIARY_HEADING + "\n\n";
    TrimTailExtends(doc, heading, i);
    TrimTailExtends(doc, "\n\n" + DiaryEntry(phase, narrative, day), i);
    TrimTailExtends(TrimTail(doc, heading), "\n\n" + DiaryEntry(phase, narrative, day), i);
  }

  lemma {:induction false} TrimTailExtends(doc: Doc, suffix: string, i: nat)
    requires i <= |doc.blocks|
    ensures var t := TrimTail(doc, suffix);
            && |t.blocks| == |doc.blocks|
            && (i < |doc.blocks| ==> Prose(t)[i] == Prose(doc)[i])
            && RStrip(Prose(doc)[i]) <= RStrip(Prose(t)[i]) && RStrip(Prose(t)[i]) <= Prose(t)[i]
            && RStrip(Prose(doc)[i]) <= Prose(doc)[i]
  {
    var t := TrimTail(doc, suffix);
    RStripPrefix(Prose(doc)[i]);
    RStripPrefix(Prose(t)[i]);
    if i == |doc.blocks| {
      RStripKeepsPrefix(RStrip(Prose(doc)[i]), suffix);
      RStripIdempotent(Prose(doc)[i]);
    }
  }

  /** Trimming a text that continues a trimmed one keeps the trimmed one. */
  lemma {:induction false} RStripKeepsPrefix(a: string, b: string)
    requires RStrip(a) == a
    ensures a <= RStrip(a + b)
  {
    if b == [] {
      assert a + b == a;
    } else if IsSpace(b[|b| - 1]) {
      assert (a + b)[..|a + b| - 1] == a + b[..|b| - 1];
      RStripKeepsPrefix(a, b[..|b| - 1]);
    }
  }

  // ------------------------------------------------------------------ histories of one file

  datatype FileOp = Report(phase: Phase, body: string) | Diary(phase: Phase, narrative: string, day: string)

  function StepText(text: string, op: FileOp): string {
    match op
    case Report(phase, body) => ReplaceBlock(text, phase, body)
    case Diary(phase, narrative, day) => AppendDiary(text, phase, narrative, day)
  }

  /** The file after a history, oldest operation first, starting from no file. */
  function RunText(ops: seq<FileOp>): string {
    if ops == [] then FRESH_TEXT else StepText(RunText(ops[..|ops| - 1]), ops[|ops| - 1])
  }

  /** The body last reported for a phase. */
  function LastBody(ops: seq<FileOp>, phase: Phase): Option<string> {
    if ops == [] then None
    else
      var last := ops[|ops| - 1];
      if last.Report? && last.phase == phase then Some(RStrip(last.body)) else LastBody(ops[..|ops| - 1], phase)
  }

  ghost predicate Plain(op: FileOp) {
    match op
    case Report(_, body) => Free(body)
    case Diary(_, narrative, day) => Free(narrative) && '<' !in day
  }

  /** What a reader takes for the body of a phase: the text between its first markers. */
  function ReadBody(text: string, phase: Phase): Option<string> {
    var start, end := Find(text, Marker(phase, Start)), Find(text, Marker(phase, End));
    var from := start + |Marker(phase, Start)| + 1;
    if start >= 0 && from < end then Some(text[from..end - 1]) else None
  }

  lemma {:induction false} FreshTextValid()
    ensures DocValid(Doc(FRESH_TEXT, [])) && Render(Doc(FRESH_TEXT, [])) == FRESH_TEXT
  {
    NoAngleFree(FRESH_TEXT);
  }

  lemma {:induction false} HistoryDoc(ops: seq<FileOp>) returns (doc: Doc)
    requires forall i :: 0 <= i < |ops| ==> Plain(ops[i])
    ensures DocValid(doc) && Render(doc) == RunText(ops)
    ensures forall q :: BodyOf(doc, q) == LastBody(ops, q)
  {
    if ops == [] {
      doc := Doc(FRESH_TEXT, []);
      FreshTextValid();
    } else {
      var before := HistoryDoc(ops[..|ops| - 1]);
      match ops[|ops| - 1] {
        case Report(phase, body) =>
          doc := WriteBlock(before, phase, body);
          WriteBlockRefines(before, phase, body);
          forall q {
            WriteBlockUpdates(before, phase, body, q);
          }
        case Diary(phase, narrative, day) =>
          doc := WriteDiary(before, phase, narrative, day);
          AppendDiaryRefines(before, phase, narrative, day);
          forall q {
            WriteDiaryKeepsBodies(before, phase, narrative, day, q);
          }
      }
    }
  }

  // ------------------------------------------------------------------ the diary over histories

  function StepDoc(doc: Doc, op: FileOp): Doc {
    match op
    case Report(phase, body) => WriteBlock(doc, phase, body)
    case Diary(phase, narrative, day) => WriteDiary(doc, phase, narrative, day)
  }

  function RunDoc(doc: Doc, ops: seq<FileOp>): Doc {
    if ops == [] then doc else StepDoc(RunDoc(doc, ops[..|ops| - 1]), ops[|ops| - 1])
  }

  ghost predicate AllPlain(ops: seq<FileOp>) {
    forall i :: 0 <= i < |ops| ==> Plain(ops[i])
  }

  /** Any further history of a document is that history of its text. */
  lemma {:induction false} RunDocText(before: seq<FileOp>, doc: Doc, after: seq<FileOp>)
    requires DocValid(doc) && Render(doc) == RunText(before) && AllPlain(after)
    ensures DocValid(RunDoc(doc, after)) && Render(RunDoc(doc, after)) == RunText(before + after)
  {
    hide DocValid, Render, ReplaceBlock, AppendDiary, WriteBlock, WriteDiary;
    if after == [] {
      assert before + after == before;
    } else {
      var n := |after| - 1;
      RunDocText(before, doc, after[..n]);
      var mid := RunDoc(doc, after[..n]);
      assert (before + after)[..|before + after| - 1] == before + after[..n];
      match after[n] {
        case Report(phase, body) => WriteBlockRefines(mid, phase, body);
        case Diary(phase, narrative, day) => AppendDiaryRefines(mid, phase, narrative, day);
      }
    }
  }

  lemma {:induction false} StepKeepsProse(doc: Doc, op: FileOp, i: nat)
    requires i <= |doc.blocks|
    ensures i <= |StepDoc(doc, op).blocks| && RStrip(Prose(doc)[i]) <= RStrip(Prose(StepDoc(doc, op))[i])
  {
    match op
    case Report(phase, body) => WriteBlockKeepsProse(doc, phase, body, i);
    case Diary(phase, narrative, day) => WriteDiaryExtendsProse(doc, phase, narrative, day, i);
  }

  /** Over every history each stretch of plain text only grows at its end, trailing blanks aside. */
  lemma {:induction false} HistoryKeepsProse(doc: Doc, ops: seq<FileOp>, i: nat)
    requires i <= |doc.blocks|
    ensures i <= |RunDoc(doc, ops).blocks| && RStrip(Prose(doc)[i]) <= RStrip(Prose(RunDoc(doc, ops))[i])
  {
    hide Prose, RStrip, StepDoc;
    if ops != [] {
      HistoryKeepsProse(doc, ops[..|ops| - 1], i);
      StepKeepsProse(RunDoc(doc, ops[..|ops| - 1]), ops[|ops| - 1], i);
    }
  }

  lemma {:induction false} OccursInside(a: string, b: string, c: string)
    ensures Occurs(a + b + c, b)
  {
    OccursAtConcat(a, b, c);
  }

  lemma {:induction false} OccursWithin(s: string, t: string, u: string)
    requires Occurs(s, t) && Occurs(t, u)
    ensures Occurs(s, u)
  {
    var i :| 0 <= i <= |s| && OccursAt(s, t, i);
    var j :| 0 <= j <= |t| && OccursAt(t, u, j);
    assert s[i..i + |t|] == t && t[j..j + |u|] == u;
    forall k | 0 <= k < |u|
      ensures s[i + j + k] == u[k]
    {
      assert t[j + k] == t[j..j + |u|][k] && s[i + j + k] == s[i..i + |t|][j + k];
    }
    assert s[i + j..i + j + |u|] == u;
    assert OccursAt(s, u, i + j);
  }

  /** Every stretch of plain text stands in the file. */
  lemma {:induction false} ProseInText(doc: Doc, i: nat)
    requires i <= |doc.blocks|
    ensures Occurs(Render(doc), Prose(doc)[i])
  {
    hide Occurs, Core;
    if i == 0 {
      OccursInside("", doc.prelude, RenderBlocks(doc.blocks));
      assert "" + doc.prelude + RenderBlocks(doc.blocks) == Render(doc);
    } else {
      var b := doc.blocks[i - 1];
      var init, rest := doc.blocks[..i - 1], doc.blocks[i..];
      assert doc.blocks == init + ([b] + rest);
      RenderConcat(init, [b] + rest);
      assert ([b] + rest)[1..] == rest;
      var before := doc.prelude + RenderBlocks(init) + Core(b.phase, b.body);
      OccursInside(before, b.gap, RenderBlocks(rest));
      Regroup5(doc.prelude, RenderBlocks(init), Core(b.phase, b.body), b.gap, RenderBlocks(rest));
      assert before + (b.gap + RenderBlocks(rest)) == before + b.gap + RenderBlocks(rest);
    }
  }

  /** Trimming reaches no further than the last character that is no blank. */
  lemma {:induction false} RStripAppend(a: string, b: string)
    requires RStrip(b) != []
    ensures RStrip(a + b) == a + RStrip(b)
  {
    if IsSpace(b[|b| - 1]) {
      assert (a + b)[..|a + b| - 1] == a + b[..|b| - 1];
      RStripAppend(a, b[..|b| - 1]);
    }
  }

  /** A text ending in `lead + entry` keeps the trimmed entry in whatever continues it. */
  lemma {:induction false} EntryKept(a: string, lead: string, entry: string, later: string)
    requires RStrip(entry) != [] && RStrip(a + (lead + entry)) <= later
    ensures Occurs(later, RStrip(entry))
  {
    RStripAppend(a + lead, entry);
    assert a + (lead + entry) == a + lead + entry;
    var tail := later[|a + lead| + |RStrip(entry)|..];
    OccursInside(a + lead, RStrip(entry), tail);
    assert a + lead + RStrip(entry) + tail == later;
  }

  /** The tail of a document after an entry. */
  lemma {:induction false} TailAfter(doc: Doc, suffix: string)
    ensures var t := TrimTail(doc, suffix);
            |t.blocks| == |doc.blocks| && Prose(t)[|t.blocks|] == RStrip(Prose(doc)[|doc.blocks|]) + suffix
  {}

  lemma {:induction false} EntryStarts(phase: Phase, narrative: string, day: string)
    ensures RStrip(DiaryEntry(phase, narrative, day)) != []
  {
    var entry := DiaryEntry(phase, narrative, day);
    assert entry[0] == '#';
    RStripNonBlank(entry);
  }

  lemma {:induction false} WrittenEntryStays(doc: Doc, phase: Phase, narrative: string, day: string, after: seq<FileOp>)
    requires !Occurs(Headed(Render(doc)), narrative) && DocValid(doc)
    ensures Occurs(Render(RunDoc(WriteDiary(doc, phase, narrative, day), after)),
            RStrip(DiaryEntry(phase, narrative, day)))
  {
    hide DocValid, Occurs, RStrip, DiaryEntry, Render, Prose, TrimTail;
    var heading, entry := "\n\n" + DIARY_HEADING + "\n\n", DiaryEntry(phase, narrative, day);
    HeadingFree();
    TrimTailRefines(doc, heading);
    var headed := if Occurs(Render(doc), DIARY_HEADING) then doc else TrimTail(doc, heading);
    var written := WriteDiary(doc, phase, narrative, day);
    assert written == TrimTail(headed, "\n\n" + entry);
    TailAfter(headed, "\n\n" + entry);
    var i := |written.blocks|;
    HistoryKeepsProse(written, after, i);
    var last := RunDoc(written, after);
    EntryStarts(phase, narrative, day);
    EntryKept(RStrip(Prose(headed)[i]), "\n\n", entry, RStrip(Prose(last)[i]));
    RStripPrefix(Prose(last)[i]);
    ProseInText(last, i);
    PrefixOccurs(RStrip(Prose(last)[i]), Prose(last)[i], RStrip(entry));
    OccursWithin(Render(last), Prose(last)[i], RStrip(entry));
  }

  /** An entry that was written stands in the file after every further history of reports and entries. */
  lemma {:induction false} DiaryStays(before: seq<FileOp>, phase: Phase, narrative: string, day: string,
      after: seq<FileOp>)
    requires AllPlain(before) && Plain(Diary(phase, narrative, day)) && AllPlain(after)
    requires !Occurs(Headed(RunText(before)), narrative)
    ensures Occurs(RunText(before + [Diary(phase, narrative, day)] + after), RStrip(DiaryEntry(phase, narrative, day)))
  {
    hide DocValid, Occurs, RStrip, DiaryEntry, Render, WriteDiary, AppendDiary, Headed;
    var op := Diary(phase, narrative, day);
    var doc := HistoryDoc(before);
    AppendDiaryRefines(doc, phase, narrative, day);
    assert (before + [op])[..|before|] == before;
    RunDocText(before + [op], WriteDiary(doc, phase, narrative, day), after);
    WrittenEntryStays(doc, phase, narrative, day, after);
  }

  /** An entry is written exactly when the narrative stands nowhere in the headed file. */
  lemma {:induction false} DiaryWrittenIff(text: string, phase: Phase, narrative: string, day: string)
    ensures AppendDiary(text, phase, narrative, day) != text <==> !Occurs(Headed(text), narrative)
  {
    if !Occurs(Headed(text), narrative) {
      EntryHolds(Headed(text), phase, narrative, day);
      if !Occurs(text, DIARY_HEADING) {
        HeadingHolds(text, "\n\n" + DiaryEntry(phase, narrative, day));
      }
    }
  }

  lemma {:induction false} EntryHolds(headed: string, phase: Phase, narrative: string, day: string)
    ensures Occurs(RStrip(headed) + ("\n\n" + DiaryEntry(phase, narrative, day)), narrative)
  {
    hide Occurs, RStrip;
    var head, foot := EntryHead(phase, day), ENTRY_FOOT;
    OccursInside(RStrip(headed) + ("\n\n" + head), narrative, foot);
    Regroup4(RStrip(headed), "\n\n" + head, narrative, foot);
    assert RStrip(headed) + ("\n\n" + head) + narrative + foot ==
        RStrip(headed) + ("\n\n" + (head + (narrative + foot)));
  }

  lemma {:induction false} HeadingHolds(text: string, rest: string)
    ensures Occurs(RStrip(RStrip(text) + ("\n\n" + DIARY_HEADING + "\n\n")) + rest, DIARY_HEADING)
  {
    var a := RStrip(text) + "\n\n";
    RStripBlankTail(a + DIARY_HEADING, "\n\n");
    RStripNonBlank(DIARY_HEADING);
    RStripAppend(a, DIARY_HEADING);
    assert RStrip(text) + ("\n\n" + DIARY_HEADING + "\n\n") == a + DIARY_HEADING + "\n\n";
    assert RStrip(DIARY_HEADING) == DIARY_HEADING;
    OccursInside(a, DIARY_HEADING, rest);
  }

  /** A diary write that finds its narrative leaves no trace, now or later. */
  lemma {:induction false} SkippedDiaryLeavesNoTrace(before: seq<FileOp>, phase: Phase, narrative: string, day: string,
      after: seq<FileOp>)
    requires Occurs(Headed(RunText(before)), narrative)
    ensures RunText(before + [Diary(phase, narrative, day)] + after) == RunText(before + after)
  {
    hide Occurs, Headed, StepText;
    var op := Diary(phase, narrative, day);
    if after == [] {
      assert before + [op] + after == before + [op] && before + after == before;
      assert (before + [op])[..|before|] == before;
      SkippedStep(RunText(before), phase, narrative, day);
    } else {
      var n := |after| - 1;
      SkippedDiaryLeavesNoTrace(before, phase, narrative, day, after[..n]);
      var with, without := before + [op] + after, before + after;
      assert with[..|with| - 1] == before + [op] + after[..n];
      assert without[..|without| - 1] == before + after[..n];
    }
  }

  lemma {:induction false} SkippedStep(text: string, phase: Phase, narrative: string, day: string)
    requires Occurs(Headed(text), narrative)
    ensures StepText(text, Diary(phase, narrative, day)) == text
  {}

  /** A new file with one report. */
  function OneReport(phase: Phase, body: string): Doc {
    Doc(RStrip(FRESH_TEXT) + "\n\n", [Block(phase, RStrip(body), "\n")])
  }

  lemma {:induction false} OneReportText(phase: Phase, body: string)
    requires Free(body)
    ensures DocValid(OneReport(phase, body)) && RunText([Report(phase, body)]) == Render(OneReport(phase, body))
  {
    hide DocValid, Render;
    FreshTextValid();
    var none := Doc(FRESH_TEXT, []);
    assert WriteBlock(none, phase, body) == OneReport(phase, body);
    WriteBlockRefines(none, phase, body);
    assert [Report(phase, body)][..0] == [];
  }

  lemma {:induction false} HeadedHolds(a: string, b: string, s: string)
    requires b != [] && !IsSpace(b[|b| - 1]) && Occurs(b, s)
    ensures Occurs(Headed(a + b + "\n"), s)
  {
    hide Occurs;
    RStripBlankTail(a + b, "\n");
    OccursInside(a, b, "\n");
    OccursWithin(a + b + "\n", b, s);
    var tail := "\n\n" + DIARY_HEADING + "\n\n";
    OccursInside(a, b, tail);
    OccursWithin(a + b + tail, b, s);
  }

  lemma {:induction false} BlockHoldsBody(phase: Phase, body: string)
    requires RStrip(body) == body
    ensures Occurs(Headed(Render(OneReport(phase, body))), body)
  {
    hide Occurs, Headed, Marker, RStrip;
    var prelude := RStrip(FRESH_TEXT) + "\n\n";
    CoreEdges(phase, body);
    OccursInside(Marker(phase, Start) + "\n", body, "\n" + Marker(phase, End));
    assert Core(phase, body) == Marker(phase, Start) + "\n" + body + ("\n" + Marker(phase, End));
    HeadedHolds(prelude, Core(phase, body), body);
    var b := Block(phase, body, "\n");
    assert [b][1..] == [] && RenderBlocks([b]) == Core(phase, body) + "\n" + "";
    assert prelude + (Core(phase, body) + "\n" + "") == prelude + Core(phase, body) + "\n";
  }

  lemma {:induction false} MarkerPlain(phase: Phase, edge: Edge)
    ensures '%' !in Marker(phase, edge)
  {
    assert '%' !in LEAD && '%' !in Name(phase) && '%' !in Closing(edge);
  }

  lemma {:induction false} EmptiedBlock(phase: Phase)
    ensures '%' !in Render(OneReport(phase, ""))
  {
    MarkerPlain(phase, Start);
    MarkerPlain(phase, End);
    hide Marker;
    RStripPrefix(FRESH_TEXT);
    var b := Block(phase, "", "\n");
    assert [b][1..] == [] && RenderBlocks([b]) == Core(phase, "") + "\n" + "";
    assert '%' !in Core(phase, "");
  }

  lemma {:induction false} AbsentCharacter(s: string, c: char)
    requires c !in s
    ensures !Occurs(s, [c])
  {
    forall i | 0 <= i <= |s|
      ensures !OccursAt(s, [c], i)
    {
      if i < |s| {
        assert s[i..i + 1][0] == s[i];
      }
    }
  }

  /** A narrative that stands in a managed block is never entered; once the block is rewritten it is gone. */
  lemma {:induction false} NarrativeInBlockIsLost(phase: Phase, day: string)
    ensures !Occurs(RunText([Report(phase, "%"), Diary(phase, "%", day), Report(phase, "")]), "%")
  {
    hide Headed, Render, DocValid, Core, Occurs, ReplaceBlock, AppendDiary;
    var first, diary, last := Report(phase, "%"), Diary(phase, "%", day), Report(phase, "");
    NoAngleFree("%");
    NoAngleFree("");
    OneReportText(phase, "%");
    BlockHoldsBody(phase, "%");
    SkippedDiaryLeavesNoTrace([first], phase, "%", day, [last]);
    assert [first] + [diary] + [last] == [first, diary, last] && [first] + [last] == [first, last];
    assert [first, last][..1] == [first];
    WriteBlockRefines(OneReport(phase, "%"), phase, "");
    assert WriteBlock(OneReport(phase, "%"), phase, "") == OneReport(phase, "");
    EmptiedBlock(phase);
    AbsentCharacter(Render(OneReport(phase, "")), '%');
  }

  lemma {:induction false} WriteBlockRefines(doc: Doc, phase: Phase, body: string)
    requires DocValid(doc) && Free(body)
    ensures ReplaceBlock(Render(doc), phase, body) == Render(WriteBlock(doc, phase, body))
    ensures DocValid(WriteBlock(doc, phase, body))
  {
    WriteBlockValid(doc, phase, body);
    if IndexOf(doc.blocks, phase) == |doc.blocks| {
      ReplaceAbsent(doc, phase, body);
    } else {
      ReplacePresent(doc, phase, body);
    }
  }

  lemma {:induction false} BodyText(before: string, s: string, body: string, e: string, after: string)
    ensures var core := s + ("\n" + body + "\n") + e;
            var text := before + core + after;
            && |core| == |s| + |body| + 2 + |e|
            && text[|before| + |s| + 1..|before| + |s| + 1 + |body|] == body
  {}

  lemma {:induction false} ReadBodyAround(before: string, phase: Phase, body: string, after: string)
    requires !Occurs(before, Marker(phase, Start)) && !Occurs(before, Marker(phase, End)) && Free(body)
    ensures ReadBody(before + Core(phase, body) + after, phase) == Some(body)
  {
    hide Marker, Occurs, Free;
    MarkersFound(before, phase, body, after);
    BodyText(before, Marker(phase, Start), body, Marker(phase, End), after);
  }

  lemma {:induction false} ReadBodyOfDoc(doc: Doc, phase: Phase)
    requires DocValid(doc)
    ensures ReadBody(Render(doc), phase) == BodyOf(doc, phase)
  {
    var i := IndexOf(doc.blocks, phase);
    BeforeBlockFree(doc, i, phase, Start);
    if i < |doc.blocks| {
      BeforeBlockFree(doc, i, phase, End);
      RenderAround(doc, i);
      ReadBodyAround(Render(Doc(doc.prelude, doc.blocks[..i])), phase, doc.blocks[i].body,
                     doc.blocks[i].gap + RenderBlocks(doc.blocks[i + 1..]));
    } else {
      assert doc.blocks[..i] == doc.blocks;
      FindFromNone(Render(doc), Marker(phase, Start), 0);
    }
  }

  /** After every history of marker-free reports and diary entries, reading a phase back gives exactly its last
      reported body, trimmed, and nothing for a phase never reported. */
  lemma {:induction false} ReportReadsBack(ops: seq<FileOp>, phase: Phase)
    requires forall i :: 0 <= i < |ops| ==> Plain(ops[i])
    ensures ReadBody(RunText(ops), phase) == LastBody(ops, phase)
  {
    var doc := HistoryDoc(ops);
    ReadBodyOfDoc(doc, phase);
  }

  /** Writing the body a phase already has leaves the text as it is. */
  lemma {:induction false} RewriteIsNoOp(ops: seq<FileOp>, phase: Phase, body: string)
    requires forall i :: 0 <= i < |ops| ==> Plain(ops[i])
    requires Free(body) && LastBody(ops, phase) == Some(RStrip(body))
    ensures ReplaceBlock(RunText(ops), phase, body) == RunText(ops)
  {
    var doc := HistoryDoc(ops);
    assert BodyOf(doc, phase) == Some(RStrip(body));
    WriteBlockRefines(doc, phase, body);
    assert WriteBlock(doc, phase, body) == doc;
  }

  /** Every reported phase has its markers exactly once. */
  lemma {:induction false} MarkersOnce(ops: seq<FileOp>, phase: Phase, edge: Edge, i: nat, j: nat)
    requires forall k :: 0 <= k < |ops| ==> Plain(ops[k])
    requires OccursAt(RunText(ops), Marker(phase, edge), i) && OccursAt(RunText(ops), Marker(phase, edge), j)
    ensures i == j && LastBody(ops, phase).Some?
  {
    var doc := HistoryDoc(ops);
    var at := IndexOf(doc.blocks, phase);
    MarkedIsPresent(doc, phase, edge);
    MarkerAtBlock(doc, at, edge, i);
    MarkerAtBlock(doc, at, edge, j);
  }

  lemma {:induction false} MarkedIsPresent(doc: Doc, phase: Phase, edge: Edge)
    requires DocValid(doc) && Occurs(Render(doc), Marker(phase, edge))
    ensures IndexOf(doc.blocks, phase) < |doc.blocks|
  {
    var at := IndexOf(doc.blocks, phase);
    assert doc.blocks[..|doc.blocks|] == doc.blocks;
    BeforeBlockFree(doc, at, phase, edge);
  }

  /** Where the text around a block is free of its markers, each marker stands only at the block. */
  lemma {:induction false} MarkerAround(before: string, phase: Phase, body: string, after: string, edge: Edge, i: nat)
    requires !Occurs(before, Marker(phase, edge)) && !Occurs(after, Marker(phase, edge)) && Free(body)
    requires after != [] && after[0] == '\n'
    requires OccursAt(before + Core(phase, body) + after, Marker(phase, edge), i)
    ensures i == |before| + if edge == Start then 0 else |Core(phase, body)| - |Marker(phase, End)|
  {
    CoreEdges(phase, body);
    NotAcrossSeam(before + Core(phase, body), after, phase, edge, i);
    NotAcrossSeam(before, Core(phase, body), phase, edge, i);
    MarkerInCore(phase, body, edge, i - |before|);
  }

  /** In a valid document a marker stands only at its block. */
  lemma {:induction false} MarkerAtBlock(doc: Doc, at: nat, edge: Edge, i: nat)
    requires DocValid(doc) && at < |doc.blocks| && OccursAt(Render(doc), Marker(doc.blocks[at].phase, edge), i)
    ensures var b := doc.blocks[at];
            i == |Render(Doc(doc.prelude, doc.blocks[..at]))|
                 + if edge == Start then 0 else |Core(b.phase, b.body)| - |Marker(b.phase, End)|
  {
    var b := doc.blocks[at];
    RenderAround(doc, at);
    BeforeBlockFree(doc, at, b.phase, edge);
    AfterBlockFree(doc, at, edge);
    MarkerAround(Render(Doc(doc.prelude, doc.blocks[..at])), b.phase, b.body,
                 b.gap + RenderBlocks(doc.blocks[at + 1..]), edge, i);
  }

  lemma {:induction false} AfterBlockFree(doc: Doc, at: nat, edge: Edge)
    requires DocValid(doc) && at < |doc.blocks|
    ensures !Occurs(doc.blocks[at].gap + RenderBlocks(doc.blocks[at + 1..]), Marker(doc.blocks[at].phase, edge))
  {
    var rest := doc.blocks[at + 1..];
    BlocksFree(rest, doc.blocks[at].phase, edge);
    BlocksStart(rest);
    MarkerFreeConcat(doc.blocks[at].gap, RenderBlocks(rest), doc.blocks[at].phase, edge);
  }

  lemma {:induction false} MarkerInCore(phase: Phase, body: string, edge: Edge, i: nat)
    requires Free(body) && OccursAt(Core(phase, body), Marker(phase, edge), i)
    ensures i == if edge == Start then 0 else |Core(phase, body)| - |Marker(phase, End)|
  {
    var s, lines, e := Marker(phase, Start), "\n" + body + "\n", Marker(phase, End);
    BodyFree(body);
    MarkersApart(phase, End, phase, Start);
    MarkersApart(phase, Start, phase, End);
    MarkerShape(phase, edge);
    NotAcrossSeam(s + lines, e, phase, edge, i);
    if OccursAt(s + lines, Marker(phase, edge), i) {
      NotAcrossSeam(s, lines, phase, edge, i);
    }
  }

  // ------------------------------------------------------------------ the writer

  function TextOf(files: map<string, string>, path: string): string {
    if path in files then files[path] else FRESH_TEXT
  }

  const DREAMS_FILE := "DREAMS.md"

  function PhasePath(memoryDir: string, phase: Phase, day: string): string {
    memoryDir + ("dreaming/" + Name(phase) + "/" + day + ".md")
  }

  /** Each phase has its own file for a day. */
  lemma {:induction false} PathsAre(memoryDir: string, phase: Phase, day: string)
    ensures PhasePath(memoryDir, phase, day) ==
            memoryDir + ("dreaming/" + (match phase case Light => "light" case Rem => "rem" case Deep => "deep") + "/" +
                         day + ".md")
  {}

  lemma {:induction false} CancelHead(head: string, a: string, b: string)
    requires head + a == head + b
    ensures a == b
  {
    assert (head + a)[|head|..] == a && (head + b)[|head|..] == b;
  }

  lemma {:induction false} CancelTail(a: string, b: string, tail: string)
    requires a + tail == b + tail
    ensures a == b
  {
    assert (a + tail)[..|a|] == a && (b + tail)[..|b|] == b;
  }

  lemma {:induction false} NamesApart(phase: Phase, other: Phase, a: string, b: string)
    requires Name(phase) + a == Name(other) + b
    ensures phase == other
  {
    assert (Name(phase) + a)[0] == Name(phase)[0] && (Name(other) + b)[0] == Name(other)[0];
  }

  lemma {:induction false} HasSlash(head: string, tail: string)
    ensures head + "/" + tail != DREAMS_FILE
  {
    assert (head + "/" + tail)[|head|] == '/';
    assert '/' !in DREAMS_FILE;
  }

  lemma {:induction false} PathParts(memoryDir: string, phase: Phase, day: string)
    ensures PhasePath(memoryDir, phase, day) == (memoryDir + "dreaming/") + (Name(phase) + ("/" + (day + ".md")))
    ensures PhasePath(memoryDir, phase, day) == (memoryDir + "dreaming/" + Name(phase)) + "/" + (day + ".md")
  {
    hide Name;
  }

  /** Two phases or two days never share a file, and no daily file is the shared one. */
  lemma {:induction false} PathsApart(memoryDir: string, phase: Phase, day: string, other: Phase, otherDay: string)
    ensures PhasePath(memoryDir, phase, day) == PhasePath(memoryDir, other, otherDay) ==>
              phase == other && day == otherDay
    ensures PhasePath(memoryDir, phase, day) != DREAMS_FILE
  {
    hide PhasePath, Name;
    PathParts(memoryDir, phase, day);
    PathParts(memoryDir, other, otherDay);
    HasSlash(memoryDir + "dreaming/" + Name(phase), day + ".md");
    if PhasePath(memoryDir, phase, day) == PhasePath(memoryDir, other, otherDay) {
      var a, b := "/" + (day + ".md"), "/" + (otherDay + ".md");
      CancelHead(memoryDir + "dreaming/", Name(phase) + a, Name(other) + b);
      NamesApart(phase, other, a, b);
      CancelHead(Name(phase), a, b);
      CancelHead("/", day + ".md", otherDay + ".md");
      CancelTail(day, otherDay, ".md");
    }
  }

  datatype WriterOp =
    | WriteReport(phase: Phase, body: string, day: string)
    | WriteDiary(phase: Phase, narrative: string, day: string)

  /** What the writer's operations do to the files: a report goes to its daily file and to the shared one, an entry to
      the shared one. */
  ghost predicate Wrote(memoryDir: string, before: map<string, string>, after: map<string, string>, op: WriterOp) {
    forall path :: TextOf(after, path) ==
      if op.WriteReport? && (path == PhasePath(memoryDir, op.phase, op.day) || path == DREAMS_FILE) then
        StepText(TextOf(before, path), Report(op.phase, op.body))
      else if op.WriteDiary? && path == DREAMS_FILE then
        StepText(TextOf(before, path), Diary(op.phase, op.narrative, op.day))
      else TextOf(before, path)
  }

  function SharedOps(ops: seq<WriterOp>): seq<FileOp> {
    if ops == [] then []
    else
      SharedOps(ops[..|ops| - 1]) +
      match ops[|ops| - 1]
      case WriteReport(phase, body, _) => [Report(phase, body)]
      case WriteDiary(phase, narrative, day) => [Diary(phase, narrative, day)]
  }

  function DailyOps(ops: seq<WriterOp>, phase: Phase, day: string): seq<FileOp> {
    if ops == [] then []
    else
      var op := ops[|ops| - 1];
      DailyOps(ops[..|ops| - 1], phase, day) +
      if op.WriteReport? && op.phase == phase && op.day == day then [Report(phase, op.body)] else []
  }

  lemma {:induction false} RunTextSnoc(ops: seq<FileOp>, op: FileOp)
    ensures RunText(ops + [op]) == StepText(RunText(ops), op)
  {
    assert (ops + [op])[..|ops|] == ops;
  }

  /** One operation, in the histories of both files. */
  lemma {:induction false} FilesFollowOne(memoryDir: string, before: map<string, string>, after: map<string, string>,
      ops: seq<WriterOp>, op: WriterOp, phase: Phase, day: string)
    requires Wrote(memoryDir, before, after, op)
    requires TextOf(before, DREAMS_FILE) == RunText(SharedOps(ops))
    requires TextOf(before, PhasePath(memoryDir, phase, day)) == RunText(DailyOps(ops, phase, day))
    ensures TextOf(after, DREAMS_FILE) == RunText(SharedOps(ops + [op]))
    ensures TextOf(after, PhasePath(memoryDir, phase, day)) == RunText(DailyOps(ops + [op], phase, day))
  {
    hide StepText, PhasePath, TextOf, RunText;
    PathsApart(memoryDir, phase, day, op.phase, op.day);
    assert (ops + [op])[..|ops|] == ops;
    var shared, daily := SharedOps(ops), DailyOps(ops, phase, day);
    assert daily + [] == daily;
    match op
    case WriteReport(p, body, _) =>
      RunTextSnoc(shared, Report(p, body));
      RunTextSnoc(daily, Report(phase, body));
    case WriteDiary(p, narrative, d) =>
      RunTextSnoc(shared, Diary(p, narrative, d));
  }

  /** Over every history of the writer, from no files: the shared file is the history of all reports and entries, and a
      daily file that of the reports of its phase and day. So all that is proved of one file's history holds of
      these. */
  lemma {:induction false} FilesFollow(memoryDir: string, states: seq<map<string, string>>, ops: seq<WriterOp>,
      phase: Phase, day: string)
    requires |states| == |ops| + 1 && states[0] == map[]
    requires forall i :: 0 <= i < |ops| ==> Wrote(memoryDir, states[i], states[i + 1], ops[i])
    ensures TextOf(states[|ops|], DREAMS_FILE) == RunText(SharedOps(ops))
    ensures TextOf(states[|ops|], PhasePath(memoryDir, phase, day)) == RunText(DailyOps(ops, phase, day))
  {
    hide StepText, PhasePath, Wrote;
    if ops != [] {
      hide RunText, SharedOps, DailyOps, TextOf;
      var n := |ops| - 1;
      FilesFollow(memoryDir, states[..n + 1], ops[..n], phase, day);
      assert states[..n + 1][n] == states[n] && ops == ops[..n] + [ops[n]];
      FilesFollowOne(memoryDir, states[n], states[n + 1], ops[..n], ops[n], phase, day);
    }
  }

  class DreamingMarkdownWriter {
    const memoryDir: string
    var files: map<string, string>

    constructor (memoryDir: string)
      ensures this.memoryDir == memoryDir && files == map[]
    {
      this.memoryDir, files := memoryDir, map[];
    }

    static method ReplacedText(text: string, phase: Phase, body: string) returns (replaced: string)
      ensures replaced == ReplaceBlock(text, phase, body)
    {
      hide Marker, Core, RStrip, LStrip, FindFrom, Find;
      var block := Core(phase, RStrip(body));
      var startIndex := Find(text, Marker(phase, Start));
      var endIndex := Find(text, Marker(phase, End));
      if startIndex >= 0 && endIndex >= startIndex {
        endIndex := endIndex + |Marker(phase, End)|;
        replaced := RStrip(text[..startIndex]) + "\n\n" + block + text[endIndex..];
      } else {
        replaced := RStrip(text) + "\n\n" + block + "\n";
      }
      replaced := LStrip(replaced);
    }

    method ReplaceManagedBlock(path: string, phase: Phase, body: string)
      modifies this
      ensures files == old(files)[path := StepText(TextOf(old(files), path), Report(phase, body))]
    {
      hide ReplaceBlock;
      var text := ReplacedText(if path in files then files[path] else FRESH_TEXT, phase, body);
      files := files[path := text];
    }

    method WritePhaseReport(phase: Phase, report: string, day: string) returns (path: string)
      modifies this
      ensures path == PhasePath(memoryDir, phase, day)
      ensures Wrote(memoryDir, old(files), files, WriteReport(phase, report, day))
      ensures var first := old(files)[path := StepText(TextOf(old(files), path), Report(phase, report))];
              files == first[DREAMS_FILE := StepText(TextOf(first, DREAMS_FILE), Report(phase, report))]
    {
      hide StepText, PhasePath;
      path := PhasePath(memoryDir, phase, day);
      PathsApart(memoryDir, phase, day, phase, day);
      ReplaceManagedBlock(path, phase, report);
      ReplaceManagedBlock(DREAMS_FILE, phase, report);
    }

    /** The source leaves the file unwritten when the narrative is there already. */
    method AppendDreamDiary(phase: Phase, narrative: string, day: string)
      modifies this
      ensures TextOf(files, DREAMS_FILE) == StepText(TextOf(old(files), DREAMS_FILE), Diary(phase, narrative, day))
      ensures forall path :: path != DREAMS_FILE ==> TextOf(files, path) == TextOf(old(files), path)
      ensures Wrote(memoryDir, old(files), files, WriteDiary(phase, narrative, day))
    {
      var existing := if DREAMS_FILE in files then files[DREAMS_FILE] else FRESH_TEXT;
      if !Occurs(existing, DIARY_HEADING) {
        existing := RStrip(existing) + ("\n\n" + DIARY_HEADING + "\n\n");
      }
      var entry := DiaryEntry(phase, narrative, day);
      if Occurs(existing, narrative) {
        return;
      }
      files := files[DREAMS_FILE := RStrip(existing) + ("\n\n" + entry)];
    }
  }
}
