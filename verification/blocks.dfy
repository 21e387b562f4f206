/** The block editor's text operations (scripts/edit_blog_preview.py): splitting a Markdown file into
    top-level blocks, putting it together again, and merging edited blocks into it. */
module Blocks {
  import opened Outcomes

  type Text = seq<char>

  /** A parser token: `lines` is its half-open line range, when it has one. */
  datatype Token = Token(kind: Text, level: int, nesting: int, lines: Lines)

  datatype Lines = NoLines | LineRange(first: nat, last: nat)

  datatype Block = Block(index: nat, kind: Text, gap: Text, source: Text, terminator: Text)

  datatype Draft = Draft(markdown: Text, blocks: seq<Block>, suffix: Text)

  datatype DraftError = Overlap(block: nat) | LineOutOfRange | NotReassembled

  datatype Splitting = Split(blocks: seq<Block>, cursor: nat) | Refused(error: DraftError)

  datatype Decomposition = Decomposed(draft: Draft) | Failed(error: DraftError)

  const NEWLINE: char := '\n'

  // ---------------------------------------------------------------- lines

  function LineStartsOf(text: Text): (starts: seq<nat>)
    ensures starts != []
  {
    if text == [] then [0]
    else
      var n := |text| - 1;
      LineStartsOf(text[..n]) + if text[n] == NEWLINE then [n + 1] else []
  }

  /** They are, in order, 0 and every position after a newline. */
  lemma {:induction false} LineStartsAre(text: Text)
    ensures LineStartsOf(text)[0] == 0
    ensures forall p: nat :: p in LineStartsOf(text) <==> p == 0 || (p <= |text| && text[p - 1] == NEWLINE)
    ensures forall j, k :: 0 <= j < k < |LineStartsOf(text)| ==> LineStartsOf(text)[j] < LineStartsOf(text)[k]
  {
    if text != [] {
      var n := |text| - 1;
      var earlier := LineStartsOf(text[..n]);
      LineStartsAre(text[..n]);
      assert forall k :: 0 <= k < |earlier| ==> earlier[k] in earlier;
    }
  }

  /** `line_starts`. */
  method LineStarts(text: Text) returns (starts: seq<nat>)
    ensures starts == LineStartsOf(text)
  {
    starts := [0];
    for position := 0 to |text|
      invariant starts == LineStartsOf(text[..position])
    {
      assert text[..position + 1][..position] == text[..position];
      if text[position] == NEWLINE {
        starts := starts + [position + 1];
      }
    }
    assert text[..|text|] == text;
  }

  // ---------------------------------------------------------------- putting together

  function Sources(blocks: seq<Block>): seq<Text> {
    seq(|blocks|, k requires 0 <= k < |blocks| => blocks[k].source)
  }

  function Pieces(blocks: seq<Block>, sources: seq<Text>): Text
    requires |blocks| == |sources|
  {
    if blocks == [] then []
    else
      var n := |blocks| - 1;
      Pieces(blocks[..n], sources[..n]) + (blocks[n].gap + sources[n] + blocks[n].terminator)
  }

  function Composed(blocks: seq<Block>, suffix: Text, sources: seq<Text>): Text
    requires |blocks| == |sources|
  {
    Pieces(blocks, sources) + suffix
  }

  /** `compose`; lists of different lengths raise. */
  method Compose(blocks: seq<Block>, suffix: Text, sources: seq<Text>) returns (text: Outcome<Text>)
    ensures text == if |blocks| == |sources| then Returns(Composed(blocks, suffix, sources)) else Raises
  {
    if |blocks| != |sources| {
      return Raises;
    }
    var parts: Text := [];
    for k := 0 to |blocks|
      invariant parts == Pieces(blocks[..k], sources[..k])
    {
      assert blocks[..k + 1][..k] == blocks[..k] && sources[..k + 1][..k] == sources[..k];
      parts := parts + (blocks[k].gap + sources[k] + blocks[k].terminator);
    }
    assert blocks[..|blocks|] == blocks && sources[..|sources|] == sources;
    return Returns(parts + suffix);
  }

  // ---------------------------------------------------------------- splitting

  predicate TopLevel(t: Token) {
    t.level == 0 && t.nesting >= 0 && t.lines.LineRange?
  }

  /** Where a token's lines begin and end in the text. */
  function Begin(starts: seq<nat>, t: Token): nat
    requires TopLevel(t) && t.lines.first < |starts|
  {
    starts[t.lines.first]
  }

  function End(starts: seq<nat>, length: nat, t: Token): nat
    requires TopLevel(t)
  {
    if t.lines.last < |starts| then starts[t.lines.last] else length
  }

  /** Where the last top-level token so far ended. */
  function Cursor(starts: seq<nat>, length: nat, tokens: seq<Token>): nat {
    if tokens == [] then 0
    else if TopLevel(tokens[|tokens| - 1]) then End(starts, length, tokens[|tokens| - 1])
    else Cursor(starts, length, tokens[..|tokens| - 1])
  }

  predicate LineKnown(starts: seq<nat>, t: Token) {
    TopLevel(t) ==> t.lines.first < |starts|
  }

  /** A token whose lines are known, that starts no earlier than its predecessor ended, and ends no
      earlier than it starts. */
  predicate Follows(starts: seq<nat>, length: nat, before: seq<Token>, t: Token) {
    TopLevel(t) ==>
      && LineKnown(starts, t)
      && Cursor(starts, length, before) <= Begin(starts, t) <= End(starts, length, t)
  }

  /** The line ranges of the top-level tokens follow each other. */
  predicate Fits(starts: seq<nat>, length: nat, tokens: seq<Token>) {
    tokens == [] || (
      var n := |tokens| - 1;
      Fits(starts, length, tokens[..n]) && Follows(starts, length, tokens[..n], tokens[n]))
  }

  function CountTopLevel(tokens: seq<Token>): nat {
    if tokens == [] then 0 else CountTopLevel(tokens[..|tokens| - 1]) + if TopLevel(tokens[|tokens| - 1]) then 1 else 0
  }

  /** Why the first token that does not follow is refused. */
  function FaultOf(starts: seq<nat>, length: nat, tokens: seq<Token>): DraftError
    requires !Fits(starts, length, tokens)
  {
    var n := |tokens| - 1;
    if !Fits(starts, length, tokens[..n]) then FaultOf(starts, length, tokens[..n])
    else if !LineKnown(starts, tokens[n]) then LineOutOfRange
    else Overlap(CountTopLevel(tokens[..n]))
  }

  function TerminatorOf(raw: Text): Text {
    if raw != [] && raw[|raw| - 1] == NEWLINE then [NEWLINE] else []
  }

  /** A block is its token's lines, without a final newline, and the text since the last block. */
  function BlockOf(k: nat, kind: Text, gap: Text, raw: Text): (b: Block)
    ensures b.index == k && b.kind == kind && b.gap == gap && b.source + b.terminator == raw
  {
    var terminator := TerminatorOf(raw);
    assert raw == raw[..|raw| - |terminator|] + terminator;
    Block(k, kind, gap, raw[..|raw| - |terminator|], terminator)
  }

  function BlocksOf(markdown: Text, starts: seq<nat>, tokens: seq<Token>): (blocks: seq<Block>)
    requires Fits(starts, |markdown|, tokens) && WithinText(markdown, starts)
    ensures |blocks| == CountTopLevel(tokens)
  {
    if tokens == [] then []
    else
      var n := |tokens| - 1;
      var earlier := BlocksOf(markdown, starts, tokens[..n]);
      if TopLevel(tokens[n]) then
        var begin, end := Begin(starts, tokens[n]), End(starts, |markdown|, tokens[n]);
        earlier + [BlockOf(|earlier|, tokens[n].kind, markdown[Cursor(starts, |markdown|, tokens[..n])..begin],
              markdown[begin..end])]
      else earlier
  }

  predicate WithinText(markdown: Text, starts: seq<nat>) {
    forall k :: 0 <= k < |starts| ==> starts[k] <= |markdown|
  }

  lemma StartsWithinText(markdown: Text)
    ensures WithinText(markdown, LineStartsOf(markdown))
  {
    LineStartsAre(markdown);
    var starts := LineStartsOf(markdown);
    assert forall k :: 0 <= k < |starts| ==> starts[k] in starts;
  }

  lemma {:induction false} CursorInText(markdown: Text, starts: seq<nat>, tokens: seq<Token>)
    requires WithinText(markdown, starts)
    ensures Cursor(starts, |markdown|, tokens) <= |markdown|
  {
    if tokens != [] && !TopLevel(tokens[|tokens| - 1]) {
      CursorInText(markdown, starts, tokens[..|tokens| - 1]);
    }
  }

  /** Nothing is lost: whatever the tokens were, the blocks reassemble to the text so far. */
  lemma {:induction false} BlocksReassemble(markdown: Text, starts: seq<nat>, tokens: seq<Token>)
    requires WithinText(markdown, starts) && Fits(starts, |markdown|, tokens)
    ensures Cursor(starts, |markdown|, tokens) <= |markdown|
    ensures var blocks := BlocksOf(markdown, starts, tokens);
            Pieces(blocks, Sources(blocks)) == markdown[..Cursor(starts, |markdown|, tokens)]
  {
    CursorInText(markdown, starts, tokens);
    if tokens != [] {
      var n := |tokens| - 1;
      BlocksReassemble(markdown, starts, tokens[..n]);
      if TopLevel(tokens[n]) {
        var earlier := BlocksOf(markdown, starts, tokens[..n]);
        var cursor := Cursor(starts, |markdown|, tokens[..n]);
        var begin, end := Begin(starts, tokens[n]), End(starts, |markdown|, tokens[n]);
        var b := BlockOf(|earlier|, tokens[n].kind, markdown[cursor..begin], markdown[begin..end]);
        OneMorePiece(earlier, b);
        SplitSlice(markdown, cursor, begin, end, b.source, b.terminator);
      }
    }
  }

  lemma OneMorePiece(earlier: seq<Block>, b: Block)
    ensures Pieces(earlier + [b], Sources(earlier + [b])) ==
            Pieces(earlier, Sources(earlier)) + (b.gap + b.source + b.terminator)
  {
    var blocks := earlier + [b];
    assert blocks[..|earlier|] == earlier && Sources(blocks)[..|earlier|] == Sources(earlier);
  }

  lemma SplitSlice(text: Text, cursor: nat, begin: nat, end: nat, source: Text, terminator: Text)
    requires cursor <= begin <= end <= |text| && source + terminator == text[begin..end]
    ensures text[..cursor] + (text[cursor..begin] + source + terminator) == text[..end]
  {
    assert text[cursor..begin] + source + terminator == text[cursor..begin] + text[begin..end];
  }

  /** What `decompose` answers. */
  function DecompositionOf(markdown: Text, tokens: seq<Token>): Decomposition {
    var starts := LineStartsOf(markdown);
    if !Fits(starts, |markdown|, tokens) then Failed(FaultOf(starts, |markdown|, tokens))
    else
      StartsWithinText(markdown);
      CursorInText(markdown, starts, tokens);
      Decomposed(Draft(markdown, BlocksOf(markdown, starts, tokens), markdown[Cursor(starts, |markdown|, tokens)..]))
  }

  /** The parts give the text back. */
  predicate Reassembles(d: Draft) {
    Composed(d.blocks, d.suffix, Sources(d.blocks)) == d.markdown
  }

  /** What comes before the source of block `k`, and what comes after it. */
  function Head(blocks: seq<Block>, sources: seq<Text>, k: nat): Text
    requires |blocks| == |sources| && k < |blocks|
  {
    Pieces(blocks[..k], sources[..k]) + blocks[k].gap
  }

  function Tail(blocks: seq<Block>, sources: seq<Text>, k: nat): Text
    requires |blocks| == |sources| && k < |blocks|
  {
    blocks[k].terminator + Pieces(blocks[k + 1..], sources[k + 1..])
  }

  lemma AroundEarlier(blocks: seq<Block>, sources: seq<Text>, k: nat)
    requires |blocks| == |sources| && k < |blocks| - 1
    ensures var n := |blocks| - 1;
      && Head(blocks, sources, k) == Head(blocks[..n], sources[..n], k)
      && Tail(blocks, sources, k) ==
         Tail(blocks[..n], sources[..n], k) + (blocks[n].gap + sources[n] + blocks[n].terminator)
  {
    var n := |blocks| - 1;
    assert blocks[..n][..k] == blocks[..k] && sources[..n][..k] == sources[..k];
    assert blocks[k + 1..][..n - k - 1] == blocks[..n][k + 1..];
    assert sources[k + 1..][..n - k - 1] == sources[..n][k + 1..];
  }

  /** Every source stands between its head and its tail. */
  lemma {:induction false} PiecesAround(blocks: seq<Block>, sources: seq<Text>, k: nat)
    requires |blocks| == |sources| && k < |blocks|
    ensures Pieces(blocks, sources) == Head(blocks, sources, k) + sources[k] + Tail(blocks, sources, k)
    decreases |blocks|
  {
    var n := |blocks| - 1;
    var last := blocks[n].gap + sources[n] + blocks[n].terminator;
    if k == n {
      assert Tail(blocks, sources, k) == blocks[n].terminator;
    } else {
      PiecesAround(blocks[..n], sources[..n], k);
      AroundEarlier(blocks, sources, k);
      hide Head, Tail;
      assert Pieces(blocks, sources) == Pieces(blocks[..n], sources[..n]) + last;
    }
  }

  /** Where block `k` begins in the text. */
  function SourceStart(blocks: seq<Block>, k: nat): nat
    requires k < |blocks|
  {
    |Head(blocks, Sources(blocks), k)|
  }

  lemma ReplacedInPlace(before: Text, source: Text, after: Text, text: Text)
    ensures var whole := before + source + after; var end := |before| + |source|;
      && whole[|before|..end] == source
      && whole[..|before|] + text + whole[end..] == before + text + after
  {
    var whole := before + source + after;
    assert whole[..|before|] == before && whole[|before| + |source|..] == after;
  }

  lemma SameAround(blocks: seq<Block>, sources: seq<Text>, k: nat, text: Text)
    requires |blocks| == |sources| && k < |blocks|
    ensures Head(blocks, sources[k := text], k) == Head(blocks, sources, k)
    ensures Tail(blocks, sources[k := text], k) == Tail(blocks, sources, k)
  {
    assert sources[k := text][..k] == sources[..k] && sources[k := text][k + 1..] == sources[k + 1..];
  }

  lemma Regrouped(a: Text, b: Text, c: Text, d: Text)
    ensures (a + b + c) + d == a + b + (c + d)
  {
  }

  /** Putting another text in the place of one block changes the document there and nowhere else. */
  lemma EditChangesOnlyItsBlock(d: Draft, k: nat, text: Text)
    requires Reassembles(d) && k < |d.blocks|
    ensures var begin := SourceStart(d.blocks, k); var end := begin + |d.blocks[k].source|;
      && end <= |d.markdown| && d.markdown[begin..end] == d.blocks[k].source
      && Composed(d.blocks, d.suffix, Sources(d.blocks)[k := text]) == d.markdown[..begin] + text + d.markdown[end..]
  {
    hide Head, Tail, Pieces;
    var sources := Sources(d.blocks);
    var head, tail := Head(d.blocks, sources, k), Tail(d.blocks, sources, k);
    PiecesAround(d.blocks, sources, k);
    PiecesAround(d.blocks, sources[k := text], k);
    SameAround(d.blocks, sources, k, text);
    Regrouped(head, sources[k], tail, d.suffix);
    Regrouped(head, text, tail, d.suffix);
    ReplacedInPlace(head, sources[k], tail + d.suffix, text);
  }

  /** Byte-exact: `compose` of `decompose` is the input, for any tokens. */
  lemma ComposeInvertsDecompose(markdown: Text, tokens: seq<Token>)
    ensures DecompositionOf(markdown, tokens) != Failed(NotReassembled)
    ensures DecompositionOf(markdown, tokens).Decomposed? ==>
      DecompositionOf(markdown, tokens).draft.markdown == markdown
      && Reassembles(DecompositionOf(markdown, tokens).draft)
  {
    hide LineStartsOf, Fits, Cursor, BlocksOf, Pieces, FaultOf, WithinText;
    var starts := LineStartsOf(markdown);
    if Fits(starts, |markdown|, tokens) {
      StartsWithinText(markdown);
      var blocks, cursor := BlocksOf(markdown, starts, tokens), Cursor(starts, |markdown|, tokens);
      BlocksReassemble(markdown, starts, tokens);
      assert Composed(blocks, markdown[cursor..], Sources(blocks)) == markdown[..cursor] + markdown[cursor..];
    } else {
      FaultIsNotReassembly(starts, |markdown|, tokens);
    }
  }

  lemma {:induction false} FaultIsNotReassembly(starts: seq<nat>, length: nat, tokens: seq<Token>)
    requires !Fits(starts, length, tokens)
    ensures FaultOf(starts, length, tokens) != NotReassembled
  {
    if !Fits(starts, length, tokens[..|tokens| - 1]) {
      FaultIsNotReassembly(starts, length, tokens[..|tokens| - 1]);
    }
  }

  lemma {:induction false} FirstFault(starts: seq<nat>, length: nat, tokens: seq<Token>, i: nat)
    requires i < |tokens| && Fits(starts, length, tokens[..i]) && !Follows(starts, length, tokens[..i], tokens[i])
    ensures !Fits(starts, length, tokens)
    ensures FaultOf(starts, length, tokens) ==
            if !LineKnown(starts, tokens[i]) then LineOutOfRange else Overlap(CountTopLevel(tokens[..i]))
  {
    var n := |tokens| - 1;
    if i < n {
      assert tokens[..n][..i] == tokens[..i];
      FirstFault(starts, length, tokens[..n], i);
    }
  }

  /** One round of the loop. */
  lemma NextToken(markdown: Text, starts: seq<nat>, tokens: seq<Token>, i: nat)
    requires i < |tokens| && WithinText(markdown, starts) && Fits(starts, |markdown|, tokens[..i])
    requires Follows(starts, |markdown|, tokens[..i], tokens[i])
    ensures Fits(starts, |markdown|, tokens[..i + 1])
    ensures if TopLevel(tokens[i]) then
              var begin, end := Begin(starts, tokens[i]), End(starts, |markdown|, tokens[i]);
              var earlier := BlocksOf(markdown, starts, tokens[..i]);
              && Cursor(starts, |markdown|, tokens[..i + 1]) == end
              && BlocksOf(markdown, starts, tokens[..i + 1]) ==
                 earlier + [BlockOf(|earlier|, tokens[i].kind, markdown[Cursor(starts, |markdown|, tokens[..i])..begin],
                       markdown[begin..end])]
            else
              && Cursor(starts, |markdown|, tokens[..i + 1]) == Cursor(starts, |markdown|, tokens[..i])
              && BlocksOf(markdown, starts, tokens[..i + 1]) == BlocksOf(markdown, starts, tokens[..i])
  {
    assert tokens[..i + 1][..i] == tokens[..i];
  }

  /** The loop of `decompose`. */
  method SplitBlocks(markdown: Text, tokens: seq<Token>) returns (r: Splitting)
    ensures var starts := LineStartsOf(markdown);
      && WithinText(markdown, starts)
      && (r.Refused? ==> !Fits(starts, |markdown|, tokens) && r.error == FaultOf(starts, |markdown|, tokens))
      && (r.Split? ==> Fits(starts, |markdown|, tokens) && r.blocks == BlocksOf(markdown, starts, tokens)
                       && r.cursor == Cursor(starts, |markdown|, tokens) <= |markdown|)
  {
    StartsWithinText(markdown);
    var starts := LineStarts(markdown);
    var blocks: seq<Block> := [];
    var cursor := 0;
    for i := 0 to |tokens|
      invariant Fits(starts, |markdown|, tokens[..i]) && blocks == BlocksOf(markdown, starts, tokens[..i])
      invariant cursor == Cursor(starts, |markdown|, tokens[..i]) <= |markdown|
    {
      var t := tokens[i];
      if t.level != 0 || t.nesting < 0 || t.lines.NoLines? {
        NextToken(markdown, starts, tokens, i);
        continue;
      }
      if t.lines.first >= |starts| {
        FirstFault(starts, |markdown|, tokens, i);
        return Refused(LineOutOfRange);
      }
      var begin := starts[t.lines.first];
      var end := if t.lines.last < |starts| then starts[t.lines.last] else |markdown|;
      if begin < cursor || end < begin {
        FirstFault(starts, |markdown|, tokens, i);
        return Refused(Overlap(|blocks|));
      }
      NextToken(markdown, starts, tokens, i);
      var raw := markdown[begin..end];
      var terminator := if raw != [] && raw[|raw| - 1] == NEWLINE then [NEWLINE] else [];
      blocks := blocks + [Block(|blocks|, t.kind, markdown[cursor..begin], raw[..|raw| - |terminator|], terminator)];
      cursor := end;
    }
    assert tokens[..|tokens|] == tokens;
    return Split(blocks, cursor);
  }

  /** `decompose`.  The check that the blocks reassemble never fails. */
  method Decompose(markdown: Text, tokens: seq<Token>) returns (r: Decomposition)
    ensures r == DecompositionOf(markdown, tokens)
    ensures r.Decomposed? ==> r.draft.markdown == markdown && Reassembles(r.draft)
    ensures r.Failed? ==> !r.error.NotReassembled?
  {
    ComposeInvertsDecompose(markdown, tokens);
    var parts := SplitBlocks(markdown, tokens);
    if parts.Refused? {
      return Failed(parts.error);
    }
    var suffix := markdown[parts.cursor..];
    var again := Compose(parts.blocks, suffix, Sources(parts.blocks));
    if again != Returns(markdown) {
      return Failed(NotReassembled);
    }
    return Decomposed(Draft(markdown, parts.blocks, suffix));
  }

  /** Blocks carry their positions. */
  predicate Indexed(blocks: seq<Block>) {
    forall k :: 0 <= k < |blocks| ==> blocks[k].index == k
  }

  lemma {:induction false} BlocksIndexed(markdown: Text, starts: seq<nat>, tokens: seq<Token>)
    requires Fits(starts, |markdown|, tokens) && WithinText(markdown, starts)
    ensures Indexed(BlocksOf(markdown, starts, tokens))
  {
    if tokens != [] {
      BlocksIndexed(markdown, starts, tokens[..|tokens| - 1]);
    }
  }

  lemma LastPlaced(markdown: Text, starts: seq<nat>, tokens: seq<Token>)
    requires tokens != [] && TopLevel(tokens[|tokens| - 1])
    requires Fits(starts, |markdown|, tokens) && WithinText(markdown, starts)
    ensures var n := |tokens| - 1; var t := tokens[n];
      && Fits(starts, |markdown|, tokens[..n]) && Follows(starts, |markdown|, tokens[..n], t)
      && t.lines.first < |starts|
      && Cursor(starts, |markdown|, tokens[..n]) <= Begin(starts, t) <= End(starts, |markdown|, t) <= |markdown|
  {
  }

  /** What a last, top-level token adds. */
  lemma LastBlock(markdown: Text, starts: seq<nat>, tokens: seq<Token>) returns (b: Block)
    requires tokens != [] && TopLevel(tokens[|tokens| - 1])
    requires Fits(starts, |markdown|, tokens) && WithinText(markdown, starts)
    ensures var n := |tokens| - 1; var t := tokens[n];
            var earlier, cursor := BlocksOf(markdown, starts, tokens[..n]), Cursor(starts, |markdown|, tokens[..n]);
      && t.lines.first < |starts| && cursor <= starts[t.lines.first]
      && var end := if t.lines.last < |starts| then starts[t.lines.last] else |markdown|;
         var begin := starts[t.lines.first];
      && begin <= end <= |markdown| && BlocksOf(markdown, starts, tokens) == earlier + [b]
      && b.index == |earlier| && b.kind == t.kind && b.gap == markdown[cursor..begin]
      && b.source + b.terminator == markdown[begin..end]
      && b.terminator == (if begin < end && markdown[end - 1] == NEWLINE then [NEWLINE] else [])
  {
    hide BlocksOf, Cursor, Fits, Follows, WithinText, BlockOf;
    var n := |tokens| - 1;
    var t := tokens[n];
    LastPlaced(markdown, starts, tokens);
    NextToken(markdown, starts, tokens, n);
    assert tokens[..n + 1] == tokens;
    var begin, end := Begin(starts, t), End(starts, |markdown|, t);
    var earlier, cursor := BlocksOf(markdown, starts, tokens[..n]), Cursor(starts, |markdown|, tokens[..n]);
    b := BlockOf(|earlier|, t.kind, markdown[cursor..begin], markdown[begin..end]);
    BlockOfMeans(markdown, begin, end, |earlier|, t.kind, markdown[cursor..begin]);
  }

  lemma BlockOfMeans(markdown: Text, begin: nat, end: nat, k: nat, kind: Text, gap: Text)
    requires begin <= end <= |markdown|
    ensures BlockOf(k, kind, gap, markdown[begin..end]).terminator ==
            (if begin < end && markdown[end - 1] == NEWLINE then [NEWLINE] else [])
  {
  }

  /** The block of a top-level token is exactly its lines, from the start of its first line to the start
      of the line after its last one or to the end of the text, split at a final newline: block after
      block, in token order. */
  lemma {:induction false} BlockIsItsLines(markdown: Text, starts: seq<nat>, tokens: seq<Token>, i: nat)
    requires Fits(starts, |markdown|, tokens) && WithinText(markdown, starts) && i < |tokens| && TopLevel(tokens[i])
    ensures tokens[i].lines.first < |starts| && CountTopLevel(tokens[..i]) < |BlocksOf(markdown, starts, tokens)|
    ensures var b := BlocksOf(markdown, starts, tokens)[CountTopLevel(tokens[..i])];
            var begin, last := starts[tokens[i].lines.first], tokens[i].lines.last;
            var end := if last < |starts| then starts[last] else |markdown|;
      && begin <= end <= |markdown|
      && b.index == CountTopLevel(tokens[..i]) && b.kind == tokens[i].kind
      && b.source + b.terminator == markdown[begin..end]
      && b.terminator == (if begin < end && markdown[end - 1] == NEWLINE then [NEWLINE] else [])
  {
    hide BlocksOf, Fits, CountTopLevel, WithinText, TopLevel;
    var n := |tokens| - 1;
    EarlierBlocks(markdown, starts, tokens);
    if i == n {
      var b := LastBlock(markdown, starts, tokens);
    } else {
      assert tokens[..n][i] == tokens[i] && tokens[..n][..i] == tokens[..i];
      BlockIsItsLines(markdown, starts, tokens[..n], i);
    }
  }

  lemma EarlierBlocks(markdown: Text, starts: seq<nat>, tokens: seq<Token>)
    requires tokens != [] && Fits(starts, |markdown|, tokens) && WithinText(markdown, starts)
    ensures Fits(starts, |markdown|, tokens[..|tokens| - 1])
    ensures BlocksOf(markdown, starts, tokens[..|tokens| - 1]) <= BlocksOf(markdown, starts, tokens)
  {
  }

  lemma SourceStartOfFirst(blocks: seq<Block>, n: nat, k: nat)
    requires k < n <= |blocks|
    ensures SourceStart(blocks[..n], k) == SourceStart(blocks, k)
  {
    assert blocks[..n][..k] == blocks[..k] && Sources(blocks[..n])[..k] == Sources(blocks)[..k];
  }

  lemma StartsAfter(earlier: seq<Block>, b: Block)
    ensures SourceStart(earlier + [b], |earlier|) == |Pieces(earlier, Sources(earlier))| + |b.gap|
  {
    hide Pieces;
    var blocks := earlier + [b];
    assert blocks[..|earlier|] == earlier && Sources(blocks)[..|earlier|] == Sources(earlier);
  }

  lemma LastSourceStart(markdown: Text, starts: seq<nat>, tokens: seq<Token>)
    requires tokens != [] && TopLevel(tokens[|tokens| - 1])
    requires Fits(starts, |markdown|, tokens) && WithinText(markdown, starts)
    ensures var blocks := BlocksOf(markdown, starts, tokens);
            blocks != [] && tokens[|tokens| - 1].lines.first < |starts|
            && SourceStart(blocks, |blocks| - 1) == starts[tokens[|tokens| - 1].lines.first]
  {
    var n := |tokens| - 1;
    hide Pieces, Fits, Cursor, BlocksOf, WithinText, SourceStart, Sources;
    EarlierBlocks(markdown, starts, tokens);
    BlocksReassemble(markdown, starts, tokens[..n]);
    var b := LastBlock(markdown, starts, tokens);
    var earlier, blocks := BlocksOf(markdown, starts, tokens[..n]), BlocksOf(markdown, starts, tokens);
    StartsAfter(earlier, b);
  }

  /** And it stands in the text where its first line starts. */
  lemma {:induction false} BlockStartsAtItsLine(markdown: Text, starts: seq<nat>, tokens: seq<Token>, i: nat)
    requires Fits(starts, |markdown|, tokens) && WithinText(markdown, starts) && i < |tokens| && TopLevel(tokens[i])
    ensures tokens[i].lines.first < |starts| && CountTopLevel(tokens[..i]) < |BlocksOf(markdown, starts, tokens)|
    ensures SourceStart(BlocksOf(markdown, starts, tokens), CountTopLevel(tokens[..i])) ==
            starts[tokens[i].lines.first]
  {
    hide BlocksOf, Fits, CountTopLevel, WithinText, TopLevel, SourceStart;
    var n := |tokens| - 1;
    EarlierBlocks(markdown, starts, tokens);
    var earlier, blocks := BlocksOf(markdown, starts, tokens[..n]), BlocksOf(markdown, starts, tokens);
    if i == n {
      var b := LastBlock(markdown, starts, tokens);
      LastSourceStart(markdown, starts, tokens);
    } else {
      assert tokens[..n][i] == tokens[i] && tokens[..n][..i] == tokens[..i];
      assert blocks[..|earlier|] == earlier;
      BlockStartsAtItsLine(markdown, starts, tokens[..n], i);
      SourceStartOfFirst(blocks, |earlier|, CountTopLevel(tokens[..i]));
    }
  }

  lemma {:induction false} EndsWithinCursor(starts: seq<nat>, length: nat, tokens: seq<Token>, j: nat)
    requires Fits(starts, length, tokens) && j < |tokens| && TopLevel(tokens[j])
    ensures End(starts, length, tokens[j]) <= Cursor(starts, length, tokens)
  {
    var n := |tokens| - 1;
    if j < n {
      EndsWithinCursor(starts, length, tokens[..n], j);
    }
  }

  predicate EndsAt(starts: seq<nat>, length: nat, tokens: seq<Token>, j: int, cursor: nat) {
    0 <= j < |tokens| && TopLevel(tokens[j]) && End(starts, length, tokens[j]) == cursor
  }

  lemma {:induction false} CursorIsAnEnd(starts: seq<nat>, length: nat, tokens: seq<Token>)
    ensures var cursor := Cursor(starts, length, tokens);
            cursor == 0 || exists j :: EndsAt(starts, length, tokens, j, cursor)
  {
    if tokens != [] {
      var n := |tokens| - 1;
      var cursor := Cursor(starts, length, tokens);
      if TopLevel(tokens[n]) {
        assert EndsAt(starts, length, tokens, n, cursor);
      } else {
        CursorIsAnEnd(starts, length, tokens[..n]);
        if j :| EndsAt(starts, length, tokens[..n], j, cursor) {
          assert EndsAt(starts, length, tokens, j, cursor);
        }
      }
    }
  }

  /** Its lines exist, are not turned around, and start no earlier than any top-level token before it
      ended. */
  predicate InPlace(starts: seq<nat>, length: nat, tokens: seq<Token>, i: nat)
    requires i < |tokens|
  {
    var t := tokens[i];
    t.level == 0 && t.nesting >= 0 && t.lines.LineRange? ==>
      && t.lines.first < |starts|
      && starts[t.lines.first] <= (if t.lines.last < |starts| then starts[t.lines.last] else length)
      && forall j :: 0 <= j < i && TopLevel(tokens[j]) ==> End(starts, length, tokens[j]) <= starts[t.lines.first]
  }

  /** A list of tokens is accepted exactly if every token is in place. */
  lemma {:induction false} FitsExactly(starts: seq<nat>, length: nat, tokens: seq<Token>)
    ensures Fits(starts, length, tokens) <==> forall i :: 0 <= i < |tokens| ==> InPlace(starts, length, tokens, i)
  {
    if tokens != [] {
      var n := |tokens| - 1;
      var first := tokens[..n];
      FitsExactly(starts, length, first);
      forall i | 0 <= i < n ensures InPlace(starts, length, first, i) <==> InPlace(starts, length, tokens, i) {
        assert first[i] == tokens[i];
      }
      if Fits(starts, length, first) {
        LastInPlace(starts, length, tokens);
      }
    }
  }

  lemma LastInPlace(starts: seq<nat>, length: nat, tokens: seq<Token>)
    requires tokens != [] && Fits(starts, length, tokens[..|tokens| - 1])
    ensures var n := |tokens| - 1;
            Follows(starts, length, tokens[..n], tokens[n]) <==> InPlace(starts, length, tokens, n)
  {
    var n := |tokens| - 1;
    var first := tokens[..n];
    CursorIsAnEnd(starts, length, first);
    forall j | 0 <= j < n && TopLevel(tokens[j])
      ensures End(starts, length, tokens[j]) <= Cursor(starts, length, first)
    {
      assert first[j] == tokens[j];
      EndsWithinCursor(starts, length, first, j);
    }
    var cursor := Cursor(starts, length, first);
    if cursor != 0 {
      var j :| EndsAt(starts, length, first, j, cursor);
      assert first[j] == tokens[j];
    }
  }

  /** All of a block's text comes from the document. */
  lemma {:induction false} BlocksFromText(markdown: Text, starts: seq<nat>, tokens: seq<Token>, c: char)
    requires Fits(starts, |markdown|, tokens) && WithinText(markdown, starts) && c !in markdown
    ensures forall b :: b in BlocksOf(markdown, starts, tokens) ==> c !in b.gap && c !in b.source && c !in b.terminator
  {
    if tokens != [] {
      BlocksFromText(markdown, starts, tokens[..|tokens| - 1], c);
    }
  }
}
