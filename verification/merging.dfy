/** Merging submitted blocks into a draft (scripts/edit_blog_preview.py). */
module Merging {
  import opened Outcomes
  import opened Blocks
  import opened Sequences

  const CR: char := '\r'

  // ---------------------------------------------------------------- newlines

  /** `replace` of one character. */
  function ReplaceChar(text: Text, c: char, replacement: Text): Text {
    if text == [] then []
    else (if text[0] == c then replacement else [text[0]]) + ReplaceChar(text[1..], c, replacement)
  }

  /** `replace("\r\n", "\n")`. */
  function ReplaceCrLf(text: Text): Text {
    if text == [] then []
    else if |text| >= 2 && text[0] == CR && text[1] == NEWLINE then [NEWLINE] + ReplaceCrLf(text[2..])
    else [text[0]] + ReplaceCrLf(text[1..])
  }

  /** Both replacements of `merge`. */
  function Unified(text: Text): Text {
    ReplaceChar(ReplaceCrLf(text), CR, [NEWLINE])
  }

  /** Reading a text file translates every line ending in one pass. */
  function ReadTranslated(bytes: Text): Text {
    if bytes == [] then []
    else if bytes[0] == CR then
        [NEWLINE] + ReadTranslated(if |bytes| >= 2 && bytes[1] == NEWLINE then bytes[2..] else bytes[1..])
    else [bytes[0]] + ReadTranslated(bytes[1..])
  }

  /** The two replacements together are that one pass. */
  lemma {:induction false} UnifiedIsOnePass(text: Text)
    ensures Unified(text) == ReadTranslated(text)
  {
    if text != [] {
      if |text| >= 2 && text[0] == CR && text[1] == NEWLINE {
        UnifiedIsOnePass(text[2..]);
        assert ReplaceCrLf(text)[1..] == ReplaceCrLf(text[2..]);
      } else {
        UnifiedIsOnePass(text[1..]);
        assert ReplaceCrLf(text)[1..] == ReplaceCrLf(text[1..]);
      }
    }
  }

  lemma PlainFirst(c: char, rest: Text)
    requires c != CR
    ensures ReadTranslated([c] + rest) == [c] + ReadTranslated(rest)
  {
    assert ([c] + rest)[1..] == rest;
  }

  /** A line without carriage returns stays, whatever follows it. */
  lemma {:induction false} LineStays(line: Text, rest: Text)
    requires CR !in line
    ensures ReadTranslated(line + rest) == line + ReadTranslated(rest)
  {
    if line == [] {
      assert line + rest == rest;
    } else {
      LineStays(line[1..], rest);
      PlainFirst(line[0], line[1..] + rest);
      assert line + rest == [line[0]] + (line[1..] + rest);
      assert line + ReadTranslated(rest) == [line[0]] + (line[1..] + ReadTranslated(rest));
    }
  }

  /** Every line ending, CR, LF or CRLF, becomes one newline, and everything else stays. */
  lemma LineEndings(line: Text, rest: Text)
    requires CR !in line
    ensures ReadTranslated(line + ([NEWLINE] + rest)) == line + ([NEWLINE] + ReadTranslated(rest))
    ensures ReadTranslated(line + ([CR, NEWLINE] + rest)) == line + ([NEWLINE] + ReadTranslated(rest))
    ensures rest == [] || rest[0] != NEWLINE ==>
              ReadTranslated(line + ([CR] + rest)) == line + ([NEWLINE] + ReadTranslated(rest))
  {
    LineStays(line, [NEWLINE] + rest);
    LineStays(line, [CR, NEWLINE] + rest);
    LineStays(line, [CR] + rest);
    PlainFirst(NEWLINE, rest);
    assert ([CR, NEWLINE] + rest)[2..] == rest && ([CR] + rest)[1..] == rest;
  }

  lemma {:induction false} ReplaceCharRemoves(text: Text, c: char, replacement: Text)
    requires c !in replacement
    ensures c !in ReplaceChar(text, c, replacement)
    ensures c !in text ==> ReplaceChar(text, c, replacement) == text
  {
    if text != [] {
      ReplaceCharRemoves(text[1..], c, replacement);
    }
  }

  lemma {:induction false} ReplaceCrLfKeeps(text: Text)
    requires CR !in text
    ensures ReplaceCrLf(text) == text
  {
    if text != [] {
      ReplaceCrLfKeeps(text[1..]);
    }
  }

  /** No carriage return is left, and a text without any is not touched. */
  lemma UnifiedHasNoReturns(text: Text)
    ensures CR !in Unified(text)
    ensures Unified(text) == text <==> CR !in text
  {
    ReplaceCharRemoves(ReplaceCrLf(text), CR, [NEWLINE]);
    if CR !in text {
      ReplaceCrLfKeeps(text);
    }
  }

  // ---------------------------------------------------------------- typography

  datatype Label = EmDash | EnDash | CurlyQuote | Ellipsis | NonBreakingSpace | NarrowNoBreakSpace

  datatype Row = Row(character: char, replacement: Text, note: Label)

  const TYPOGRAPHY: seq<Row> := [
    Row('\U{2014}', "--", EmDash),
    Row('\U{2013}', "-", EnDash),
    Row('\U{2018}', "'", CurlyQuote),
    Row('\U{2019}', "'", CurlyQuote),
    Row('\U{201c}', ['"'], CurlyQuote),
    Row('\U{201d}', ['"'], CurlyQuote),
    Row('\U{2026}', "...", Ellipsis),
    Row('\U{00a0}', " ", NonBreakingSpace),
    Row('\U{202f}', " ", NarrowNoBreakSpace)
  ]

  predicate Plain(c: char) {
    c < '\U{0080}'
  }

  /** The table's characters differ, and its replacements contain none of them. */
  lemma TableIsSafe()
    ensures |TYPOGRAPHY| == 9
    ensures forall r :: 0 <= r < 9 ==>
              !Plain(TYPOGRAPHY[r].character) && forall k :: 0 <= k < |TYPOGRAPHY[r].replacement| ==>
                  Plain(TYPOGRAPHY[r].replacement[k])
    ensures forall r, q :: 0 <= r < q < 9 ==> TYPOGRAPHY[r].character != TYPOGRAPHY[q].character
  {
  }

  predicate Banned(c: char) {
    exists r :: 0 <= r < |TYPOGRAPHY| && TYPOGRAPHY[r].character == c
  }

  /** What the first `n` rows make of one character. */
  function Substitute(c: char, n: nat): Text
    requires n <= |TYPOGRAPHY|
  {
    if n == 0 then [c]
    else if TYPOGRAPHY[n - 1].character == c then TYPOGRAPHY[n - 1].replacement
    else Substitute(c, n - 1)
  }

  /** One pass over the text, each character on its own. */
  function Substituted(text: Text, n: nat): Text
    requires n <= |TYPOGRAPHY|
  {
    if text == [] then [] else Substitute(text[0], n) + Substituted(text[1..], n)
  }

  lemma {:induction false} ReplaceConcat(a: Text, b: Text, c: char, replacement: Text)
    ensures ReplaceChar(a + b, c, replacement) == ReplaceChar(a, c, replacement) + ReplaceChar(b, c, replacement)
  {
    if a == [] {
      assert a + b == b;
    } else {
      assert (a + b)[1..] == a[1..] + b;
      ReplaceConcat(a[1..], b, c, replacement);
    }
  }

  lemma {:induction false} ReplaceAbsent(text: Text, c: char, replacement: Text)
    requires c !in text
    ensures ReplaceChar(text, c, replacement) == text
  {
    if text != [] {
      ReplaceAbsent(text[1..], c, replacement);
    }
  }

  lemma {:induction false} SubstituteMeans(c: char, n: nat)
    requires n <= |TYPOGRAPHY|
    ensures (forall r :: 0 <= r < n ==> TYPOGRAPHY[r].character != c) ==> Substitute(c, n) == [c]
    ensures forall r :: 0 <= r < n && TYPOGRAPHY[r].character == c ==> Substitute(c, n) == TYPOGRAPHY[r].replacement
  {
    TableIsSafe();
    if n > 0 {
      SubstituteMeans(c, n - 1);
    }
  }

  /** The characters a substitution yields are plain, or the character itself. */
  lemma SubstituteYields(c: char, n: nat, x: char)
    requires n <= |TYPOGRAPHY| && x in Substitute(c, n)
    ensures Plain(x) || (x == c && forall r :: 0 <= r < n ==> TYPOGRAPHY[r].character != c)
  {
    TableIsSafe();
    SubstituteMeans(c, n);
    if r :| 0 <= r < n && TYPOGRAPHY[r].character == c {
      var k :| 0 <= k < |TYPOGRAPHY[r].replacement| && TYPOGRAPHY[r].replacement[k] == x;
    }
  }

  lemma OneMoreRow(c: char, n: nat)
    requires n < |TYPOGRAPHY|
    ensures ReplaceChar(Substitute(c, n), TYPOGRAPHY[n].character, TYPOGRAPHY[n].replacement) == Substitute(c, n + 1)
  {
    TableIsSafe();
    SubstituteMeans(c, n);
    if TYPOGRAPHY[n].character == c {
      assert ReplaceChar([c], c, TYPOGRAPHY[n].replacement) == TYPOGRAPHY[n].replacement;
    } else {
      if TYPOGRAPHY[n].character in Substitute(c, n) {
        SubstituteYields(c, n, TYPOGRAPHY[n].character);
      }
      ReplaceAbsent(Substitute(c, n), TYPOGRAPHY[n].character, TYPOGRAPHY[n].replacement);
    }
  }

  /** Replacing row after row is one simultaneous substitution: no row's replacement is changed by a
      later row. */
  lemma {:induction false} RowsCompose(text: Text, n: nat)
    requires n < |TYPOGRAPHY|
    ensures ReplaceChar(Substituted(text, n), TYPOGRAPHY[n].character, TYPOGRAPHY[n].replacement) ==
              Substituted(text, n + 1)
  {
    if text != [] {
      RowsCompose(text[1..], n);
      OneMoreRow(text[0], n);
      ReplaceConcat(Substitute(text[0], n), Substituted(text[1..], n), TYPOGRAPHY[n].character,
                    TYPOGRAPHY[n].replacement);
    }
  }

  /** A later row's character is in the text so far exactly when it was in the text. */
  lemma {:induction false} StillThere(text: Text, n: nat)
    requires n < |TYPOGRAPHY|
    ensures TYPOGRAPHY[n].character in Substituted(text, n) <==> TYPOGRAPHY[n].character in text
  {
    if text != [] {
      var c := TYPOGRAPHY[n].character;
      StillThere(text[1..], n);
      TableIsSafe();
      SubstituteMeans(text[0], n);
      if c in Substitute(text[0], n) {
        SubstituteYields(text[0], n, c);
      }
    }
  }

  lemma {:induction false} SubstitutedYields(text: Text, x: char)
    requires x in Substituted(text, |TYPOGRAPHY|)
    ensures Plain(x) || (x in text && !Banned(x))
  {
    if x in Substitute(text[0], |TYPOGRAPHY|) {
      SubstituteYields(text[0], |TYPOGRAPHY|, x);
    } else {
      SubstitutedYields(text[1..], x);
    }
  }

  /** None of the nine characters is left. */
  lemma NothingBannedLeft(text: Text)
    ensures forall x :: x in Substituted(text, |TYPOGRAPHY|) ==> !Banned(x)
  {
    TableIsSafe();
    forall x | x in Substituted(text, |TYPOGRAPHY|) ensures !Banned(x) {
      SubstitutedYields(text, x);
    }
  }

  /** Which rows matter for a text. */
  predicate Noted(text: Text, n: nat, note: Label)
    requires n <= |TYPOGRAPHY|
  {
    exists r :: 0 <= r < n && TYPOGRAPHY[r].note == note && TYPOGRAPHY[r].character in text
  }

  /** The labels of the first `n` rows whose character is in the text, in table order. */
  function RowLabels(text: Text, n: nat): seq<Label>
    requires n <= |TYPOGRAPHY|
  {
    if n == 0 then []
    else RowLabels(text, n - 1) + if TYPOGRAPHY[n - 1].character in text then [TYPOGRAPHY[n - 1].note] else []
  }

  /** The labels found in a text, each once, in table order. */
  function FoundLabels(text: Text): seq<Label> {
    FirstOccurrences(RowLabels(text, |TYPOGRAPHY|))
  }

  lemma {:induction false} RowLabelsMean(text: Text, n: nat)
    requires n <= |TYPOGRAPHY|
    ensures forall note :: note in RowLabels(text, n) <==> Noted(text, n, note)
  {
    if n > 0 {
      RowLabelsMean(text, n - 1);
      NotedNext(text, n - 1);
    }
  }

  /** A label is found exactly when one of its characters is in the text, and no label is found twice. */
  lemma FoundLabelsMean(text: Text)
    ensures Distinct(FoundLabels(text))
    ensures forall note :: note in FoundLabels(text) <==> Noted(text, |TYPOGRAPHY|, note)
  {
    RowLabelsMean(text, |TYPOGRAPHY|);
    FirstOccurrencesOnce(RowLabels(text, |TYPOGRAPHY|));
  }

  /** One row of the table. */
  method ApplyRow(ghost text: Text, sofar: Text, found: seq<Label>, r: nat) returns (normal: Text, more: seq<Label>)
    requires r < |TYPOGRAPHY| && sofar == Substituted(text, r) && found == FirstOccurrences(RowLabels(text, r))
    ensures normal == Substituted(text, r + 1) && more == FirstOccurrences(RowLabels(text, r + 1))
  {
    normal, more := sofar, found;
    var row := TYPOGRAPHY[r];
    RowsCompose(text, r);
    StillThere(text, r);
    assert RowLabels(text, r) + [] == RowLabels(text, r);
    assert (RowLabels(text, r) + [row.note])[..|RowLabels(text, r)|] == RowLabels(text, r);
    if row.character in normal {
      normal := ReplaceChar(normal, row.character, row.replacement);
      if row.note !in more {
        more := more + [row.note];
      }
    } else {
      ReplaceAbsent(normal, row.character, row.replacement);
    }
  }

  /** `normalize_typography`. */
  method NormalizeTypography(text: Text) returns (normal: Text, found: seq<Label>)
    ensures normal == Substituted(text, |TYPOGRAPHY|)
    ensures found == FoundLabels(text)
  {
    normal, found := text, [];
    NoRows(text);
    for r := 0 to |TYPOGRAPHY|
      invariant normal == Substituted(text, r) && found == FirstOccurrences(RowLabels(text, r))
    {
      normal, found := ApplyRow(text, normal, found, r);
    }
  }

  lemma {:induction false} NoRows(text: Text)
    ensures Substituted(text, 0) == text
  {
    if text != [] {
      NoRows(text[1..]);
    }
  }

  lemma NotedNext(text: Text, r: nat)
    requires r < |TYPOGRAPHY|
    ensures forall note :: Noted(text, r + 1, note) <==>
              Noted(text, r, note) || (TYPOGRAPHY[r].note == note && TYPOGRAPHY[r].character in text)
  {
    forall note | Noted(text, r, note) ensures Noted(text, r + 1, note) {
      var q :| 0 <= q < r && TYPOGRAPHY[q].note == note && TYPOGRAPHY[q].character in text;
    }
  }

  // ---------------------------------------------------------------- merging

  /** `rstrip("\n")`. */
  function Stripped(text: Text): (r: Text)
    ensures r <= text && (r != [] ==> r[|r| - 1] != NEWLINE)
    ensures forall k :: |r| <= k < |text| ==> text[k] == NEWLINE
  {
    if text != [] && text[|text| - 1] == NEWLINE then Stripped(text[..|text| - 1]) else text
  }

  /** The source a block ends up with. */
  function FinalSource(b: Block, raw: Text): Text {
    if Unified(raw) == b.source then b.source
    else Stripped(Substituted(Unified(raw), |TYPOGRAPHY|))
  }

  function FinalSources(blocks: seq<Block>, submitted: seq<Text>): (sources: seq<Text>)
    requires |blocks| == |submitted|
    ensures |sources| == |blocks|
  {
    seq(|blocks|, k requires 0 <= k < |blocks| => FinalSource(blocks[k], submitted[k]))
  }

  /** Which blocks' sources change. */
  function Differs(blocks: seq<Block>, submitted: seq<Text>): (flags: seq<bool>)
    requires |blocks| == |submitted|
    ensures |flags| == |blocks|
  {
    seq(|blocks|, k requires 0 <= k < |blocks| => FinalSource(blocks[k], submitted[k]) != blocks[k].source)
  }

  /** The indices of the flagged blocks, in order. */
  function Flagged(blocks: seq<Block>, flags: seq<bool>): seq<nat>
    requires |blocks| == |flags|
  {
    if blocks == [] then []
    else
      var n := |blocks| - 1;
      Flagged(blocks[..n], flags[..n]) + if flags[n] then [blocks[n].index] else []
  }

  function ChangedOf(blocks: seq<Block>, submitted: seq<Text>): seq<nat>
    requires |blocks| == |submitted|
  {
    Flagged(blocks, Differs(blocks, submitted))
  }

  /** The labels that one submitted text adds: none if it is the block's own. */
  function LabelsOf(b: Block, raw: Text): seq<Label> {
    if Unified(raw) == b.source then [] else RowLabels(Unified(raw), |TYPOGRAPHY|)
  }

  function AllLabels(blocks: seq<Block>, submitted: seq<Text>): seq<Label>
    requires |blocks| == |submitted|
  {
    if blocks == [] then []
    else
      var n := |blocks| - 1;
      AllLabels(blocks[..n], submitted[..n]) + LabelsOf(blocks[n], submitted[n])
  }

  /** The notes of a merge: every label once, in the order of the blocks and, within one, of the table. */
  function NotesOf(blocks: seq<Block>, submitted: seq<Text>): seq<Label>
    requires |blocks| == |submitted|
  {
    FirstOccurrences(AllLabels(blocks, submitted))
  }

  /** A label is noted when a submitted text that differs from its block has one of its characters. */
  ghost predicate NotedIn(blocks: seq<Block>, submitted: seq<Text>, note: Label)
    requires |blocks| == |submitted|
  {
    exists k :: NotedAt(blocks, submitted, note, k)
  }

  predicate NotedAt(blocks: seq<Block>, submitted: seq<Text>, note: Label, k: int)
    requires |blocks| == |submitted|
  {
    0 <= k < |blocks| && note in LabelsOf(blocks[k], submitted[k])
  }

  lemma NotedInSplit(blocks: seq<Block>, submitted: seq<Text>, note: Label)
    requires |blocks| == |submitted| && blocks != []
    ensures var n := |blocks| - 1;
            NotedIn(blocks, submitted, note) <==>
            NotedIn(blocks[..n], submitted[..n], note) || note in LabelsOf(blocks[n], submitted[n])
  {
    hide LabelsOf;
    var n := |blocks| - 1;
    if NotedIn(blocks[..n], submitted[..n], note) {
      var k :| NotedAt(blocks[..n], submitted[..n], note, k);
      assert NotedAt(blocks, submitted, note, k);
    }
    if note in LabelsOf(blocks[n], submitted[n]) {
      assert NotedAt(blocks, submitted, note, n);
    } else if NotedIn(blocks, submitted, note) {
      var k :| NotedAt(blocks, submitted, note, k);
      assert NotedAt(blocks[..n], submitted[..n], note, k);
    }
  }

  lemma {:induction false} AllLabelsMean(blocks: seq<Block>, submitted: seq<Text>, note: Label)
    requires |blocks| == |submitted|
    ensures note in AllLabels(blocks, submitted) <==> NotedIn(blocks, submitted, note)
  {
    if blocks != [] {
      AllLabelsMean(blocks[..|blocks| - 1], submitted[..|blocks| - 1], note);
      NotedInSplit(blocks, submitted, note);
    }
  }

  /** The notes are exactly the labels of the characters found in texts that differ, none twice; and
      what the first blocks note comes first. */
  lemma NotesMean(blocks: seq<Block>, submitted: seq<Text>, note: Label, n: nat)
    requires |blocks| == |submitted| && n <= |blocks|
    ensures Distinct(NotesOf(blocks, submitted))
    ensures note in NotesOf(blocks, submitted) <==>
            exists k :: 0 <= k < |blocks| && Unified(submitted[k]) != blocks[k].source
                        && Noted(Unified(submitted[k]), |TYPOGRAPHY|, note)
    ensures NotesOf(blocks[..n], submitted[..n]) <= NotesOf(blocks, submitted)
  {
    FirstOccurrencesOnce(AllLabels(blocks, submitted));
    AllLabelsMean(blocks, submitted, note);
    forall k | 0 <= k < |blocks|
      ensures NotedAt(blocks, submitted, note, k) <==>
              Unified(submitted[k]) != blocks[k].source && Noted(Unified(submitted[k]), |TYPOGRAPHY|, note)
    {
      RowLabelsMean(Unified(submitted[k]), |TYPOGRAPHY|);
    }
    var first, all := AllLabels(blocks[..n], submitted[..n]), AllLabels(blocks, submitted);
    AllLabelsOfFirst(blocks, submitted, n);
    assert all[..|first|] == first;
    FirstOccurrencesInOrder(all, |first|);
  }

  lemma {:induction false} AllLabelsOfFirst(blocks: seq<Block>, submitted: seq<Text>, n: nat)
    requires |blocks| == |submitted| && n <= |blocks|
    ensures AllLabels(blocks[..n], submitted[..n]) <= AllLabels(blocks, submitted)
  {
    if n == |blocks| {
      assert blocks[..n] == blocks && submitted[..n] == submitted;
    } else {
      var m := |blocks| - 1;
      assert blocks[..m][..n] == blocks[..n] && submitted[..m][..n] == submitted[..n];
      AllLabelsOfFirst(blocks[..m], submitted[..m], n);
    }
  }

  datatype Merged = Merged(text: Text, changed: seq<nat>, notes: seq<Label>)

  ghost predicate IsMerge(m: Merged, d: Draft, submitted: seq<Text>) {
    && |d.blocks| == |submitted|
    && m.text == Composed(d.blocks, d.suffix, FinalSources(d.blocks, submitted))
    && m.changed == ChangedOf(d.blocks, submitted)
    && m.notes == NotesOf(d.blocks, submitted)
  }

  /** One round of the loop: the text a block gets, and the notes so far. */
  method MergeBlock(b: Block, raw: Text, notes: seq<Label>, ghost labels: seq<Label>)
    returns (text: Text, more: seq<Label>)
    requires notes == FirstOccurrences(labels)
    ensures text == FinalSource(b, raw)
    ensures more == FirstOccurrences(labels + LabelsOf(b, raw))
  {
    hide RowLabels;
    text, more := Unified(raw), notes;
    if text != b.source {
      var found;
      text, found := NormalizeTypography(text);
      text := Stripped(text);
      assert labels + found[..0] == labels;
      for i := 0 to |found|
        invariant more == FirstOccurrences(labels + found[..i])
      {
        assert (labels + found[..i + 1])[..|labels| + i] == labels + found[..i];
        if found[i] !in more {
          more := more + [found[i]];
        }
      }
      assert found[..|found|] == found;
      FirstOccurrencesTwice(labels, LabelsOf(b, raw));
    } else {
      assert labels + [] == labels;
    }
  }

  /** `merge`; lists of different lengths raise. */
  method Merge(d: Draft, submitted: seq<Text>) returns (r: Outcome<Merged>)
    ensures r.Returns? <==> |d.blocks| == |submitted|
    ensures r.Returns? ==> IsMerge(r.value, d, submitted)
  {
    if |d.blocks| != |submitted| {
      return Raises;
    }
    var sources: seq<Text> := [];
    var changed: seq<nat> := [];
    var notes: seq<Label> := [];
    for k := 0 to |d.blocks|
      invariant sources == FinalSources(d.blocks[..k], submitted[..k])
      invariant changed == ChangedOf(d.blocks[..k], submitted[..k])
      invariant notes == NotesOf(d.blocks[..k], submitted[..k])
    {
      var b := d.blocks[k];
      var text;
      LabelsOneMore(d.blocks, submitted, k);
      SourcesOneMore(d.blocks, submitted, k);
      text, notes := MergeBlock(b, submitted[k], notes, AllLabels(d.blocks[..k], submitted[..k]));
      sources := sources + [text];
      if text != b.source {
        changed := changed + [b.index];
      }
    }
    assert d.blocks[..|d.blocks|] == d.blocks && submitted[..|submitted|] == submitted;
    var text := Compose(d.blocks, d.suffix, sources);
    return Returns(Merged(text.value, changed, notes));
  }

  lemma LabelsOneMore(blocks: seq<Block>, submitted: seq<Text>, k: nat)
    requires |blocks| == |submitted| && k < |blocks|
    ensures AllLabels(blocks[..k + 1], submitted[..k + 1]) ==
            AllLabels(blocks[..k], submitted[..k]) + LabelsOf(blocks[k], submitted[k])
  {
    assert blocks[..k + 1][..k] == blocks[..k] && submitted[..k + 1][..k] == submitted[..k];
  }

  lemma SourcesOneMore(blocks: seq<Block>, submitted: seq<Text>, k: nat)
    requires |blocks| == |submitted| && k < |blocks|
    ensures FinalSources(blocks[..k + 1], submitted[..k + 1]) ==
            FinalSources(blocks[..k], submitted[..k]) + [FinalSource(blocks[k], submitted[k])]
    ensures ChangedOf(blocks[..k + 1], submitted[..k + 1]) ==
            ChangedOf(blocks[..k], submitted[..k]) +
            if FinalSource(blocks[k], submitted[k]) == blocks[k].source then [] else [blocks[k].index]
  {
    var more := Differs(blocks[..k + 1], submitted[..k + 1]);
    assert blocks[..k + 1][..k] == blocks[..k];
    assert more[..k] == Differs(blocks[..k], submitted[..k]);
  }

  // ---------------------------------------------------------------- what a merge keeps

  predicate Rising(ks: seq<nat>) {
    forall i, j :: 0 <= i < j < |ks| ==> ks[i] < ks[j]
  }

  lemma {:induction false} FlaggedExactly(blocks: seq<Block>, flags: seq<bool>)
    requires |blocks| == |flags| && Indexed(blocks)
    ensures forall k: nat :: k in Flagged(blocks, flags) <==> k < |flags| && flags[k]
    ensures Rising(Flagged(blocks, flags))
  {
    if blocks != [] {
      var n := |blocks| - 1;
      var earlier := Flagged(blocks[..n], flags[..n]);
      FlaggedExactly(blocks[..n], flags[..n]);
      assert blocks[n].index == n && forall k: nat :: k in earlier ==> k < n;
      var last := if flags[n] then [blocks[n].index] else [];
      RisingAppend(earlier, last, n);
      assert Flagged(blocks, flags) == earlier + last;
      hide Flagged, Indexed, Rising;
      forall k: nat ensures k in earlier + last <==> k < |flags| && flags[k] {
        assert k < n ==> flags[..n][k] == flags[k];
      }
    }
  }

  lemma RisingAppend(ks: seq<nat>, last: seq<nat>, n: nat)
    requires Rising(ks) && (forall k: nat :: k in ks ==> k < n) && (last == [] || last == [n])
    ensures Rising(ks + last)
  {
    assert forall i :: 0 <= i < |ks| ==> ks[i] in ks;
  }

  /** The changed list is exactly the blocks whose source is replaced, in order. */
  lemma ChangedExactly(blocks: seq<Block>, submitted: seq<Text>)
    requires |blocks| == |submitted| && Indexed(blocks)
    ensures forall k: nat :: k in ChangedOf(blocks, submitted) <==>
              k < |blocks| && FinalSource(blocks[k], submitted[k]) != blocks[k].source
    ensures Rising(ChangedOf(blocks, submitted))
  {
    FlaggedExactly(blocks, Differs(blocks, submitted));
  }

  lemma {:induction false} SubstitutedHasNo(text: Text, x: char)
    requires x == CR && CR !in text
    ensures x !in Substituted(text, |TYPOGRAPHY|)
  {
    if text != [] {
      SubstitutedHasNo(text[1..], x);
      TableIsSafe();
      SubstituteMeans(text[0], |TYPOGRAPHY|);
    }
  }

  /** A replaced source has no carriage return, no banned character and no trailing newline. */
  lemma ReplacedIsClean(b: Block, raw: Text)
    requires FinalSource(b, raw) != b.source
    ensures CR !in FinalSource(b, raw)
    ensures forall x :: x in FinalSource(b, raw) ==> !Banned(x)
    ensures FinalSource(b, raw) != [] ==> FinalSource(b, raw)[|FinalSource(b, raw)| - 1] != NEWLINE
  {
    UnifiedHasNoReturns(raw);
    SubstitutedHasNo(Unified(raw), CR);
    NothingBannedLeft(Unified(raw));
  }

  lemma {:induction false} NothingToSubstitute(text: Text)
    requires forall x :: x in text ==> !Banned(x)
    ensures Substituted(text, |TYPOGRAPHY|) == text
  {
    if text != [] {
      assert text[0] in text && forall x :: x in text[1..] ==> x in text;
      SubstituteMeans(text[0], |TYPOGRAPHY|);
      NothingToSubstitute(text[1..]);
    }
  }

  /** A substitution works character by character. */
  lemma {:induction false} SubstitutedConcat(a: Text, b: Text, n: nat)
    requires n <= |TYPOGRAPHY|
    ensures Substituted(a + b, n) == Substituted(a, n) + Substituted(b, n)
  {
    if a == [] {
      assert a + b == b;
    } else {
      assert (a + b)[1..] == a[1..] + b;
      SubstitutedConcat(a[1..], b, n);
    }
  }

  /** What a block ends up with: its own text, if that is what was submitted, but for line endings;
      otherwise what was submitted, each character substituted on its own, up to the trailing newlines. */
  lemma FinalSourceExactly(b: Block, raw: Text)
    ensures var text, final := ReadTranslated(raw), FinalSource(b, raw);
            var substituted := Substituted(text, |TYPOGRAPHY|);
      if text == b.source then final == b.source
      else
        && final <= substituted && (forall k :: |final| <= k < |substituted| ==> substituted[k] == NEWLINE)
        && (final != [] ==> final[|final| - 1] != NEWLINE)
  {
    UnifiedIsOnePass(raw);
  }

  /** An edit without any of these characters is kept as it was typed. */
  lemma PlainEditIsKept(b: Block, raw: Text)
    requires CR !in raw && (forall x :: x in raw ==> !Banned(x)) && (raw != [] ==> raw[|raw| - 1] != NEWLINE)
    ensures FinalSource(b, raw) == raw
  {
    UnifiedHasNoReturns(raw);
    NothingToSubstitute(raw);
  }

  lemma OwnSource(b: Block)
    ensures FinalSource(b, b.source) == b.source <==> CR !in b.source
  {
    UnifiedHasNoReturns(b.source);
    if CR in b.source {
      SubstitutedHasNo(Unified(b.source), CR);
    }
  }

  ghost predicate NoReturns(blocks: seq<Block>) {
    forall k :: 0 <= k < |blocks| ==> CR !in blocks[k].source
  }

  lemma OwnSourceAt(blocks: seq<Block>, k: nat)
    requires k < |blocks|
    ensures FinalSource(blocks[k], Sources(blocks)[k]) == blocks[k].source <==> CR !in blocks[k].source
  {
    OwnSource(blocks[k]);
  }

  /** Merging a draft's own sources changes nothing, exactly when they have no carriage returns. */
  lemma OwnSources(blocks: seq<Block>)
    requires Indexed(blocks)
    ensures ChangedOf(blocks, Sources(blocks)) == [] <==> NoReturns(blocks)
    ensures NoReturns(blocks) ==> FinalSources(blocks, Sources(blocks)) == Sources(blocks)
  {
    var changed := ChangedOf(blocks, Sources(blocks));
    ChangedExactly(blocks, Sources(blocks));
    forall k | 0 <= k < |blocks|
      ensures k in changed <==> CR in blocks[k].source
      ensures CR !in blocks[k].source ==> FinalSources(blocks, Sources(blocks))[k] == blocks[k].source
    {
      OwnSourceAt(blocks, k);
    }
    if changed != [] {
      assert changed[0] in changed;
    }
  }
}
