/** The editor's save endpoint (scripts/edit_blog_preview.py): a compare-and-set on a file, keyed by the
    digest of the content the page loaded. */
module Editor {
  import opened Outcomes
  import opened Blocks
  import opened Merging

  /** The parts of the request body, each if it has the right type. */
  datatype Payload = Payload(sources: Option<seq<Text>>, hash: Option<Text>)

  /** What the file system and the renderer do during one save. */
  datatype Faults = Faults(readFails: bool, writeFails: bool, renderFails: bool)

  datatype Reply =
    | BadRequest
    | ServerError
    | FileChanged
    | BlockCountChanged
    | Unchanged(hash: Text)
    | Refused
    | Saved(hash: Text, changed: seq<nat>, notes: seq<Label>)
    | Crashed

  datatype Setting = Setting(parse: Text -> seq<Token>, digest: Text -> Text)

  function Opened(e: Setting, markdown: Text): Decomposition {
    DecompositionOf(markdown, e.parse(markdown))
  }

  /** What the locked section comes to before it writes: an answer, or a text to write. */
  datatype Decision = Answer(reply: Reply) | Write(draft: Draft, submitted: seq<Text>, updated: Text)

  function DecideMerge(e: Setting, markdown: Text, d: Draft, submitted: seq<Text>): Decision
    requires |submitted| == |d.blocks|
  {
    var updated := Composed(d.blocks, d.suffix, FinalSources(d.blocks, submitted));
    if updated == markdown then Answer(Unchanged(e.digest(markdown)))
    else match Opened(e, updated)
      case Failed(error) => Answer(FailureReply(error, Reply.Refused))
      case Decomposed(_) => Write(d, submitted, updated)
  }

  function Decide(e: Setting, file: Text, p: Payload, readFails: bool): Decision {
    if p.sources.None? || p.hash.None? then Answer(BadRequest)
    else if readFails then Answer(ServerError)
    else
      var markdown := ReadTranslated(file);
      match Opened(e, markdown)
      case Failed(error) => Answer(FailureReply(error, ServerError))
      case Decomposed(d) =>
        var submitted := p.sources.value;
        if e.digest(markdown) != p.hash.value then Answer(FileChanged)
        else if |submitted| != |d.blocks| then Answer(BlockCountChanged)
        else DecideMerge(e, markdown, d, submitted)
  }

  /** A token past the last line raises an error the handler does not catch. */
  function FailureReply(error: DraftError, caught: Reply): Reply {
    if error.LineOutOfRange? then Crashed else caught
  }

  /** The file after a decision is carried out. */
  function Carried(decision: Decision, file: Text, faults: Faults): Text {
    match decision
    case Answer(_) => file
    case Write(_, _, updated) => if faults.writeFails then file else updated
  }

  ghost predicate Replies(e: Setting, decision: Decision, faults: Faults, reply: Reply) {
    match decision
    case Answer(answer) => reply == answer
    case Write(d, submitted, updated) =>
      if faults.writeFails || faults.renderFails then reply == ServerError
      else
        && reply.Saved? && reply.hash == e.digest(updated)
        && |submitted| == |d.blocks|
        && reply.changed == ChangedOf(d.blocks, submitted) && reply.notes == NotesOf(d.blocks, submitted)
  }

  /** The file after a save. */
  function FileAfter(e: Setting, file: Text, p: Payload, faults: Faults): Text {
    Carried(Decide(e, file, p, faults.readFails), file, faults)
  }

  ghost predicate RepliesTo(e: Setting, file: Text, p: Payload, faults: Faults, reply: Reply) {
    Replies(e, Decide(e, file, p, faults.readFails), faults, reply)
  }

  class EditorServer {
    const setting: Setting
    var file: Text

    constructor (setting: Setting, file: Text)
      ensures this.setting == setting && this.file == file
    {
      this.setting, this.file := setting, file;
    }

    /** `_handle_save`; the section under the write lock is one step. */
    method HandleSave(p: Payload, faults: Faults) returns (reply: Reply)
      modifies this`file
      ensures file == FileAfter(setting, old(file), p, faults)
      ensures RepliesTo(setting, old(file), p, faults, reply)
    {
      if p.sources.None? || p.hash.None? {
        return BadRequest;
      }
      if faults.readFails {
        return ServerError;
      }
      var markdown := ReadTranslated(file);
      var before := Decompose(markdown, setting.parse(markdown));
      if before.Failed? {
        return FailureReply(before.error, ServerError);
      }
      var d, submitted := before.draft, p.sources.value;
      if setting.digest(markdown) != p.hash.value {
        return FileChanged;
      }
      if |submitted| != |d.blocks| {
        return BlockCountChanged;
      }
      reply := SaveMerged(markdown, d, submitted, faults);
    }

    /** The part after the baseline was found current. */
    method SaveMerged(markdown: Text, d: Draft, submitted: seq<Text>, faults: Faults) returns (reply: Reply)
      requires |submitted| == |d.blocks|
      modifies this`file
      ensures file == Carried(DecideMerge(setting, markdown, d, submitted), old(file), faults)
      ensures Replies(setting, DecideMerge(setting, markdown, d, submitted), faults, reply)
    {
      var merged := Merge(d, submitted);
      var updated := merged.value.text;
      if updated == markdown {
        return Unchanged(setting.digest(markdown));
      }
      var after := Decompose(updated, setting.parse(updated));
      if after.Failed? {
        return FailureReply(after.error, Reply.Refused);
      }
      if faults.writeFails {
        return ServerError;
      }
      file := updated;
      if faults.renderFails {
        return ServerError;
      }
      return Saved(setting.digest(updated), merged.value.changed, merged.value.notes);
    }
  }

  // ---------------------------------------------------------------- one save

  ghost predicate InjectiveDigest(e: Setting) {
    forall a, b :: e.digest(a) == e.digest(b) ==> a == b
  }

  /** A save writes only the merge of exactly the content its page loaded, and what it writes can be
      opened again. */
  lemma WritesMergeOfLoaded(e: Setting, file: Text, p: Payload, faults: Faults, loaded: Text)
    requires InjectiveDigest(e) && p.hash == Some(e.digest(loaded))
    requires FileAfter(e, file, p, faults) != file
    ensures ReadTranslated(file) == loaded && p.sources.Some?
    ensures Opened(e, loaded).Decomposed?
    ensures var d := Opened(e, loaded).draft;
      && |d.blocks| == |p.sources.value|
      && FileAfter(e, file, p, faults) == Composed(d.blocks, d.suffix, FinalSources(d.blocks, p.sources.value))
    ensures Opened(e, FileAfter(e, file, p, faults)).Decomposed?
  {
  }

  /** The page was loaded from what the file now says, and it can be read and opened. */
  predicate Current(e: Setting, file: Text, p: Payload, faults: Faults) {
    && p.sources.Some? && p.hash == Some(e.digest(ReadTranslated(file))) && !faults.readFails
    && Opened(e, ReadTranslated(file)).Decomposed?
  }

  /** And it has a text for every block: what the merge comes to. */
  predicate MergesTo(e: Setting, file: Text, p: Payload, faults: Faults, merged: Text) {
    && Current(e, file, p, faults)
    && var d := Opened(e, ReadTranslated(file)).draft;
       && |p.sources.value| == |d.blocks|
       && merged == Composed(d.blocks, d.suffix, FinalSources(d.blocks, p.sources.value))
  }

  /** A good save takes effect: with the current baseline, a text for every block and no fault, the file
      becomes the merge whenever that differs from what was read and can be opened again; and the reply
      tells which of these it was. */
  lemma GoodSaveTakesEffect(e: Setting, file: Text, p: Payload, faults: Faults, merged: Text, reply: Reply)
    requires MergesTo(e, file, p, faults, merged) && RepliesTo(e, file, p, faults, reply)
    ensures var differs, opens := merged != ReadTranslated(file), Opened(e, merged).Decomposed?;
      && FileAfter(e, file, p, faults) == (if differs && opens && !faults.writeFails then merged else file)
      && (reply.Unchanged? <==> !differs)
      && (reply.Saved? <==> differs && opens && !faults.writeFails && !faults.renderFails)
      && (reply.ServerError? <==> differs && opens && (faults.writeFails || faults.renderFails))
      && (reply.Refused? <==> differs && !opens && !Opened(e, merged).error.LineOutOfRange?)
      && (reply.Saved? ==> reply.hash == e.digest(merged))
      && (reply.Unchanged? ==> reply.hash == e.digest(merged))
  {
  }

  /** Any other save is refused and leaves the file alone; each refusal has its one cause. */
  lemma RefusedExactly(e: Setting, file: Text, p: Payload, faults: Faults, reply: Reply)
    requires RepliesTo(e, file, p, faults, reply)
    ensures var found := Opened(e, ReadTranslated(file)); var wellTyped := p.sources.Some? && p.hash.Some?;
      && (reply.BadRequest? <==> !wellTyped)
      && (wellTyped && (faults.readFails || (found.Failed? && !found.error.LineOutOfRange?)) ==> reply.ServerError?)
      && (reply.FileChanged? <==>
            wellTyped && !faults.readFails && found.Decomposed? && p.hash.value != e.digest(ReadTranslated(file)))
      && (reply.BlockCountChanged? <==>
            Current(e, file, p, faults) && |p.sources.value| != |found.draft.blocks|)
    ensures (forall merged :: !MergesTo(e, file, p, faults, merged)) ==>
              FileAfter(e, file, p, faults) == file && !reply.Saved? && !reply.Unchanged? && !reply.Refused?
  {
    if Current(e, file, p, faults) {
      var d := Opened(e, ReadTranslated(file)).draft;
      if |p.sources.value| == |d.blocks| {
        assert MergesTo(e, file, p, faults, Composed(d.blocks, d.suffix, FinalSources(d.blocks, p.sources.value)));
      }
    }
  }

  lemma {:induction false} TranslatedHasNoReturns(bytes: Text)
    ensures CR !in ReadTranslated(bytes)
    ensures CR !in bytes ==> ReadTranslated(bytes) == bytes
  {
    UnifiedIsOnePass(bytes);
    UnifiedHasNoReturns(bytes);
  }

  lemma {:induction false} PiecesHaveNo(blocks: seq<Block>, sources: seq<Text>, c: char)
    requires |blocks| == |sources|
    requires forall k :: 0 <= k < |blocks| ==> c !in blocks[k].gap && c !in blocks[k].terminator && c !in sources[k]
    ensures c !in Pieces(blocks, sources)
  {
    if blocks != [] {
      PiecesHaveNo(blocks[..|blocks| - 1], sources[..|blocks| - 1], c);
    }
  }

  lemma FinalSourceHasNoReturns(b: Block, raw: Text)
    requires CR !in b.source
    ensures CR !in FinalSource(b, raw)
  {
    if FinalSource(b, raw) != b.source {
      ReplacedIsClean(b, raw);
    }
  }

  /** What is written reads back as itself, so the hash in the reply is the next page's baseline. */
  lemma WrittenReadsBack(e: Setting, file: Text, p: Payload, readFails: bool)
    requires Decide(e, file, p, readFails).Write?
    ensures ReadTranslated(Decide(e, file, p, readFails).updated) == Decide(e, file, p, readFails).updated
  {
    var markdown := ReadTranslated(file);
    var starts, tokens := LineStartsOf(markdown), e.parse(markdown);
    var d, submitted := Opened(e, markdown).draft, p.sources.value;
    TranslatedHasNoReturns(file);
    StartsWithinText(markdown);
    BlocksFromText(markdown, starts, tokens, CR);
    forall k | 0 <= k < |d.blocks| ensures CR !in FinalSource(d.blocks[k], submitted[k]) {
      assert d.blocks[k] in d.blocks;
      FinalSourceHasNoReturns(d.blocks[k], submitted[k]);
    }
    PiecesHaveNo(d.blocks, FinalSources(d.blocks, submitted), CR);
    TranslatedHasNoReturns(Decide(e, file, p, readFails).updated);
  }

  /** Submitting a page as it was loaded writes nothing. */
  lemma UntouchedPageIsUnchanged(e: Setting, file: Text, p: Payload)
    requires Opened(e, ReadTranslated(file)).Decomposed?
    requires p.hash == Some(e.digest(ReadTranslated(file)))
    requires p.sources == Some(Sources(Opened(e, ReadTranslated(file)).draft.blocks))
    ensures Decide(e, file, p, false) == Answer(Unchanged(e.digest(ReadTranslated(file))))
  {
    var markdown := ReadTranslated(file);
    var starts, tokens := LineStartsOf(markdown), e.parse(markdown);
    var d := Opened(e, markdown).draft;
    TranslatedHasNoReturns(file);
    StartsWithinText(markdown);
    BlocksFromText(markdown, starts, tokens, CR);
    BlocksIndexed(markdown, starts, tokens);
    assert forall k :: 0 <= k < |d.blocks| ==> d.blocks[k] in d.blocks;
    OwnSources(d.blocks);
    ComposeInvertsDecompose(markdown, tokens);
  }

  /** The page as it was loaded, with another text typed into block `k`. */
  predicate EditsBlock(e: Setting, file: Text, p: Payload, k: nat, text: Text) {
    && Opened(e, ReadTranslated(file)).Decomposed? && p.hash == Some(e.digest(ReadTranslated(file)))
    && var blocks := Opened(e, ReadTranslated(file)).draft.blocks;
       k < |blocks| && p.sources == Some(Sources(blocks)[k := text])
  }

  lemma EditedSources(blocks: seq<Block>, k: nat, text: Text)
    requires k < |blocks| && NoReturns(blocks)
    requires CR !in text && (forall x :: x in text ==> !Banned(x)) && (text != [] ==> text[|text| - 1] != NEWLINE)
    ensures FinalSources(blocks, Sources(blocks)[k := text]) == Sources(blocks)[k := text]
  {
    PlainEditIsKept(blocks[k], text);
    forall i | 0 <= i < |blocks| ensures FinalSource(blocks[i], Sources(blocks)[i]) == blocks[i].source {
      OwnSourceAt(blocks, i);
    }
  }

  lemma OpenedDraft(e: Setting, file: Text)
    requires Opened(e, ReadTranslated(file)).Decomposed?
    ensures var d := Opened(e, ReadTranslated(file)).draft;
            d.markdown == ReadTranslated(file) && Reassembles(d) && NoReturns(d.blocks)
  {
    var markdown := ReadTranslated(file);
    var starts, tokens := LineStartsOf(markdown), e.parse(markdown);
    var d := Opened(e, markdown).draft;
    TranslatedHasNoReturns(file);
    StartsWithinText(markdown);
    BlocksFromText(markdown, starts, tokens, CR);
    ComposeInvertsDecompose(markdown, tokens);
    assert forall k :: 0 <= k < |d.blocks| ==> d.blocks[k] in d.blocks;
  }

  lemma OtherTextDiffers(markdown: Text, begin: nat, end: nat, text: Text)
    requires begin <= end <= |markdown| && text != markdown[begin..end]
    ensures markdown[..begin] + text + markdown[end..] != markdown
  {
    var edited := markdown[..begin] + text + markdown[end..];
    assert |text| == end - begin ==> edited[begin..end] == text;
  }

  /** What a good save leaves in the file, whatever it replies. */
  lemma GoodSaveWrites(e: Setting, file: Text, p: Payload, faults: Faults, merged: Text)
    requires MergesTo(e, file, p, faults, merged) && merged != ReadTranslated(file) && Opened(e, merged).Decomposed?
    requires !faults.writeFails
    ensures FileAfter(e, file, p, faults) == merged
  {
  }

  lemma SavedMerge(e: Setting, file: Text, p: Payload, faults: Faults, reply: Reply)
    requires RepliesTo(e, file, p, faults, reply) && reply.Saved?
    ensures Opened(e, ReadTranslated(file)).Decomposed? && p.sources.Some?
    ensures |p.sources.value| == |Opened(e, ReadTranslated(file)).draft.blocks|
    ensures reply.changed == ChangedOf(Opened(e, ReadTranslated(file)).draft.blocks, p.sources.value)
    ensures Indexed(Opened(e, ReadTranslated(file)).draft.blocks)
  {
    var markdown := ReadTranslated(file);
    StartsWithinText(markdown);
    if Opened(e, markdown).Decomposed? {
      BlocksIndexed(markdown, LineStartsOf(markdown), e.parse(markdown));
    }
  }

  /** In a successful save the reply lists exactly the blocks that were replaced, and those are clean. */
  lemma SavedListsTheReplaced(e: Setting, file: Text, p: Payload, faults: Faults,
                              reply: Reply, blocks: seq<Block>, k: nat)
    requires RepliesTo(e, file, p, faults, reply) && reply.Saved?
    requires Opened(e, ReadTranslated(file)).Decomposed? && blocks == Opened(e, ReadTranslated(file)).draft.blocks
        && k < |blocks|
    ensures p.sources.Some? && |p.sources.value| == |blocks|
    ensures var source := FinalSource(blocks[k], p.sources.value[k]);
      && (k in reply.changed <==> source != blocks[k].source)
      && (k in reply.changed ==>
          CR !in source && (forall x :: x in source ==> !Banned(x))
          && (source != [] ==> source[|source| - 1] != NEWLINE))
  {
    SavedMerge(e, file, p, faults, reply);
    ChangedExactly(blocks, p.sources.value);
    if k in reply.changed {
      ReplacedIsClean(blocks[k], p.sources.value[k]);
    }
  }

  /** From the keyboard to the file: plain text typed into one block of the current page replaces exactly
      that block's text in the file, if the result can be opened again. */
  lemma TypedTextReachesTheFile(e: Setting, file: Text, p: Payload, faults: Faults, k: nat, text: Text)
    requires EditsBlock(e, file, p, k, text) && !faults.readFails && !faults.writeFails
    requires CR !in text && (forall x :: x in text ==> !Banned(x)) && (text != [] ==> text[|text| - 1] != NEWLINE)
    ensures var markdown := ReadTranslated(file); var blocks := Opened(e, markdown).draft.blocks;
            var begin := SourceStart(blocks, k); var end := begin + |blocks[k].source|;
      && end <= |markdown| && markdown[begin..end] == blocks[k].source
      && var edited := markdown[..begin] + text + markdown[end..];
         text != blocks[k].source && Opened(e, edited).Decomposed? ==> FileAfter(e, file, p, faults) == edited
  {
    hide Opened, FileAfter, RepliesTo, FinalSources, Composed;
    var markdown := ReadTranslated(file);
    var d := Opened(e, markdown).draft;
    OpenedDraft(e, file);
    EditChangesOnlyItsBlock(d, k, text);
    EditedSources(d.blocks, k, text);
    var begin := SourceStart(d.blocks, k);
    var end := begin + |d.blocks[k].source|;
    var edited := markdown[..begin] + text + markdown[end..];
    assert MergesTo(e, file, p, faults, edited);
    if text != d.blocks[k].source && Opened(e, edited).Decomposed? {
      OtherTextDiffers(markdown, begin, end, text);
      GoodSaveWrites(e, file, p, faults, edited);
    }
  }

  // ---------------------------------------------------------------- sequences of saves

  /** A save, or another program rewriting the file. */
  datatype Event = Save(payload: Payload, faults: Faults) | External(file: Text)

  function Step(e: Setting, file: Text, event: Event): Text {
    match event
    case Save(p, faults) => FileAfter(e, file, p, faults)
    case External(other) => other
  }

  function FileAfterAll(e: Setting, file: Text, events: seq<Event>): Text {
    if events == [] then file
    else Step(e, FileAfterAll(e, file, events[..|events| - 1]), events[|events| - 1])
  }

  /** The content a reader sees before event `k`. */
  function ContentBefore(e: Setting, file: Text, events: seq<Event>, k: nat): Text
    requires k <= |events|
  {
    ReadTranslated(FileAfterAll(e, file, events[..k]))
  }

  predicate TakesEffect(e: Setting, file: Text, events: seq<Event>, k: nat)
    requires k < |events|
  {
    events[k].Save? && ContentBefore(e, file, events, k) != ContentBefore(e, file, events, k + 1)
  }

  predicate From(e: Setting, event: Event, baseline: Text) {
    event.Save? && event.payload.hash == Some(e.digest(baseline))
  }

  /** The event brings the baseline back. */
  predicate Restores(e: Setting, file: Text, events: seq<Event>, k: nat, baseline: Text)
    requires k < |events|
  {
    ContentBefore(e, file, events, k) != baseline && ContentBefore(e, file, events, k + 1) == baseline
  }

  lemma EffectMeansBaseline(e: Setting, file: Text, events: seq<Event>, k: nat, baseline: Text)
    requires InjectiveDigest(e) && k < |events| && From(e, events[k], baseline) && TakesEffect(e, file, events, k)
    ensures ContentBefore(e, file, events, k) == baseline
  {
    assert events[..k + 1][..k] == events[..k];
  }

  lemma {:induction false} SomeoneRestored(e: Setting, file: Text, events: seq<Event>,
                                           low: nat, high: nat, baseline: Text)
    requires low <= high <= |events|
    requires ContentBefore(e, file, events, low) != baseline && ContentBefore(e, file, events, high) == baseline
    ensures exists k :: low <= k < high && Restores(e, file, events, k, baseline)
    decreases high - low
  {
    if ContentBefore(e, file, events, high - 1) == baseline {
      SomeoneRestored(e, file, events, low, high - 1, baseline);
    } else {
      assert Restores(e, file, events, high - 1, baseline);
    }
  }

  /** No lost update: of two saves from one baseline, the second can only take effect after some event
      in between brought the baseline back. */
  lemma SecondSaveNeedsRestore(e: Setting, file: Text, events: seq<Event>, i: nat, j: nat, baseline: Text)
    requires InjectiveDigest(e) && i < j < |events|
    requires From(e, events[i], baseline) && From(e, events[j], baseline)
    requires TakesEffect(e, file, events, i) && TakesEffect(e, file, events, j)
    ensures exists k :: i < k < j && Restores(e, file, events, k, baseline)
  {
    EffectMeansBaseline(e, file, events, i, baseline);
    EffectMeansBaseline(e, file, events, j, baseline);
    SomeoneRestored(e, file, events, i + 1, j, baseline);
  }

  /** Every effect of a save, anywhere in a history, is the merge of what its page loaded. */
  lemma EveryEffectMergesItsBaseline(e: Setting, file: Text, events: seq<Event>, k: nat, baseline: Text)
    requires InjectiveDigest(e) && k < |events| && From(e, events[k], baseline) && TakesEffect(e, file, events, k)
    ensures Opened(e, baseline).Decomposed? && events[k].payload.sources.Some?
    ensures var d, submitted := Opened(e, baseline).draft, events[k].payload.sources.value;
      && |d.blocks| == |submitted|
      && ContentBefore(e, file, events, k + 1) == Composed(d.blocks, d.suffix, FinalSources(d.blocks, submitted))
  {
    assert events[..k + 1][..k] == events[..k];
    var before := FileAfterAll(e, file, events[..k]);
    WritesMergeOfLoaded(e, before, events[k].payload, events[k].faults, baseline);
    WrittenReadsBack(e, before, events[k].payload, events[k].faults.readFails);
  }
}
