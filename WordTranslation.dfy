/**
  The word-translation feature function itself: its settings, the two
  vocabularies that `Load` fills, and the two evaluation entry points, which
  add 1 to the host's accumulator for every feature they emit.

  A `false` result of `Evaluate` or `EvaluateChart` stands for the
  `std::out_of_range` exception that `at(0)` raises on an empty word when
  the punctuation filter is on; the increments made before it stay in the
  accumulator.
 */
module WordTranslation {
  import opened Sparse
  import opened WordTranslationSpec

  /** The contents of a vocabulary file as `getline` delivers them, or the
      failure to open it. */
  datatype VocabularyFile = CannotOpen | Lines(lines: seq<string>)

  class WordTranslationFeature {
    const factorTypeSource: nat
    const factorTypeTarget: nat
    const simple: bool
    const sourceContext: bool
    const targetContext: bool
    const ignorePunctuation: bool
    const punctuationHash: set<char>

    var vocabSource: set<string>
    var vocabTarget: set<string>
    var unrestricted: bool

    /** The current settings and vocabularies, as the pure specification sees them. */
    function Current(): (c: Config)
      reads this
      ensures c.vocabSource == vocabSource && c.vocabTarget == vocabTarget && c.unrestricted == unrestricted
    {
      Config(factorTypeSource, factorTypeTarget, simple, sourceContext, targetContext,
             ignorePunctuation, punctuationHash, vocabSource, vocabTarget, unrestricted)
    }

    /** A feature with empty vocabularies in unrestricted mode. */
    constructor (factorTypeSource: nat, factorTypeTarget: nat, simple: bool, sourceContext: bool,
                 targetContext: bool, ignorePunctuation: bool, punctuationHash: set<char>)
      ensures this.factorTypeSource == factorTypeSource && this.factorTypeTarget == factorTypeTarget
      ensures this.simple == simple && this.sourceContext == sourceContext && this.targetContext == targetContext
      ensures this.ignorePunctuation == ignorePunctuation && this.punctuationHash == punctuationHash
      ensures vocabSource == {} && vocabTarget == {} && unrestricted
    {
      this.factorTypeSource := factorTypeSource;
      this.factorTypeTarget := factorTypeTarget;
      this.simple := simple;
      this.sourceContext := sourceContext;
      this.targetContext := targetContext;
      this.ignorePunctuation := ignorePunctuation;
      this.punctuationHash := punctuationHash;
      vocabSource := {};
      vocabTarget := {};
      unrestricted := true;
    }

    /** Reads the source vocabulary, then the target vocabulary, inserting
        every line. Restricted mode is switched on only when both files
        opened; a target file that fails to open leaves the source lines
        already inserted. */
    method Load(sourceFile: VocabularyFile, targetFile: VocabularyFile) returns (ok: bool)
      modifies this
      ensures ok <==> sourceFile.Lines? && targetFile.Lines?
      ensures vocabSource == old(vocabSource) + (if sourceFile.Lines? then set l | l in sourceFile.lines else {})
      ensures vocabTarget == old(vocabTarget) + (if ok then set l | l in targetFile.lines else {})
      ensures unrestricted == (old(unrestricted) && !ok)
    {
      if sourceFile.CannotOpen? {
        return false;
      }
      var i := 0;
      while i < |sourceFile.lines|
        invariant 0 <= i <= |sourceFile.lines|
        invariant vocabSource == old(vocabSource) + set j | 0 <= j < i :: sourceFile.lines[j]
        invariant vocabTarget == old(vocabTarget) && unrestricted == old(unrestricted)
      {
        vocabSource := vocabSource + {sourceFile.lines[i]};
        i := i + 1;
      }
      assert (set j | 0 <= j < i :: sourceFile.lines[j]) == set l | l in sourceFile.lines;
      if targetFile.CannotOpen? {
        return false;
      }
      i := 0;
      while i < |targetFile.lines|
        invariant 0 <= i <= |targetFile.lines|
        invariant vocabTarget == old(vocabTarget) + set j | 0 <= j < i :: targetFile.lines[j]
        invariant vocabSource == old(vocabSource) + set l | l in sourceFile.lines
        invariant unrestricted == old(unrestricted)
      {
        vocabTarget := vocabTarget + {targetFile.lines[i]};
        i := i + 1;
      }
      assert (set j | 0 <= j < i :: targetFile.lines[j]) == set l | l in targetFile.lines;
      unrestricted := false;
      ok := true;
    }

    /** The phrase-based entry point: for every alignment point, in order,
        adds 1 for each feature the point emits. */
    method Evaluate(h: PhraseHypothesis, input: seq<Word>, accumulator: ScoreComponentCollection) returns (ok: bool)
      requires WellFormed(Current(), h, input)
      modifies accumulator
      ensures Accumulated(old(accumulator.sparse), accumulator.sparse, PhraseFeatures(Current(), h, input, |h.alignment|), ok)
    {
      ok := EvaluatePhrase(Current(), h, input, accumulator);
    }

    /** The chart entry point: for every terminal-to-terminal alignment point,
        the same tests as `Evaluate`, then the simple-mode feature only. */
    method EvaluateChart(h: ChartHypothesis, featureId: int, accumulator: ScoreComponentCollection) returns (ok: bool)
      requires ChartWellFormed(Current(), h)
      modifies accumulator
      ensures Accumulated(old(accumulator.sparse), accumulator.sparse, ChartFeatures(Current(), h, |h.terminalAlignment|), ok)
    {
      ok := EvaluateChartRule(Current(), h, accumulator);
    }
  }


  /** The alignment-point loop of `Evaluate`, for the feature's settings and
      vocabularies `cfg`. An exception ends the loop. */
  method EvaluatePhrase(cfg: Config, h: PhraseHypothesis, input: seq<Word>, accumulator: ScoreComponentCollection)
    returns (ok: bool)
    requires WellFormed(cfg, h, input)
    modifies accumulator
    ensures Accumulated(old(accumulator.sparse), accumulator.sparse, PhraseFeatures(cfg, h, input, |h.alignment|), ok)
  {
    ghost var start := accumulator.sparse;
    ok := true;
    var k := 0;
    while k < |h.alignment| && ok
      invariant k <= |h.alignment|
      invariant Accumulated(start, accumulator.sparse, PhraseFeatures(cfg, h, input, k), ok)
    {
      ok := PhraseStep(cfg, h, input, k, start, accumulator);
      k := k + 1;
    }
    PhraseLoopEnd(cfg, h, input, k, start, accumulator.sparse, ok);
  }

  /** One turn of the alignment-point loop of `Evaluate`. */
  method PhraseStep(cfg: Config, h: PhraseHypothesis, input: seq<Word>, k: nat, ghost start: map<string, int>,
                    accumulator: ScoreComponentCollection) returns (ok: bool)
    requires WellFormed(cfg, h, input) && k < |h.alignment|
    requires Accumulated(start, accumulator.sparse, PhraseFeatures(cfg, h, input, k), true)
    modifies accumulator
    ensures Accumulated(start, accumulator.sparse, PhraseFeatures(cfg, h, input, k + 1), ok)
  {
    ghost var emitted := PhraseFeatures(cfg, h, input, k).features;
    ghost var point := PointFeatures(cfg, h, input, k);
    ok := EvaluatePoint(cfg, h, input, k, accumulator);
    AddAllNames(start, emitted, point.features);
  }

  /** The terminal-alignment loop of `EvaluateChart`. An exception ends the loop. */
  method EvaluateChartRule(cfg: Config, h: ChartHypothesis, accumulator: ScoreComponentCollection) returns (ok: bool)
    requires ChartWellFormed(cfg, h)
    modifies accumulator
    ensures Accumulated(old(accumulator.sparse), accumulator.sparse, ChartFeatures(cfg, h, |h.terminalAlignment|), ok)
  {
    ghost var start := accumulator.sparse;
    ok := true;
    var k := 0;
    while k < |h.terminalAlignment| && ok
      invariant k <= |h.terminalAlignment|
      invariant Accumulated(start, accumulator.sparse, ChartFeatures(cfg, h, k), ok)
    {
      ok := ChartStep(cfg, h, k, start, accumulator);
      k := k + 1;
    }
    ChartLoopEnd(cfg, h, k, start, accumulator.sparse, ok);
  }

  /** One turn of the terminal-alignment loop of `EvaluateChart`. */
  method ChartStep(cfg: Config, h: ChartHypothesis, k: nat, ghost start: map<string, int>, accumulator: ScoreComponentCollection)
    returns (ok: bool)
    requires ChartWellFormed(cfg, h) && k < |h.terminalAlignment|
    requires Accumulated(start, accumulator.sparse, ChartFeatures(cfg, h, k), true)
    modifies accumulator
    ensures Accumulated(start, accumulator.sparse, ChartFeatures(cfg, h, k + 1), ok)
  {
    ghost var emitted := ChartFeatures(cfg, h, k).features;
    ghost var point := ChartPointFeatures(cfg, h, k);
    ok := EvaluateChartPoint(cfg, h, k, accumulator);
    AddAllNames(start, emitted, point.features);
  }

  /** The body of the alignment-point loop of `Evaluate`: the tests of the
      aligned pair, then its features. */
  method EvaluatePoint(cfg: Config, h: PhraseHypothesis, input: seq<Word>, k: nat, accumulator: ScoreComponentCollection)
    returns (ok: bool)
    requires WellFormed(cfg, h, input) && k < |h.alignment|
    modifies accumulator
    ensures Accumulated(old(accumulator.sparse), accumulator.sparse, PointFeatures(cfg, h, input, k), ok)
  {
    var sourceIndex, targetIndex := h.alignment[k].0, h.alignment[k].1;
    var globalSourceIndex, globalTargetIndex := h.sourceStart + sourceIndex, h.targetStart + targetIndex;
    var r := ResolvePair(cfg, h.sourcePhrase[sourceIndex], h.targetPhrase[targetIndex]);
    assert PointFeatures(cfg, h, input, k) == ResolvedFeatures(cfg, input, h.output, globalSourceIndex, globalTargetIndex, r);
    ok := EvaluateResolved(cfg, input, h.output, globalSourceIndex, globalTargetIndex, r, accumulator);
  }

  /** What an alignment point does once its pair has been resolved to `r`:
      nothing for a skipped pair, the exception for an empty word, and the
      features of an aligned pair. */
  method EvaluateResolved(cfg: Config, input: seq<Word>, output: seq<Word>, globalSourceIndex: nat, globalTargetIndex: nat,
                          r: Resolution, accumulator: ScoreComponentCollection) returns (ok: bool)
    requires HasFactor(input, cfg.factorTypeSource) && HasFactor(output, cfg.factorTypeTarget)
    requires globalTargetIndex <= |output|
    modifies accumulator
    ensures Accumulated(old(accumulator.sparse), accumulator.sparse,
                        ResolvedFeatures(cfg, input, output, globalSourceIndex, globalTargetIndex, r), ok)
  {
    match r
    case Aligned(sourceWord, targetWord) =>
      ok := EvaluateAligned(cfg, input, output, globalSourceIndex, globalTargetIndex, sourceWord, targetWord, accumulator);
    case EmptyWordThrown =>
      ok := false;
    case _ =>
      ok := true;
  }

  /** The tests every aligned pair goes through: the non-terminal test, the
      punctuation test (where `at(0)` throws on an empty word) and the
      vocabulary restriction. */
  method ResolvePair(cfg: Config, ws: Word, wt: Word) returns (r: Resolution)
    requires cfg.factorTypeSource < |ws.factors| && cfg.factorTypeTarget < |wt.factors|
    ensures r == Resolve(cfg, ws, wt)
  {
    if cfg.factorTypeSource == 0 && ws.isNonTerminal { return NonTerminalSkipped; }
    if cfg.factorTypeSource == 0 && wt.isNonTerminal { return NonTerminalSkipped; }
    var sourceWord := ws.factors[cfg.factorTypeSource];
    var targetWord := wt.factors[cfg.factorTypeTarget];
    if cfg.ignorePunctuation {
      if |sourceWord| == 0 { return EmptyWordThrown; }
      if sourceWord[0] in cfg.punctuation { return PunctuationSkipped; }
      if |targetWord| == 0 { return EmptyWordThrown; }
      if targetWord[0] in cfg.punctuation { return PunctuationSkipped; }
    }
    if !cfg.unrestricted {
      if sourceWord !in cfg.vocabSource { sourceWord := "OTHER"; }
      if targetWord !in cfg.vocabTarget { targetWord := "OTHER"; }
    }
    r := Aligned(sourceWord, targetWord);
  }

  /** The features of a pair that passed the tests: the source-side modes,
      then the target-side modes. */
  method EvaluateAligned(cfg: Config, input: seq<Word>, output: seq<Word>, globalSourceIndex: nat, globalTargetIndex: nat,
                         sourceWord: string, targetWord: string, accumulator: ScoreComponentCollection) returns (ok: bool)
    requires HasFactor(input, cfg.factorTypeSource) && HasFactor(output, cfg.factorTypeTarget)
    requires globalTargetIndex <= |output|
    modifies accumulator
    ensures Accumulated(old(accumulator.sparse), accumulator.sparse,
                        AlignedFeatures(cfg, input, output, globalSourceIndex, globalTargetIndex, sourceWord, targetWord), ok)
  {
    ghost var start := accumulator.sparse;
    ghost var e := SourceSide(cfg, input, globalSourceIndex, sourceWord, targetWord);
    ok := AddSourceSide(cfg, input, globalSourceIndex, sourceWord, targetWord, accumulator);
    if !ok { return; }
    ok := AddTargetSide(cfg, output, globalTargetIndex, sourceWord, targetWord, accumulator);
    AddAllNames(start, e.features, TargetSide(cfg, output, globalTargetIndex, sourceWord, targetWord).features);
  }

  /** Simple mode, then the sentence-start and trigger features of
      source-context mode. */
  method AddSourceSide(cfg: Config, input: seq<Word>, globalSourceIndex: nat, sourceWord: string, targetWord: string,
                       accumulator: ScoreComponentCollection) returns (ok: bool)
    requires HasFactor(input, cfg.factorTypeSource)
    modifies accumulator
    ensures Accumulated(old(accumulator.sparse), accumulator.sparse, SourceSide(cfg, input, globalSourceIndex, sourceWord, targetWord), ok)
  {
    ghost var start := accumulator.sparse;
    ghost var e := SimplePart(cfg, sourceWord, targetWord);
    if cfg.simple {
      AddFeature(Simple(sourceWord, targetWord), accumulator);
    }
    ghost var part := SourceBoundaryPart(cfg, globalSourceIndex, sourceWord, targetWord);
    if cfg.sourceContext && globalSourceIndex == 0 {
      AddFeature(SourceBoundary(sourceWord, targetWord), accumulator);
      AddAllNames(start, e.features, part.features);
    } else {
      assert e.features + [] == e.features;
    }
    e := Then(e, part);
    part := SourceContextPart(cfg, input, globalSourceIndex, sourceWord, targetWord);
    if cfg.sourceContext {
      ok := AddSourceContext(cfg, input, globalSourceIndex, sourceWord, targetWord, accumulator);
      AddAllNames(start, e.features, part.features);
    } else {
      assert e.features + [] == e.features;
      ok := true;
    }
  }

  /** The sentence-start and trigger features of target-context mode. */
  method AddTargetSide(cfg: Config, output: seq<Word>, globalTargetIndex: nat, sourceWord: string, targetWord: string,
                       accumulator: ScoreComponentCollection) returns (ok: bool)
    requires HasFactor(output, cfg.factorTypeTarget) && globalTargetIndex <= |output|
    modifies accumulator
    ensures Accumulated(old(accumulator.sparse), accumulator.sparse, TargetSide(cfg, output, globalTargetIndex, sourceWord, targetWord), ok)
  {
    ghost var start := accumulator.sparse;
    ghost var e := TargetBoundaryPart(cfg, globalTargetIndex, sourceWord, targetWord);
    if cfg.targetContext && globalTargetIndex == 0 {
      AddFeature(TargetBoundary(sourceWord, targetWord), accumulator);
    }
    ghost var part := TargetContextPart(cfg, output, globalTargetIndex, sourceWord, targetWord);
    if cfg.targetContext {
      ok := AddTargetContext(cfg, output, globalTargetIndex, sourceWord, targetWord, accumulator);
      AddAllNames(start, e.features, part.features);
    } else {
      assert e.features + [] == e.features;
      ok := true;
    }
  }

  /** The loop over input positions of source-context mode. An exception
      ends the loop. */
  method AddSourceContext(cfg: Config, input: seq<Word>, globalSourceIndex: nat, sourceWord: string, targetWord: string,
                          accumulator: ScoreComponentCollection) returns (ok: bool)
    requires HasFactor(input, cfg.factorTypeSource)
    modifies accumulator
    ensures Accumulated(old(accumulator.sparse), accumulator.sparse,
                        SourceContext(cfg, input, globalSourceIndex, sourceWord, targetWord, |input|), ok)
  {
    ghost var start := accumulator.sparse;
    ok := true;
    var contextIndex := 0;
    while contextIndex < |input| && ok
      invariant contextIndex <= |input|
      invariant Accumulated(start, accumulator.sparse, SourceContext(cfg, input, globalSourceIndex, sourceWord, targetWord, contextIndex), ok)
    {
      ok := AddSourceTrigger(cfg, input, globalSourceIndex, sourceWord, targetWord, contextIndex, start, accumulator);
      contextIndex := contextIndex + 1;
    }
    SourceContextLoopEnd(cfg, input, globalSourceIndex, sourceWord, targetWord, contextIndex, start, accumulator.sparse, ok);
  }

  /** One turn of the loop of source-context mode: the trigger word at input
      position `contextIndex`, unless it is the aligned word itself. */
  method AddSourceTrigger(cfg: Config, input: seq<Word>, globalSourceIndex: nat, sourceWord: string, targetWord: string,
                          contextIndex: nat, ghost start: map<string, int>, accumulator: ScoreComponentCollection) returns (ok: bool)
    requires HasFactor(input, cfg.factorTypeSource) && contextIndex < |input|
    requires Accumulated(start, accumulator.sparse, SourceContext(cfg, input, globalSourceIndex, sourceWord, targetWord, contextIndex), true)
    modifies accumulator
    ensures Accumulated(start, accumulator.sparse, SourceContext(cfg, input, globalSourceIndex, sourceWord, targetWord, contextIndex + 1), ok)
  {
    SourceContextStep(cfg, input, globalSourceIndex, sourceWord, targetWord, contextIndex);
    if contextIndex == globalSourceIndex {
      return true;
    }
    var sourceTrigger := input[contextIndex].factors[cfg.factorTypeSource];
    if cfg.ignorePunctuation {
      if |sourceTrigger| == 0 {
        return false;
      }
      if sourceTrigger[0] in cfg.punctuation {
        return true;
      }
    }
    var sourceTriggerExists := false;
    if !cfg.unrestricted {
      sourceTriggerExists := sourceTrigger in cfg.vocabSource;
    }
    if cfg.unrestricted || sourceTriggerExists {
      var f := SourceTrigger(sourceTrigger, contextIndex < globalSourceIndex, sourceWord, targetWord);
      ghost var emitted := SourceContext(cfg, input, globalSourceIndex, sourceWord, targetWord, contextIndex).features;
      AddFeature(f, accumulator);
      AddAllNames(start, emitted, [f]);
    }
    ok := true;
  }

  /** The loop over earlier target positions of target-context mode. An
      exception ends the loop. */
  method AddTargetContext(cfg: Config, output: seq<Word>, globalTargetIndex: nat, sourceWord: string, targetWord: string,
                          accumulator: ScoreComponentCollection) returns (ok: bool)
    requires HasFactor(output, cfg.factorTypeTarget) && globalTargetIndex <= |output|
    modifies accumulator
    ensures Accumulated(old(accumulator.sparse), accumulator.sparse,
                        TargetContext(cfg, output, sourceWord, targetWord, globalTargetIndex), ok)
  {
    ghost var start := accumulator.sparse;
    ok := true;
    var contextIndex := 0;
    while contextIndex < globalTargetIndex && ok
      invariant contextIndex <= globalTargetIndex
      invariant Accumulated(start, accumulator.sparse, TargetContext(cfg, output, sourceWord, targetWord, contextIndex), ok)
    {
      ok := AddTargetTrigger(cfg, output, sourceWord, targetWord, contextIndex, start, accumulator);
      contextIndex := contextIndex + 1;
    }
    TargetContextLoopEnd(cfg, output, sourceWord, targetWord, contextIndex, globalTargetIndex, start, accumulator.sparse, ok);
  }

  /** One turn of the loop of target-context mode: the trigger word at
      output position `contextIndex`. */
  method AddTargetTrigger(cfg: Config, output: seq<Word>, sourceWord: string, targetWord: string,
                          contextIndex: nat, ghost start: map<string, int>, accumulator: ScoreComponentCollection) returns (ok: bool)
    requires HasFactor(output, cfg.factorTypeTarget) && contextIndex < |output|
    requires Accumulated(start, accumulator.sparse, TargetContext(cfg, output, sourceWord, targetWord, contextIndex), true)
    modifies accumulator
    ensures Accumulated(start, accumulator.sparse, TargetContext(cfg, output, sourceWord, targetWord, contextIndex + 1), ok)
  {
    TargetContextStep(cfg, output, sourceWord, targetWord, contextIndex);
    var targetTrigger := output[contextIndex].factors[cfg.factorTypeTarget];
    if cfg.ignorePunctuation {
      if |targetTrigger| == 0 {
        return false;
      }
      if targetTrigger[0] in cfg.punctuation {
        return true;
      }
    }
    var targetTriggerExists := false;
    if !cfg.unrestricted {
      targetTriggerExists := targetTrigger in cfg.vocabTarget;
    }
    if cfg.unrestricted || targetTriggerExists {
      var f := TargetTrigger(sourceWord, targetTrigger, targetWord);
      ghost var emitted := TargetContext(cfg, output, sourceWord, targetWord, contextIndex).features;
      AddFeature(f, accumulator);
      AddAllNames(start, emitted, [f]);
    }
    ok := true;
  }

  /** The body of the terminal-alignment loop of `EvaluateChart`: the same
      tests as `EvaluatePoint`, then the simple-mode feature only. */
  method EvaluateChartPoint(cfg: Config, h: ChartHypothesis, k: nat, accumulator: ScoreComponentCollection)
    returns (ok: bool)
    requires ChartWellFormed(cfg, h) && k < |h.terminalAlignment|
    modifies accumulator
    ensures Accumulated(old(accumulator.sparse), accumulator.sparse, ChartPointFeatures(cfg, h, k), ok)
  {
    var sourceIndex, targetIndex := h.terminalAlignment[k].0, h.terminalAlignment[k].1;
    var r := ResolvePair(cfg, h.sourcePhrase[sourceIndex], h.targetPhrase[targetIndex]);
    match r
    case Aligned(sourceWord, targetWord) =>
      if cfg.simple {
        AddFeature(Simple(sourceWord, targetWord), accumulator);
      }
      ok := true;
    case EmptyWordThrown =>
      ok := false;
    case _ =>
      ok := true;
  }

  /** Builds the name of `f` and adds 1 to it: the string stream followed by
      `SparsePlusEquals` that every emission of the feature function uses. */
  method AddFeature(f: Feature, accumulator: ScoreComponentCollection)
    modifies accumulator
    ensures accumulator.sparse == AddAll(old(accumulator.sparse), Names([f]))
  {
    accumulator.SparsePlusEquals(Name(f), 1);
    NamesSnoc([], f);
  }
}
