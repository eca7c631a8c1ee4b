/**
  What the word-translation feature promises, proved about the pure
  specification of its emissions: which alignment points are skipped, what
  the vocabulary restriction does, which features each mode contributes and
  how many, what the chart variant can emit, and that the accumulator ends up
  holding the count of every emitted name.
 */
module WordTranslationProperties {
  import opened Sparse
  import opened WordTranslationSpec
  import opened WordTranslation

  // ---------------------------------------------------------------------
  // The tests of an aligned pair

  /** The non-terminal test of the pair, as the code writes it: both words
      are checked only when the source factor type is 0. */
  predicate NonTerminalPair(cfg: Config, ws: Word, wt: Word)
  {
    cfg.factorTypeSource == 0 && (ws.isNonTerminal || wt.isNonTerminal)
  }

  /** How a pair is resolved, case by case: skipped as a non-terminal,
      thrown out by `at(0)` on an empty word, skipped for punctuation, or
      kept with its restricted words. Exactly one of these happens. */
  lemma ResolveCases(cfg: Config, ws: Word, wt: Word)
    requires cfg.factorTypeSource < |ws.factors| && cfg.factorTypeTarget < |wt.factors|
    ensures var r, sw, tw, p := Resolve(cfg, ws, wt), ws.factors[cfg.factorTypeSource],
                                wt.factors[cfg.factorTypeTarget], cfg.punctuation;
      && (r == NonTerminalSkipped <==> NonTerminalPair(cfg, ws, wt))
      && (r == EmptyWordThrown <==>
            !NonTerminalPair(cfg, ws, wt) && cfg.ignorePunctuation && (|sw| == 0 || (sw[0] !in p && |tw| == 0)))
      && (r == PunctuationSkipped <==>
            !NonTerminalPair(cfg, ws, wt) && cfg.ignorePunctuation && |sw| > 0 &&
            (sw[0] in p || (|tw| > 0 && tw[0] in p)))
      && (r.Aligned? <==>
            !NonTerminalPair(cfg, ws, wt) &&
            (!cfg.ignorePunctuation || (|sw| > 0 && sw[0] !in p && |tw| > 0 && tw[0] !in p)))
      && (r.Aligned? ==>
            r.source == Restrict(sw, cfg.vocabSource, cfg.unrestricted) &&
            r.target == Restrict(tw, cfg.vocabTarget, cfg.unrestricted))
  {
  }

  /** Vocabulary restriction: in restricted mode a word comes out as a
      vocabulary word or as "OTHER", and it is left unchanged exactly when it
      is in the vocabulary (or already "OTHER"); in unrestricted mode it is
      always unchanged. */
  lemma RestrictedWords(w: string, vocab: set<string>, unrestricted: bool)
    ensures !unrestricted ==> Restrict(w, vocab, unrestricted) in vocab || Restrict(w, vocab, unrestricted) == "OTHER"
    ensures Restrict(w, vocab, unrestricted) == w <==> unrestricted || w in vocab || w == "OTHER"
  {
  }

  // ---------------------------------------------------------------------
  // Skipped and failing alignment points

  /** An alignment point with a non-terminal on either side emits nothing,
      when the source factor type is 0. */
  lemma NonTerminalPointEmitsNothing(cfg: Config, h: PhraseHypothesis, input: seq<Word>, k: nat)
    requires WellFormed(cfg, h, input) && k < |h.alignment|
    requires NonTerminalPair(cfg, h.sourcePhrase[h.alignment[k].0], h.targetPhrase[h.alignment[k].1])
    ensures PointFeatures(cfg, h, input, k) == Nothing
  {
  }

  /** With the punctuation filter on, an alignment point whose source word,
      or else whose target word, starts with a punctuation character emits
      nothing. */
  lemma PunctuationPointEmitsNothing(cfg: Config, h: PhraseHypothesis, input: seq<Word>, k: nat)
    requires WellFormed(cfg, h, input) && k < |h.alignment|
    requires var ws, wt := h.sourcePhrase[h.alignment[k].0], h.targetPhrase[h.alignment[k].1];
      var sw, tw := ws.factors[cfg.factorTypeSource], wt.factors[cfg.factorTypeTarget];
      && !NonTerminalPair(cfg, ws, wt) && cfg.ignorePunctuation
      && |sw| > 0 && (sw[0] in cfg.punctuation || (|tw| > 0 && tw[0] in cfg.punctuation))
    ensures PointFeatures(cfg, h, input, k) == Nothing
  {
    var ws, wt := h.sourcePhrase[h.alignment[k].0], h.targetPhrase[h.alignment[k].1];
    ResolveCases(cfg, ws, wt);
  }

  /** With the punctuation filter on, an empty source word, or an empty
      target word behind a non-punctuation source word, raises the
      exception before the point emits anything, and the step emits nothing
      after it. */
  lemma EmptyWordPointThrows(cfg: Config, h: PhraseHypothesis, input: seq<Word>, k: nat)
    requires WellFormed(cfg, h, input) && k < |h.alignment|
    requires var ws, wt := h.sourcePhrase[h.alignment[k].0], h.targetPhrase[h.alignment[k].1];
      var sw, tw := ws.factors[cfg.factorTypeSource], wt.factors[cfg.factorTypeTarget];
      && !NonTerminalPair(cfg, ws, wt) && cfg.ignorePunctuation
      && (|sw| == 0 || (sw[0] !in cfg.punctuation && |tw| == 0))
    ensures PointFeatures(cfg, h, input, k) == Emission([], true)
    ensures !PhraseFeatures(cfg, h, input, k).thrown ==>
              PhraseFeatures(cfg, h, input, |h.alignment|) == Emission(PhraseFeatures(cfg, h, input, k).features, true)
  {
    var ws, wt := h.sourcePhrase[h.alignment[k].0], h.targetPhrase[h.alignment[k].1];
    ResolveCases(cfg, ws, wt);
    if !PhraseFeatures(cfg, h, input, k).thrown {
      PointThrowEndsStep(cfg, h, input, k);
      assert PhraseFeatures(cfg, h, input, k).features + [] == PhraseFeatures(cfg, h, input, k).features;
    }
  }

  /** An alignment point that throws ends the step: what the points before
      it emitted, and what it emitted before the exception, is all the step
      emits. */
  lemma PointThrowEndsStep(cfg: Config, h: PhraseHypothesis, input: seq<Word>, k: nat)
    requires WellFormed(cfg, h, input) && k < |h.alignment|
    requires PointFeatures(cfg, h, input, k).thrown && !PhraseFeatures(cfg, h, input, k).thrown
    ensures PhraseFeatures(cfg, h, input, |h.alignment|)
            == Emission(PhraseFeatures(cfg, h, input, k).features + PointFeatures(cfg, h, input, k).features, true)
  {
    PointThrowLater(cfg, h, input, k, |h.alignment|);
  }

  /** `PointThrowStep` carried to every longer prefix of the alignment. */
  lemma PointThrowLater(cfg: Config, h: PhraseHypothesis, input: seq<Word>, k: nat, m: nat)
    requires WellFormed(cfg, h, input) && k < m <= |h.alignment|
    requires PointFeatures(cfg, h, input, k).thrown && !PhraseFeatures(cfg, h, input, k).thrown
    ensures PhraseFeatures(cfg, h, input, m)
            == Emission(PhraseFeatures(cfg, h, input, k).features + PointFeatures(cfg, h, input, k).features, true)
  {
    PointThrowStep(cfg, h, input, k);
    PhraseThrownSticks(cfg, h, input, k + 1, m);
  }

  /** The alignment step at a point that throws: the prefix's features, then
      the point's, and the exception. */
  lemma PointThrowStep(cfg: Config, h: PhraseHypothesis, input: seq<Word>, k: nat)
    requires WellFormed(cfg, h, input) && k < |h.alignment|
    requires PointFeatures(cfg, h, input, k).thrown && !PhraseFeatures(cfg, h, input, k).thrown
    ensures PhraseFeatures(cfg, h, input, k + 1)
            == Emission(PhraseFeatures(cfg, h, input, k).features + PointFeatures(cfg, h, input, k).features, true)
  {
  }

  // ---------------------------------------------------------------------
  // The features of an aligned pair

  /** The features of an aligned pair, laid out: the simple feature, the
      source sentence-start feature, the source triggers and, unless a
      source trigger threw, the target sentence-start feature and the
      target triggers. */
  lemma {:induction false} AlignedLayout(cfg: Config, input: seq<Word>, output: seq<Word>, gs: nat, gt: nat, s: string, t: string)
    requires HasFactor(input, cfg.factorTypeSource) && HasFactor(output, cfg.factorTypeTarget) && gt <= |output|
    ensures var sc, tc := SourceContextPart(cfg, input, gs, s, t), TargetContextPart(cfg, output, gt, s, t);
      var e := AlignedFeatures(cfg, input, output, gs, gt, s, t);
      && e.thrown == (sc.thrown || tc.thrown)
      && e.features == SimplePart(cfg, s, t).features + SourceBoundaryPart(cfg, gs, s, t).features + sc.features
                       + (if sc.thrown then [] else TargetBoundaryPart(cfg, gt, s, t).features + tc.features)
  {
    var sc, tc := SourceContextPart(cfg, input, gs, s, t), TargetContextPart(cfg, output, gt, s, t);
    var a, b := SimplePart(cfg, s, t).features, SourceBoundaryPart(cfg, gs, s, t).features;
    var c, d := TargetBoundaryPart(cfg, gt, s, t).features, tc.features;
    assert SourceSide(cfg, input, gs, s, t) == Emission(a + b + sc.features, sc.thrown);
    assert TargetSide(cfg, output, gt, s, t) == Emission(c + d, tc.thrown);
    if !sc.thrown {
      assert a + b + sc.features + (c + d) == a + b + sc.features + (if sc.thrown then [] else c + d);
    } else {
      assert a + b + sc.features == a + b + sc.features + (if sc.thrown then [] else c + d);
    }
  }

  /** Every source-context feature is a trigger feature for the pair
      (`s`, `t`) whose trigger passed the vocabulary test, and there is at
      most one per position. */
  lemma {:induction false} SourceContextTriggers(cfg: Config, input: seq<Word>, g: nat, s: string, t: string, n: nat)
    requires HasFactor(input, cfg.factorTypeSource) && n <= |input|
    ensures var fs := SourceContext(cfg, input, g, s, t, n).features;
      && |fs| <= n
      && forall f :: f in fs ==>
           f.SourceTrigger? && f.source == s && f.target == t && (cfg.unrestricted || f.trigger in cfg.vocabSource)
  {
    if n > 0 {
      SourceContextTriggers(cfg, input, g, s, t, n - 1);
    }
  }

  /** Every target-context feature is a trigger feature for the pair
      (`s`, `t`) whose trigger passed the vocabulary test, and there is at
      most one per position. */
  lemma {:induction false} TargetContextTriggers(cfg: Config, output: seq<Word>, s: string, t: string, n: nat)
    requires HasFactor(output, cfg.factorTypeTarget) && n <= |output|
    ensures var fs := TargetContext(cfg, output, s, t, n).features;
      && |fs| <= n
      && forall f :: f in fs ==>
           f.TargetTrigger? && f.source == s && f.target == t && (cfg.unrestricted || f.trigger in cfg.vocabTarget)
  {
    if n > 0 {
      TargetContextTriggers(cfg, output, s, t, n - 1);
    }
  }

  /** The features of an aligned pair that come after its simple feature:
      sentence-start and trigger features only. */
  lemma ContextFeatures(cfg: Config, input: seq<Word>, output: seq<Word>, gs: nat, gt: nat, s: string, t: string)
    requires HasFactor(input, cfg.factorTypeSource) && HasFactor(output, cfg.factorTypeTarget) && gt <= |output|
    ensures var sc := SourceContextPart(cfg, input, gs, s, t);
      var rest := if sc.thrown then [] else TargetBoundaryPart(cfg, gt, s, t).features + TargetContextPart(cfg, output, gt, s, t).features;
      && (forall f :: f in sc.features ==> f.SourceTrigger?)
      && (forall f :: f in rest ==> f.TargetTrigger? || f == TargetBoundary(s, t))
      && (TargetBoundary(s, t) in rest <==> cfg.targetContext && gt == 0 && !sc.thrown)
  {
    SourceContextTriggers(cfg, input, gs, s, t, |input|);
    TargetContextTriggers(cfg, output, s, t, gt);
  }

  /** What the kinds of features in `a + b + c + d` are, from the kinds in
      each piece: the piece layout of an aligned pair's features. */
  lemma PieceKinds(fs: seq<Feature>, a: seq<Feature>, b: seq<Feature>, c: seq<Feature>, d: seq<Feature>,
                   simple: bool, boundary: bool, targetBoundary: bool, s: string, t: string)
    requires fs == a + b + c + d
    requires a == (if simple then [Simple(s, t)] else [])
    requires b == (if boundary then [SourceBoundary(s, t)] else [])
    requires forall f :: f in c ==> f.SourceTrigger?
    requires forall f :: f in d ==> f.TargetTrigger? || f == TargetBoundary(s, t)
    requires TargetBoundary(s, t) in d <==> targetBoundary
    ensures simple ==> |fs| > 0 && fs[0] == Simple(s, t)
    ensures forall i :: 0 <= i < |fs| && fs[i].Simple? ==> simple && i == 0
    ensures SourceBoundary(s, t) in fs <==> boundary
    ensures forall f :: f in fs && f.SourceBoundary? ==> f == SourceBoundary(s, t)
    ensures TargetBoundary(s, t) in fs <==> targetBoundary
    ensures forall f :: f in fs && f.TargetBoundary? ==> f == TargetBoundary(s, t)
  {
    var later := b + c + d;
    assert fs == a + later;
    forall f | f in later
      ensures !f.Simple?
    {
      if f in c {
        assert f.SourceTrigger?;
      } else if f in d {
        assert f.TargetTrigger? || f == TargetBoundary(s, t);
      }
    }
    forall i | |a| <= i < |fs|
      ensures !fs[i].Simple?
    {
      assert fs[i] == later[i - |a|];
    }
    forall f | f in fs
      ensures f in a || f in b || f in c || f in d
    {
    }
    forall f | f in fs && f !in b
      ensures !f.SourceBoundary?
    {
      if f in c {
        assert f.SourceTrigger?;
      } else if f in d {
        assert f.TargetTrigger? || f == TargetBoundary(s, t);
      }
    }
    forall f | f in fs && f !in d
      ensures !f.TargetBoundary?
    {
      if f in c {
        assert f.SourceTrigger?;
      }
    }
  }

  /** The layout of an aligned pair's features, with the kinds of its
      pieces, ready for `PieceKinds`. */
  lemma AlignedPieceKinds(cfg: Config, input: seq<Word>, output: seq<Word>, gs: nat, gt: nat, s: string, t: string)
    requires HasFactor(input, cfg.factorTypeSource) && HasFactor(output, cfg.factorTypeTarget) && gt <= |output|
    ensures var fs := AlignedFeatures(cfg, input, output, gs, gt, s, t).features;
      && (cfg.simple ==> |fs| > 0 && fs[0] == Simple(s, t))
      && (forall i :: 0 <= i < |fs| && fs[i].Simple? ==> cfg.simple && i == 0)
      && (SourceBoundary(s, t) in fs <==> cfg.sourceContext && gs == 0)
      && (forall f :: f in fs && f.SourceBoundary? ==> f == SourceBoundary(s, t))
      && (TargetBoundary(s, t) in fs <==> cfg.targetContext && gt == 0 && !SourceContextPart(cfg, input, gs, s, t).thrown)
      && (forall f :: f in fs && f.TargetBoundary? ==> f == TargetBoundary(s, t))
  {
    AlignedLayout(cfg, input, output, gs, gt, s, t);
    ContextFeatures(cfg, input, output, gs, gt, s, t);
    var sc := SourceContextPart(cfg, input, gs, s, t);
    var rest := if sc.thrown then [] else TargetBoundaryPart(cfg, gt, s, t).features + TargetContextPart(cfg, output, gt, s, t).features;
    PieceKinds(AlignedFeatures(cfg, input, output, gs, gt, s, t).features,
               SimplePart(cfg, s, t).features, SourceBoundaryPart(cfg, gs, s, t).features, sc.features, rest,
               cfg.simple, cfg.sourceContext && gs == 0, cfg.targetContext && gt == 0 && !sc.thrown, s, t);
  }

  /** Simple mode adds exactly one simple feature, `wt_s~t`, first of all;
      without simple mode an aligned pair adds none. */
  lemma SimpleFeatureOnce(cfg: Config, input: seq<Word>, output: seq<Word>, gs: nat, gt: nat, s: string, t: string)
    requires HasFactor(input, cfg.factorTypeSource) && HasFactor(output, cfg.factorTypeTarget) && gt <= |output|
    ensures var fs := AlignedFeatures(cfg, input, output, gs, gt, s, t).features;
      && (cfg.simple ==> |fs| > 0 && fs[0] == Simple(s, t) && Name(fs[0]) == "wt_" + s + "~" + t)
      && forall i :: 0 <= i < |fs| && fs[i].Simple? ==> cfg.simple && i == 0
  {
    AlignedPieceKinds(cfg, input, output, gs, gt, s, t);
  }

  /** The source sentence-start feature `wt_<s>,s~t` is added exactly when
      source-context mode is on and the pair's global source position is 0,
      and it is the only source sentence-start feature. */
  lemma SourceBoundaryAtStart(cfg: Config, input: seq<Word>, output: seq<Word>, gs: nat, gt: nat, s: string, t: string)
    requires HasFactor(input, cfg.factorTypeSource) && HasFactor(output, cfg.factorTypeTarget) && gt <= |output|
    ensures var fs := AlignedFeatures(cfg, input, output, gs, gt, s, t).features;
      && (SourceBoundary(s, t) in fs <==> cfg.sourceContext && gs == 0)
      && (forall f :: f in fs && f.SourceBoundary? ==> f == SourceBoundary(s, t))
      && Name(SourceBoundary(s, t)) == "wt_<s>," + s + "~" + t
  {
    AlignedPieceKinds(cfg, input, output, gs, gt, s, t);
  }

  /** The target sentence-start feature `wt_s~<s>,t` is added exactly when
      target-context mode is on, the pair's global target position is 0 and
      no source trigger threw before it. */
  lemma TargetBoundaryAtStart(cfg: Config, input: seq<Word>, output: seq<Word>, gs: nat, gt: nat, s: string, t: string)
    requires HasFactor(input, cfg.factorTypeSource) && HasFactor(output, cfg.factorTypeTarget) && gt <= |output|
    ensures var fs := AlignedFeatures(cfg, input, output, gs, gt, s, t).features;
      && (TargetBoundary(s, t) in fs <==>
            cfg.targetContext && gt == 0 && !SourceContextPart(cfg, input, gs, s, t).thrown)
      && (forall f :: f in fs && f.TargetBoundary? ==> f == TargetBoundary(s, t))
      && Name(TargetBoundary(s, t)) == "wt_" + s + "~<s>," + t
  {
    AlignedPieceKinds(cfg, input, output, gs, gt, s, t);
  }

  /** The input position whose trigger makes the `i`-th source-context
      feature when every position other than `g` qualifies. */
  function SkipPosition(i: nat, g: nat): (p: nat)
    ensures p != g && (p < g <==> i < g)
  {
    if i < g then i else i + 1
  }

  /** With the unrestricted vocabulary and no punctuation filter, every
      input position other than the pair's own contributes one trigger
      feature, in order, with the trigger first exactly for the positions
      before the pair's: N-1 features when the pair lies inside the
      sentence. */
  lemma {:induction false} SourceContextUnfiltered(cfg: Config, input: seq<Word>, g: nat, s: string, t: string, n: nat)
    requires HasFactor(input, cfg.factorTypeSource) && n <= |input|
    requires cfg.unrestricted && !cfg.ignorePunctuation
    ensures var e := SourceContext(cfg, input, g, s, t, n);
      && !e.thrown
      && |e.features| == (if g < n then n - 1 else n)
      && forall i :: 0 <= i < |e.features| ==>
           SkipPosition(i, g) < n &&
           e.features[i] == SourceTrigger(input[SkipPosition(i, g)].factors[cfg.factorTypeSource], SkipPosition(i, g) < g, s, t)
  {
    if n > 0 {
      SourceContextUnfiltered(cfg, input, g, s, t, n - 1);
    }
  }

  /** With the unrestricted vocabulary and no punctuation filter, every
      target position before the pair's contributes one trigger feature, in
      order. In particular a pair at target position 0 gets none. */
  lemma {:induction false} TargetContextUnfiltered(cfg: Config, output: seq<Word>, s: string, t: string, n: nat)
    requires HasFactor(output, cfg.factorTypeTarget) && n <= |output|
    requires cfg.unrestricted && !cfg.ignorePunctuation
    ensures var e := TargetContext(cfg, output, s, t, n);
      && !e.thrown
      && |e.features| == n
      && forall i :: 0 <= i < n ==> e.features[i] == TargetTrigger(s, output[i].factors[cfg.factorTypeTarget], t)
  {
    if n > 0 {
      TargetContextUnfiltered(cfg, output, s, t, n - 1);
    }
  }

  /** The names of the trigger features: the earlier word comes first. */
  lemma TriggerNames(trigger: string, s: string, t: string)
    ensures Name(SourceTrigger(trigger, true, s, t)) == "wt_" + trigger + "," + s + "~" + t
    ensures Name(SourceTrigger(trigger, false, s, t)) == "wt_" + s + "," + trigger + "~" + t
    ensures Name(TargetTrigger(s, trigger, t)) == "wt_" + s + "~" + trigger + "," + t
  {
  }

  // ---------------------------------------------------------------------
  // The chart variant

  /** The chart variant emits only simple features, at most one per terminal
      alignment point, and none at all without simple mode. */
  lemma {:induction false} ChartOnlySimple(cfg: Config, h: ChartHypothesis, n: nat)
    requires ChartWellFormed(cfg, h) && n <= |h.terminalAlignment|
    ensures var fs := ChartFeatures(cfg, h, n).features;
      && |fs| <= n
      && (forall i :: 0 <= i < |fs| ==> fs[i].Simple?)
      && (!cfg.simple ==> fs == [])
  {
    if n > 0 {
      ChartOnlySimple(cfg, h, n - 1);
    }
  }

  /** The phrase-based step over the same words and alignment, with both
      context modes off. */
  function AsPhrase(h: ChartHypothesis): (p: PhraseHypothesis)
    ensures p.alignment == h.terminalAlignment && p.output == h.targetPhrase
  {
    PhraseHypothesis(h.sourcePhrase, h.targetPhrase, h.terminalAlignment, 0, 0, h.targetPhrase)
  }

  function WithoutContext(cfg: Config): (c: Config)
    ensures !c.sourceContext && !c.targetContext
  {
    cfg.(sourceContext := false, targetContext := false)
  }

  /** The chart step can be read as a phrase-based step: the words and the
      terminal alignment satisfy what the phrase-based step assumes. */
  lemma AsPhraseWellFormed(cfg: Config, h: ChartHypothesis)
    requires ChartWellFormed(cfg, h)
    ensures WellFormed(WithoutContext(cfg), AsPhrase(h), [])
  {
  }

  /** A terminal alignment point emits what the same point of the
      phrase-based step emits with both context modes off. */
  lemma ChartPointIsPhrasePoint(cfg: Config, h: ChartHypothesis, k: nat)
    requires ChartWellFormed(cfg, h) && k < |h.terminalAlignment|
    requires WellFormed(WithoutContext(cfg), AsPhrase(h), [])
    ensures PointFeatures(WithoutContext(cfg), AsPhrase(h), [], k) == ChartPointFeatures(cfg, h, k)
  {
    var c := WithoutContext(cfg);
    var si, ti := h.terminalAlignment[k].0, h.terminalAlignment[k].1;
    var r := Resolve(cfg, h.sourcePhrase[si], h.targetPhrase[ti]);
    assert Resolve(c, h.sourcePhrase[si], h.targetPhrase[ti]) == r;
    if r.Aligned? {
      var fs := SimplePart(cfg, r.source, r.target).features;
      assert fs + [] + [] == fs;
      assert AlignedFeatures(c, [], h.targetPhrase, si, ti, r.source, r.target) == SimplePart(cfg, r.source, r.target);
    }
  }

  /** The chart variant applies the same skip, punctuation and restriction
      rules as the phrase-based one: it emits exactly what the phrase-based
      step emits over the terminal alignment with both context modes off. */
  lemma {:induction false} ChartIsPhraseWithoutContext(cfg: Config, h: ChartHypothesis, n: nat)
    requires ChartWellFormed(cfg, h) && n <= |h.terminalAlignment|
    ensures WellFormed(WithoutContext(cfg), AsPhrase(h), [])
    ensures PhraseFeatures(WithoutContext(cfg), AsPhrase(h), [], n) == ChartFeatures(cfg, h, n)
  {
    AsPhraseWellFormed(cfg, h);
    if n > 0 {
      ChartIsPhraseWithoutContext(cfg, h, n - 1);
      ChartPointIsPhrasePoint(cfg, h, n - 1);
    }
  }

  // ---------------------------------------------------------------------
  // The accumulator

  /** After a step, the accumulator holds, for every name, its score before
      plus the number of times the step emitted it: scores never decrease
      and names the step did not emit are left as they were. */
  lemma AccumulatedCounts(before: map<string, int>, after: map<string, int>, e: Emission, ok: bool, x: string)
    requires Accumulated(before, after, e, ok)
    ensures Added(before, after, Names(e.features))
    ensures Get(after, x) == Get(before, x) + multiset(Names(e.features))[x]
    ensures Get(after, x) >= Get(before, x)
    ensures x !in Names(e.features) ==> (x in after <==> x in before) && Get(after, x) == Get(before, x)
  {
    AddAllAdded(before, Names(e.features));
    AddedOnlyIncreases(before, after, Names(e.features), x);
  }

  // ---------------------------------------------------------------------
  // A worked example

  function ExampleWord(w: string): Word
  {
    Word([w], false)
  }

  /** Simple mode alone, surface forms, with the vocabularies {the, cat}
      and {le, chat} loaded. */
  const ExampleConfig := Config(0, 0, true, false, false, false, {}, {"the", "cat"}, {"le", "chat"}, false)

  /** "the sat" translated as "le assis", each word aligned to its
      counterpart. */
  function ExampleHypothesis(): (h: PhraseHypothesis)
    ensures |h.alignment| == 2 && WellFormed(ExampleConfig, h, h.sourcePhrase)
  {
    var src, tgt := [ExampleWord("the"), ExampleWord("sat")], [ExampleWord("le"), ExampleWord("assis")];
    PhraseHypothesis(src, tgt, [(0, 0), (1, 1)], 0, 0, tgt)
  }

  /** "the" aligned to "le" emits `wt_the~le`; "sat" and "assis" are out of
      vocabulary, so their point emits `wt_OTHER~OTHER`. */
  lemma ExamplePoints()
    ensures PointFeatures(ExampleConfig, ExampleHypothesis(), ExampleHypothesis().sourcePhrase, 0)
            == Emission([Simple("the", "le")], false)
    ensures PointFeatures(ExampleConfig, ExampleHypothesis(), ExampleHypothesis().sourcePhrase, 1)
            == Emission([Simple("OTHER", "OTHER")], false)
  {
    var cfg, h := ExampleConfig, ExampleHypothesis();
    assert "sat" !in cfg.vocabSource && "assis" !in cfg.vocabTarget;
    assert Resolve(cfg, h.sourcePhrase[0], h.targetPhrase[0]) == Aligned("the", "le");
    assert Resolve(cfg, h.sourcePhrase[1], h.targetPhrase[1]) == Aligned("OTHER", "OTHER");
  }

  /** The whole example step emits the two features in alignment order. */
  lemma ExampleFeatures()
    ensures PhraseFeatures(ExampleConfig, ExampleHypothesis(), ExampleHypothesis().sourcePhrase, 2)
            == Emission([Simple("the", "le"), Simple("OTHER", "OTHER")], false)
  {
    var cfg, h := ExampleConfig, ExampleHypothesis();
    ExamplePoints();
    assert PhraseFeatures(cfg, h, h.sourcePhrase, 1) == Emission([Simple("the", "le")], false);
    assert [Simple("the", "le")] + [Simple("OTHER", "OTHER")] == [Simple("the", "le"), Simple("OTHER", "OTHER")];
  }

  /** The names of the example's two features. */
  lemma ExampleNames()
    ensures Names([Simple("the", "le"), Simple("OTHER", "OTHER")]) == ["wt_the~le", "wt_OTHER~OTHER"]
  {
    var emitted := [Simple("the", "le"), Simple("OTHER", "OTHER")];
    assert "wt_" + "the" + "~" + "le" == "wt_the~le";
    assert "wt_" + "OTHER" + "~" + "OTHER" == "wt_OTHER~OTHER";
    assert emitted[..1] == [Simple("the", "le")];
    assert emitted[..1][..0] == [];
    assert Names(emitted[..1]) == ["wt_the~le"];
  }

  /** Adding two distinct names once each to an empty accumulator. */
  lemma ExampleIncrements()
    ensures AddAll(map[], ["wt_the~le", "wt_OTHER~OTHER"]) == map["wt_the~le" := 1, "wt_OTHER~OTHER" := 1]
  {
    var names := ["wt_the~le", "wt_OTHER~OTHER"];
    assert names[..1] == ["wt_the~le"];
    assert names[..1][..0] == [];
    assert AddAll(map[], names[..1]) == map["wt_the~le" := 1];
  }

  /** The names of the example's features, and the accumulator they make
      from an empty one. */
  lemma ExampleScores()
    ensures AddAll(map[], Names([Simple("the", "le"), Simple("OTHER", "OTHER")]))
            == map["wt_the~le" := 1, "wt_OTHER~OTHER" := 1]
  {
    ExampleNames();
    ExampleIncrements();
  }

  /** The feature object end to end: construct it, load the two
      vocabularies, evaluate the example step into a fresh accumulator. */
  method EvaluateExample() returns (ok: bool, scores: map<string, int>)
    ensures ok
    ensures scores == map["wt_the~le" := 1, "wt_OTHER~OTHER" := 1]
  {
    var feature := new WordTranslationFeature(0, 0, true, false, false, false, {});
    var loaded := feature.Load(Lines(["the", "cat"]), Lines(["le", "chat"]));
    assert (set l | l in ["the", "cat"]) == {"the", "cat"};
    assert (set l | l in ["le", "chat"]) == {"le", "chat"};
    assert feature.Current() == ExampleConfig;
    var accumulator := new ScoreComponentCollection();
    var h := ExampleHypothesis();
    ok := feature.Evaluate(h, h.sourcePhrase, accumulator);
    scores := accumulator.sparse;
    ExampleOutcome(ok, scores);
  }

  /** What any accumulator run of the example step from empty must hold. */
  lemma ExampleOutcome(ok: bool, scores: map<string, int>)
    requires Accumulated(map[], scores, PhraseFeatures(ExampleConfig, ExampleHypothesis(), ExampleHypothesis().sourcePhrase, 2), ok)
    ensures ok && scores == map["wt_the~le" := 1, "wt_OTHER~OTHER" := 1]
  {
    ExampleFeatures();
    ExampleScores();
  }
}
