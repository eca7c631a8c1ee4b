/**
  The word-translation (lexical trigger) feature as pure functions: which
  sparse features one hypothesis-extension step emits, in the order the
  feature function emits them.

  The feature function reads its own configuration, the alignment of the
  current phrase pair, the phrase words, the input sentence and the target
  words already placed. All of that is passed here as values.
 */
module WordTranslationSpec {
  import opened Sparse

  /** A word: its factor strings (factor 0 is the surface form) and whether
      it is a non-terminal placeholder of a hierarchical rule. */
  datatype Word = Word(factors: seq<string>, isNonTerminal: bool)

  /** The feature's settings together with its two vocabularies. */
  datatype Config = Config(
    factorTypeSource: nat,
    factorTypeTarget: nat,
    simple: bool,
    sourceContext: bool,
    targetContext: bool,
    ignorePunctuation: bool,
    punctuation: set<char>,
    vocabSource: set<string>,
    vocabTarget: set<string>,
    unrestricted: bool)

  /** An alignment point: (source index, target index), local to the phrase pair. */
  type AlignmentPoint = (nat, nat)

  /** What the phrase-based feature sees of the current hypothesis. `output`
      is the target side of the whole hypothesis so far (the words reached by
      `Hypothesis::GetWord`). The host places the current target phrase at
      `targetStart` in it; the model asks only that the phrase fit there and
      does not tie `output[targetStart + i]` to `targetPhrase[i]`. */
  datatype PhraseHypothesis = PhraseHypothesis(
    sourcePhrase: seq<Word>,
    targetPhrase: seq<Word>,
    alignment: seq<AlignmentPoint>,
    sourceStart: nat,
    targetStart: nat,
    output: seq<Word>)

  /** What the chart feature sees: the rule's two sides and its
      terminal-to-terminal alignment. */
  datatype ChartHypothesis = ChartHypothesis(
    sourcePhrase: seq<Word>,
    targetPhrase: seq<Word>,
    terminalAlignment: seq<AlignmentPoint>)

  /** One emitted sparse feature, before it is rendered into its name. */
  datatype Feature =
    | Simple(source: string, target: string)
    | SourceBoundary(source: string, target: string)
    | SourceTrigger(trigger: string, triggerFirst: bool, source: string, target: string)
    | TargetBoundary(source: string, target: string)
    | TargetTrigger(source: string, trigger: string, target: string)

  /** The sparse feature name, as the string stream builds it. */
  function Name(f: Feature): string
  {
    match f
    case Simple(s, t) => "wt_" + s + "~" + t
    case SourceBoundary(s, t) => "wt_<s>," + s + "~" + t
    case SourceTrigger(trigger, triggerFirst, s, t) =>
      if triggerFirst then "wt_" + trigger + "," + s + "~" + t
      else "wt_" + s + "," + trigger + "~" + t
    case TargetBoundary(s, t) => "wt_" + s + "~<s>," + t
    case TargetTrigger(s, trigger, t) => "wt_" + s + "~" + trigger + "," + t
  }

  /** The names of `fs`, in order. */
  function Names(fs: seq<Feature>): (r: seq<string>)
    ensures |r| == |fs|
  {
    if fs == [] then [] else Names(fs[..|fs| - 1]) + [Name(fs[|fs| - 1])]
  }

  /** The features emitted so far and whether the step then stopped with an
      exception (`std::string::at(0)` on an empty word). */
  datatype Emission = Emission(features: seq<Feature>, thrown: bool)

  const Nothing := Emission([], false)

  /** `a` followed by `b`; nothing after an exception is emitted. */
  function Then(a: Emission, b: Emission): Emission
  {
    if a.thrown then a else Emission(a.features + b.features, b.thrown)
  }

  /** Every word of `ws` carries factor `f`. */
  predicate HasFactor(ws: seq<Word>, f: nat)
  {
    forall i :: 0 <= i < |ws| ==> f < |ws[i].factors|
  }

  /** What the punctuation test makes of one word. */
  datatype Screen = Keep | Skip | Throw

  /** The first-character test: an empty word makes `at(0)` throw. */
  function CheckPunctuation(w: string, punctuation: set<char>): Screen
  {
    if |w| == 0 then Throw else if w[0] in punctuation then Skip else Keep
  }

  /** The punctuation test of a context word, when the filter is on. */
  function ScreenTrigger(cfg: Config, w: string): Screen
  {
    if cfg.ignorePunctuation then CheckPunctuation(w, cfg.punctuation) else Keep
  }

  /** A word after vocabulary restriction. */
  function Restrict(w: string, vocab: set<string>, unrestricted: bool): string
  {
    if !unrestricted && w !in vocab then "OTHER" else w
  }

  /** How one alignment point is treated before any feature is built. */
  datatype Resolution =
    | NonTerminalSkipped
    | PunctuationSkipped
    | EmptyWordThrown
    | Aligned(source: string, target: string)

  /** The non-terminal test, the punctuation test (source word first) and the
      vocabulary restriction of an aligned word pair. The non-terminal test of
      the target word looks at the SOURCE factor type, as the code does. */
  function Resolve(cfg: Config, ws: Word, wt: Word): Resolution
    requires cfg.factorTypeSource < |ws.factors| && cfg.factorTypeTarget < |wt.factors|
  {
    if cfg.factorTypeSource == 0 && ws.isNonTerminal then NonTerminalSkipped
    else if cfg.factorTypeSource == 0 && wt.isNonTerminal then NonTerminalSkipped
    else
      var sourceWord := ws.factors[cfg.factorTypeSource];
      var targetWord := wt.factors[cfg.factorTypeTarget];
      var screen :=
        if !cfg.ignorePunctuation then Keep
        else match CheckPunctuation(sourceWord, cfg.punctuation)
          case Keep => CheckPunctuation(targetWord, cfg.punctuation)
          case other => other;
      match screen
      case Throw => EmptyWordThrown
      case Skip => PunctuationSkipped
      case Keep => Aligned(Restrict(sourceWord, cfg.vocabSource, cfg.unrestricted),
                           Restrict(targetWord, cfg.vocabTarget, cfg.unrestricted))
  }

  /** The simple-mode feature of a resolved pair. */
  function SimplePart(cfg: Config, s: string, t: string): Emission
  {
    Emission(if cfg.simple then [Simple(s, t)] else [], false)
  }

  /** The source-context feature contributed by input position `p`, for the
      pair (`s`, `t`) at global source position `g`. */
  function SourceTriggerAt(cfg: Config, input: seq<Word>, g: nat, s: string, t: string, p: nat): Emission
    requires HasFactor(input, cfg.factorTypeSource) && p < |input|
  {
    if p == g then Nothing
    else
      var trigger := input[p].factors[cfg.factorTypeSource];
      match ScreenTrigger(cfg, trigger)
      case Throw => Emission([], true)
      case Skip => Nothing
      case Keep =>
        if cfg.unrestricted || trigger in cfg.vocabSource
        then Emission([SourceTrigger(trigger, p < g, s, t)], false)
        else Nothing
  }

  /** The source-context features of input positions 0 .. n-1. */
  function SourceContext(cfg: Config, input: seq<Word>, g: nat, s: string, t: string, n: nat): Emission
    requires HasFactor(input, cfg.factorTypeSource) && n <= |input|
  {
    if n == 0 then Nothing
    else Then(SourceContext(cfg, input, g, s, t, n - 1), SourceTriggerAt(cfg, input, g, s, t, n - 1))
  }

  /** One more input position of source-context mode, by what its trigger
      word makes of the punctuation test and the vocabulary. */
  lemma SourceContextStep(cfg: Config, input: seq<Word>, g: nat, s: string, t: string, p: nat)
    requires HasFactor(input, cfg.factorTypeSource) && p < |input|
    requires !SourceContext(cfg, input, g, s, t, p).thrown
    ensures var w, before, after := input[p].factors[cfg.factorTypeSource],
                                    SourceContext(cfg, input, g, s, t, p), SourceContext(cfg, input, g, s, t, p + 1);
            && (p == g ==> after == before)
            && (p != g && ScreenTrigger(cfg, w) == Throw ==> after == Emission(before.features, true))
            && (p != g && ScreenTrigger(cfg, w) == Skip ==> after == before)
            && (p != g && ScreenTrigger(cfg, w) == Keep && (cfg.unrestricted || w in cfg.vocabSource) ==>
                  after == Emission(before.features + [SourceTrigger(w, p < g, s, t)], false))
            && (p != g && ScreenTrigger(cfg, w) == Keep && !(cfg.unrestricted || w in cfg.vocabSource) ==> after == before)
  {
  }

  /** The target-context feature contributed by output position `p`. */
  function TargetTriggerAt(cfg: Config, output: seq<Word>, s: string, t: string, p: nat): Emission
    requires HasFactor(output, cfg.factorTypeTarget) && p < |output|
  {
    var trigger := output[p].factors[cfg.factorTypeTarget];
    match ScreenTrigger(cfg, trigger)
    case Throw => Emission([], true)
    case Skip => Nothing
    case Keep =>
      if cfg.unrestricted || trigger in cfg.vocabTarget
      then Emission([TargetTrigger(s, trigger, t)], false)
      else Nothing
  }

  /** The target-context features of output positions 0 .. n-1. */
  function TargetContext(cfg: Config, output: seq<Word>, s: string, t: string, n: nat): Emission
    requires HasFactor(output, cfg.factorTypeTarget) && n <= |output|
  {
    if n == 0 then Nothing
    else Then(TargetContext(cfg, output, s, t, n - 1), TargetTriggerAt(cfg, output, s, t, n - 1))
  }

  /** One more output position of target-context mode, by what its trigger
      word makes of the punctuation test and the vocabulary. */
  lemma TargetContextStep(cfg: Config, output: seq<Word>, s: string, t: string, p: nat)
    requires HasFactor(output, cfg.factorTypeTarget) && p < |output|
    requires !TargetContext(cfg, output, s, t, p).thrown
    ensures var w, before, after := output[p].factors[cfg.factorTypeTarget],
                                    TargetContext(cfg, output, s, t, p), TargetContext(cfg, output, s, t, p + 1);
            && (ScreenTrigger(cfg, w) == Throw ==> after == Emission(before.features, true))
            && (ScreenTrigger(cfg, w) == Skip ==> after == before)
            && (ScreenTrigger(cfg, w) == Keep && (cfg.unrestricted || w in cfg.vocabTarget) ==>
                  after == Emission(before.features + [TargetTrigger(s, w, t)], false))
            && (ScreenTrigger(cfg, w) == Keep && !(cfg.unrestricted || w in cfg.vocabTarget) ==> after == before)
  {
  }

  /** The sentence-start feature of source-context mode, for a pair at
      global source position `g`. */
  function SourceBoundaryPart(cfg: Config, g: nat, s: string, t: string): Emission
  {
    Emission(if cfg.sourceContext && g == 0 then [SourceBoundary(s, t)] else [], false)
  }

  /** The trigger features of source-context mode: one per qualifying input
      position. */
  function SourceContextPart(cfg: Config, input: seq<Word>, g: nat, s: string, t: string): Emission
    requires HasFactor(input, cfg.factorTypeSource)
  {
    if cfg.sourceContext then SourceContext(cfg, input, g, s, t, |input|) else Nothing
  }

  /** The sentence-start feature of target-context mode, for a pair at
      global target position `g`. */
  function TargetBoundaryPart(cfg: Config, g: nat, s: string, t: string): Emission
  {
    Emission(if cfg.targetContext && g == 0 then [TargetBoundary(s, t)] else [], false)
  }

  /** The trigger features of target-context mode: one per qualifying output
      position before `g`. */
  function TargetContextPart(cfg: Config, output: seq<Word>, g: nat, s: string, t: string): Emission
    requires HasFactor(output, cfg.factorTypeTarget) && g <= |output|
  {
    if cfg.targetContext then TargetContext(cfg, output, s, t, g) else Nothing
  }

  /** What the phrase-based feature function may assume of its host: alignment
      indices inside the phrases, the configured source factor on every word
      of the source phrase and the input, the configured target factor on
      every word of the target phrase and the output, and the current target
      phrase inside the output. */
  predicate WellFormed(cfg: Config, h: PhraseHypothesis, input: seq<Word>)
  {
    && (forall k :: 0 <= k < |h.alignment| ==>
          h.alignment[k].0 < |h.sourcePhrase| && h.alignment[k].1 < |h.targetPhrase|)
    && HasFactor(h.sourcePhrase, cfg.factorTypeSource)
    && HasFactor(h.targetPhrase, cfg.factorTypeTarget)
    && HasFactor(input, cfg.factorTypeSource)
    && HasFactor(h.output, cfg.factorTypeTarget)
    && h.targetStart + |h.targetPhrase| <= |h.output|
  }

  /** What an aligned pair (`s`, `t`) at global source position `gs` emits
      in simple and source-context mode, in that order. */
  function SourceSide(cfg: Config, input: seq<Word>, gs: nat, s: string, t: string): Emission
    requires HasFactor(input, cfg.factorTypeSource)
  {
    Then(Then(SimplePart(cfg, s, t), SourceBoundaryPart(cfg, gs, s, t)), SourceContextPart(cfg, input, gs, s, t))
  }

  /** What an aligned pair (`s`, `t`) at global target position `gt` emits
      in target-context mode. */
  function TargetSide(cfg: Config, output: seq<Word>, gt: nat, s: string, t: string): Emission
    requires HasFactor(output, cfg.factorTypeTarget) && gt <= |output|
  {
    Then(TargetBoundaryPart(cfg, gt, s, t), TargetContextPart(cfg, output, gt, s, t))
  }

  /** Everything an aligned pair (`s`, `t`) at global positions `gs` and
      `gt` emits, in the order of the modes. */
  function AlignedFeatures(cfg: Config, input: seq<Word>, output: seq<Word>, gs: nat, gt: nat, s: string, t: string): Emission
    requires HasFactor(input, cfg.factorTypeSource) && HasFactor(output, cfg.factorTypeTarget) && gt <= |output|
  {
    Then(SourceSide(cfg, input, gs, s, t), TargetSide(cfg, output, gt, s, t))
  }

  /** What an alignment point emits once its pair has been resolved to `r`. */
  function ResolvedFeatures(cfg: Config, input: seq<Word>, output: seq<Word>, gs: nat, gt: nat, r: Resolution): Emission
    requires HasFactor(input, cfg.factorTypeSource) && HasFactor(output, cfg.factorTypeTarget) && gt <= |output|
  {
    match r
    case Aligned(s, t) => AlignedFeatures(cfg, input, output, gs, gt, s, t)
    case EmptyWordThrown => Emission([], true)
    case _ => Nothing
  }

  /** Everything alignment point `k` of a phrase-based step emits. */
  function PointFeatures(cfg: Config, h: PhraseHypothesis, input: seq<Word>, k: nat): Emission
    requires WellFormed(cfg, h, input) && k < |h.alignment|
  {
    var si, ti := h.alignment[k].0, h.alignment[k].1;
    ResolvedFeatures(cfg, input, h.output, h.sourceStart + si, h.targetStart + ti,
                     Resolve(cfg, h.sourcePhrase[si], h.targetPhrase[ti]))
  }

  /** Everything the first `n` alignment points of a phrase-based step emit. */
  function PhraseFeatures(cfg: Config, h: PhraseHypothesis, input: seq<Word>, n: nat): Emission
    requires WellFormed(cfg, h, input) && n <= |h.alignment|
  {
    if n == 0 then Nothing
    else Then(PhraseFeatures(cfg, h, input, n - 1), PointFeatures(cfg, h, input, n - 1))
  }

  /** What the chart feature function may assume of its host. */
  predicate ChartWellFormed(cfg: Config, h: ChartHypothesis)
  {
    && (forall k :: 0 <= k < |h.terminalAlignment| ==>
          h.terminalAlignment[k].0 < |h.sourcePhrase| && h.terminalAlignment[k].1 < |h.targetPhrase|)
    && HasFactor(h.sourcePhrase, cfg.factorTypeSource)
    && HasFactor(h.targetPhrase, cfg.factorTypeTarget)
  }

  /** Everything terminal alignment point `k` of a chart step emits. */
  function ChartPointFeatures(cfg: Config, h: ChartHypothesis, k: nat): Emission
    requires ChartWellFormed(cfg, h) && k < |h.terminalAlignment|
  {
    var si, ti := h.terminalAlignment[k].0, h.terminalAlignment[k].1;
    ChartResolvedFeatures(cfg, Resolve(cfg, h.sourcePhrase[si], h.targetPhrase[ti]))
  }

  /** What a terminal alignment point emits once its pair has been resolved to `r`. */
  function ChartResolvedFeatures(cfg: Config, r: Resolution): Emission
  {
    match r
    case Aligned(s, t) => SimplePart(cfg, s, t)
    case EmptyWordThrown => Emission([], true)
    case _ => Nothing
  }

  /** Everything the first `n` terminal alignment points of a chart step emit. */
  function ChartFeatures(cfg: Config, h: ChartHypothesis, n: nat): Emission
    requires ChartWellFormed(cfg, h) && n <= |h.terminalAlignment|
  {
    if n == 0 then Nothing
    else Then(ChartFeatures(cfg, h, n - 1), ChartPointFeatures(cfg, h, n - 1))
  }

  /** Once a fold of emissions has thrown, later steps add nothing. The same
      fact for the four folds above. */
  lemma {:induction false} SourceContextThrownSticks(cfg: Config, input: seq<Word>, g: nat, s: string, t: string, n: nat, m: nat)
    requires HasFactor(input, cfg.factorTypeSource) && n <= m <= |input|
    requires SourceContext(cfg, input, g, s, t, n).thrown
    ensures SourceContext(cfg, input, g, s, t, m) == SourceContext(cfg, input, g, s, t, n)
  {
    if m > n { SourceContextThrownSticks(cfg, input, g, s, t, n, m - 1); }
  }

  lemma {:induction false} TargetContextThrownSticks(cfg: Config, output: seq<Word>, s: string, t: string, n: nat, m: nat)
    requires HasFactor(output, cfg.factorTypeTarget) && n <= m <= |output|
    requires TargetContext(cfg, output, s, t, n).thrown
    ensures TargetContext(cfg, output, s, t, m) == TargetContext(cfg, output, s, t, n)
  {
    if m > n { TargetContextThrownSticks(cfg, output, s, t, n, m - 1); }
  }

  lemma {:induction false} PhraseThrownSticks(cfg: Config, h: PhraseHypothesis, input: seq<Word>, n: nat, m: nat)
    requires WellFormed(cfg, h, input) && n <= m <= |h.alignment|
    requires PhraseFeatures(cfg, h, input, n).thrown
    ensures PhraseFeatures(cfg, h, input, m) == PhraseFeatures(cfg, h, input, n)
  {
    if m > n { PhraseThrownSticks(cfg, h, input, n, m - 1); }
  }

  /** Where the loop of source-context mode stops, what it has added is
      what the whole loop emits. */
  lemma SourceContextLoopEnd(cfg: Config, input: seq<Word>, g: nat, s: string, t: string, k: nat,
                             before: map<string, int>, after: map<string, int>, ok: bool)
    requires HasFactor(input, cfg.factorTypeSource) && k <= |input| && (ok ==> k == |input|)
    requires Accumulated(before, after, SourceContext(cfg, input, g, s, t, k), ok)
    ensures Accumulated(before, after, SourceContext(cfg, input, g, s, t, |input|), ok)
  {
    if !ok {
      SourceContextThrownSticks(cfg, input, g, s, t, k, |input|);
    }
  }

  /** Where the loop of target-context mode stops at or before position
      `n`, what it has added is what the loop up to `n` emits. */
  lemma TargetContextLoopEnd(cfg: Config, output: seq<Word>, s: string, t: string, k: nat, n: nat,
                             before: map<string, int>, after: map<string, int>, ok: bool)
    requires HasFactor(output, cfg.factorTypeTarget) && k <= n <= |output| && (ok ==> k == n)
    requires Accumulated(before, after, TargetContext(cfg, output, s, t, k), ok)
    ensures Accumulated(before, after, TargetContext(cfg, output, s, t, n), ok)
  {
    if !ok {
      TargetContextThrownSticks(cfg, output, s, t, k, n);
    }
  }

  /** Where the alignment-point loop stops, what it has added is what the
      whole step emits: it ran to the end, or a point threw. */
  lemma PhraseLoopEnd(cfg: Config, h: PhraseHypothesis, input: seq<Word>, k: nat,
                      before: map<string, int>, after: map<string, int>, ok: bool)
    requires WellFormed(cfg, h, input) && k <= |h.alignment| && (ok ==> k == |h.alignment|)
    requires Accumulated(before, after, PhraseFeatures(cfg, h, input, k), ok)
    ensures Accumulated(before, after, PhraseFeatures(cfg, h, input, |h.alignment|), ok)
  {
    if !ok {
      PhraseThrownSticks(cfg, h, input, k, |h.alignment|);
    }
  }

  lemma {:induction false} ChartThrownSticks(cfg: Config, h: ChartHypothesis, n: nat, m: nat)
    requires ChartWellFormed(cfg, h) && n <= m <= |h.terminalAlignment|
    requires ChartFeatures(cfg, h, n).thrown
    ensures ChartFeatures(cfg, h, m) == ChartFeatures(cfg, h, n)
  {
    if m > n { ChartThrownSticks(cfg, h, n, m - 1); }
  }

  /** Where the terminal-alignment loop stops, what it has added is what
      the whole chart step emits. */
  lemma ChartLoopEnd(cfg: Config, h: ChartHypothesis, k: nat,
                     before: map<string, int>, after: map<string, int>, ok: bool)
    requires ChartWellFormed(cfg, h) && k <= |h.terminalAlignment| && (ok ==> k == |h.terminalAlignment|)
    requires Accumulated(before, after, ChartFeatures(cfg, h, k), ok)
    ensures Accumulated(before, after, ChartFeatures(cfg, h, |h.terminalAlignment|), ok)
  {
    if !ok {
      ChartThrownSticks(cfg, h, k, |h.terminalAlignment|);
    }
  }

  /** Rendering one more feature renders one more name. */
  lemma NamesSnoc(fs: seq<Feature>, f: Feature)
    ensures Names(fs + [f]) == Names(fs) + [Name(f)]
  {
    assert (fs + [f])[..|fs|] == fs;
  }

  /** Rendering a concatenation renders the two parts. */
  lemma {:induction false} NamesAppend(a: seq<Feature>, b: seq<Feature>)
    ensures Names(a + b) == Names(a) + Names(b)
  {
    if b == [] {
      assert a + b == a;
    } else {
      var b' := b[..|b| - 1];
      assert (a + b)[..|a + b| - 1] == a + b';
      NamesAppend(a, b');
    }
  }

  /** Accumulating the names of `a` and then those of `b` accumulates the
      names of `a + b`. */
  lemma AddAllNames(m: map<string, int>, a: seq<Feature>, b: seq<Feature>)
    ensures AddAll(AddAll(m, Names(a)), Names(b)) == AddAll(m, Names(a + b))
  {
    NamesAppend(a, b);
    AddAllAppend(m, Names(a), Names(b));
  }

  /** The accumulator `after` is `before` with 1 added for every feature
      `e` emits, and `ok` tells whether `e` ran to completion. */
  ghost predicate Accumulated(before: map<string, int>, after: map<string, int>, e: Emission, ok: bool)
  {
    ok == !e.thrown && after == AddAll(before, Names(e.features))
  }
}
