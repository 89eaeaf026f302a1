/** components/LogoDisplay.tsx: the progress-message cycle shown while a
    logo is generated, the download file name, and which of the three views
    is shown. The two-second timer is not modelled; a tick is a transition. */
module LogoDisplay {
  import opened Common

  // ---------------------------------------------------------------------------
  // Progress phases
  // ---------------------------------------------------------------------------

  const Phases: seq<string> := [
    "Analyzing brand essence...",
    "Sketching initial concepts...",
    "Applying color palette...",
    "Vectorizing details...",
    "Finalizing render..."
  ]

  const InitialMessage := "Initializing creative studio..."

  /** The shown message, whether the effect is running, and the interval's
      phase counter `i` while it runs. */
  datatype PhaseState = PhaseState(progressMsg: string, generating: bool, phase: nat)

  const InitialPhaseState := PhaseState(InitialMessage, false, 0)

  /** Before the first generation the studio message shows; the first
      generation opens on the first phase. */
  lemma FirstGenerationStartsAtFirstPhase()
    ensures PhaseInvariant(InitialPhaseState) && InitialPhaseState.progressMsg == InitialMessage
    ensures SetGenerating(InitialPhaseState, true) == PhaseState(Phases[0], true, 0)
    ensures Ticks(SetGenerating(InitialPhaseState, true), |Phases|) == SetGenerating(InitialPhaseState, true)
  {
    TicksCycle(InitialPhaseState, |Phases|);
  }

  /** While generating, the counter is a valid phase index and the message
      is that phase's text. */
  predicate PhaseInvariant(st: PhaseState) {
    st.generating ==> st.phase < |Phases| && st.progressMsg == Phases[st.phase]
  }

  /** The effect keyed on `isGenerating`: it runs only when the flag changes.
      Turning on restarts at phase 0; turning off clears the interval and
      leaves the last message. */
  function SetGenerating(st: PhaseState, isGenerating: bool): (r: PhaseState)
    ensures r.generating == isGenerating
    ensures isGenerating && !st.generating ==> r.phase == 0 && r.progressMsg == Phases[0]
    ensures isGenerating == st.generating ==> r == st
    ensures !isGenerating ==> r.progressMsg == st.progressMsg
    ensures PhaseInvariant(st) ==> PhaseInvariant(r)
  {
    if isGenerating == st.generating then st
    else if isGenerating then PhaseState(Phases[0], true, 0)
    else st.(generating := false)
  }

  /** One interval tick: the counter advances to the next phase, wrapping
      after the last, and that phase's message is shown. Without a running
      interval nothing happens. */
  function Tick(st: PhaseState): (r: PhaseState)
    ensures PhaseInvariant(st) ==> PhaseInvariant(r)
    ensures r.generating == st.generating
    ensures !st.generating ==> r == st
    ensures st.generating ==> r.phase == (st.phase + 1) % |Phases|
  {
    if !st.generating then st
    else
      var i := (st.phase + 1) % |Phases|;
      PhaseState(Phases[i], true, i)
  }

  function Ticks(st: PhaseState, k: nat): PhaseState {
    if k == 0 then st else Tick(Ticks(st, k - 1))
  }

  /** After `k` ticks of a freshly started cycle the message is phase
      `k mod 5`; the cycle returns to its start every five ticks. */
  lemma {:induction false} TicksCycle(st: PhaseState, k: nat)
    requires !st.generating
    ensures var r := Ticks(SetGenerating(st, true), k);
      r.generating && r.phase == k % |Phases| && r.progressMsg == Phases[k % |Phases|]
  {
    if k > 0 {
      TicksCycle(st, k - 1);
      var prev := Ticks(SetGenerating(st, true), k - 1);
      assert Ticks(SetGenerating(st, true), k) == Tick(prev);
      PhaseStep(k);
    }
  }

  /** The counter after `k - 1` ticks, advanced once, is the counter after `k`. */
  lemma PhaseStep(k: nat)
    requires k > 0
    ensures ((k - 1) % |Phases| + 1) % |Phases| == k % |Phases|
  {
    assert |Phases| == 5;
  }

  // ---------------------------------------------------------------------------
  // Download file name
  // ---------------------------------------------------------------------------

  /** The characters JavaScript's `\s` matches. */
  predicate IsWhitespace(c: char) {
    || c == ' ' || c == '\t' || c == '\n' || c == '\r' || c == '\U{000B}' || c == '\U{000C}'
    || c == '\U{00A0}' || c == '\U{1680}' || ('\U{2000}' <= c <= '\U{200A}')
    || c == '\U{2028}' || c == '\U{2029}' || c == '\U{202F}' || c == '\U{205F}'
    || c == '\U{3000}' || c == '\U{FEFF}'
  }

  predicate NoWhitespace(s: string) {
    forall i :: 0 <= i < |s| ==> !IsWhitespace(s[i])
  }

  /** Drops the whitespace run at the front of `s`. */
  function SkipWhitespace(s: string): (r: string)
    ensures |r| <= |s|
    ensures s != [] && IsWhitespace(s[0]) ==> |r| < |s|
    ensures r == [] || !IsWhitespace(r[0])
    ensures r == s[|s| - |r|..]
  {
    if s != [] && IsWhitespace(s[0]) then
      var r := SkipWhitespace(s[1..]);
      assert s[1..][|s| - 1 - |r|..] == s[|s| - |r|..];
      r
    else s
  }

  /** The global replacement of whitespace runs by an underscore: each
      maximal run of whitespace becomes one `_`. */
  function CollapseWhitespace(s: string): (r: string)
    ensures NoWhitespace(r)
    ensures |r| <= |s|
    decreases |s|
  {
    if s == [] then []
    else if IsWhitespace(s[0]) then
      var rest := CollapseWhitespace(SkipWhitespace(s));
      assert forall i :: 0 < i < |"_" + rest| ==> ("_" + rest)[i] == rest[i - 1];
      "_" + rest
    else
      var rest := CollapseWhitespace(s[1..]);
      assert forall i :: 0 < i < |[s[0]] + rest| ==> ([s[0]] + rest)[i] == rest[i - 1];
      [s[0]] + rest
  }

  /** The characters that are neither whitespace nor underscores, in order. */
  function Visible(s: string): string {
    if s == [] then []
    else (if IsWhitespace(s[0]) || s[0] == '_' then [] else [s[0]]) + Visible(s[1..])
  }

  lemma {:induction false} VisibleSkip(s: string)
    ensures Visible(SkipWhitespace(s)) == Visible(s)
  {
    if s != [] && IsWhitespace(s[0]) {
      VisibleSkip(s[1..]);
    }
  }

  /** Collapsing keeps every other character, in its original order. */
  lemma {:induction false} CollapseKeepsVisible(s: string)
    ensures Visible(CollapseWhitespace(s)) == Visible(s)
    decreases |s|
  {
    if s == [] {
    } else if IsWhitespace(s[0]) {
      var t := SkipWhitespace(s);
      CollapseKeepsVisible(t);
      VisibleSkip(s);
      assert ("_" + CollapseWhitespace(t))[1..] == CollapseWhitespace(t);
    } else {
      CollapseKeepsVisible(s[1..]);
      assert ([s[0]] + CollapseWhitespace(s[1..]))[1..] == CollapseWhitespace(s[1..]);
    }
  }

  /** A name without whitespace is left as it is, so collapsing is
      idempotent. */
  lemma {:induction false} CollapseFixesClean(s: string)
    requires NoWhitespace(s)
    ensures CollapseWhitespace(s) == s
    decreases |s|
  {
    if s != [] {
      assert !IsWhitespace(s[0]);
      CollapseFixesClean(s[1..]);
    }
  }

  lemma CollapseIdempotent(s: string)
    ensures CollapseWhitespace(CollapseWhitespace(s)) == CollapseWhitespace(s)
  {
    CollapseFixesClean(CollapseWhitespace(s));
  }

  const LogoSuffix := "_logo.png"

  /** A character-at-a-time reading of the same replacement: a whitespace
      character emits `_` unless the previous character was whitespace too. */
  function ReplaceRuns(s: string, afterWhitespace: bool): string {
    if s == [] then []
    else if IsWhitespace(s[0]) then (if afterWhitespace then [] else "_") + ReplaceRuns(s[1..], true)
    else [s[0]] + ReplaceRuns(s[1..], false)
  }

  lemma {:induction false} ReplaceRunsSkip(s: string)
    ensures ReplaceRuns(s, true) == ReplaceRuns(SkipWhitespace(s), false)
  {
    if s != [] && IsWhitespace(s[0]) {
      ReplaceRunsSkip(s[1..]);
    }
  }

  /** Collapsing runs is the same as the character-at-a-time replacement. */
  lemma {:induction false} CollapseIsReplaceRuns(s: string)
    ensures CollapseWhitespace(s) == ReplaceRuns(s, false)
    decreases |s|
  {
    if s == [] {
    } else if IsWhitespace(s[0]) {
      CollapseIsReplaceRuns(SkipWhitespace(s));
      ReplaceRunsSkip(s[1..]);
      assert SkipWhitespace(s) == SkipWhitespace(s[1..]);
    } else {
      CollapseIsReplaceRuns(s[1..]);
    }
  }

  /** Printable ASCII other than the space is not whitespace. */
  lemma PrintableIsNotWhitespace(c: char)
    requires '!' <= c <= '~'
    ensures !IsWhitespace(c)
  {
  }

  /** The download name of the logo: the company name with whitespace runs
      collapsed, then `_logo.png`. */
  function DownloadFileName(companyName: string): (r: string)
    ensures NoWhitespace(r)
    ensures IsSuffix(LogoSuffix, r)
    ensures Visible(r[..|r| - |LogoSuffix|]) == Visible(companyName)
    ensures r == ReplaceRuns(companyName, false) + LogoSuffix
  {
    CollapseKeepsVisible(companyName);
    CollapseIsReplaceRuns(companyName);
    var head := CollapseWhitespace(companyName);
    var r := head + LogoSuffix;
    forall i | 0 <= i < |LogoSuffix| ensures !IsWhitespace(LogoSuffix[i]) {
      PrintableIsNotWhitespace(LogoSuffix[i]);
    }
    assert forall i :: |head| <= i < |r| ==> r[i] == LogoSuffix[i - |head|];
    assert r[..|r| - |LogoSuffix|] == head;
    r
  }

  // ---------------------------------------------------------------------------
  // Views
  // ---------------------------------------------------------------------------

  datatype LogoView = LogoView(placeholder: bool, progress: bool, imageView: bool)

  /** The placeholder needs neither an image nor a running generation; the
      progress and image views follow their own flags independently. */
  function ViewFor(hasImage: bool, isGenerating: bool): (v: LogoView)
    ensures v.placeholder <==> !hasImage && !isGenerating
    ensures v.progress <==> isGenerating
    ensures v.imageView <==> hasImage
    ensures v.placeholder || v.progress || v.imageView
    ensures v.placeholder ==> !v.progress && !v.imageView
  {
    LogoView(!hasImage && !isGenerating, isGenerating, hasImage)
  }
}
