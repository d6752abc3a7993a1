/**
  The flag-annotated prompt. Every mode appends its settings to the user's
  text as space-separated flag tokens; the four modes differ in the flag
  names, in the third setting (aspect ratio, the fixed "adaptive", or the
  content-fill switch) and in how the watermark is written. This module
  states the token table once, renders it, and gives the decoder that reads
  the settings back from the words of the prompt.
*/
module Flags {
  import opened Wrappers
  import opened Text

  /** How the watermark setting appears: a bare `--no-watermark` when off, or `--wm true|false`. */
  datatype WatermarkStyle = NoWatermarkSwitch | WmBoolean

  /** The flag names of one family of modes. */
  datatype Dialect = Dialect(resolutionFlag: string, durationFlag: string, thirdFlag: string, style: WatermarkStyle)

  /** Text-to-video and image-to-video. */
  const LongDialect := Dialect("--resolution", "--duration", "--ratio", NoWatermarkSwitch)
  /** First-last-frame. */
  const FrameDialect := Dialect("--rs", "--dur", "--cf", NoWatermarkSwitch)
  /** Image references. */
  const RefsDialect := Dialect("--rs", "--dur", "--rt", WmBoolean)

  /** The dialects the client uses: none of them names its third flag `--seed`. */
  predicate KnownDialect(d: Dialect)
  {
    d == LongDialect || d == FrameDialect || d == RefsDialect
  }

  /** `str(b).lower()`. */
  function BoolWord(b: bool): string
  {
    if b then "true" else "false"
  }

  /**
    The UI's seed mapping: -1 means "let the server choose" and sends no
    seed; any other whole number is sent as it is.
  */
  function SeedValue(uiSeed: int): (seed: Option<int>)
    ensures seed.None? <==> uiSeed == -1
    ensures seed.Some? ==> seed.value == uiSeed
  {
    if uiSeed == -1 then None else Some(uiSeed)
  }

  function SeedTokens(seed: Option<int>): seq<string>
  {
    if seed.Some? then ["--seed", DecimalString(seed.value)] else []
  }

  function WatermarkTokens(style: WatermarkStyle, watermark: bool): seq<string>
  {
    match style
    case NoWatermarkSwitch => if watermark then [] else ["--no-watermark"]
    case WmBoolean => ["--wm", BoolWord(watermark)]
  }

  /** The flag tokens of a prompt, in the order they are appended. */
  function FlagTokens(d: Dialect, resolution: string, duration: int, third: string, seed: Option<int>, watermark: bool): seq<string>
  {
    [d.resolutionFlag, resolution, d.durationFlag, DecimalString(duration), d.thirdFlag, third]
      + SeedTokens(seed) + WatermarkTokens(d.style, watermark)
  }

  /**
    The user's text followed by the flags. With `alwaysSpace` the separating
    space is written even after an empty prompt (text-to-video); otherwise an
    empty prompt yields the flags alone.
  */
  function Annotate(prompt: string, tokens: seq<string>, alwaysSpace: bool): string
  {
    if alwaysSpace || prompt != "" then prompt + " " + Unwords(tokens) else Unwords(tokens)
  }

  function TextToVideoPrompt(prompt: string, resolution: string, duration: int, ratio: string, seed: Option<int>, watermark: bool): string
  {
    Annotate(prompt, FlagTokens(LongDialect, resolution, duration, ratio, seed, watermark), true)
  }

  /** Image-to-video always asks for the adaptive ratio; it has no ratio input. */
  function ImageToVideoPrompt(prompt: string, resolution: string, duration: int, seed: Option<int>, watermark: bool): string
  {
    Annotate(prompt, FlagTokens(LongDialect, resolution, duration, "adaptive", seed, watermark), false)
  }

  function FirstLastFramePrompt(prompt: string, resolution: string, duration: int, cf: bool, seed: Option<int>, watermark: bool): string
  {
    Annotate(prompt, FlagTokens(FrameDialect, resolution, duration, BoolWord(cf), seed, watermark), false)
  }

  function ImageRefsPrompt(prompt: string, resolution: string, duration: int, ratio: string, seed: Option<int>, watermark: bool): string
  {
    Annotate(prompt, FlagTokens(RefsDialect, resolution, duration, ratio, seed, watermark), false)
  }

  /** The seed flag as it is appended to the prompt text. */
  function SeedText(seed: Option<int>): string
  {
    if seed.Some? then " --seed " + DecimalString(seed.value) else ""
  }

  /** The watermark flag as it is appended to the prompt text. */
  function WatermarkText(style: WatermarkStyle, watermark: bool): string
  {
    match style
    case NoWatermarkSwitch => if watermark then "" else " --no-watermark"
    case WmBoolean => " --wm " + BoolWord(watermark)
  }

  /** The six fixed tokens rendered with single spaces. */
  lemma RenderFixed(f1: string, v1: string, f2: string, v2: string, f3: string, v3: string)
    ensures Unwords([f1, v1, f2, v2, f3, v3]) == f1 + " " + v1 + " " + f2 + " " + v2 + " " + f3 + " " + v3
  {
    var fixed := [f1, v1, f2, v2, f3, v3];
    assert fixed == [f1] + fixed[1..] && fixed[1..] == [v1] + fixed[2..];
    assert fixed[2..] == [f2] + fixed[3..] && fixed[3..] == [v2] + fixed[4..];
    assert fixed[4..] == [f3] + fixed[5..] && fixed[5..] == [v3];
    JoinCons(f3, [v3], " ");
    JoinCons(v2, fixed[4..], " ");
    JoinCons(f2, fixed[3..], " ");
    JoinCons(v1, fixed[2..], " ");
    JoinCons(f1, fixed[1..], " ");
  }

  /** Appending a possibly empty token list adds its rendering after one space, or nothing. */
  lemma RenderAppend(a: seq<string>, b: seq<string>, bText: string)
    requires a != []
    requires b == [] ==> bText == ""
    requires b != [] ==> bText == " " + Unwords(b)
    ensures Unwords(a + b) == Unwords(a) + bText
  {
    if b == [] {
      assert a + b == a;
    } else {
      JoinAppend(a, b, " ");
    }
  }

  /** The three settings every prompt carries, as text. */
  function FixedText(d: Dialect, resolution: string, duration: int, third: string): string
  {
    d.resolutionFlag + " " + resolution + " " + d.durationFlag + " " + DecimalString(duration) + " " + d.thirdFlag + " " + third
  }

  /** All the flags as they are appended to the prompt text. */
  function FlagText(d: Dialect, resolution: string, duration: int, third: string, seed: Option<int>, watermark: bool): string
  {
    FixedText(d, resolution, duration, third) + SeedText(seed) + WatermarkText(d.style, watermark)
  }

  /** The prompt text: the user's text (if any) and the fixed settings, then the seed and watermark flags. */
  lemma AnnotatedText(prompt: string, d: Dialect, resolution: string, duration: int, third: string, seed: Option<int>,
                      watermark: bool, alwaysSpace: bool)
    ensures Annotate(prompt, FlagTokens(d, resolution, duration, third, seed, watermark), alwaysSpace)
      == (if alwaysSpace || prompt != "" then prompt + " " else "") + FlagText(d, resolution, duration, third, seed, watermark)
  {
    var flags := FlagText(d, resolution, duration, third, seed, watermark);
    RenderFlagTokens(d, resolution, duration, third, seed, watermark);
    assert Unwords(FlagTokens(d, resolution, duration, third, seed, watermark)) == flags;
    if !(alwaysSpace || prompt != "") {
      assert "" + flags == flags;
    }
  }

  /** The token table rendered with single spaces is the text the builders append piece by piece. */
  lemma RenderFlagTokens(d: Dialect, resolution: string, duration: int, third: string, seed: Option<int>, watermark: bool)
    ensures Unwords(FlagTokens(d, resolution, duration, third, seed, watermark)) == FlagText(d, resolution, duration, third, seed, watermark)
  {
    var fixed := [d.resolutionFlag, resolution, d.durationFlag, DecimalString(duration), d.thirdFlag, third];
    RenderFixed(d.resolutionFlag, resolution, d.durationFlag, DecimalString(duration), d.thirdFlag, third);
    var st := SeedTokens(seed);
    var wt := WatermarkTokens(d.style, watermark);
    if seed.Some? {
      JoinCons("--seed", [DecimalString(seed.value)], " ");
    }
    RenderAppend(fixed, st, SeedText(seed));
    if |wt| == 2 {
      JoinCons(wt[0], [wt[1]], " ");
    }
    RenderAppend(fixed + st, wt, WatermarkText(d.style, watermark));
    assert FlagTokens(d, resolution, duration, third, seed, watermark) == (fixed + st) + wt;
  }

  // ----- reading the flags back -----

  /** What a reader of the prompt recovers: the user's words and every setting. */
  datatype Decoded = Decoded(words: seq<string>, resolution: string, duration: int, third: string, seed: Option<int>, watermark: bool)

  /** Peels the watermark tokens off the end of `w`. */
  function SplitWatermark(style: WatermarkStyle, w: seq<string>): Option<(bool, seq<string>)>
  {
    match style
    case NoWatermarkSwitch =>
      if |w| > 0 && w[|w| - 1] == "--no-watermark" then Some((false, w[..|w| - 1])) else Some((true, w))
    case WmBoolean =>
      if |w| >= 2 && w[|w| - 2] == "--wm" && w[|w| - 1] in {"true", "false"} then
        Some((w[|w| - 1] == "true", w[..|w| - 2]))
      else None
  }

  /** Peels an optional `--seed S` off the end of `w`. */
  function SplitSeed(w: seq<string>): Option<(Option<int>, seq<string>)>
  {
    if |w| >= 2 && w[|w| - 2] == "--seed" then
      (if ParseDecimal(w[|w| - 1]).Some? then Some((ParseDecimal(w[|w| - 1]), w[..|w| - 2])) else None)
    else Some((None, w))
  }

  /** Reads the settings of dialect `d` from the end of the word list `w`. */
  function Decode(d: Dialect, w: seq<string>): Option<Decoded>
  {
    var a := SplitWatermark(d.style, w);
    if a.None? then None
    else
      var b := SplitSeed(a.value.1);
      if b.None? then None
      else
        var v := b.value.1;
        var n := |v|;
        if n >= 6 && v[n - 6] == d.resolutionFlag && v[n - 4] == d.durationFlag && v[n - 2] == d.thirdFlag
           && ParseDecimal(v[n - 3]).Some? then
          Some(Decoded(v[..n - 6], v[n - 5], ParseDecimal(v[n - 3]).value, v[n - 1], b.value.0, a.value.0))
        else None
  }

  /** The flag names of the client's dialects: tokens, and never `--seed` or `--no-watermark`. */
  lemma DialectNames(d: Dialect)
    requires KnownDialect(d)
    ensures IsToken(d.resolutionFlag) && IsToken(d.durationFlag) && IsToken(d.thirdFlag)
    ensures d.resolutionFlag != "--seed" && d.durationFlag != "--seed" && d.thirdFlag != "--seed"
    ensures d.resolutionFlag != "--no-watermark" && d.durationFlag != "--no-watermark" && d.thirdFlag != "--no-watermark"
  {
  }

  /** A decimal rendering is a token and is neither flag that the decoder looks for. */
  lemma DecimalNotFlag(n: int)
    ensures IsToken(DecimalString(n))
    ensures DecimalString(n) != "--seed" && DecimalString(n) != "--no-watermark"
  {
    DecimalShape(n);
    assert "--seed"[1] == '-' && "--no-watermark"[1] == '-';
  }

  lemma FlagTokensAreTokens(d: Dialect, resolution: string, duration: int, third: string, seed: Option<int>, watermark: bool)
    requires KnownDialect(d) && IsToken(resolution) && IsToken(third)
    ensures forall i :: 0 <= i < |FlagTokens(d, resolution, duration, third, seed, watermark)| ==>
      IsToken(FlagTokens(d, resolution, duration, third, seed, watermark)[i])
  {
    DialectNames(d);
    DecimalNotFlag(duration);
    var fixed := [d.resolutionFlag, resolution, d.durationFlag, DecimalString(duration), d.thirdFlag, third];
    var st := SeedTokens(seed);
    var wt := WatermarkTokens(d.style, watermark);
    assert forall i :: 0 <= i < |st| ==> IsToken(st[i]) by {
      if seed.Some? { DecimalNotFlag(seed.value); }
    }
    assert forall i :: 0 <= i < |wt| ==> IsToken(wt[i]);
    var t := fixed + st + wt;
    assert t == FlagTokens(d, resolution, duration, third, seed, watermark);
    forall i | 0 <= i < |t| ensures IsToken(t[i]) {
      if i < |fixed| { assert t[i] == fixed[i]; }
      else if i < |fixed| + |st| { assert t[i] == st[i - |fixed|]; }
      else { assert t[i] == wt[i - |fixed| - |st|]; }
    }
  }

  /**
    The words of an annotated prompt are the words of the user's text
    followed by exactly the flag tokens, whichever way the space is handled.
  */
  lemma WordsOfAnnotate(prompt: string, tokens: seq<string>, alwaysSpace: bool)
    requires forall i :: 0 <= i < |tokens| ==> IsToken(tokens[i])
    ensures Words(Annotate(prompt, tokens, alwaysSpace)) == Words(prompt) + tokens
  {
    if alwaysSpace || prompt != "" {
      WordsAfterPrefix(prompt, tokens);
    } else {
      WordsOfUnwords(tokens);
      assert Words(prompt) == [];
    }
  }

  lemma SplitWatermarkTokens(style: WatermarkStyle, v: seq<string>, watermark: bool)
    requires style == NoWatermarkSwitch && watermark ==> v != [] && v[|v| - 1] != "--no-watermark"
    ensures SplitWatermark(style, v + WatermarkTokens(style, watermark)) == Some((watermark, v))
  {
    var w := v + WatermarkTokens(style, watermark);
    match style {
      case NoWatermarkSwitch =>
        if watermark {
          assert w == v;
        } else {
          assert w[..|w| - 1] == v;
        }
      case WmBoolean =>
        assert w[..|w| - 2] == v;
        assert w[|w| - 1] == BoolWord(watermark);
    }
  }

  lemma SplitSeedTokens(v: seq<string>, seed: Option<int>)
    requires |v| >= 2 && v[|v| - 2] != "--seed"
    ensures SplitSeed(v + SeedTokens(seed)) == Some((seed, v))
  {
    if seed.Some? {
      DecimalRoundTrip(seed.value);
      var w := v + SeedTokens(seed);
      assert w[..|w| - 2] == v;
      assert w[|w| - 1] == DecimalString(seed.value);
    } else {
      assert v + SeedTokens(seed) == v;
    }
  }

  lemma DecodeFixedTokens(d: Dialect, words: seq<string>, resolution: string, duration: int, third: string,
                          seed: Option<int>, watermark: bool)
    requires SplitWatermark(d.style, words + FlagTokens(d, resolution, duration, third, seed, watermark)).Some?
    requires var a := SplitWatermark(d.style, words + FlagTokens(d, resolution, duration, third, seed, watermark));
      a.value.1 == words + [d.resolutionFlag, resolution, d.durationFlag, DecimalString(duration), d.thirdFlag, third] + SeedTokens(seed)
      && a.value.0 == watermark
    requires SplitSeed(words + [d.resolutionFlag, resolution, d.durationFlag, DecimalString(duration), d.thirdFlag, third] + SeedTokens(seed))
      == Some((seed, words + [d.resolutionFlag, resolution, d.durationFlag, DecimalString(duration), d.thirdFlag, third]))
    ensures Decode(d, words + FlagTokens(d, resolution, duration, third, seed, watermark))
      == Some(Decoded(words, resolution, duration, third, seed, watermark))
  {
    DecimalRoundTrip(duration);
    var v := words + [d.resolutionFlag, resolution, d.durationFlag, DecimalString(duration), d.thirdFlag, third];
    var n := |v|;
    assert v[..n - 6] == words;
    assert v[n - 3] == DecimalString(duration);
  }

  /** Decoding the flag tokens behind any prefix of words gives back every setting. */
  lemma DecodeFlagTokens(d: Dialect, words: seq<string>, resolution: string, duration: int, third: string, seed: Option<int>, watermark: bool)
    requires KnownDialect(d)
    requires d.style == NoWatermarkSwitch ==> third != "--no-watermark"
    ensures Decode(d, words + FlagTokens(d, resolution, duration, third, seed, watermark))
      == Some(Decoded(words, resolution, duration, third, seed, watermark))
  {
    DialectNames(d);
    var base := words + [d.resolutionFlag, resolution, d.durationFlag, DecimalString(duration), d.thirdFlag, third];
    var withSeed := base + SeedTokens(seed);
    assert words + FlagTokens(d, resolution, duration, third, seed, watermark) == withSeed + WatermarkTokens(d.style, watermark);
    if seed.Some? {
      DecimalNotFlag(seed.value);
      assert withSeed[|withSeed| - 1] == DecimalString(seed.value);
    } else {
      assert withSeed[|withSeed| - 1] == third;
    }
    SplitWatermarkTokens(d.style, withSeed, watermark);
    assert base[|base| - 2] == d.thirdFlag;
    SplitSeedTokens(base, seed);
    DecodeFixedTokens(d, words, resolution, duration, third, seed, watermark);
  }

  /** The server reads back every text-to-video setting from the prompt's words. */
  lemma TextToVideoPromptDecodes(prompt: string, resolution: string, duration: int, ratio: string, seed: Option<int>, watermark: bool)
    requires IsToken(resolution) && IsToken(ratio) && ratio != "--no-watermark"
    ensures Decode(LongDialect, Words(TextToVideoPrompt(prompt, resolution, duration, ratio, seed, watermark)))
      == Some(Decoded(Words(prompt), resolution, duration, ratio, seed, watermark))
  {
    FlagTokensAreTokens(LongDialect, resolution, duration, ratio, seed, watermark);
    WordsOfAnnotate(prompt, FlagTokens(LongDialect, resolution, duration, ratio, seed, watermark), true);
    DecodeFlagTokens(LongDialect, Words(prompt), resolution, duration, ratio, seed, watermark);
  }

  /** Image-to-video: the ratio read back is always "adaptive". */
  lemma ImageToVideoPromptDecodes(prompt: string, resolution: string, duration: int, seed: Option<int>, watermark: bool)
    requires IsToken(resolution)
    ensures Decode(LongDialect, Words(ImageToVideoPrompt(prompt, resolution, duration, seed, watermark)))
      == Some(Decoded(Words(prompt), resolution, duration, "adaptive", seed, watermark))
  {
    FlagTokensAreTokens(LongDialect, resolution, duration, "adaptive", seed, watermark);
    WordsOfAnnotate(prompt, FlagTokens(LongDialect, resolution, duration, "adaptive", seed, watermark), false);
    DecodeFlagTokens(LongDialect, Words(prompt), resolution, duration, "adaptive", seed, watermark);
  }

  /** First-last-frame: the third setting read back is the content-fill switch. */
  lemma FirstLastFramePromptDecodes(prompt: string, resolution: string, duration: int, cf: bool, seed: Option<int>, watermark: bool)
    requires IsToken(resolution)
    ensures Decode(FrameDialect, Words(FirstLastFramePrompt(prompt, resolution, duration, cf, seed, watermark)))
      == Some(Decoded(Words(prompt), resolution, duration, BoolWord(cf), seed, watermark))
  {
    FlagTokensAreTokens(FrameDialect, resolution, duration, BoolWord(cf), seed, watermark);
    WordsOfAnnotate(prompt, FlagTokens(FrameDialect, resolution, duration, BoolWord(cf), seed, watermark), false);
    DecodeFlagTokens(FrameDialect, Words(prompt), resolution, duration, BoolWord(cf), seed, watermark);
  }

  /** Image references: every setting, the watermark included, reads back. */
  lemma ImageRefsPromptDecodes(prompt: string, resolution: string, duration: int, ratio: string, seed: Option<int>, watermark: bool)
    requires IsToken(resolution) && IsToken(ratio)
    ensures Decode(RefsDialect, Words(ImageRefsPrompt(prompt, resolution, duration, ratio, seed, watermark)))
      == Some(Decoded(Words(prompt), resolution, duration, ratio, seed, watermark))
  {
    FlagTokensAreTokens(RefsDialect, resolution, duration, ratio, seed, watermark);
    WordsOfAnnotate(prompt, FlagTokens(RefsDialect, resolution, duration, ratio, seed, watermark), false);
    DecodeFlagTokens(RefsDialect, Words(prompt), resolution, duration, ratio, seed, watermark);
  }

  /** Exactly one `--seed` token when a seed is given, none otherwise. */
  lemma SeedTokenCount(d: Dialect, resolution: string, duration: int, third: string, seed: Option<int>, watermark: bool)
    requires KnownDialect(d) && resolution != "--seed" && third != "--seed"
    ensures Count(FlagTokens(d, resolution, duration, third, seed, watermark), "--seed") == if seed.Some? then 1 else 0
  {
    DialectNames(d);
    DecimalNotFlag(duration);
    var fixed := [d.resolutionFlag, resolution, d.durationFlag, DecimalString(duration), d.thirdFlag, third];
    CountAbsent(fixed, "--seed");
    var st := SeedTokens(seed);
    if seed.Some? {
      DecimalNotFlag(seed.value);
      CountAppend(["--seed"], [DecimalString(seed.value)], "--seed");
      CountAbsent([DecimalString(seed.value)], "--seed");
      assert st == ["--seed"] + [DecimalString(seed.value)];
    }
    var wt := WatermarkTokens(d.style, watermark);
    CountAbsent(wt, "--seed");
    CountAppend(fixed, st, "--seed");
    CountAppend(fixed + st, wt, "--seed");
    assert FlagTokens(d, resolution, duration, third, seed, watermark) == fixed + st + wt;
  }

  /**
    The watermark rule: in the `--no-watermark` dialects the switch is present
    exactly when the watermark is off; image references always end with
    `--wm true|false` and never use the switch.
  */
  lemma WatermarkTokenRule(d: Dialect, resolution: string, duration: int, third: string, seed: Option<int>, watermark: bool)
    requires KnownDialect(d) && resolution != "--no-watermark" && third != "--no-watermark"
    ensures var t := FlagTokens(d, resolution, duration, third, seed, watermark);
      d.style == NoWatermarkSwitch ==> ("--no-watermark" in t <==> !watermark)
    ensures var t := FlagTokens(d, resolution, duration, third, seed, watermark);
      d.style == WmBoolean ==> "--no-watermark" !in t && t[|t| - 2..] == ["--wm", BoolWord(watermark)]
  {
    var t := FlagTokens(d, resolution, duration, third, seed, watermark);
    DecimalShape(duration);
    assert DecimalString(duration) != "--no-watermark" by { assert "--no-watermark"[1] == '-'; }
    if seed.Some? {
      DecimalShape(seed.value);
      assert DecimalString(seed.value) != "--no-watermark" by { assert "--no-watermark"[1] == '-'; }
    }
    var front := [d.resolutionFlag, resolution, d.durationFlag, DecimalString(duration), d.thirdFlag, third] + SeedTokens(seed);
    assert "--no-watermark" !in front;
    assert t == front + WatermarkTokens(d.style, watermark);
  }
}
