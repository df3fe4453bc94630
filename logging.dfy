/**
  The leveled logging front end: level bit masks, the minimal-level computation,
  level names, the per-level gates and `writeMessage` with a pluggable handler.

  Go's `int` is modelled as the 64-bit pattern that `&` and `|` act on (`Word`);
  the one signed comparison of the source (`level >= l`) is `AtLeast`.
  Formatting is never interpreted: a formatted string is the symbolic `Text`
  `Sprintf(format, args)`.
*/
module Logging {
  import opened Wrappers

  /** Go's `int` on a 64-bit platform, seen as its two's complement bit pattern. */
  type Word = bv64

  /** Go's signed `a >= b` on `int`: flipping the sign bit maps two's complement order onto unsigned order. */
  predicate AtLeast(a: Word, b: Word)
  {
    a ^ 0x8000_0000_0000_0000 >= b ^ 0x8000_0000_0000_0000
  }

  const DEBUG: Word := 1
  const INFO: Word := 2
  const WARNING: Word := 4
  const WARN: Word := 4
  const ERROR: Word := 8
  const CRITICAL: Word := 16
  /** Errors only. */
  const QUIET: Word := ERROR | CRITICAL
  /** Everything but debug. */
  const NORMAL: Word := INFO | WARN | ERROR | CRITICAL
  const ALL: Word := 255
  const NOTHING: Word := 0

  /** The five severities as one mask (31). */
  const SEVERITIES: Word := DEBUG | INFO | WARNING | ERROR | CRITICAL

  /** The severity order, least severe first. */
  const LevelsAscending: seq<Word> := [DEBUG, INFO, WARNING, ERROR, CRITICAL]

  /** The names a level can be given by (`LevlelsByName` in the source). */
  const LevelsByName: map<string, Word> := map[
    "DEBUG" := DEBUG,
    "INFO" := INFO,
    "WARNING" := WARN,
    "WARN" := WARN,
    "ERROR" := ERROR,
    "CRITICAL" := CRITICAL,
    "QUIET" := QUIET,
    "NORMAL" := NORMAL,
    "ALL" := ALL,
    "NOTHING" := NOTHING
  ]

  /** The gate `mask & bit != 0` of every logging call. */
  predicate Enabled(mask: Word, bit: Word)
  {
    mask & bit != 0
  }

  /**
    Masks combine level by level: under `a | b` a severity's gate is open iff it is open
    under `a` or under `b`, and under `a &^ b` iff it is open under `a` and not under `b`.
  */
  lemma EnabledAlgebra(a: Word, b: Word, j: nat)
    requires j < |LevelsAscending|
    ensures Enabled(a | b, LevelsAscending[j]) <==> Enabled(a, LevelsAscending[j]) || Enabled(b, LevelsAscending[j])
    ensures Enabled(a & !b, LevelsAscending[j]) <==> Enabled(a, LevelsAscending[j]) && !Enabled(b, LevelsAscending[j])
  {
    var bit := LevelsAscending[j];
    assert bit == 1 || bit == 2 || bit == 4 || bit == 8 || bit == 16;
    SingleBitAlgebra(a, b, bit);
    assert Enabled(a | b, bit) == ((a | b) & bit != 0);
    assert Enabled(a & !b, bit) == ((a & !b) & bit != 0);
    assert Enabled(a, bit) == (a & bit != 0);
    assert Enabled(b, bit) == (b & bit != 0);
  }

  /** The bit-level fact behind `EnabledAlgebra`, for any one of the five severity bits. */
  lemma SingleBitAlgebra(a: Word, b: Word, bit: Word)
    requires bit == 1 || bit == 2 || bit == 4 || bit == 8 || bit == 16
    ensures (a | b) & bit != 0 <==> a & bit != 0 || b & bit != 0
    ensures (a & !b) & bit != 0 <==> a & bit != 0 && b & bit == 0
  {
  }

  // ---------------------------------------------------------------------------
  // Minimal level

  /** One level's contribution to the minimal mask: itself if it is at least `l`, else nothing. */
  function Bit(level: Word, l: Word): Word
  {
    if AtLeast(level, l) then level else 0
  }

  /** The OR of every entry of `levels` that is at least `l`, accumulated front to back. */
  function MaskAtLeast(levels: seq<Word>, l: Word): Word
  {
    if levels == [] then 0
    else MaskAtLeast(levels[..|levels| - 1], l) | Bit(levels[|levels| - 1], l)
  }

  /** The mask `SetMinimalLevel(l)` stores. */
  function MinimalMask(l: Word): Word
  {
    MaskAtLeast(LevelsAscending, l)
  }

  /** Accumulating one more level ORs in its contribution. */
  lemma MaskStep(levels: seq<Word>, i: nat, l: Word)
    requires i < |levels|
    ensures MaskAtLeast(levels[..i + 1], l) == MaskAtLeast(levels[..i], l) | Bit(levels[i], l)
  {
    var s := levels[..i + 1];
    assert s[..i] == levels[..i];
  }

  /**
    The loop of `SetMinimalLevel`: walks `levels` in order and ORs together every
    entry that is at least `l` (`SetMinimalLevel` runs it on `LevelsAscending`).
  */
  method AccumulateAtLeast(levels: seq<Word>, l: Word) returns (newLevel: Word)
    ensures newLevel == MaskAtLeast(levels, l)
  {
    newLevel := 0;
    for i := 0 to |levels|
      invariant newLevel == MaskAtLeast(levels[..i], l)
    {
      var level := levels[i];
      MaskStep(levels, i, l);
      if AtLeast(level, l) {
        newLevel := newLevel | level;
      }
    }
    assert levels[..|levels|] == levels;
  }

  /** The minimal mask has each severity's bit exactly when that severity is at least `l`. */
  lemma MinimalMaskClosedForm(l: Word)
    ensures MinimalMask(l) == Bit(DEBUG, l) | Bit(INFO, l) | Bit(WARNING, l) | Bit(ERROR, l) | Bit(CRITICAL, l)
  {
    var s := LevelsAscending;
    assert s[..0] == [];
    MaskStep(s, 0, l);
    MaskStep(s, 1, l);
    MaskStep(s, 2, l);
    MaskStep(s, 3, l);
    MaskStep(s, 4, l);
    assert s[..5] == s;
  }

  /** For every severity, its gate is open under `MinimalMask(l)` exactly when it is at least `l`. */
  lemma MinimalMaskGates(l: Word, j: nat)
    requires j < |LevelsAscending|
    ensures Enabled(MinimalMask(l), LevelsAscending[j]) <==> AtLeast(LevelsAscending[j], l)
  {
    MinimalMaskClosedForm(l);
  }

  /** The minimal mask holds no bit outside the five severities, so it is at most 31. */
  lemma MinimalMaskBounds(l: Word)
    ensures MinimalMask(l) & !SEVERITIES == 0
    ensures MinimalMask(l) <= 31
  {
    MinimalMaskClosedForm(l);
  }

  /** Go's signed order on `int` is transitive. */
  lemma AtLeastTransitive(x: Word, y: Word, z: Word)
    requires AtLeast(x, y) && AtLeast(y, z)
    ensures AtLeast(x, z)
  {
  }

  /** A severity open under a higher minimal level is open under a lower one. */
  lemma GateAntitone(l1: Word, l2: Word, j: nat)
    requires AtLeast(l2, l1) && j < |LevelsAscending|
    ensures Enabled(MinimalMask(l2), LevelsAscending[j]) ==> Enabled(MinimalMask(l1), LevelsAscending[j])
  {
    MinimalMaskGates(l1, j);
    MinimalMaskGates(l2, j);
    if AtLeast(LevelsAscending[j], l2) {
      AtLeastTransitive(LevelsAscending[j], l2, l1);
    }
  }

  /** Two masks within the five severities, the second holding every severity the first holds. */
  lemma SubMaskBySeverity(m1: Word, m2: Word)
    requires m1 & !SEVERITIES == 0 && m2 & !SEVERITIES == 0
    requires Enabled(m2, DEBUG) ==> Enabled(m1, DEBUG)
    requires Enabled(m2, INFO) ==> Enabled(m1, INFO)
    requires Enabled(m2, WARNING) ==> Enabled(m1, WARNING)
    requires Enabled(m2, ERROR) ==> Enabled(m1, ERROR)
    requires Enabled(m2, CRITICAL) ==> Enabled(m1, CRITICAL)
    ensures m2 & m1 == m2
  {
    assert Enabled(m1, 1) == (m1 & 1 != 0) && Enabled(m2, 1) == (m2 & 1 != 0);
    assert Enabled(m1, 2) == (m1 & 2 != 0) && Enabled(m2, 2) == (m2 & 2 != 0);
    assert Enabled(m1, 4) == (m1 & 4 != 0) && Enabled(m2, 4) == (m2 & 4 != 0);
    assert Enabled(m1, 8) == (m1 & 8 != 0) && Enabled(m2, 8) == (m2 & 8 != 0);
    assert Enabled(m1, 16) == (m1 & 16 != 0) && Enabled(m2, 16) == (m2 & 16 != 0);
  }

  /** A higher minimal level enables a subset of the levels a lower one enables. */
  lemma MinimalMaskAntitone(l1: Word, l2: Word)
    requires AtLeast(l2, l1)
    ensures MinimalMask(l2) & MinimalMask(l1) == MinimalMask(l2)
  {
    MinimalMaskBounds(l1);
    MinimalMaskBounds(l2);
    GateAntitone(l1, l2, 0);
    GateAntitone(l1, l2, 1);
    GateAntitone(l1, l2, 2);
    GateAntitone(l1, l2, 3);
    GateAntitone(l1, l2, 4);
    SubMaskBySeverity(MinimalMask(l1), MinimalMask(l2));
  }

  /** For a single severity `l`, the mask is `l` plus every more severe level and nothing less severe. */
  lemma MinimalMaskOfSeverity(k: nat)
    requires k < |LevelsAscending|
    ensures forall j :: 0 <= j < |LevelsAscending| ==>
      (Enabled(MinimalMask(LevelsAscending[k]), LevelsAscending[j]) <==> k <= j)
  {
    forall j | 0 <= j < |LevelsAscending|
      ensures Enabled(MinimalMask(LevelsAscending[k]), LevelsAscending[j]) <==> k <= j
    {
      MinimalMaskGates(LevelsAscending[k], j);
    }
  }

  /** The edge values: composite masks above CRITICAL give 0; NOTHING, and anything at most DEBUG, gives all 31. */
  lemma MinimalMaskEdges(l: Word)
    ensures MinimalMask(QUIET) == 0 && MinimalMask(NORMAL) == 0 && MinimalMask(ALL) == 0
    ensures MinimalMask(NOTHING) == SEVERITIES
    ensures AtLeast(DEBUG, l) ==> MinimalMask(l) == SEVERITIES
    ensures !AtLeast(CRITICAL, l) ==> MinimalMask(l) == 0
  {
    MinimalMaskClosedForm(QUIET);
    MinimalMaskClosedForm(NORMAL);
    MinimalMaskClosedForm(ALL);
    MinimalMaskClosedForm(NOTHING);
    MinimalMaskClosedForm(l);
  }

  /**
    Through the name table, the composite names select no level at all and NOTHING
    selects every severity.
  */
  lemma NamedMinimalMasks()
    ensures MinimalMask(LevelsByName["ALL"]) == 0
    ensures MinimalMask(LevelsByName["NORMAL"]) == 0
    ensures MinimalMask(LevelsByName["QUIET"]) == 0
    ensures MinimalMask(LevelsByName["NOTHING"]) == SEVERITIES
  {
    MinimalMaskEdges(NOTHING);
  }

  // ---------------------------------------------------------------------------
  // Level names

  /** `s` is made of spaces only. */
  ghost predicate AllSpaces(s: string)
  {
    forall i :: 0 <= i < |s| ==> s[i] == ' '
  }

  /** Every character of `s` from `lo` up to (not including) `hi` is a space. */
  ghost predicate SpacesIn(s: string, lo: int, hi: int)
  {
    forall k :: lo <= k < hi && 0 <= k < |s| ==> s[k] == ' '
  }

  /** How many spaces `s` starts with. */
  function LeadingSpaces(s: string): (n: nat)
    ensures n <= |s| && SpacesIn(s, 0, n)
    ensures n == |s| || s[n] != ' '
  {
    if s != [] && s[0] == ' ' then 1 + LeadingSpaces(s[1..]) else 0
  }

  /** How many spaces `s` ends with. */
  function TrailingSpaces(s: string): (n: nat)
    ensures n <= |s| && SpacesIn(s, |s| - n, |s|)
    ensures n == |s| || s[|s| - n - 1] != ' '
  {
    if s != [] && s[|s| - 1] == ' ' then 1 + TrailingSpaces(s[..|s| - 1]) else 0
  }

  /** `s` without its leading spaces. */
  function TrimLeft(s: string): (r: string)
    ensures |r| <= |s| && r == s[|s| - |r|..]
    ensures SpacesIn(s, 0, |s| - |r|)
    ensures r == [] || r[0] != ' '
  {
    s[LeadingSpaces(s)..]
  }

  /** `s` without its trailing spaces. */
  function TrimRight(s: string): (r: string)
    ensures |r| <= |s| && r == s[..|r|]
    ensures SpacesIn(s, |r|, |s|)
    ensures r == [] || r[|r| - 1] != ' '
  {
    s[..|s| - TrailingSpaces(s)]
  }

  /** `strings.Trim(s, " ")`: the infix of `s` left when the spaces at both ends are cut. */
  function Trim(s: string): (r: string)
    ensures |r| <= |s|
    ensures r == [] || (r[0] != ' ' && r[|r| - 1] != ' ')
    ensures exists i :: 0 <= i <= |s| - |r| && s[i..i + |r|] == r && SpacesIn(s, 0, i) && SpacesIn(s, i + |r|, |s|)
  {
    var left := TrimLeft(s);
    var r := TrimRight(left);
    PrefixOfSuffix(s, left, r);
    assert SpacesIn(s, 0, |s| - |left|);
    r
  }

  /** A prefix `r` of the suffix `left` of `s` sits in `s` where `left` starts, and spaces after it in `left` are spaces in `s`. */
  lemma PrefixOfSuffix(s: string, left: string, r: string)
    requires |left| <= |s| && left == s[|s| - |left|..]
    requires |r| <= |left| && r == left[..|r|] && SpacesIn(left, |r|, |left|)
    ensures s[|s| - |left|..|s| - |left| + |r|] == r
    ensures SpacesIn(s, |s| - |left| + |r|, |s|)
  {
    var i := |s| - |left|;
    forall k | i + |r| <= k < |s|
      ensures s[k] == ' '
    {
      assert s[k] == left[k - i];
    }
  }

  /**
    Upper case of one character as `strings.ToUpper` gives it where the result can be
    ASCII: `a`-`z`, U+0131 (dotless i) to `I` and U+017F (long s) to `S`; every other
    character is kept.
  */
  function UpperChar(c: char): char
  {
    if 'a' <= c <= 'z' then (c as int - 32) as char
    else if c == '\U{0131}' then 'I'
    else if c == '\U{017F}' then 'S'
    else c
  }

  function ToUpper(s: string): (r: string)
    ensures |r| == |s|
    ensures forall i :: 0 <= i < |s| ==> r[i] == UpperChar(s[i])
  {
    if s == [] then [] else [UpperChar(s[0])] + ToUpper(s[1..])
  }

  /** The key `SetMinimalLevelByName` looks up: unpadded, of at most the input's length. */
  function NormalizeLevelName(s: string): (r: string)
    ensures |r| <= |s|
    ensures r == [] || (r[0] != ' ' && r[|r| - 1] != ' ')
  {
    var t := Trim(s);
    if t == [] then ToUpper(t)
    else
      UpperCharSpace(t[0]);
      UpperCharSpace(t[|t| - 1]);
      ToUpper(t)
  }

  /** Upper-casing a character twice is upper-casing it once. */
  lemma UpperCharIdempotent(c: char)
    ensures UpperChar(UpperChar(c)) == UpperChar(c)
  {
  }

  /** A normalised name normalises to itself. */
  lemma NormalizeLevelNameIdempotent(s: string)
    ensures NormalizeLevelName(NormalizeLevelName(s)) == NormalizeLevelName(s)
  {
    var t := Trim(s);
    var r := NormalizeLevelName(s);
    assert r == ToUpper(t);
    TrimUnpadded(r);
    ToUpperIdempotent(t);
  }

  /** A string without spaces at its ends is its own trim. */
  lemma TrimUnpadded(r: string)
    requires r == [] || (r[0] != ' ' && r[|r| - 1] != ' ')
    ensures Trim(r) == r
  {
    assert [] + r == r && r + [] == r;
    TrimLeftPadded([], r);
    TrimRightPadded(r, []);
  }

  /** Upper-casing a string twice is upper-casing it once. */
  lemma ToUpperIdempotent(t: string)
    ensures ToUpper(ToUpper(t)) == ToUpper(t)
  {
    var u := ToUpper(t);
    forall i | 0 <= i < |u|
      ensures ToUpper(u)[i] == u[i]
    {
      UpperCharIdempotent(t[i]);
    }
  }

  /** Spaces in front of a word that does not start with a space are exactly what `TrimLeft` cuts. */
  lemma TrimLeftPadded(p: string, w: string)
    requires AllSpaces(p)
    requires w == [] || w[0] != ' '
    ensures TrimLeft(p + w) == w
  {
    var s := p + w;
    var n := LeadingSpaces(s);
    assert forall i :: 0 <= i < |p| ==> s[i] == p[i];
    assert w != [] ==> s[|p|] == w[0];
    assert n == |p|;
    assert s[n..] == w;
  }

  /** Spaces after a word that does not end with a space are exactly what `TrimRight` cuts. */
  lemma TrimRightPadded(w: string, q: string)
    requires AllSpaces(q)
    requires w == [] || w[|w| - 1] != ' '
    ensures TrimRight(w + q) == w
  {
    var s := w + q;
    var n := TrailingSpaces(s);
    assert forall i :: |w| <= i < |s| ==> s[i] == q[i - |w|];
    assert w != [] ==> s[|w| - 1] == w[|w| - 1];
    assert n == |q|;
    assert s[..|s| - n] == w;
  }

  /** Only a space upper-cases to a space. */
  lemma UpperCharSpace(c: char)
    ensures UpperChar(c) == ' ' <==> c == ' '
  {
  }

  /** Level names are non-empty and neither start nor end with a space. */
  lemma LevelNameShape(name: string)
    requires name in LevelsByName
    ensures name != [] && name[0] != ' ' && name[|name| - 1] != ' '
  {
    assert name in LevelsByName.Keys;
    assert LevelsByName.Keys == {"DEBUG", "INFO", "WARNING", "WARN", "ERROR", "CRITICAL", "QUIET", "NORMAL", "ALL", "NOTHING"};
  }

  /**
    Any spelling of a level name that differs only in letter case and surrounding
    spaces normalises to that name.
  */
  lemma NormalizePaddedVariant(p: string, v: string, q: string, name: string)
    requires AllSpaces(p) && AllSpaces(q)
    requires name in LevelsByName && ToUpper(v) == name
    ensures NormalizeLevelName(p + v + q) == name
  {
    LevelNameShape(name);
    assert v != [];
    UpperCharSpace(v[0]);
    UpperCharSpace(v[|v| - 1]);
    assert v[0] != ' ' && v[|v| - 1] != ' ';
    assert p + v + q == p + (v + q);
    TrimLeftPadded(p, v + q);
    TrimRightPadded(v, q);
    assert Trim(p + v + q) == v;
  }

  // ---------------------------------------------------------------------------
  // Messages and handlers

  /** A formatted string, kept symbolic: `Sprintf(format, args)` is what `fmt.Sprintf` would produce. */
  datatype Text = Literal(s: string) | Sprintf(format: Text, args: seq<Arg>)

  /**
    A logging argument: a string, an integer, a `func() interface{}` (a thunk, with the
    value it returns), a slice of arguments, or any other value.
  */
  datatype Arg = Str(text: Text) | Num(n: int) | Thunk(result: Arg) | Slice(items: seq<Arg>) | Value(id: nat)

  /** `writeMessage`'s treatment of one argument: a thunk is called and replaced by its result. */
  function Evaluate(a: Arg): Arg
  {
    if a.Thunk? then a.result else a
  }

  /** Every thunk of `args` replaced by its result, every other argument kept, in the same order. */
  function Evaluated(args: seq<Arg>): (r: seq<Arg>)
    ensures |r| == |args|
    ensures forall i :: 0 <= i < |args| ==> r[i] == Evaluate(args[i])
  {
    if args == [] then [] else [Evaluate(args[0])] + Evaluated(args[1..])
  }

  /** Arguments without thunks are passed through untouched. */
  lemma {:induction false} EvaluatedWithoutThunks(args: seq<Arg>)
    requires forall i :: 0 <= i < |args| ==> !args[i].Thunk?
    ensures Evaluated(args) == args
  {
    if args != [] {
      EvaluatedWithoutThunks(args[1..]);
    }
  }

  /** After evaluation no thunk is left, unless a thunk returned one. */
  lemma EvaluatedLeavesNoThunk(args: seq<Arg>)
    requires forall i :: 0 <= i < |args| && args[i].Thunk? ==> !args[i].result.Thunk?
    ensures forall i :: 0 <= i < |Evaluated(args)| ==> !Evaluated(args)[i].Thunk?
  {
  }

  /** The caller location `getContext` reports. */
  datatype Site = Site(file: string, line: int)

  /** The handler in use: the standard one, which prints with the `log` package, or another one. */
  datatype Handler = Standard | Custom(id: nat)

  /** One call of a custom handler's `Emit`, as the handler receives it. */
  datatype Emission = Emission(level: string, file: string, line: int, message: Text, args: seq<Arg>)

  /** One line written by the `log` package: a formatted record or a stack dump. */
  datatype LogLine = Line(text: Text) | StackTrace

  /** What one `writeMessage` adds to the log output and to the custom handler's calls. */
  datatype Effect = Effect(lines: seq<LogLine>, emissions: seq<Emission>)

  const DefaultFormat: string := "%[1]s @ %[2]s:%[3]d: %[4]s"

  /** `fmt.Sprintf(fmt.Sprintf(format, level, file, line, message), args...)`. */
  function FormatRecord(format: string, level: string, file: string, line: int, message: Text, args: seq<Arg>): Text
  {
    Sprintf(Sprintf(Literal(format), [Str(Literal(level)), Str(Literal(file)), Num(line), Str(message)]), args)
  }

  /** The line printed when a handler's `Emit` fails. */
  function HandlerErrorNote(err: Text): Text
  {
    Sprintf(Literal("Error writing log message: %s\n"), [Str(err)])
  }

  /**
    What handing a record to handler `h` does, given the error a custom handler
    returns (`handlerErr`; the standard handler never fails). The record is never
    lost: a custom handler accepts it, or the standard log prints it.
  */
  function Deliver(h: Handler, format: string, level: string, msg: Text, args: seq<Arg>, site: Site, handlerErr: Option<Text>): (e: Effect)
    ensures |e.emissions| == (if h.Custom? then 1 else 0)
    ensures h.Custom? ==> e.emissions[0] == Emission(level, site.file, site.line, msg, args)
    ensures (h.Custom? && handlerErr.None?) || Line(FormatRecord(format, level, site.file, site.line, msg, args)) in e.lines
    ensures h.Custom? && handlerErr.None? ==> e.lines == []
  {
    var record := FormatRecord(format, level, site.file, site.line, msg, args);
    match h
    case Standard => Effect([Line(record)], [])
    case Custom(_) =>
      Effect(if handlerErr.Some? then [Line(HandlerErrorNote(handlerErr.value)), Line(record)] else [],
             [Emission(level, site.file, site.line, msg, args)])
  }

  /** The standard handler prints exactly one line and calls no custom handler. */
  lemma StandardDelivery(format: string, level: string, msg: Text, args: seq<Arg>, site: Site)
    ensures |Deliver(Standard, format, level, msg, args, site, None).lines| == 1
    ensures Deliver(Standard, format, level, msg, args, site, None).emissions == []
  {
  }

  /** The levels the logging test calls, in order. */
  const TestedLevels: seq<Word> := [DEBUG, INFO, WARNING, ERROR]

  /** 1 if the gate of `bit` is open under `mask`, else 0. */
  function Gate(mask: Word, bit: Word): nat
  {
    if Enabled(mask, bit) then 1 else 0
  }

  /** How many of `levels` have their gate open under `mask`. */
  function OpenCount(mask: Word, levels: seq<Word>): (n: nat)
    ensures n <= |levels|
  {
    if levels == [] then 0 else Gate(mask, levels[0]) + OpenCount(mask, levels[1..])
  }

  /** Counting over two runs of calls adds up. */
  lemma {:induction false} OpenCountAppend(mask: Word, a: seq<Word>, b: seq<Word>)
    ensures OpenCount(mask, a + b) == OpenCount(mask, a) + OpenCount(mask, b)
  {
    if a == [] {
      assert a + b == b;
    } else {
      assert (a + b)[1..] == a[1..] + b;
      OpenCountAppend(mask, a[1..], b);
    }
  }

  /** The count over the tested levels, one gate at a time. */
  lemma OpenCountTested(mask: Word)
    ensures OpenCount(mask, TestedLevels) ==
      Gate(mask, DEBUG) + Gate(mask, INFO) + Gate(mask, WARNING) + Gate(mask, ERROR)
  {
    assert OpenCount(mask, [ERROR]) == Gate(mask, ERROR) by {
      assert [ERROR][1..] == [];
    }
    assert OpenCount(mask, [WARNING, ERROR]) == Gate(mask, WARNING) + Gate(mask, ERROR) by {
      assert [WARNING, ERROR][1..] == [ERROR];
    }
    assert OpenCount(mask, [INFO, WARNING, ERROR]) == Gate(mask, INFO) + Gate(mask, WARNING) + Gate(mask, ERROR) by {
      assert [INFO, WARNING, ERROR][1..] == [WARNING, ERROR];
    }
    assert TestedLevels[1..] == [INFO, WARNING, ERROR];
  }

  /** The expected counts: mask 0 opens none of the tested gates, ALL opens all four, each single level exactly one. */
  lemma TestedLevelCounts()
    ensures OpenCount(NOTHING, TestedLevels) == 0
    ensures OpenCount(ALL, TestedLevels) == 4
    ensures forall k :: 0 <= k < |TestedLevels| ==> OpenCount(TestedLevels[k], TestedLevels) == 1
  {
    OpenCountTested(NOTHING);
    OpenCountTested(ALL);
    OpenCountTested(DEBUG);
    OpenCountTested(INFO);
    OpenCountTested(WARNING);
    OpenCountTested(ERROR);
  }

  /** The package-level state of the logging library. */
  class Logger {
    /** The mask of active levels. */
    var level: Word
    var formatString: string
    var handler: Handler
    /** Every line the `log` package has written, in order. */
    var output: seq<LogLine>
    /** Every call a custom handler has received, in order. */
    var handled: seq<Emission>

    /** The initial values: every level active, the default format, the standard handler. */
    constructor ()
      ensures level == ALL && formatString == DefaultFormat && handler == Standard
      ensures output == [] && handled == []
    {
      level := ALL;
      formatString := DefaultFormat;
      handler := Standard;
      output := [];
      handled := [];
    }

    /** The configuration is as it was. */
    ghost predicate SameConfig(l: Word, f: string, h: Handler)
      reads this
    {
      level == l && formatString == f && handler == h
    }

    /** `output` and `handled` extend the old ones by exactly what delivering the record does. */
    ghost predicate Logs(oldOutput: seq<LogLine>, oldHandled: seq<Emission>, lv: string, msg: Text, args: seq<Arg>, site: Site, handlerErr: Option<Text>)
      reads this
    {
      var e := Deliver(handler, formatString, lv, msg, args, site, handlerErr);
      output == oldOutput + e.lines && handled == oldHandled + e.emissions
    }

    method SetLevel(l: Word)
      modifies this
      ensures level == l
      ensures formatString == old(formatString) && handler == old(handler)
      ensures output == old(output) && handled == old(handled)
    {
      level := l;
    }

    method SetMinimalLevel(l: Word)
      modifies this
      ensures level == MinimalMask(l)
      ensures formatString == old(formatString) && handler == old(handler)
      ensures output == old(output) && handled == old(handled)
    {
      var newLevel := AccumulateAtLeast(LevelsAscending, l);
      SetLevel(newLevel);
    }

    /**
      Sets the minimal level by a name, ignoring case and surrounding spaces. An unknown
      name is logged at ERROR level (through `Error`, so `site` and `handlerErr` are
      for that call) and returned as an error; the level is then unchanged.
    */
    method SetMinimalLevelByName(l: string, site: Site, handlerErr: Option<Text>) returns (err: Option<Text>)
      modifies this
      ensures var name := NormalizeLevelName(l);
        if name in LevelsByName then
          err == None && level == MinimalMask(LevelsByName[name]) &&
          output == old(output) && handled == old(handled)
        else
          err == Some(Sprintf(Literal("Invalid level %s"), [Str(Literal(name))])) && level == old(level) &&
          (Enabled(level, ERROR) ==>
             Logs(old(output), old(handled), "ERROR", Literal("Could not set level - not found level %s"),
                  [Str(Literal(name))], site, handlerErr)) &&
          (!Enabled(level, ERROR) ==> output == old(output) && handled == old(handled))
      ensures formatString == old(formatString) && handler == old(handler)
    {
      var name := NormalizeLevelName(l);
      if name !in LevelsByName {
        var args := new Arg[1](_ => Str(Literal(name)));
        assert args[..] == [Str(Literal(name))];
        Error(Literal("Could not set level - not found level %s"), args, site, handlerErr);
        assert args[..] == [Str(Literal(name))] by {
          assert Evaluated([Str(Literal(name))])[0] == Str(Literal(name));
        }
        return Some(Sprintf(Literal("Invalid level %s"), [Str(Literal(name))]));
      }
      SetMinimalLevel(LevelsByName[name]);
      return None;
    }

    method SetFormatString(format: string)
      modifies this
      ensures GetFormatString() == format
      ensures level == old(level) && handler == old(handler)
      ensures output == old(output) && handled == old(handled)
    {
      formatString := format;
    }

    function GetFormatString(): string
      reads this
    {
      formatString
    }

    method SetHandler(h: Handler)
      modifies this
      ensures handler == h
      ensures level == old(level) && formatString == old(formatString)
      ensures output == old(output) && handled == old(handled)
    {
      handler := h;
    }

    /**
      Replaces, in place, every thunk argument by the value it returns, then hands the
      record to the current handler; if a custom handler fails, the standard log prints
      the error and the record.
    */
    method WriteMessage(lv: string, msg: Text, args: array<Arg>, site: Site, handlerErr: Option<Text>)
      modifies this, args
      ensures args[..] == Evaluated(old(args[..]))
      ensures Logs(old(output), old(handled), lv, msg, args[..], site, handlerErr)
      ensures SameConfig(old(level), old(formatString), old(handler))
    {
      for i := 0 to args.Length
        modifies args
        invariant forall k :: 0 <= k < i ==> args[k] == Evaluate(old(args[k]))
        invariant forall k :: i <= k < args.Length ==> args[k] == old(args[k])
      {
        if args[i].Thunk? {
          args[i] := args[i].result;
        }
      }
      var record := FormatRecord(formatString, lv, site.file, site.line, msg, args[..]);
      match handler
      case Standard =>
        output := output + [Line(record)];
      case Custom(_) =>
        handled := handled + [Emission(lv, site.file, site.line, msg, args[..])];
        if handlerErr.Some? {
          output := output + [Line(HandlerErrorNote(handlerErr.value))];
          output := output + [Line(record)];
        }
    }

    method Debug(msg: Text, args: array<Arg>, site: Site, handlerErr: Option<Text>)
      modifies this, args
      ensures Enabled(level, DEBUG) ==>
        args[..] == Evaluated(old(args[..])) && Logs(old(output), old(handled), "DEBUG", msg, args[..], site, handlerErr)
      ensures !Enabled(level, DEBUG) ==> args[..] == old(args[..]) && output == old(output) && handled == old(handled)
      ensures SameConfig(old(level), old(formatString), old(handler))
    {
      if level & DEBUG != 0 {
        WriteMessage("DEBUG", msg, args, site, handlerErr);
      }
    }

    method Info(msg: Text, args: array<Arg>, site: Site, handlerErr: Option<Text>)
      modifies this, args
      ensures Enabled(level, INFO) ==>
        args[..] == Evaluated(old(args[..])) && Logs(old(output), old(handled), "INFO", msg, args[..], site, handlerErr)
      ensures !Enabled(level, INFO) ==> args[..] == old(args[..]) && output == old(output) && handled == old(handled)
      ensures SameConfig(old(level), old(formatString), old(handler))
    {
      if level & INFO != 0 {
        WriteMessage("INFO", msg, args, site, handlerErr);
      }
    }

    method Warning(msg: Text, args: array<Arg>, site: Site, handlerErr: Option<Text>)
      modifies this, args
      ensures Enabled(level, WARN) ==>
        args[..] == Evaluated(old(args[..])) && Logs(old(output), old(handled), "WARNING", msg, args[..], site, handlerErr)
      ensures !Enabled(level, WARN) ==> args[..] == old(args[..]) && output == old(output) && handled == old(handled)
      ensures SameConfig(old(level), old(formatString), old(handler))
    {
      if level & WARN != 0 {
        WriteMessage("WARNING", msg, args, site, handlerErr);
      }
    }

    method Error(msg: Text, args: array<Arg>, site: Site, handlerErr: Option<Text>)
      modifies this, args
      ensures Enabled(level, ERROR) ==>
        args[..] == Evaluated(old(args[..])) && Logs(old(output), old(handled), "ERROR", msg, args[..], site, handlerErr)
      ensures !Enabled(level, ERROR) ==> args[..] == old(args[..]) && output == old(output) && handled == old(handled)
      ensures SameConfig(old(level), old(formatString), old(handler))
    {
      if level & ERROR != 0 {
        WriteMessage("ERROR", msg, args, site, handlerErr);
      }
    }

    /** Like the others, and an open gate also writes a stack dump after the record. */
    method Critical(msg: Text, args: array<Arg>, site: Site, handlerErr: Option<Text>)
      modifies this, args
      ensures Enabled(level, CRITICAL) ==>
        args[..] == Evaluated(old(args[..])) &&
        var e := Deliver(handler, formatString, "CRITICAL", msg, args[..], site, handlerErr);
        output == old(output) + e.lines + [StackTrace] && handled == old(handled) + e.emissions
      ensures !Enabled(level, CRITICAL) ==> args[..] == old(args[..]) && output == old(output) && handled == old(handled)
      ensures SameConfig(old(level), old(formatString), old(handler))
    {
      if level & CRITICAL != 0 {
        WriteMessage("CRITICAL", msg, args, site, handlerErr);
        output := output + [StackTrace];
      }
    }

    /**
      `fmt.Errorf(msg, args)`: the source passes the argument slice as ONE argument,
      not spread, and that is kept here.
    */
    static function ErrorOf(msg: Text, args: seq<Arg>): (r: Text)
      ensures r.Sprintf? && r.format == msg
      ensures |r.args| == 1 && r.args[0].Slice? && r.args[0].items == args
      ensures r != Sprintf(msg, args)
    {
      if |args| == 1 then
        assert Slice(args).items[0] in Slice(args).items;
        Sprintf(msg, [Slice(args)])
      else
        Sprintf(msg, [Slice(args)])
    }

    /** Logs the error's text at WARNING level if that gate is open; returns the error regardless of the mask. */
    method Warningf(msg: Text, args: seq<Arg>, site: Site, handlerErr: Option<Text>) returns (err: Text)
      modifies this
      ensures err == ErrorOf(msg, args)
      ensures Enabled(level, WARN) ==> Logs(old(output), old(handled), "WARNING", err, [], site, handlerErr)
      ensures !Enabled(level, WARN) ==> output == old(output) && handled == old(handled)
      ensures SameConfig(old(level), old(formatString), old(handler))
    {
      err := ErrorOf(msg, args);
      if level & WARN != 0 {
        var none := new Arg[0];
        WriteMessage("WARNING", err, none, site, handlerErr);
      }
    }

    /** Logs the error's text at ERROR level if that gate is open; returns the error regardless of the mask. */
    method Errorf(msg: Text, args: seq<Arg>, site: Site, handlerErr: Option<Text>) returns (err: Text)
      modifies this
      ensures err == ErrorOf(msg, args)
      ensures Enabled(level, ERROR) ==> Logs(old(output), old(handled), "ERROR", err, [], site, handlerErr)
      ensures !Enabled(level, ERROR) ==> output == old(output) && handled == old(handled)
      ensures SameConfig(old(level), old(formatString), old(handler))
    {
      err := ErrorOf(msg, args);
      if level & ERROR != 0 {
        var none := new Arg[0];
        WriteMessage("ERROR", err, none, site, handlerErr);
      }
    }

    /** Logs the error's text and a stack dump if the CRITICAL gate is open; returns the error regardless of the mask. */
    method Criticalf(msg: Text, args: seq<Arg>, site: Site, handlerErr: Option<Text>) returns (err: Text)
      modifies this
      ensures err == ErrorOf(msg, args)
      ensures Enabled(level, CRITICAL) ==>
        var e := Deliver(handler, formatString, "CRITICAL", err, [], site, handlerErr);
        output == old(output) + e.lines + [StackTrace] && handled == old(handled) + e.emissions
      ensures !Enabled(level, CRITICAL) ==> output == old(output) && handled == old(handled)
      ensures SameConfig(old(level), old(formatString), old(handler))
    {
      err := ErrorOf(msg, args);
      if level & CRITICAL != 0 {
        var none := new Arg[0];
        WriteMessage("CRITICAL", err, none, site, handlerErr);
        output := output + [StackTrace];
      }
    }

    /** The test helper that logs one message at DEBUG, INFO, WARNING and ERROR, without arguments. */
    method LogAllLevels(msg: Text, site: Site)
      requires handler == Standard
      modifies this
      ensures |output| == |old(output)| + OpenCount(level, TestedLevels)
      ensures handled == old(handled)
      ensures SameConfig(old(level), old(formatString), old(handler))
    {
      ghost var n := |output|;
      var none := new Arg[0];
      Debug(msg, none, site, None);
      StandardDelivery(formatString, "DEBUG", msg, [], site);
      assert |output| == n + Gate(level, DEBUG);
      Info(msg, none, site, None);
      StandardDelivery(formatString, "INFO", msg, [], site);
      assert |output| == n + Gate(level, DEBUG) + Gate(level, INFO);
      Warning(msg, none, site, None);
      StandardDelivery(formatString, "WARNING", msg, [], site);
      assert |output| == n + Gate(level, DEBUG) + Gate(level, INFO) + Gate(level, WARNING);
      Error(msg, none, site, None);
      StandardDelivery(formatString, "ERROR", msg, [], site);
      OpenCountTested(level);
    }
  }

  /** The level test: with the standard handler, mask 0 writes nothing, ALL writes four lines, one level one line. */
  method LevelScenario(msg: Text, site: Site)
  {
    var log := new Logger();
    TestedLevelCounts();
    log.SetLevel(NOTHING);
    log.LogAllLevels(msg, site);
    assert |log.output| == 0;
    log.SetLevel(ALL);
    log.LogAllLevels(msg, site);
    assert |log.output| == 4;
    log.SetLevel(WARNING);
    log.LogAllLevels(msg, site);
    assert TestedLevels[2] == WARNING;
    assert |log.output| == 5;
    log.SetFormatString("%[4]s @ %[3]d:%[2]s: %[1]s");
    assert log.GetFormatString() == "%[4]s @ %[3]d:%[2]s: %[1]s";
  }
}
