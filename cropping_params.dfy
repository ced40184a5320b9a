/**
 * The image scale parameter of the ADE gallery preview (CmsCroppingParamBean).
 *
 * A bean holds six integer settings, each -1 when unset. It is written into an
 * image link as `__scale=h:..,w:..,cx:..,cy:..,ch:..,cw:..` (only the set ones,
 * always in that order) and read back from such a link.
 *
 * The value `Scale` and the functions on it are the specification; the class
 * `CroppingParamBean` is the mutable bean, whose methods are proved against
 * those functions.
 */
module CroppingParams {
  import opened Util

  // ---------------------------------------------------------------------
  // Constants of the scale parameter syntax
  // ---------------------------------------------------------------------

  const ScaleParamName: string := "__scale"
  const ScaleParamEq: string := "="
  const ScaleParamColon: string := ":"
  const ScaleParamDelimiter: char := ','
  /** The marker looked for in an image path, `__scale=`. */
  const ScaleParamPrefix: string := ScaleParamName + ScaleParamEq
  /** The value of a setting that is not set. */
  const Unset: int := -1

  /** The six settings, in the order in which they are written. */
  datatype Field = TargetHeight | TargetWidth | CropX | CropY | CropHeight | CropWidth

  /** The key under which a setting is written. */
  function Key(f: Field): string {
    match f
    case TargetHeight => "h"
    case TargetWidth => "w"
    case CropX => "cx"
    case CropY => "cy"
    case CropHeight => "ch"
    case CropWidth => "cw"
  }

  /** The position of a setting in the written order. */
  function Ordinal(f: Field): nat {
    match f
    case TargetHeight => 0
    case TargetWidth => 1
    case CropX => 2
    case CropY => 3
    case CropHeight => 4
    case CropWidth => 5
  }

  /** `key:`, the text a token starts with. */
  function KeyPrefix(f: Field): string {
    Key(f) + ScaleParamColon
  }

  // ---------------------------------------------------------------------
  // The bean's value
  // ---------------------------------------------------------------------

  datatype Scale = Scale(
    targetHeight: int, targetWidth: int,
    cropX: int, cropY: int, cropHeight: int, cropWidth: int)

  /** What a fresh bean and `reset` give: every setting unset. */
  const Default: Scale := Scale(Unset, Unset, Unset, Unset, Unset, Unset)

  function Get(v: Scale, f: Field): int {
    match f
    case TargetHeight => v.targetHeight
    case TargetWidth => v.targetWidth
    case CropX => v.cropX
    case CropY => v.cropY
    case CropHeight => v.cropHeight
    case CropWidth => v.cropWidth
  }

  /** The bean after the setter of f was called with x. */
  function Set(v: Scale, f: Field, x: int): (r: Scale)
    ensures Get(r, f) == x
    ensures forall g :: g != f ==> Get(r, g) == Get(v, g)
  {
    match f
    case TargetHeight => v.(targetHeight := x)
    case TargetWidth => v.(targetWidth := x)
    case CropX => v.(cropX := x)
    case CropY => v.(cropY := x)
    case CropHeight => v.(cropHeight := x)
    case CropWidth => v.(cropWidth := x)
  }

  /** A setting is written only when it is greater than -1. */
  predicate IsSet(v: Scale, f: Field) {
    Get(v, f) > Unset
  }

  /** The values the round trip is about: no setting below -1. */
  predicate NoneBelowUnset(v: Scale) {
    forall f :: Get(v, f) >= Unset
  }

  /** isCropped: the X crop coordinate is set. */
  predicate IsCropped(v: Scale) {
    v.cropX > Unset
  }

  // ---------------------------------------------------------------------
  // Serialisation (toString)
  // ---------------------------------------------------------------------

  /** One written setting, `key:value`. */
  function Entry(f: Field, x: nat): string {
    KeyPrefix(f) + NatToDecimal(x)
  }

  /** The token this setting contributes: one when it is set, none otherwise. */
  function EntryFor(v: Scale, f: Field): seq<string> {
    if IsSet(v, f) then [Entry(f, Get(v, f))] else []
  }

  /** The written tokens in the fixed order h, w, cx, cy, ch, cw. */
  function Entries(v: Scale): seq<string> {
    EntryFor(v, TargetHeight) + EntryFor(v, TargetWidth) + EntryFor(v, CropX)
    + EntryFor(v, CropY) + EntryFor(v, CropHeight) + EntryFor(v, CropWidth)
  }

  /** The text toString returns. */
  function Serialize(v: Scale): string {
    var es := Entries(v);
    if es == [] then "" else ScaleParamPrefix + Join(es, ScaleParamDelimiter)
  }

  // ---------------------------------------------------------------------
  // Parsing (parseValue, parseScaleParam, parseImagePath)
  // ---------------------------------------------------------------------

  /** The chars JavaScript's parseInt skips before the number. */
  predicate IsJsSpace(c: char) {
    c == ' ' || c == '\t' || c == '\n' || c == '\r' || c == '\U{B}' || c == '\U{C}'
    || c == '\U{A0}' || c == '\U{FEFF}' || c == '\U{2028}' || c == '\U{2029}'
  }

  function SkipJsSpace(s: string): (r: string)
    ensures |r| <= |s|
    ensures r == [] || !IsJsSpace(r[0])
    ensures r == s[|s| - |r|..]
  {
    if s != [] && IsJsSpace(s[0]) then SkipJsSpace(s[1..]) else s
  }

  /** parseInt on decimal text: an optional sign and the leading digits; None is NaN. */
  function ParseLeadingInt(s: string): Option<int> {
    var t := SkipJsSpace(s);
    var negative := t != [] && t[0] == '-';
    var body := if t != [] && (t[0] == '-' || t[0] == '+') then t[1..] else t;
    var ds := LeadingDigits(body);
    var magnitude: int := if ds == [] then 0 else DigitsValue(ds);
    if ds == [] then None
    else if negative then Some(-magnitude)
    else Some(magnitude)
  }

  /** parseValue: the number after `name:`, or -1 when there is none. */
  function ParseValue(name: string, param: string): int {
    var rest := if |name| + 1 <= |param| then param[|name| + 1..] else "";
    match ParseLeadingInt(rest)
    case None => Unset
    case Some(n) => n
  }

  /** The setting a trimmed token names, tested in the order the source tests. */
  function MatchKey(t: string): Option<Field> {
    if KeyPrefix(TargetHeight) <= t then Some(TargetHeight)
    else if KeyPrefix(TargetWidth) <= t then Some(TargetWidth)
    else if KeyPrefix(CropX) <= t then Some(CropX)
    else if KeyPrefix(CropY) <= t then Some(CropY)
    else if KeyPrefix(CropHeight) <= t then Some(CropHeight)
    else if KeyPrefix(CropWidth) <= t then Some(CropWidth)
    else None
  }

  /** One pass of the loop in parseScaleParam. */
  function ApplyToken(v: Scale, raw: string): Scale {
    var t := Trim(raw);
    match MatchKey(t)
    case None => v
    case Some(f) => Set(v, f, ParseValue(Key(f), t))
  }

  /** The loop in parseScaleParam over the first |ts| tokens. */
  function ApplyTokens(v: Scale, ts: seq<string>): Scale {
    if ts == [] then v else ApplyToken(ApplyTokens(v, ts[..|ts| - 1]), ts[|ts| - 1])
  }

  /** parseScaleParam. */
  function ScaleOfParam(param: string): Scale {
    if IsEmptyOrWhitespaceOnly(param) then Default
    else ApplyTokens(Default, JavaSplit(param, ScaleParamDelimiter))
  }

  /** The text parseImagePath hands to parseScaleParam: after `__scale=`, up to the first `&`. */
  function ScaleText(path: string, pos: nat): string
    requires pos + |ScaleParamPrefix| <= |path|
  {
    var param := path[pos + |ScaleParamPrefix|..];
    match IndexOf(param, "&")
    case None => param
    case Some(amp) => param[..amp]
  }

  /** parseImagePath. */
  function ScaleOfPath(path: string): Scale {
    match IndexOf(path, ScaleParamPrefix)
    case None => Default
    case Some(pos) => ScaleOfParam(ScaleText(path, pos))
  }

  // ---------------------------------------------------------------------
  // getRestrictedSizeParam and getRestrictedSizeScaleParam
  // ---------------------------------------------------------------------

  /** The target size the aspect-ratio branch of getRestrictedSizeParam computes. */
  datatype FittedSize = FittedSize(height: int, width: int)

  /**
   * getRestrictedSizeParam. `fit` stands for the floating-point branch: given the
   * target height and width and the two maxima, the size it scales down to.
   */
  function RestrictedSize(v: Scale, maxHeight: int, maxWidth: int,
                          fit: (int, int, int, int) -> FittedSize): Scale
  {
    if v.targetHeight <= maxHeight && v.targetWidth <= maxWidth then v
    else
      var size := fit(v.targetHeight, v.targetWidth, maxHeight, maxWidth);
      v.(targetHeight := size.height, targetWidth := size.width)
  }

  /** getRestrictedSizeScaleParam. */
  function RestrictedScaleParam(v: Scale, maxHeight: int, maxWidth: int,
                                fit: (int, int, int, int) -> FittedSize): string
  {
    if !IsEmptyOrWhitespaceOnly(Serialize(v)) then Serialize(RestrictedSize(v, maxHeight, maxWidth, fit))
    else Serialize(Default.(targetHeight := maxHeight, targetWidth := maxWidth))
  }

  // ---------------------------------------------------------------------
  // Properties of the written form
  // ---------------------------------------------------------------------

  lemma EntryShape(f: Field, x: nat)
    ensures var e := Entry(f, x);
            |e| > |KeyPrefix(f)| && e[..|KeyPrefix(f)|] == KeyPrefix(f)
            && e[|Key(f)| + 1..] == NatToDecimal(x)
            && !IsTrimmedChar(e[0]) && IsDigit(e[|e| - 1])
            && ScaleParamDelimiter !in e && '&' !in e
  {
    var e := Entry(f, x);
    var d := NatToDecimal(x);
    assert e == KeyPrefix(f) + d;
    assert e[|KeyPrefix(f)|..] == d;
    assert e[|e| - 1] == d[|d| - 1];
    forall i | 0 <= i < |e| ensures e[i] != ScaleParamDelimiter && e[i] != '&' {
      if i >= |KeyPrefix(f)| {
        assert e[i] == d[i - |KeyPrefix(f)|];
      }
    }
  }

  /** No setting other than f claims the token written for f. */
  lemma MatchKeyOfEntry(f: Field, x: nat)
    ensures MatchKey(Entry(f, x)) == Some(f)
  {
    var e := Entry(f, x);
    EntryShape(f, x);
    assert e[0] == Key(f)[0];
    assert |Key(f)| == 2 ==> e[1] == Key(f)[1] && e[2] == ':';
    assert |Key(f)| == 1 ==> e[1] == ':';
  }

  /** parseValue reads back the number written after the key. */
  lemma {:induction false} ParseValueOfEntry(f: Field, x: nat)
    ensures ParseValue(Key(f), Entry(f, x)) == x
  {
    EntryShape(f, x);
    var d := NatToDecimal(x);
    ParseLeadingIntOfDigits(d);
    DigitsValueOfDecimal(x);
  }

  lemma ParseLeadingIntOfDigits(d: string)
    requires d != [] && AllDigits(d)
    ensures ParseLeadingInt(d) == Some(DigitsValue(d))
  {
    assert IsDigit(d[0]);
    assert !IsJsSpace(d[0]);
    assert SkipJsSpace(d) == d;
    assert d[0] != '-' && d[0] != '+';
    AllDigitsLeading(d);
  }

  lemma {:induction false} AllDigitsLeading(s: string)
    requires AllDigits(s)
    ensures LeadingDigits(s) == s
  {
    if s != [] {
      AllDigitsLeading(s[1..]);
      assert [s[0]] + s[1..] == s;
    }
  }

  /** One written token, read by one pass of the loop, sets exactly its setting. */
  lemma ApplyEntry(w: Scale, f: Field, x: nat)
    ensures ApplyToken(w, Entry(f, x)) == Set(w, f, x)
  {
    EntryShape(f, x);
    TrimOfVisible(Entry(f, x));
    MatchKeyOfEntry(f, x);
    ParseValueOfEntry(f, x);
  }

  lemma ApplyTokensSnoc(w: Scale, ts: seq<string>, t: string)
    ensures ApplyTokens(w, ts + [t]) == ApplyToken(ApplyTokens(w, ts), t)
  {
    assert (ts + [t])[..|ts|] == ts;
  }

  /** One more token of ts, by index. */
  lemma ApplyTokensStep(w: Scale, ts: seq<string>, i: nat)
    requires i < |ts|
    ensures ApplyTokens(w, ts[..i + 1]) == ApplyToken(ApplyTokens(w, ts[..i]), ts[i])
  {
    assert ts[..i + 1] == ts[..i] + [ts[i]];
    ApplyTokensSnoc(w, ts[..i], ts[i]);
  }

  lemma {:induction false} ApplyTokensConcat(w: Scale, a: seq<string>, b: seq<string>)
    ensures ApplyTokens(w, a + b) == ApplyTokens(ApplyTokens(w, a), b)
  {
    if b == [] {
      assert a + b == a;
    } else {
      assert (a + b)[..|a + b| - 1] == a + b[..|b| - 1];
      ApplyTokensConcat(w, a, b[..|b| - 1]);
    }
  }

  lemma ApplyEntryFor(w: Scale, v: Scale, f: Field)
    ensures ApplyTokens(w, EntryFor(v, f)) == if IsSet(v, f) then Set(w, f, Get(v, f)) else w
  {
    if IsSet(v, f) {
      var e := Entry(f, Get(v, f));
      assert [e][..0] == [];
      ApplyEntry(w, f, Get(v, f));
    }
  }

  /** Reading the written tokens in order rebuilds the value. */
  lemma ApplyEntries(v: Scale)
    requires NoneBelowUnset(v)
    ensures ApplyTokens(Default, Entries(v)) == v
  {
    var e1, e2, e3 := EntryFor(v, TargetHeight), EntryFor(v, TargetWidth), EntryFor(v, CropX);
    var e4, e5, e6 := EntryFor(v, CropY), EntryFor(v, CropHeight), EntryFor(v, CropWidth);
    ApplyTokensConcat(Default, e1 + e2 + e3 + e4 + e5, e6);
    ApplyTokensConcat(Default, e1 + e2 + e3 + e4, e5);
    ApplyTokensConcat(Default, e1 + e2 + e3, e4);
    ApplyTokensConcat(Default, e1 + e2, e3);
    ApplyTokensConcat(Default, e1, e2);
    var w0 := Default;
    ApplyEntryFor(w0, v, TargetHeight);
    var w1 := ApplyTokens(w0, e1);
    ApplyEntryFor(w1, v, TargetWidth);
    var w2 := ApplyTokens(w1, e2);
    ApplyEntryFor(w2, v, CropX);
    var w3 := ApplyTokens(w2, e3);
    ApplyEntryFor(w3, v, CropY);
    var w4 := ApplyTokens(w3, e4);
    ApplyEntryFor(w4, v, CropHeight);
    var w5 := ApplyTokens(w4, e5);
    ApplyEntryFor(w5, v, CropWidth);
    var w6 := ApplyTokens(w5, e6);
    assert Get(v, TargetHeight) >= Unset && Get(v, TargetWidth) >= Unset && Get(v, CropX) >= Unset;
    assert Get(v, CropY) >= Unset && Get(v, CropHeight) >= Unset && Get(v, CropWidth) >= Unset;
  }

  /** What every written token looks like: non-empty, free of `,` and `&`, a visible first char, a digit last. */
  predicate WellFormedToken(t: string) {
    t != [] && ScaleParamDelimiter !in t && '&' !in t
    && !IsTrimmedChar(t[0]) && IsDigit(t[|t| - 1])
  }

  predicate AllWellFormed(ts: seq<string>) {
    forall i :: 0 <= i < |ts| ==> WellFormedToken(ts[i])
  }

  lemma EntryForWellFormed(v: Scale, f: Field)
    ensures AllWellFormed(EntryFor(v, f))
  {
    if IsSet(v, f) {
      EntryShape(f, Get(v, f));
    }
  }

  lemma AllWellFormedConcat(a: seq<string>, b: seq<string>)
    requires AllWellFormed(a) && AllWellFormed(b)
    ensures AllWellFormed(a + b)
  {
    forall i | 0 <= i < |a + b| ensures WellFormedToken((a + b)[i]) {
      if i < |a| {
        assert (a + b)[i] == a[i];
      } else {
        assert (a + b)[i] == b[i - |a|];
      }
    }
  }

  lemma EntriesWellFormed(v: Scale)
    ensures AllWellFormed(Entries(v))
  {
    var e1, e2, e3 := EntryFor(v, TargetHeight), EntryFor(v, TargetWidth), EntryFor(v, CropX);
    var e4, e5, e6 := EntryFor(v, CropY), EntryFor(v, CropHeight), EntryFor(v, CropWidth);
    EntryForWellFormed(v, TargetHeight);
    EntryForWellFormed(v, TargetWidth);
    EntryForWellFormed(v, CropX);
    EntryForWellFormed(v, CropY);
    EntryForWellFormed(v, CropHeight);
    EntryForWellFormed(v, CropWidth);
    AllWellFormedConcat(e1, e2);
    AllWellFormedConcat(e1 + e2, e3);
    AllWellFormedConcat(e1 + e2 + e3, e4);
    AllWellFormedConcat(e1 + e2 + e3 + e4, e5);
    AllWellFormedConcat(e1 + e2 + e3 + e4 + e5, e6);
  }

  /** Every token names a setting before position n. */
  predicate KeysBelow(es: seq<string>, n: nat) {
    forall i :: 0 <= i < |es| ==> MatchKey(es[i]).Some? && Ordinal(MatchKey(es[i]).value) < n
  }

  /** The settings named strictly increase along the tokens. */
  predicate KeysIncreasing(es: seq<string>)
    requires KeysBelow(es, 6)
  {
    forall i, j :: 0 <= i < j < |es| ==> Ordinal(MatchKey(es[i]).value) < Ordinal(MatchKey(es[j]).value)
  }

  /** A setting before position n has a token exactly when it is set. */
  predicate TokenIffSet(v: Scale, es: seq<string>, n: nat) {
    forall f :: Ordinal(f) < n ==> (IsSet(v, f) <==> exists i :: 0 <= i < |es| && MatchKey(es[i]) == Some(f))
  }

  /**
   * Every token names a setting before position n, the settings strictly
   * increase along the tokens, and a setting before n has a token exactly
   * when it is set.
   */
  predicate InFieldOrder(v: Scale, es: seq<string>, n: nat)
    requires n <= 6
  {
    KeysBelow(es, n) && KeysIncreasing(es) && TokenIffSet(v, es, n)
  }

  lemma InFieldOrderStep(v: Scale, es: seq<string>, f: Field)
    requires InFieldOrder(v, es, Ordinal(f))
    ensures InFieldOrder(v, es + EntryFor(v, f), Ordinal(f) + 1)
  {
    if IsSet(v, f) {
      var e := Entry(f, Get(v, f));
      MatchKeyOfEntry(f, Get(v, f));
      KeysAppend(es, e, f);
      TokenIffSetAppend(v, es, e, f);
    } else {
      assert es + EntryFor(v, f) == es;
    }
  }

  /** Appending a token for f after tokens below f keeps the keys in order. */
  lemma KeysAppend(es: seq<string>, e: string, f: Field)
    requires KeysBelow(es, Ordinal(f)) && KeysIncreasing(es) && MatchKey(e) == Some(f)
    ensures KeysBelow(es + [e], Ordinal(f) + 1) && KeysIncreasing(es + [e])
  {
    var r := es + [e];
    assert forall i :: 0 <= i < |es| ==> r[i] == es[i];
    assert r[|es|] == e;
  }

  /** Appending the token of a set setting f records f and no other setting. */
  lemma TokenIffSetAppend(v: Scale, es: seq<string>, e: string, f: Field)
    requires KeysBelow(es, Ordinal(f)) && TokenIffSet(v, es, Ordinal(f))
    requires IsSet(v, f) && MatchKey(e) == Some(f)
    ensures TokenIffSet(v, es + [e], Ordinal(f) + 1)
  {
    var r := es + [e];
    assert r[|es|] == e;
    forall g | Ordinal(g) < Ordinal(f) + 1
      ensures IsSet(v, g) <==> exists i :: 0 <= i < |r| && MatchKey(r[i]) == Some(g)
    {
      if Ordinal(g) < Ordinal(f) {
        if i :| 0 <= i < |r| && MatchKey(r[i]) == Some(g) {
          assert i < |es| && r[i] == es[i];
        }
        if i :| 0 <= i < |es| && MatchKey(es[i]) == Some(g) {
          assert r[i] == es[i];
        }
      } else {
        assert MatchKey(r[|es|]) == Some(g);
      }
    }
  }

  /**
   * toString writes the set settings, and only those, in the fixed order
   * h, w, cx, cy, ch, cw.
   */
  lemma EntriesInOrder(v: Scale)
    ensures InFieldOrder(v, Entries(v), 6)
  {
    var e1, e2, e3 := EntryFor(v, TargetHeight), EntryFor(v, TargetWidth), EntryFor(v, CropX);
    var e4, e5, e6 := EntryFor(v, CropY), EntryFor(v, CropHeight), EntryFor(v, CropWidth);
    InFieldOrderStep(v, [], TargetHeight);
    assert [] + e1 == e1;
    InFieldOrderStep(v, e1, TargetWidth);
    InFieldOrderStep(v, e1 + e2, CropX);
    InFieldOrderStep(v, e1 + e2 + e3, CropY);
    InFieldOrderStep(v, e1 + e2 + e3 + e4, CropHeight);
    InFieldOrderStep(v, e1 + e2 + e3 + e4 + e5, CropWidth);
  }

  /**
   * toString returns the empty string exactly when no setting is above -1.
   */
  lemma SerializeEmptyIff(v: Scale)
    ensures Serialize(v) == "" <==> forall f :: Get(v, f) <= Unset
  {
    if Entries(v) == [] {
      assert forall f :: EntryFor(v, f) == [];
    } else {
      assert exists f :: EntryFor(v, f) != [];
    }
  }

  /**
   * A non-empty toString starts with `__scale=`, does not end with the
   * delimiter, and the text after the marker splits into exactly the written
   * tokens, in the fixed order.
   */
  lemma SerializeLayout(v: Scale)
    requires Serialize(v) != ""
    ensures var s := Serialize(v);
            ScaleParamPrefix <= s && s[|s| - 1] != ScaleParamDelimiter
            && JavaSplit(s[|ScaleParamPrefix|..], ScaleParamDelimiter) == Entries(v)
  {
    var es := Entries(v);
    var j := Join(es, ScaleParamDelimiter);
    EntriesWellFormed(v);
    JoinLast(es, ScaleParamDelimiter);
    assert (ScaleParamPrefix + j)[|ScaleParamPrefix|..] == j;
    SplitOfJoin(es);
  }

  lemma SplitOfJoin(es: seq<string>)
    requires es != []
    requires forall i :: 0 <= i < |es| ==> es[i] != [] && ScaleParamDelimiter !in es[i]
    ensures JavaSplit(Join(es, ScaleParamDelimiter), ScaleParamDelimiter) == es
  {
    var j := Join(es, ScaleParamDelimiter);
    if |es| >= 2 {
      JoinHasDelimiter(es, ScaleParamDelimiter);
      SplitAllJoin(es, ScaleParamDelimiter);
    }
  }

  /**
   * The round trip: for every value with no setting below -1, parsing the
   * text toString writes gives the value back.
   */
  lemma RoundTrip(v: Scale)
    requires NoneBelowUnset(v)
    ensures ScaleOfPath(Serialize(v)) == v
  {
    var es := Entries(v);
    if es == [] {
      SerializeEmptyIff(v);
      assert v == Default;
    } else {
      var s := Serialize(v);
      var j := Join(es, ScaleParamDelimiter);
      assert s == ScaleParamPrefix + j;
      assert OccursAt(s, ScaleParamPrefix, 0);
      assert IndexOf(s, ScaleParamPrefix) == Some(0);
      assert s[|ScaleParamPrefix|..] == j;
      EntriesWellFormed(v);
      JoinAvoids(es, ScaleParamDelimiter, '&');
      assert IndexOf(j, "&").None?;
      assert ScaleText(s, 0) == j;
      JoinFirst(es, ScaleParamDelimiter);
      JoinLast(es, ScaleParamDelimiter);
      TrimOfVisible(j);
      SplitOfJoin(es);
      ApplyEntries(v);
    }
  }

  // ---------------------------------------------------------------------
  // Properties of the parser
  // ---------------------------------------------------------------------

  /** The value of the last token among ts that names f, if there is one. */
  function LastValueFor(ts: seq<string>, f: Field): Option<int> {
    if ts == [] then None
    else
      var t := Trim(ts[|ts| - 1]);
      if MatchKey(t) == Some(f) then Some(ParseValue(Key(f), t))
      else LastValueFor(ts[..|ts| - 1], f)
  }

  /**
   * Each setting of the parsed value is decided by the last token naming it
   * alone: a later token overrides earlier ones, tokens for other settings and
   * tokens with unknown keys leave it as it was.
   */
  lemma {:induction false} ApplyTokensField(w: Scale, ts: seq<string>, f: Field)
    ensures Get(ApplyTokens(w, ts), f) == match LastValueFor(ts, f) case Some(x) => x case None => Get(w, f)
  {
    if ts != [] {
      ApplyTokensField(w, ts[..|ts| - 1], f);
    }
  }

  /** parseScaleParam of an empty or blank text is the default value. */
  lemma ScaleOfBlankParam(param: string)
    requires forall i :: 0 <= i < |param| ==> IsTrimmedChar(param[i])
    ensures ScaleOfParam(param) == Default
  {
    TrimEmptyIff(param);
  }

  /** A token whose trimmed text starts with none of the keys changes nothing. */
  lemma UnknownTokenIgnored(v: Scale, raw: string)
    requires forall f :: !(KeyPrefix(f) <= Trim(raw))
    ensures ApplyToken(v, raw) == v
  {
    var t := Trim(raw);
    assert !(KeyPrefix(TargetHeight) <= t) && !(KeyPrefix(TargetWidth) <= t);
    assert !(KeyPrefix(CropX) <= t) && !(KeyPrefix(CropY) <= t);
    assert !(KeyPrefix(CropHeight) <= t) && !(KeyPrefix(CropWidth) <= t);
    assert MatchKey(t) == None;
  }

  /** An unparsable value sets the named setting to -1. */
  lemma UnparsableValue(v: Scale, raw: string, f: Field)
    requires MatchKey(Trim(raw)) == Some(f)
    requires ParseLeadingInt(Trim(raw)[|Key(f)| + 1..]) == None
    ensures Get(ApplyToken(v, raw), f) == Unset
  {
  }

  /** parseImagePath of a path without `__scale=` is the default value. */
  lemma ScaleOfPathWithoutMarker(path: string)
    requires forall i :: 0 <= i <= |path| ==> !OccursAt(path, ScaleParamPrefix, i)
    ensures ScaleOfPath(path) == Default
  {
  }

  /**
   * Otherwise parseImagePath parses the text after the first `__scale=` up to
   * the first `&` after it (or to the end): the text it parses starts right
   * after the marker, contains no `&`, and is followed by `&` or the end.
   */
  lemma ScaleOfPathWithMarker(path: string, pos: nat)
    requires OccursAt(path, ScaleParamPrefix, pos)
    requires forall i :: 0 <= i < pos ==> !OccursAt(path, ScaleParamPrefix, i)
    ensures var start := pos + |ScaleParamPrefix|;
            var t := ScaleText(path, pos);
            && ScaleOfPath(path) == ScaleOfParam(t)
            && start + |t| <= |path|
            && t == path[start..start + |t|]
            && '&' !in t
            && (start + |t| == |path| || path[start + |t|] == '&')
  {
    IndexOfFromFirst(path, ScaleParamPrefix, 0, pos);
    ScaleTextShape(path, pos);
  }

  /** The text after the marker runs up to the first `&` or the end. */
  lemma ScaleTextShape(path: string, pos: nat)
    requires pos + |ScaleParamPrefix| <= |path|
    ensures var start := pos + |ScaleParamPrefix|;
            var t := ScaleText(path, pos);
            && start + |t| <= |path|
            && t == path[start..start + |t|]
            && '&' !in t
            && (start + |t| == |path| || path[start + |t|] == '&')
  {
    var start := pos + |ScaleParamPrefix|;
    var param := path[start..];
    var t := ScaleText(path, pos);
    match IndexOf(param, "&")
    case None =>
      assert t == param;
      forall k | 0 <= k < |t| ensures t[k] != '&' {
        assert !OccursAt(param, "&", k);
        assert param[k..k + 1] == [param[k]];
      }
    case Some(amp) =>
      assert t == param[..amp];
      assert param[amp..amp + 1] == [param[amp]];
      forall k | 0 <= k < |t| ensures t[k] != '&' {
        assert !OccursAt(param, "&", k);
        assert param[k..k + 1] == [param[k]];
      }
  }

  // ---------------------------------------------------------------------
  // Properties of the size restriction
  // ---------------------------------------------------------------------

  /** Within both maxima, getRestrictedSizeParam returns an unchanged copy. */
  lemma RestrictedSizeWithinBounds(v: Scale, maxHeight: int, maxWidth: int,
                                   fit: (int, int, int, int) -> FittedSize)
    requires v.targetHeight <= maxHeight && v.targetWidth <= maxWidth
    ensures RestrictedSize(v, maxHeight, maxWidth, fit) == v
  {
  }

  /** The restriction only ever changes the target size, never the crop settings. */
  lemma RestrictedSizeKeepsCrop(v: Scale, maxHeight: int, maxWidth: int,
                                fit: (int, int, int, int) -> FittedSize)
    ensures var r := RestrictedSize(v, maxHeight, maxWidth, fit);
            r.cropX == v.cropX && r.cropY == v.cropY
            && r.cropHeight == v.cropHeight && r.cropWidth == v.cropWidth
  {
  }

  /**
   * When the bean writes the empty string, getRestrictedSizeScaleParam writes
   * a parameter that holds only the two maxima as target height and width.
   */
  lemma RestrictedScaleParamOfUnset(v: Scale, maxHeight: nat, maxWidth: nat,
                                    fit: (int, int, int, int) -> FittedSize)
    requires Serialize(v) == ""
    ensures RestrictedScaleParam(v, maxHeight, maxWidth, fit)
            == "__scale=h:" + NatToDecimal(maxHeight) + ",w:" + NatToDecimal(maxWidth)
  {
    TrimEmptyIff("");
    var d := Default.(targetHeight := maxHeight, targetWidth := maxWidth);
    var eh, ew := Entry(TargetHeight, maxHeight), Entry(TargetWidth, maxWidth);
    assert Entries(d) == [eh, ew];
    assert Join([eh, ew], ScaleParamDelimiter) == eh + [ScaleParamDelimiter] + ew;
    assert Serialize(d) == ScaleParamPrefix + eh + [ScaleParamDelimiter] + ew;
  }

  /**
   * When the bean writes something and is within both maxima, the restricted
   * parameter is the bean's own parameter.
   */
  lemma RestrictedScaleParamWithinBounds(v: Scale, maxHeight: int, maxWidth: int,
                                         fit: (int, int, int, int) -> FittedSize)
    requires Serialize(v) != ""
    requires v.targetHeight <= maxHeight && v.targetWidth <= maxWidth
    ensures RestrictedScaleParam(v, maxHeight, maxWidth, fit) == Serialize(v)
  {
    var s := Serialize(v);
    assert s[0] == '_';
    TrimEmptyIff(s);
  }

  // ---------------------------------------------------------------------
  // The mutable bean
  // ---------------------------------------------------------------------

  /** The StringBuffer of toString before the marker is inserted: every token followed by the delimiter. */
  function Terminated(ts: seq<string>): string {
    if ts == [] then "" else ts[0] + [ScaleParamDelimiter] + Terminated(ts[1..])
  }

  lemma {:induction false} TerminatedConcat(a: seq<string>, b: seq<string>)
    ensures Terminated(a + b) == Terminated(a) + Terminated(b)
  {
    if a == [] {
      assert a + b == b;
    } else {
      assert (a + b)[0] == a[0];
      assert (a + b)[1..] == a[1..] + b;
      TerminatedConcat(a[1..], b);
    }
  }

  lemma {:induction false} TerminatedIsJoin(ts: seq<string>)
    requires ts != []
    ensures Terminated(ts) == Join(ts, ScaleParamDelimiter) + [ScaleParamDelimiter]
  {
    if |ts| > 1 {
      TerminatedIsJoin(ts[1..]);
    }
  }

  /** One of the six appends of toString, in terms of the tokens written so far. */
  lemma TerminatedStep(done: seq<string>, v: Scale, f: Field)
    ensures IsSet(v, f) ==>
              Terminated(done + EntryFor(v, f))
              == Terminated(done) + Key(f) + ScaleParamColon + NatToDecimal(Get(v, f)) + [ScaleParamDelimiter]
    ensures !IsSet(v, f) ==> Terminated(done + EntryFor(v, f)) == Terminated(done)
  {
    TerminatedConcat(done, EntryFor(v, f));
    if IsSet(v, f) {
      var e := Entry(f, Get(v, f));
      assert Terminated([e]) == e + [ScaleParamDelimiter] + Terminated([]);
    } else {
      assert done + EntryFor(v, f) == done;
    }
  }

  /** The end of toString: the buffer is empty exactly when nothing is set, and otherwise gives Serialize. */
  lemma BufferToSerialized(v: Scale)
    ensures var buf := Terminated(Entries(v));
            && (|buf| > 0 <==> Entries(v) != [])
            && (|buf| > 0 ==> (ScaleParamName + ScaleParamEq + buf)[..|ScaleParamName + ScaleParamEq + buf| - 1] == Serialize(v))
  {
    var es := Entries(v);
    if es != [] {
      TerminatedIsJoin(es);
      var j := Join(es, ScaleParamDelimiter);
      assert ScaleParamName + ScaleParamEq + Terminated(es) == ScaleParamPrefix + j + [ScaleParamDelimiter];
    }
  }

  class CroppingParamBean {
    var cropHeight: int
    var cropWidth: int
    var cropX: int
    var cropY: int
    var targetHeight: int
    var targetWidth: int

    /** The bean's six settings as a value. */
    function Value(): Scale
      reads this
    {
      Scale(targetHeight, targetWidth, cropX, cropY, cropHeight, cropWidth)
    }

    constructor ()
      ensures Value() == Default
    {
      cropHeight, cropWidth, cropX, cropY := Unset, Unset, Unset, Unset;
      targetHeight, targetWidth := Unset, Unset;
    }

    /** The copy constructor. */
    constructor Copy(copy: CroppingParamBean)
      ensures Value() == copy.Value()
    {
      cropHeight := copy.GetCropHeight();
      cropWidth := copy.GetCropWidth();
      cropX := copy.GetCropX();
      cropY := copy.GetCropY();
      targetHeight := copy.GetTargetHeight();
      targetWidth := copy.GetTargetWidth();
    }

    function GetCropHeight(): int reads this { cropHeight }
    function GetCropWidth(): int reads this { cropWidth }
    function GetCropX(): int reads this { cropX }
    function GetCropY(): int reads this { cropY }
    function GetTargetHeight(): int reads this { targetHeight }
    function GetTargetWidth(): int reads this { targetWidth }

    method SetCropHeight(x: int)
      modifies this
      ensures Value() == Set(old(Value()), CropHeight, x)
    {
      cropHeight := x;
    }

    method SetCropWidth(x: int)
      modifies this
      ensures Value() == Set(old(Value()), CropWidth, x)
    {
      cropWidth := x;
    }

    method SetCropX(x: int)
      modifies this
      ensures Value() == Set(old(Value()), CropX, x)
    {
      cropX := x;
    }

    method SetCropY(x: int)
      modifies this
      ensures Value() == Set(old(Value()), CropY, x)
    {
      cropY := x;
    }

    method SetTargetHeight(x: int)
      modifies this
      ensures Value() == Set(old(Value()), TargetHeight, x)
    {
      targetHeight := x;
    }

    method SetTargetWidth(x: int)
      modifies this
      ensures Value() == Set(old(Value()), TargetWidth, x)
    {
      targetWidth := x;
    }

    /** reset: back to the state of a fresh bean. */
    method Reset()
      modifies this
      ensures Value() == Default
    {
      cropHeight := Unset;
      cropWidth := Unset;
      cropX := Unset;
      cropY := Unset;
      targetHeight := Unset;
      targetWidth := Unset;
    }

    function IsCroppedBean(): (r: bool)
      reads this
      ensures r == IsCropped(Value())
    {
      cropX > Unset
    }

    /** toString: appends `key:value,` per set field, then inserts the marker and deletes the last char. */
    method ToString() returns (s: string)
      ensures s == Serialize(Value())
    {
      ghost var v := Value();
      var result := "";
      result := AppendIfSet(result, TargetHeight, targetHeight, [], v);
      result := AppendIfSet(result, TargetWidth, targetWidth, EntryFor(v, TargetHeight), v);
      result := AppendIfSet(result, CropX, cropX, EntryFor(v, TargetHeight) + EntryFor(v, TargetWidth), v);
      result := AppendIfSet(result, CropY, cropY,
        EntryFor(v, TargetHeight) + EntryFor(v, TargetWidth) + EntryFor(v, CropX), v);
      result := AppendIfSet(result, CropHeight, cropHeight,
        EntryFor(v, TargetHeight) + EntryFor(v, TargetWidth) + EntryFor(v, CropX) + EntryFor(v, CropY), v);
      result := AppendIfSet(result, CropWidth, cropWidth,
        EntryFor(v, TargetHeight) + EntryFor(v, TargetWidth) + EntryFor(v, CropX) + EntryFor(v, CropY)
        + EntryFor(v, CropHeight), v);
      BufferToSerialized(v);
      if |result| > 0 {
        result := ScaleParamName + ScaleParamEq + result;
        result := result[..|result| - 1];
      }
      s := result;
    }

    /** One `if (value > -1) append(key).append(":").append(value).append(",")` step of toString. */
    static method AppendIfSet(result: string, f: Field, x: int, ghost done: seq<string>, ghost v: Scale)
      returns (r: string)
      requires x == Get(v, f) && result == Terminated(done)
      ensures r == Terminated(done + EntryFor(v, f))
    {
      TerminatedStep(done, v, f);
      r := result;
      if x > Unset {
        r := r + Key(f) + ScaleParamColon + NatToDecimal(x) + [ScaleParamDelimiter];
      }
    }

    /** parseScaleParam (static in the source). */
    static method ParseScaleParam(param: string) returns (result: CroppingParamBean)
      ensures fresh(result)
      ensures result.Value() == ScaleOfParam(param)
    {
      result := new CroppingParamBean();
      if IsEmptyOrWhitespaceOnly(param) {
        return;
      }
      var parameters := JavaSplit(param, ScaleParamDelimiter);
      var i := 0;
      while i < |parameters|
        invariant 0 <= i <= |parameters|
        invariant result.Value() == ApplyTokens(Default, parameters[..i])
      {
        ApplyTokensStep(Default, parameters, i);
        ApplyScaleParam(result, parameters[i]);
        i := i + 1;
      }
      assert parameters[..i] == parameters;
    }

    /** The body of the loop in parseScaleParam: the first key the trimmed token starts with sets its field. */
    static method ApplyScaleParam(result: CroppingParamBean, token: string)
      modifies result
      ensures result.Value() == ApplyToken(old(result.Value()), token)
    {
      var scaleParam := Trim(token);
      if KeyPrefix(TargetHeight) <= scaleParam {
        result.SetTargetHeight(ParseValue(Key(TargetHeight), scaleParam));
        return;
      }
      if KeyPrefix(TargetWidth) <= scaleParam {
        result.SetTargetWidth(ParseValue(Key(TargetWidth), scaleParam));
        return;
      }
      if KeyPrefix(CropX) <= scaleParam {
        result.SetCropX(ParseValue(Key(CropX), scaleParam));
        return;
      }
      if KeyPrefix(CropY) <= scaleParam {
        result.SetCropY(ParseValue(Key(CropY), scaleParam));
        return;
      }
      if KeyPrefix(CropHeight) <= scaleParam {
        result.SetCropHeight(ParseValue(Key(CropHeight), scaleParam));
        return;
      }
      if KeyPrefix(CropWidth) <= scaleParam {
        result.SetCropWidth(ParseValue(Key(CropWidth), scaleParam));
        return;
      }
    }

    /** parseImagePath (static in the source). */
    static method ParseImagePath(selectedPath: string) returns (result: CroppingParamBean)
      ensures fresh(result)
      ensures result.Value() == ScaleOfPath(selectedPath)
    {
      var pos := IndexOf(selectedPath, ScaleParamName + ScaleParamEq);
      if pos.Some? {
        var param := selectedPath[pos.value + |ScaleParamName| + |ScaleParamEq|..];
        var amp := IndexOf(param, "&");
        if amp.Some? {
          param := param[..amp.value];
        }
        result := ParseScaleParam(param);
        return;
      }
      result := new CroppingParamBean();
    }

    /** getRestrictedSizeParam; `fit` is the aspect-ratio computation. */
    method GetRestrictedSizeParam(maxHeight: int, maxWidth: int,
                                  fit: (int, int, int, int) -> FittedSize)
      returns (result: CroppingParamBean)
      ensures fresh(result)
      ensures result.Value() == RestrictedSize(Value(), maxHeight, maxWidth, fit)
    {
      result := new CroppingParamBean.Copy(this);
      if GetTargetHeight() <= maxHeight && GetTargetWidth() <= maxWidth {
        return;
      }
      var size := fit(GetTargetHeight(), GetTargetWidth(), maxHeight, maxWidth);
      result.SetTargetHeight(size.height);
      result.SetTargetWidth(size.width);
    }

    /** getRestrictedSizeScaleParam. */
    method GetRestrictedSizeScaleParam(maxHeight: int, maxWidth: int,
                                       fit: (int, int, int, int) -> FittedSize)
      returns (s: string)
      ensures s == RestrictedScaleParam(Value(), maxHeight, maxWidth, fit)
    {
      ghost var v := Value();
      var result := ToString();
      if !IsEmptyOrWhitespaceOnly(result) {
        var restrictedBean := GetRestrictedSizeParam(maxHeight, maxWidth, fit);
        s := restrictedBean.ToString();
        assert s == Serialize(RestrictedSize(v, maxHeight, maxWidth, fit));
        assert Value() == v;
        return;
      }
      var restricted := new CroppingParamBean();
      restricted.SetTargetHeight(maxHeight);
      restricted.SetTargetWidth(maxWidth);
      assert restricted.Value() == Default.(targetHeight := maxHeight, targetWidth := maxWidth);
      s := restricted.ToString();
      assert s == Serialize(Default.(targetHeight := maxHeight, targetWidth := maxWidth));
      assert Value() == v;
    }
  }
}
