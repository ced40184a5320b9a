/**
 * Small value-level helpers shared by the models: an Option type for Java's
 * nullable references, decimal digits, and the handful of java.lang.String
 * operations the modelled code relies on (trim, startsWith, indexOf, split).
 */
module Util {

  /** A Java reference that may be null: None stands for null. */
  datatype Option<+T> = None | Some(value: T)

  /**
   * The Java exceptions the modelled code lets escape or catches: CmsFailure
   * is a (checked) CmsException, Unchecked any other RuntimeException thrown
   * by code outside the model.
   */
  datatype JavaException = NullPointer | NumberFormat | ClassCast | JsonError | CmsFailure | Unchecked

  /** A Java call that returns a value or throws. */
  datatype Result<+T> = Ok(value: T) | Err(exception: JavaException)

  // ---------------------------------------------------------------------
  // Decimal digits
  // ---------------------------------------------------------------------

  predicate IsDigit(c: char) {
    '0' <= c <= '9'
  }

  predicate AllDigits(s: string) {
    forall i :: 0 <= i < |s| ==> IsDigit(s[i])
  }

  function DigitValue(c: char): nat
    requires IsDigit(c)
  {
    c as int - '0' as int
  }

  function DigitChar(d: nat): (c: char)
    requires d < 10
    ensures IsDigit(c) && DigitValue(c) == d
  {
    ('0' as int + d) as char
  }

  /** The decimal text of a non-negative number, as Integer.toString writes it. */
  function NatToDecimal(n: nat): (s: string)
    ensures |s| > 0
    ensures AllDigits(s)
  {
    if n < 10 then [DigitChar(n)] else NatToDecimal(n / 10) + [DigitChar(n % 10)]
  }

  /** The value of a string of decimal digits, most significant digit first. */
  function DigitsValue(s: string): nat
    requires AllDigits(s)
  {
    if s == [] then 0 else DigitsValue(s[..|s| - 1]) * 10 + DigitValue(s[|s| - 1])
  }

  /** Reading back the decimal text of a number gives the number. */
  lemma {:induction false} DigitsValueOfDecimal(n: nat)
    ensures DigitsValue(NatToDecimal(n)) == n
  {
    if n >= 10 {
      var s := NatToDecimal(n);
      assert s[..|s| - 1] == NatToDecimal(n / 10);
      DigitsValueOfDecimal(n / 10);
    }
  }

  /** The longest prefix of s made of decimal digits. */
  function LeadingDigits(s: string): (p: string)
    ensures p <= s
    ensures AllDigits(p)
    ensures |p| < |s| ==> !IsDigit(s[|p|])
  {
    if s == [] || !IsDigit(s[0]) then [] else [s[0]] + LeadingDigits(s[1..])
  }

  // ---------------------------------------------------------------------
  // java.lang.String.trim: strips every leading and trailing char <= ' '
  // ---------------------------------------------------------------------

  predicate IsTrimmedChar(c: char) {
    c <= ' '
  }

  function TrimStart(s: string): (r: string)
    ensures |r| <= |s| && r == s[|s| - |r|..]
    ensures forall i :: 0 <= i < |s| - |r| ==> IsTrimmedChar(s[i])
    ensures r != [] ==> !IsTrimmedChar(r[0])
  {
    if s != [] && IsTrimmedChar(s[0]) then TrimStart(s[1..]) else s
  }

  function TrimEnd(s: string): (r: string)
    ensures r <= s
    ensures forall i :: |r| <= i < |s| ==> IsTrimmedChar(s[i])
    ensures r != [] ==> !IsTrimmedChar(r[|r| - 1])
  {
    if s != [] && IsTrimmedChar(s[|s| - 1]) then TrimEnd(s[..|s| - 1]) else s
  }

  function Trim(s: string): string {
    TrimEnd(TrimStart(s))
  }

  /** trim() is empty exactly when every char of s is a trimmed one. */
  lemma TrimEmptyIff(s: string)
    ensures Trim(s) == [] <==> forall i :: 0 <= i < |s| ==> IsTrimmedChar(s[i])
  {
    var t := TrimStart(s);
    if Trim(s) == [] {
      assert t == [];
    } else {
      var r := Trim(s);
      assert t[0] == s[|s| - |t|];
    }
  }

  /** A string that already starts and ends with a visible char is its own trim. */
  lemma TrimOfVisible(s: string)
    requires s != [] && !IsTrimmedChar(s[0]) && !IsTrimmedChar(s[|s| - 1])
    ensures Trim(s) == s
  {
  }

  /** CmsStringUtil.isEmptyOrWhitespaceOnly for a non-null string. */
  predicate IsEmptyOrWhitespaceOnly(s: string) {
    |Trim(s)| == 0
  }

  // ---------------------------------------------------------------------
  // java.lang.String.indexOf
  // ---------------------------------------------------------------------

  predicate OccursAt(s: string, pat: string, i: nat) {
    i + |pat| <= |s| && s[i..i + |pat|] == pat
  }

  function IndexOfFrom(s: string, pat: string, from: nat): (r: Option<nat>)
    decreases |s| - from
    ensures r.Some? ==> from <= r.value && OccursAt(s, pat, r.value)
    ensures r.Some? ==> forall j :: from <= j < r.value ==> !OccursAt(s, pat, j)
    ensures r.None? ==> forall j :: from <= j ==> !OccursAt(s, pat, j)
  {
    if from + |pat| > |s| then None
    else if OccursAt(s, pat, from) then Some(from)
    else IndexOfFrom(s, pat, from + 1)
  }

  /** The first position at which pat occurs in s; None stands for Java's -1. */
  function IndexOf(s: string, pat: string): Option<nat> {
    IndexOfFrom(s, pat, 0)
  }

  /** indexOf finds the first occurrence at or after from. */
  lemma {:induction false} IndexOfFromFirst(s: string, pat: string, from: nat, pos: nat)
    requires from <= pos && OccursAt(s, pat, pos)
    requires forall i :: from <= i < pos ==> !OccursAt(s, pat, i)
    ensures IndexOfFrom(s, pat, from) == Some(pos)
    decreases pos - from
  {
    if from < pos {
      IndexOfFromFirst(s, pat, from + 1, pos);
    }
  }

  // ---------------------------------------------------------------------
  // java.lang.String.split around a one-char delimiter
  // ---------------------------------------------------------------------

  /** Every piece between delimiters, empty ones included. */
  function SplitAll(s: string, d: char): (r: seq<string>)
    ensures |r| > 0
  {
    if s == [] then [""]
    else
      var rest := SplitAll(s[1..], d);
      if s[0] == d then [""] + rest else [[s[0]] + rest[0]] + rest[1..]
  }

  function DropTrailingEmpty(ts: seq<string>): seq<string> {
    if ts != [] && ts[|ts| - 1] == "" then DropTrailingEmpty(ts[..|ts| - 1]) else ts
  }

  /**
   * String.split(d): the string itself when d does not occur, otherwise the
   * pieces between the delimiters with trailing empty pieces removed.
   */
  function JavaSplit(s: string, d: char): seq<string> {
    if d !in s then [s] else DropTrailingEmpty(SplitAll(s, d))
  }

  /** The pieces joined by the delimiter. */
  function Join(ts: seq<string>, d: char): string {
    if ts == [] then ""
    else if |ts| == 1 then ts[0]
    else ts[0] + [d] + Join(ts[1..], d)
  }

  lemma {:induction false} SplitAllNoDelimiter(t: string, d: char)
    requires d !in t
    ensures SplitAll(t, d) == [t]
  {
    if t != [] {
      SplitAllNoDelimiter(t[1..], d);
      assert [t[0]] + t[1..] == t;
    }
  }

  lemma {:induction false} SplitAllPrefix(t: string, d: char, rest: string)
    requires d !in t
    ensures SplitAll(t + [d] + rest, d) == [t] + SplitAll(rest, d)
  {
    if t == [] {
      assert t + [d] + rest == [d] + rest;
      assert ([d] + rest)[1..] == rest;
    } else {
      var s := t + [d] + rest;
      assert s[1..] == t[1..] + [d] + rest;
      SplitAllPrefix(t[1..], d, rest);
      assert [t[0]] + t[1..] == t;
    }
  }

  /** Splitting what Join produced gives the pieces back. */
  lemma {:induction false} SplitAllJoin(ts: seq<string>, d: char)
    requires ts != []
    requires forall i :: 0 <= i < |ts| ==> d !in ts[i]
    ensures SplitAll(Join(ts, d), d) == ts
  {
    if |ts| == 1 {
      SplitAllNoDelimiter(ts[0], d);
    } else {
      SplitAllPrefix(ts[0], d, Join(ts[1..], d));
      SplitAllJoin(ts[1..], d);
      assert [ts[0]] + ts[1..] == ts;
    }
  }

  /** A char other than d that no piece contains does not occur in the join. */
  lemma {:induction false} JoinAvoids(ts: seq<string>, d: char, c: char)
    requires c != d
    requires forall i :: 0 <= i < |ts| ==> c !in ts[i]
    ensures c !in Join(ts, d)
  {
    if |ts| > 1 {
      JoinAvoids(ts[1..], d, c);
      assert ts[1..][0] == ts[1];
    }
  }

  /** A join of at least two pieces contains the delimiter. */
  lemma JoinHasDelimiter(ts: seq<string>, d: char)
    requires |ts| >= 2
    ensures d in Join(ts, d)
  {
    assert Join(ts, d)[|ts[0]|] == d;
  }

  /** The last char of a join of non-empty pieces is the last char of the last piece. */
  lemma {:induction false} JoinLast(ts: seq<string>, d: char)
    requires ts != [] && ts[|ts| - 1] != []
    ensures Join(ts, d) != [] && Join(ts, d)[|Join(ts, d)| - 1] == ts[|ts| - 1][|ts[|ts| - 1]| - 1]
  {
    if |ts| > 1 {
      JoinLast(ts[1..], d);
    }
  }

  /** The first char of a join whose first piece is non-empty is that piece's first char. */
  lemma JoinFirst(ts: seq<string>, d: char)
    requires ts != [] && ts[0] != []
    ensures Join(ts, d) != [] && Join(ts, d)[0] == ts[0][0]
  {
  }
}
