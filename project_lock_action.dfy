/**
 * CmsProjectLockAction.selectAction: the two-state list action that shows
 * its first action ("lock") for a project without locked resources and its
 * second action otherwise. Counting the locked resources is a call into the
 * CMS and appears as a function parameter.
 */
module ProjectLockAction {
  import opened Util

  datatype Action = FirstAction | SecondAction

  /** A list item, by the id text it carries. */
  datatype Item = Item(id: string)

  const MinInt: int := -0x8000_0000
  const MaxInt: int := 0x7FFF_FFFF

  /**
   * new Integer(s), as Integer.parseInt behaves from Java 7 on: an optional
   * '-' or '+' sign, then at least one decimal digit, and the value within the
   * 32-bit range; anything else is a NumberFormatException.
   */
  function ParseJavaInt(s: string): (r: Result<int>)
    ensures r.Ok? ==> MinInt <= r.value <= MaxInt
    ensures r.Err? ==> r.exception == NumberFormat
  {
    if s == [] then Err(NumberFormat)
    else
      var negative := s[0] == '-';
      var body := if s[0] == '-' || s[0] == '+' then s[1..] else s;
      if body == [] || !AllDigits(body) then Err(NumberFormat)
      else
        var magnitude: int := DigitsValue(body);
        var v := if negative then -magnitude else magnitude;
        if MinInt <= v <= MaxInt then Ok(v) else Err(NumberFormat)
  }

  /** The decimal text of an int in range reads back as that int. */
  lemma ParseJavaIntOfDecimal(n: nat)
    requires n <= MaxInt
    ensures ParseJavaInt(NatToDecimal(n)) == Ok(n)
  {
    var s := NatToDecimal(n);
    DigitsValueOfDecimal(n);
    assert IsDigit(s[0]);
  }

  /** Text that is not a signed decimal number is rejected. */
  lemma ParseJavaIntRejects(s: string)
    requires s == [] || (s[0] != '-' && s[0] != '+' && !IsDigit(s[0]))
    ensures ParseJavaInt(s) == Err(NumberFormat)
  {
    if s != [] {
      assert !AllDigits(s);
    }
  }

  /**
   * selectAction. `countLockedResources` is the CMS call; it may throw a
   * CmsException (Err(CmsFailure)), which selectAction swallows, or any other
   * exception, which escapes. The NumberFormatException of a non-numeric id
   * is not caught either and escapes.
   */
  function SelectAction(item: Option<Item>, countLockedResources: int -> Result<int>): (r: Result<Action>)
    ensures item.None? ==> r == Ok(SecondAction)
    ensures r.Err? ==> r.exception != CmsFailure
  {
    if item.None? then Ok(SecondAction)
    else
      match ParseJavaInt(item.value.id)
      case Err(e) => Err(e)
      case Ok(projectId) =>
        match countLockedResources(projectId)
        case Ok(count) => if count == 0 then Ok(FirstAction) else Ok(SecondAction)
        case Err(e) => if e == CmsFailure then Ok(SecondAction) else Err(e)
  }

  /** A failure of the count that selectAction does not catch. */
  predicate EscapingCountFailure(r: Result<int>) {
    r.Err? && r.exception != CmsFailure
  }

  /**
   * The first action is chosen exactly when there is an item whose id is a
   * number and counting that project's locked resources gives 0. The call
   * fails exactly when there is an item whose id is not a number (with a
   * NumberFormatException) or whose count throws something other than a
   * CmsException (with that exception). In every other case the second
   * action is chosen.
   */
  lemma SelectActionCases(item: Option<Item>, countLockedResources: int -> Result<int>)
    ensures SelectAction(item, countLockedResources) == Ok(FirstAction)
            <==> item.Some? && ParseJavaInt(item.value.id).Ok?
                 && countLockedResources(ParseJavaInt(item.value.id).value) == Ok(0)
    ensures SelectAction(item, countLockedResources).Err?
            <==> item.Some? && (ParseJavaInt(item.value.id).Err?
                                || EscapingCountFailure(countLockedResources(ParseJavaInt(item.value.id).value)))
    ensures item.Some? && ParseJavaInt(item.value.id).Err? ==>
              SelectAction(item, countLockedResources) == Err(NumberFormat)
    ensures item.Some? && ParseJavaInt(item.value.id).Ok?
            && EscapingCountFailure(countLockedResources(ParseJavaInt(item.value.id).value)) ==>
              SelectAction(item, countLockedResources)
              == Err(countLockedResources(ParseJavaInt(item.value.id).value).exception)
  {
  }

  /** Without an item the second action is shown. */
  lemma SelectWithoutItem(countLockedResources: int -> Result<int>)
    ensures SelectAction(None, countLockedResources) == Ok(SecondAction)
  {
  }

  /**
   * For a project id written as a number, the lock count alone decides: 0
   * shows the first action; another count or a CmsException shows the second;
   * any other exception of the count escapes.
   */
  lemma SelectForProject(projectId: nat, countLockedResources: int -> Result<int>)
    requires projectId <= MaxInt
    ensures var r := SelectAction(Some(Item(NatToDecimal(projectId))), countLockedResources);
            var count := countLockedResources(projectId);
            && (count == Ok(0) ==> r == Ok(FirstAction))
            && (count.Ok? && count.value != 0 ==> r == Ok(SecondAction))
            && (count == Err(CmsFailure) ==> r == Ok(SecondAction))
            && (EscapingCountFailure(count) ==> r == Err(count.exception))
  {
    ParseJavaIntOfDecimal(projectId);
  }
}
