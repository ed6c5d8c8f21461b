/**
 * The class-validator message for a length constraint: a range when the
 * constraint has two bounds, a minimum otherwise.
 */
module ValidationMessages {
  import opened JsRuntime

  /** The part of class-validator's ValidationArguments the message reads. */
  datatype ValidationArguments = ValidationArguments(property: string, constraints: seq<Value>)

  const RangeSeparator := "는 "
  const MinimumSeparator := "는 최소 "
  const RangeSuffix := "글자를 입력해야 합니다."
  const MinimumSuffix := "글자를 입력해 주세요."

  /** `s[i]`: undefined past the end. */
  function At(s: seq<Value>, i: nat): (v: Value)
    ensures i < |s| ==> v == s[i]
    ensures i >= |s| ==> v == Undefined
  {
    if i < |s| then s[i] else Undefined
  }

  predicate EndsWith(s: string, suffix: string) {
    |suffix| <= |s| && s[|s| - |suffix|..] == suffix
  }

  /** lenghValidationMessage */
  function LengthValidationMessage(args: ValidationArguments): (m: string)
    ensures StartsWith(m, args.property)
    ensures |args.constraints| == 2 ==>
      m == args.property + RangeSeparator + ToJsString(args.constraints[0]) + "~" + ToJsString(args.constraints[1]) + RangeSuffix
    ensures |args.constraints| != 2 ==>
      m == args.property + MinimumSeparator + ToJsString(At(args.constraints, 0)) + MinimumSuffix
  {
    var c := args.constraints;
    var m := if |c| == 2 then args.property + RangeSeparator + ToJsString(c[0]) + "~" + ToJsString(c[1]) + RangeSuffix
      else args.property + MinimumSeparator + ToJsString(At(c, 0)) + MinimumSuffix;
    assert m[..|args.property|] == args.property;
    m
  }

  /** The wording tells the two forms apart: the message ends in the range
      wording exactly when there are two constraints. */
  lemma RangeFormIffTwoConstraints(args: ValidationArguments)
    ensures EndsWith(LengthValidationMessage(args), RangeSuffix) <==> |args.constraints| == 2
    ensures EndsWith(LengthValidationMessage(args), MinimumSuffix) <==> |args.constraints| != 2
  {
    var m := LengthValidationMessage(args);
    if |args.constraints| == 2 {
      assert m[|m| - |RangeSuffix|..] == RangeSuffix;
      assert m[|m| - 2] == '다';
    } else {
      assert m[|m| - |MinimumSuffix|..] == MinimumSuffix;
      assert m[|m| - 2] == '요';
    }
  }

  /** Outside the two-bound case only the first constraint shows: messages
      for the same property and first constraint are equal. */
  lemma MinimumFormIgnoresLaterConstraints(a: ValidationArguments, b: ValidationArguments)
    requires a.property == b.property
    requires |a.constraints| != 2 && |b.constraints| != 2
    requires At(a.constraints, 0) == At(b.constraints, 0)
    ensures LengthValidationMessage(a) == LengthValidationMessage(b)
  {
  }
}
