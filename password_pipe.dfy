/**
 * The length pipes applied to request parameters: PasswordPipe (at most 8
 * characters), MaxLengthPipe(length) and MinLengthPipe(length). Each one
 * converts the value with `toString()` and passes it on unchanged or throws
 * BadRequest.
 */
module Pipes {
  import opened JsRuntime

  const PasswordLimit := 8
  const PasswordMessage := "비밀번호는 8자 이하로 입력해 주세요"
  const MaxLengthMessagePrefix := "최대 길이는 "
  const MinLengthMessagePrefix := "최소 길이는 "

  /** PasswordPipe.transform */
  function PasswordTransform(value: Value): (r: Result<string>)
    ensures ToStringMethod(value).Err? ==> r == Err(ToStringMethod(value).error)
    ensures ToStringMethod(value).Ok? ==> (r.Ok? <==> |ToJsString(value)| <= PasswordLimit)
    ensures r.Ok? ==> r.value == ToJsString(value)
    ensures ToStringMethod(value).Ok? && r.Err? ==> r.error == BadRequest(PasswordMessage)
  {
    var s :- ToStringMethod(value);
    if |s| > PasswordLimit then Err(BadRequest(PasswordMessage)) else Ok(s)
  }

  /** MaxLengthPipe(length).transform */
  function MaxLengthTransform(length: int, value: Value): (r: Result<string>)
    ensures ToStringMethod(value).Err? ==> r == Err(ToStringMethod(value).error)
    ensures ToStringMethod(value).Ok? ==> (r.Ok? <==> |ToJsString(value)| <= length)
    ensures r.Ok? ==> r.value == ToJsString(value)
    ensures ToStringMethod(value).Ok? && r.Err? ==> r.error == BadRequest(MaxLengthMessagePrefix + IntToString(length))
  {
    var s :- ToStringMethod(value);
    if |s| > length then Err(BadRequest(MaxLengthMessagePrefix + IntToString(length))) else Ok(s)
  }

  /** MinLengthPipe(length).transform */
  function MinLengthTransform(length: int, value: Value): (r: Result<string>)
    ensures ToStringMethod(value).Err? ==> r == Err(ToStringMethod(value).error)
    ensures ToStringMethod(value).Ok? ==> (r.Ok? <==> |ToJsString(value)| >= length)
    ensures r.Ok? ==> r.value == ToJsString(value)
    ensures ToStringMethod(value).Ok? && r.Err? ==> r.error == BadRequest(MinLengthMessagePrefix + IntToString(length))
  {
    var s :- ToStringMethod(value);
    if |s| < length then Err(BadRequest(MinLengthMessagePrefix + IntToString(length))) else Ok(s)
  }

  /** Both bounds are inclusive: a maximum and a minimum of the same length
      together let through exactly the values of that length. */
  lemma MinAndMaxAcceptExactLength(length: int, value: Value)
    ensures MaxLengthTransform(length, value).Ok? && MinLengthTransform(length, value).Ok? <==>
      !(value.Undefined? || value.Null?) && |ToJsString(value)| == length
  {
  }

  /** A string passes the pipes unchanged when it fits. */
  lemma StringPassesUnchanged(length: int, s: string)
    requires |s| <= length
    ensures MaxLengthTransform(length, Str(s)) == Ok(s)
    ensures MinLengthTransform(|s|, Str(s)) == Ok(s)
  {
  }

  /** PasswordPipe is MaxLengthPipe(8) apart from the wording of its message. */
  lemma PasswordIsMaxEight(value: Value)
    ensures PasswordTransform(value).Ok? <==> MaxLengthTransform(PasswordLimit, value).Ok?
    ensures PasswordTransform(value).Ok? ==> PasswordTransform(value) == MaxLengthTransform(PasswordLimit, value)
    ensures ToStringMethod(value).Err? ==> PasswordTransform(value) == MaxLengthTransform(PasswordLimit, value)
    ensures ToStringMethod(value).Ok? && PasswordTransform(value).Err? ==>
      MaxLengthTransform(PasswordLimit, value) == Err(BadRequest("최대 길이는 8"))
  {
  }
}
