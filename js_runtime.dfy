/**
 * The small part of JavaScript's runtime semantics that the services depend on:
 * values and their truthiness, the String(...) and Number(...) conversions,
 * String.prototype.split with a non-empty separator, and the exceptions the
 * services throw (modelled as the error side of a Result).
 */
module JsRuntime {

  /** A JavaScript value as it occurs in a request object, a find option or a
      template literal. Numbers are integers (fractions are not modelled). */
  datatype Value = Undefined | Null | Num(n: int) | NaN | Str(s: string)

  /** `if (v)`: zero, NaN, the empty string, null and undefined are falsy. */
  predicate IsTruthy(v: Value): (b: bool)
    ensures b <==> v !in {Undefined, Null, Num(0), NaN, Str("")}
  {
    match v
    case Num(n) => n != 0
    case Str(s) => s != ""
    case _ => false
  }

  /** The exceptions thrown by the services. */
  datatype Exception =
    | BadRequest(message: string)
    | Unauthorized(message: string)
    | NotFound
    | TypeError  // a crash of the engine; its message is the engine's, not the program's
    | TokenError  // whatever the JWT library throws for an invalid or expired token

  datatype Option<T> = None | Some(value: T)

  /** A completed call: a value, or the exception it throws. */
  datatype Result<T> = Ok(value: T) | Err(error: Exception) {
    predicate IsFailure() { Err? }
    function PropagateFailure<U>(): Result<U>
      requires Err?
    {
      Err(error)
    }
    function Extract(): T
      requires Ok?
    {
      value
    }
  }

  /** A plain object, as the sequence of its own properties in enumeration order. */
  type Entries = seq<(string, Value)>

  predicate HasKey(obj: Entries, key: string) {
    exists i :: 0 <= i < |obj| && obj[i].0 == key
  }

  predicate DistinctKeys(obj: Entries) {
    forall i, j :: 0 <= i < j < |obj| ==> obj[i].0 != obj[j].0
  }

  /** Appending a property adds exactly its key. */
  lemma HasKeySnoc(front: Entries, last: (string, Value))
    ensures forall k :: HasKey(front + [last], k) <==> HasKey(front, k) || k == last.0
  {
    var obj := front + [last];
    forall k ensures HasKey(obj, k) <==> HasKey(front, k) || k == last.0 {
      if HasKey(front, k) {
        var i :| 0 <= i < |front| && front[i].0 == k;
        assert obj[i] == front[i];
      }
      if k == last.0 {
        assert obj[|front|] == last;
      }
    }
  }

  /** Appending a property keeps the keys distinct exactly when its key is new. */
  lemma DistinctSnoc(front: Entries, last: (string, Value))
    ensures DistinctKeys(front + [last]) <==> DistinctKeys(front) && !HasKey(front, last.0)
  {
    var obj := front + [last];
    if DistinctKeys(obj) {
      forall i, j | 0 <= i < j < |front| ensures front[i].0 != front[j].0 {
        assert obj[i] == front[i] && obj[j] == front[j];
      }
      forall i | 0 <= i < |front| ensures front[i].0 != last.0 {
        assert obj[i] == front[i] && obj[|front|] == last;
      }
    }
  }

  /** `obj[key]`: the value of the property, or undefined when there is none. */
  function Get(obj: Entries, key: string): (v: Value)
    ensures !HasKey(obj, key) ==> v == Undefined
    ensures HasKey(obj, key) ==> exists i :: 0 <= i < |obj| && obj[i] == (key, v)
  {
    if |obj| == 0 then Undefined
    else if obj[|obj| - 1].0 == key then obj[|obj| - 1].1
    else Get(obj[..|obj| - 1], key)
  }

  // ---------------------------------------------------------------- numbers

  predicate IsDigit(c: char) { '0' <= c <= '9' }

  predicate AllDigits(s: string) { forall i :: 0 <= i < |s| ==> IsDigit(s[i]) }

  function DigitChar(d: nat): (c: char)
    requires d < 10
    ensures IsDigit(c)
  {
    (d + '0' as int) as char
  }

  function DigitValue(c: char): (d: nat)
    requires IsDigit(c)
    ensures d < 10
  {
    c as int - '0' as int
  }

  /** Decimal rendering of a natural number, most significant digit first. */
  function NatToString(n: nat): (s: string)
    ensures |s| > 0 && AllDigits(s)
  {
    if n < 10 then [DigitChar(n)] else NatToString(n / 10) + [DigitChar(n % 10)]
  }

  /** `n.toString()` / `String(n)` for an integer. */
  function IntToString(n: int): string {
    if n < 0 then "-" + NatToString(-n) else NatToString(n)
  }

  /** The value of a string of decimal digits. */
  function ParseDigits(s: string): nat
    requires AllDigits(s)
  {
    if |s| == 0 then 0 else ParseDigits(s[..|s| - 1]) * 10 + DigitValue(s[|s| - 1])
  }

  /** `Number(s)` for the forms the requests carry: the empty string is 0, an
      optional '+' or '-' followed by decimal digits is that integer, the rest
      is NaN. */
  function StringToNumber(s: string): (v: Value)
    ensures v.Num? || v.NaN?
    ensures |s| > 0 && !IsDigit(s[|s| - 1]) ==> v.NaN?
  {
    if s == "" then Num(0)
    else if AllDigits(s) then Num(ParseDigits(s))
    else if s[0] == '+' && |s| > 1 && AllDigits(s[1..]) then Num(ParseDigits(s[1..]))
    else if s[0] == '-' && |s| > 1 && AllDigits(s[1..]) then Num(-(ParseDigits(s[1..]) as int))
    else NaN
  }

  /** The numeric conversion that `-` and `*` apply to their operands. */
  function ToNumber(v: Value): (r: Value)
    ensures r.Num? || r.NaN?
    ensures v.Num? ==> r == v
  {
    match v
    case Undefined => NaN
    case Null => Num(0)
    case Num(_) => v
    case NaN => NaN
    case Str(s) => StringToNumber(s)
  }

  /** `a - b` */
  function Sub(a: Value, b: Value): (r: Value)
    ensures r.Num? <==> ToNumber(a).Num? && ToNumber(b).Num?
    ensures r.Num? ==> r.n == ToNumber(a).n - ToNumber(b).n
    ensures !r.Num? ==> r == NaN
  {
    var x, y := ToNumber(a), ToNumber(b);
    if x.Num? && y.Num? then Num(x.n - y.n) else NaN
  }

  /** `a * b` */
  function Mul(a: Value, b: Value): (r: Value)
    ensures r.Num? <==> ToNumber(a).Num? && ToNumber(b).Num?
    ensures r.Num? ==> r.n == ToNumber(a).n * ToNumber(b).n
    ensures !r.Num? ==> r == NaN
  {
    var x, y := ToNumber(a), ToNumber(b);
    if x.Num? && y.Num? then Num(x.n * y.n) else NaN
  }

  lemma {:induction false} ParseNatToString(n: nat)
    ensures ParseDigits(NatToString(n)) == n
  {
    if n >= 10 {
      var s := NatToString(n / 10) + [DigitChar(n % 10)];
      assert s[..|s| - 1] == NatToString(n / 10);
      ParseNatToString(n / 10);
    }
  }

  /** Rendering an integer and reading it back gives the integer. */
  lemma NumberOfIntToString(n: int)
    ensures StringToNumber(IntToString(n)) == Num(n)
  {
    if n < 0 {
      var s := IntToString(n);
      assert s[1..] == NatToString(-n);
      assert !AllDigits(s) by { assert !IsDigit(s[0]); }
      ParseNatToString(-n);
    } else {
      ParseNatToString(n);
    }
  }

  // ---------------------------------------------------------------- strings

  /** `String(v)`, which template literals and URLSearchParams.append apply. */
  function ToJsString(v: Value): (r: string)
    ensures v.Str? ==> r == v.s
    ensures v.Num? ==> StringToNumber(r) == v
    ensures r == "" <==> v == Str("")
  {
    match v
    case Undefined => "undefined"
    case Null => "null"
    case Num(n) => NumberOfIntToString(n); IntToString(n)
    case NaN => "NaN"
    case Str(s) => s
  }

  /** `v.toString()`: like String(v), but a TypeError on null and undefined. */
  function ToStringMethod(v: Value): (r: Result<string>)
    ensures r.Ok? <==> !(v.Undefined? || v.Null?)
    ensures r.Ok? ==> r.value == ToJsString(v)
  {
    match v
    case Undefined => Err(TypeError)
    case Null => Err(TypeError)
    case _ => Ok(ToJsString(v))
  }

  predicate StartsWith(s: string, prefix: string) {
    |prefix| <= |s| && s[..|prefix|] == prefix
  }

  /** sep occurs in s at index i. */
  predicate MatchAt(s: string, sep: string, i: int) {
    0 <= i && i + |sep| <= |s| && s[i..i + |sep|] == sep
  }

  /** s contains no occurrence of sep. */
  predicate Free(s: string, sep: string) {
    forall i :: 0 <= i <= |s| - |sep| ==> !MatchAt(s, sep, i)
  }

  /** The first occurrence of sep in s at or after from, or -1. */
  function FindFrom(s: string, sep: string, from: nat): (r: int)
    requires |sep| > 0 && from <= |s|
    ensures r == -1 || (from <= r && MatchAt(s, sep, r))
    ensures forall j :: from <= j && (r == -1 || j < r) ==> !MatchAt(s, sep, j)
    decreases |s| - from
  {
    if from + |sep| > |s| then -1
    else if s[from..from + |sep|] == sep then from
    else FindFrom(s, sep, from + 1)
  }

  /** `s.split(sep)` for a non-empty separator: the matches are found from left
      to right and do not overlap. */
  function Split(s: string, sep: string): (parts: seq<string>)
    requires |sep| > 0
    ensures |parts| >= 1
    decreases |s|
  {
    var i := FindFrom(s, sep, 0);
    if i < 0 then [s] else [s[..i]] + Split(s[i + |sep|..], sep)
  }

  /** `parts.join(sep)` */
  function Join(parts: seq<string>, sep: string): string
    requires |parts| >= 1
  {
    if |parts| == 1 then parts[0] else parts[0] + sep + Join(parts[1..], sep)
  }

  /** A split gives a single piece exactly when the separator does not occur. */
  lemma SplitSingleIffFree(s: string, sep: string)
    requires |sep| > 0
    ensures |Split(s, sep)| == 1 <==> Free(s, sep)
  {
    var i := FindFrom(s, sep, 0);
    if i < 0 {
      assert Split(s, sep) == [s];
      assert Free(s, sep) by {
        forall j | 0 <= j <= |s| - |sep| ensures !MatchAt(s, sep, j) { }
      }
    } else {
      assert MatchAt(s, sep, i);
      assert !Free(s, sep);
      var rest := Split(s[i + |sep|..], sep);
      assert Split(s, sep) == [s[..i]] + rest;
    }
  }

  /** Joining the pieces of a split gives back the string. */
  lemma {:induction false} JoinSplit(s: string, sep: string)
    requires |sep| > 0
    ensures Join(Split(s, sep), sep) == s
    decreases |s|
  {
    var i := FindFrom(s, sep, 0);
    if i >= 0 {
      var rest := s[i + |sep|..];
      var parts := Split(s, sep);
      assert parts == [s[..i]] + Split(rest, sep);
      assert parts[1..] == Split(rest, sep);
      assert Join(parts, sep) == s[..i] + sep + Join(Split(rest, sep), sep);
      JoinSplit(rest, sep);
      assert s == s[..i] + sep + rest by {
        assert s[i..i + |sep|] == sep;
      }
    }
  }

  /** No piece of a split contains the separator. */
  lemma {:induction false} SplitPiecesFree(s: string, sep: string)
    requires |sep| > 0
    ensures forall k :: 0 <= k < |Split(s, sep)| ==> Free(Split(s, sep)[k], sep)
    decreases |s|
  {
    var i := FindFrom(s, sep, 0);
    if i < 0 {
      forall j | 0 <= j <= |s| - |sep| ensures !MatchAt(s, sep, j) { }
    } else {
      SplitPiecesFree(s[i + |sep|..], sep);
      var head := s[..i];
      forall j | 0 <= j <= |head| - |sep| ensures !MatchAt(head, sep, j) {
        assert head[j..j + |sep|] == s[j..j + |sep|];
        assert !MatchAt(s, sep, j);
      }
      var parts := Split(s, sep);
      forall k | 0 <= k < |parts| ensures Free(parts[k], sep) {
        if k > 0 {
          assert parts[k] == Split(s[i + |sep|..], sep)[k - 1];
        }
      }
    }
  }

  /** A string with no occurrence of the separator splits into itself. */
  lemma SplitFree(s: string, sep: string)
    requires |sep| > 0 && Free(s, sep)
    ensures Split(s, sep) == [s]
  {
  }

  /** When sep does not occur in a + sep + b before the end of a, the split
      cuts exactly there. */
  lemma SplitAfter(a: string, sep: string, b: string)
    requires |sep| > 0
    requires forall i :: 0 <= i < |a| ==> !MatchAt(a + sep + b, sep, i)
    ensures Split(a + sep + b, sep) == [a] + Split(b, sep)
  {
    var s := a + sep + b;
    assert MatchAt(s, sep, |a|) by { assert s[|a|..|a| + |sep|] == sep; }
    var i := FindFrom(s, sep, 0);
    assert i == |a|;
    assert s[..i] == a;
    assert s[i + |sep|..] == b;
  }

  /** For a one-character separator, Free means the character does not occur. */
  lemma FreeChar(s: string, c: char)
    ensures Free(s, [c]) <==> c !in s
  {
    if c in s {
      var i :| 0 <= i < |s| && s[i] == c;
      assert MatchAt(s, [c], i) by { assert s[i..i + 1] == [c]; }
    } else {
      forall i | 0 <= i <= |s| - 1 ensures !MatchAt(s, [c], i) {
        assert s[i..i + 1] == [s[i]];
      }
    }
  }

  /** Splitting on a one-character separator undoes joining pieces that do
      not contain it. */
  lemma SplitCharJoin(a: string, c: char, b: string)
    requires c !in a
    ensures Split(a + [c] + b, [c]) == [a] + Split(b, [c])
  {
    forall i | 0 <= i < |a| ensures !MatchAt(a + [c] + b, [c], i) {
      assert (a + [c] + b)[i] == a[i];
    }
    SplitAfter(a, [c], b);
  }
}
