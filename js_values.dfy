/** JavaScript values as the views see them after `res.json()`, and the few
    JavaScript operations the views apply to them: truthiness, `||`, `??`,
    property access, string conversion in template literals, `toLowerCase`
    and `includes`. An operation that would raise a TypeError in JavaScript
    yields `Thrown`. */
module JsValues {

  /** A decoded JSON value, plus `undefined`. Numbers are integers here:
      the views never compute with them, they only test their truthiness
      and print them. A key missing from an object reads as `Undefined`. */
  datatype Val =
    | Undefined
    | Null
    | Bool(b: bool)
    | Num(n: int)
    | Str(s: string)
    | Arr(items: seq<Val>)
    | Obj(props: map<string, Val>)

  /** The outcome of evaluating a JavaScript expression: a value, or a TypeError. */
  datatype Completion<T> = Normal(value: T) | Thrown

  predicate Nullish(v: Val) {
    v.Undefined? || v.Null?
  }

  /** JavaScript truthiness: `undefined`, `null`, `false`, `0` and `""` are falsy. */
  predicate Truthy(v: Val) {
    match v
    case Undefined => false
    case Null => false
    case Bool(b) => b
    case Num(n) => n != 0
    case Str(s) => s != ""
    case Arr(_) => true
    case Obj(_) => true
  }

  /** `a || b` */
  function Or(a: Val, b: Val): (r: Val)
    ensures Truthy(a) ==> r == a
    ensures !Truthy(a) ==> r == b
    ensures Truthy(r) <==> Truthy(a) || Truthy(b)
  {
    if Truthy(a) then a else b
  }

  /** A displayed value that reads `v || fallback`: the value when it is
      truthy, the fallback otherwise. */
  predicate ShowsOr(shown: Val, v: Val, fallback: Val) {
    (Truthy(v) ==> shown == v) && (!Truthy(v) ==> shown == fallback)
  }

  /** `a ?? b`: unlike `a || b` it keeps a falsy `a` that is not
      `null`/`undefined` (`0`, `false`, `""`). */
  function Coalesce(a: Val, b: Val): (r: Val)
    ensures !Nullish(a) ==> r == a
    ensures Nullish(a) ==> r == b
    ensures r == Or(a, b) <==> Truthy(a) || Nullish(a) || a == b
  {
    if Nullish(a) then b else a
  }

  /** `v.key` (and `v?.key`) on a value that is not nullish: own properties of
      objects only; strings, numbers, booleans and arrays have none of the keys
      the views read. */
  function Prop(v: Val, key: string): (r: Val)
    ensures r != Undefined ==> v.Obj? && key in v.props && r == v.props[key]
  {
    if v.Obj? && key in v.props then v.props[key] else Undefined
  }

  /** `v?.key`: `undefined` when `v` is nullish. */
  function OptProp(v: Val, key: string): (r: Val)
    ensures Nullish(v) ==> r == Undefined
  {
    if Nullish(v) then Undefined else Prop(v, key)
  }

  /** `item.fields || item`: a record may be wrapped one level under `fields`.
      Reading `fields` from `null` or `undefined` is a TypeError. */
  function Unwrap(item: Val): (r: Completion<Val>)
    ensures r.Thrown? <==> Nullish(item)
    ensures r.Normal? ==> ShowsOr(r.value, Prop(item, "fields"), item)
  {
    if Nullish(item) then Thrown else Normal(Or(Prop(item, "fields"), item))
  }

  /** A record wrapped under `fields` is read exactly as the bare record: both
      unwrap to the record itself. */
  lemma UnwrapWrapped(f: Val)
    requires f.Obj? && !Truthy(Prop(f, "fields"))
    ensures Unwrap(Obj(map["fields" := f])) == Normal(f)
    ensures Unwrap(f) == Normal(f)
  {
  }

  /** The record a view reads its fields from, when unwrapping succeeds. */
  function FieldsOf(item: Val): Val
    requires !Nullish(item)
  {
    Unwrap(item).value
  }

  // ---------------------------------------------------------------------------
  // Decimal rendering of integers, and its inverse

  predicate IsDigits(s: string) {
    forall i :: 0 <= i < |s| ==> '0' <= s[i] <= '9'
  }

  function DigitChar(d: nat): (c: char)
    requires d < 10
    ensures '0' <= c <= '9'
  {
    "0123456789"[d]
  }

  function DigitValue(c: char): (d: nat)
    requires '0' <= c <= '9'
    ensures d < 10
  {
    c as int - '0' as int
  }

  /** The decimal text of a non-negative number, most significant digit first. */
  function NatText(n: nat): (s: string)
    ensures |s| >= 1 && IsDigits(s)
  {
    if n < 10 then [DigitChar(n)] else NatText(n / 10) + [DigitChar(n % 10)]
  }

  /** Reads a string of decimal digits back into the number it denotes. */
  function ParseNat(s: string): nat
    requires IsDigits(s)
  {
    if s == [] then 0 else ParseNat(s[..|s| - 1]) * 10 + DigitValue(s[|s| - 1])
  }

  lemma {:induction false} ParseNatText(n: nat)
    ensures ParseNat(NatText(n)) == n
  {
    if n >= 10 {
      var s := NatText(n);
      assert s[..|s| - 1] == NatText(n / 10);
      ParseNatText(n / 10);
    }
  }

  /** The decimal text of a positive number does not start with a zero. */
  lemma {:induction false} NatTextNoLeadingZero(n: nat)
    ensures n > 0 ==> NatText(n)[0] != '0'
  {
    if n >= 10 {
      NatTextNoLeadingZero(n / 10);
      assert NatText(n)[0] == NatText(n / 10)[0];
    }
  }

  lemma NatTextInjective(m: nat, n: nat)
    requires m != n
    ensures NatText(m) != NatText(n)
  {
    ParseNatText(m);
    ParseNatText(n);
  }

  /** `String(n)` for an integer number. */
  function IntText(n: int): string
  {
    if n < 0 then "-" + NatText(-n) else NatText(n)
  }

  // ---------------------------------------------------------------------------
  // String conversion, as done by template literals and `toString()`

  /** `String(v)`. Arrays join their elements' texts with commas, `null` and
      `undefined` elements contributing nothing; objects print as
      "[object Object]". */
  function ToText(v: Val): string
    decreases v
  {
    match v
    case Undefined => "undefined"
    case Null => "null"
    case Bool(b) => if b then "true" else "false"
    case Num(n) => IntText(n)
    case Str(s) => s
    case Arr(items) =>
      JoinWithCommas(seq(|items|, i requires 0 <= i < |items| =>
        if Nullish(items[i]) then "" else ToText(items[i])))
    case Obj(_) => "[object Object]"
  }

  /** `String(v)` of a number is its decimal text, which reads back as the
      number; of a string, the string itself. */
  lemma ToTextScalars(v: Val)
    ensures v.Num? && v.n >= 0 ==>
      IsDigits(ToText(v)) && ParseNat(ToText(v)) == v.n && (v.n == 0 || ToText(v)[0] != '0')
    ensures v.Num? && v.n < 0 ==> ToText(v) == "-" + NatText(-v.n)
    ensures v.Str? ==> ToText(v) == v.s
  {
    if v.Num? && v.n >= 0 {
      ParseNatText(v.n);
      NatTextNoLeadingZero(v.n);
    }
  }

  /** `String(v)` of an array joins its elements' texts with commas, `null`
      and `undefined` elements printing as nothing. */
  lemma ToTextArrays(v: Val, w: Val)
    ensures ToText(Arr([])) == ""
    ensures !Nullish(v) ==> ToText(Arr([v])) == ToText(v)
    ensures Nullish(v) ==> ToText(Arr([v])) == ""
    ensures !Nullish(v) && !Nullish(w) ==> ToText(Arr([v, w])) == ToText(v) + "," + ToText(w)
  {
    if !Nullish(v) && !Nullish(w) {
      var parts := seq(2, i requires 0 <= i < 2 => if Nullish([v, w][i]) then "" else ToText([v, w][i]));
      assert parts == [ToText(v), ToText(w)];
      assert ToText(Arr([v, w])) == JoinWithCommas(parts);
      assert JoinWithCommas(parts) == parts[0] + "," + JoinWithCommas(parts[1..]);
      assert parts[1..] == [ToText(w)];
    }
    if !Nullish(v) {
      var parts := seq(1, i requires 0 <= i < 1 => if Nullish([v][i]) then "" else ToText([v][i]));
      assert parts == [ToText(v)];
      assert ToText(Arr([v])) == JoinWithCommas(parts);
    }
  }

  /** The general step of `String(v)` on arrays: the first element's text
      (nothing for `null`/`undefined`), a comma, then the text of the rest. */
  lemma {:induction false} ToTextArrayCons(v: Val, rest: seq<Val>)
    requires rest != []
    ensures ToText(Arr([v] + rest)) == (if Nullish(v) then "" else ToText(v)) + "," + ToText(Arr(rest))
  {
    var items := [v] + rest;
    var parts := seq(|items|, i requires 0 <= i < |items| =>
      if Nullish(items[i]) then "" else ToText(items[i]));
    var tail := seq(|rest|, i requires 0 <= i < |rest| =>
      if Nullish(rest[i]) then "" else ToText(rest[i]));
    assert parts[1..] == tail;
    assert ToText(Arr(items)) == JoinWithCommas(parts);
    assert ToText(Arr(rest)) == JoinWithCommas(tail);
  }

  function JoinWithCommas(parts: seq<string>): string
  {
    if parts == [] then ""
    else if |parts| == 1 then parts[0]
    else parts[0] + "," + JoinWithCommas(parts[1..])
  }

  // ---------------------------------------------------------------------------
  // Lower-casing

  /** Lower-case mapping of one character: ASCII letters, the upper-case
      letters of Latin-1 (U+00C0 to U+00DE, except U+00D7), and the two French
      capitals outside Latin-1, Œ and Ÿ. */
  function LowerChar(c: char): (r: char)
    ensures 'A' <= c <= 'Z' ==> 'a' <= r <= 'z' && r as int == c as int + 32
    ensures c == 'Œ' ==> r == 'œ'
    ensures c == 'Ÿ' ==> r == 'ÿ'
    ensures !('A' <= c <= 'Z') && !('À' <= c <= 'Þ') && c != 'Œ' && c != 'Ÿ' ==> r == c
  {
    if 'A' <= c <= 'Z' || ('À' <= c <= 'Þ' && c != '×') then (c as int + 32) as char
    else if c == 'Œ' then 'œ'
    else if c == 'Ÿ' then 'ÿ'
    else c
  }

  /** `s.toLowerCase()` */
  function Lower(s: string): (r: string)
    ensures |r| == |s|
    ensures forall i :: 0 <= i < |s| ==> r[i] == LowerChar(s[i])
  {
    seq(|s|, i requires 0 <= i < |s| => LowerChar(s[i]))
  }

  // ---------------------------------------------------------------------------
  // Substring search

  predicate StartsWith(s: string, prefix: string) {
    |prefix| <= |s| && s[..|prefix|] == prefix
  }

  predicate EndsWith(s: string, suffix: string) {
    |suffix| <= |s| && s[|s| - |suffix|..] == suffix
  }

  /** `hay.includes(needle)` */
  predicate Contains(hay: string, needle: string)
    decreases |hay|
  {
    StartsWith(hay, needle) || (|hay| > 0 && Contains(hay[1..], needle))
  }

  /** The needle occurs in the haystack starting at index `i`. */
  predicate OccursAt(hay: string, needle: string, i: int) {
    0 <= i <= |hay| - |needle| && hay[i..i + |needle|] == needle
  }

  /** `Contains` holds exactly when the needle occurs at some position. */
  lemma {:induction false} ContainsAt(hay: string, needle: string)
    ensures Contains(hay, needle) <==> exists i :: OccursAt(hay, needle, i)
    decreases |hay|
  {
    if StartsWith(hay, needle) {
      assert OccursAt(hay, needle, 0);
    }
    if |hay| > 0 {
      ContainsAt(hay[1..], needle);
      if Contains(hay[1..], needle) {
        var i :| OccursAt(hay[1..], needle, i);
        assert hay[1..][i..i + |needle|] == hay[i + 1..i + 1 + |needle|];
        assert OccursAt(hay, needle, i + 1);
      }
      if exists i :: OccursAt(hay, needle, i) {
        var i :| OccursAt(hay, needle, i);
        if i > 0 {
          assert hay[1..][i - 1..i - 1 + |needle|] == hay[i..i + |needle|];
          assert OccursAt(hay[1..], needle, i - 1);
        }
      }
    } else {
      if exists i :: OccursAt(hay, needle, i) {
        var i :| OccursAt(hay, needle, i);
        assert i == 0;
      }
    }
  }

  /** The search semantics of the views: the value is a string whose
      lower-cased text contains the (already lower-cased) term. */
  predicate TextMatches(v: Val, term: string) {
    v.Str? && Contains(Lower(v.s), term)
  }

  /** `v?.toLowerCase().includes(term)` in a boolean context: `undefined`
      (falsy) for a nullish value, a TypeError for any value that is not a
      string, since only strings have `toLowerCase`. */
  function LowerIncludes(v: Val, term: string): (r: Completion<bool>)
    ensures r.Thrown? <==> !Nullish(v) && !v.Str?
    ensures r.Normal? ==> (r.value <==> TextMatches(v, term))
  {
    match v
    case Undefined => Normal(false)
    case Null => Normal(false)
    case Str(s) => Normal(Contains(Lower(s), term))
    case _ => Thrown
  }

  /** `a || b` over boolean completions: `b` is evaluated, and may throw,
      only when `a` is false. */
  function OrElse(a: Completion<bool>, b: Completion<bool>): (r: Completion<bool>)
    ensures r == Normal(true) <==> a == Normal(true) || (a == Normal(false) && b == Normal(true))
    ensures r.Thrown? <==> a.Thrown? || (a == Normal(false) && b.Thrown?)
  {
    match a
    case Thrown => Thrown
    case Normal(x) => if x then Normal(true) else b
  }
}
