/**
  The slice of JavaScript that the modelled code relies on: JSON-like values,
  truthiness, property reads, `||`, and the string built-ins `startsWith`,
  `includes`, `split(' ')` and `join(' ')`.
 */
module JsRuntime {

  datatype Option<+T> = None | Some(value: T)

  /** A JSON-like JavaScript value. Numbers are integers here. */
  datatype JsVal =
    | Undefined
    | Null
    | Bool(b: bool)
    | Num(n: int)
    | Str(s: string)
    | Arr(items: seq<JsVal>)
    | Obj(props: map<string, JsVal>)

  /** ECMAScript ToBoolean: what `if (v)`, `!v` and `v || w` test. */
  predicate Truthy(v: JsVal)
  {
    match v
    case Undefined => false
    case Null => false
    case Bool(b) => b
    case Num(n) => n != 0
    case Str(s) => s != ""
    case Arr(_) => true
    case Obj(_) => true
  }

  /** `v == null` in the loose sense: `null` or `undefined`. */
  predicate Nullish(v: JsVal)
  {
    v.Undefined? || v.Null?
  }

  /**
    `v?.key`: an object's own property, `undefined` when it has none, and
    `undefined` for every other value (primitives and arrays carry no named
    data properties in this model). For a non-nullish `v` this is also `v.key`.
   */
  function Prop(v: JsVal, key: string): (r: JsVal)
    ensures !v.Obj? ==> r == Undefined
    ensures v.Obj? && key !in v.props ==> r == Undefined
  {
    if v.Obj? && key in v.props then v.props[key] else Undefined
  }

  /** `v?.[0]`. */
  function Index0(v: JsVal): JsVal
  {
    match v
    case Arr(items) => if |items| > 0 then items[0] else Undefined
    case Str(s) => if |s| > 0 then Str([s[0]]) else Undefined
    case Obj(_) => Prop(v, "0")
    case _ => Undefined
  }

  /** `a || b`: the left operand when it is truthy, otherwise the right one. */
  function Or(a: JsVal, b: JsVal): (r: JsVal)
    ensures Truthy(r) <==> Truthy(a) || Truthy(b)
    ensures r == a || r == b
  {
    if Truthy(a) then a else b
  }

  /**
    Whether `String(v)`, as in a template literal, throws. Parsed JSON holds
    no callable values, so an object with an own `toString` property has
    neither a callable `toString` nor a `valueOf` that yields a primitive (the
    inherited one returns the object itself): the conversion throws a
    TypeError. An object without one converts to "[object Object]". An array
    converts through `join`, which converts every element that is neither
    `null` nor `undefined`.
   */
  predicate ToStringThrows(v: JsVal): (r: bool)
    ensures !v.Obj? && !v.Arr? ==> !r
    ensures v.Obj? ==> (r <==> "toString" in v.props)
    ensures v.Arr? && (forall i :: 0 <= i < |v.items| ==> !v.items[i].Obj? && !v.items[i].Arr?) ==> !r
  {
    match v
    case Obj(props) => "toString" in props
    case Arr(items) => exists i :: 0 <= i < |items| && ToStringThrows(items[i])
    case _ => false
  }

  /** `s.startsWith(prefix)`. */
  predicate StartsWith(s: string, prefix: string)
  {
    |prefix| <= |s| && s[..|prefix|] == prefix
  }

  /** `s.includes(part)`: `part` occurs somewhere in `s`. */
  predicate Contains(s: string, part: string)
    decreases |s|
  {
    StartsWith(s, part) || (|s| > 0 && Contains(s[1..], part))
  }

  /**
    `s.split(sep)` for a one-character separator: the maximal separator-free
    pieces of `s`, in order, so a string with k separators has k + 1 pieces
    and the empty string splits into one empty piece.
   */
  function SplitOn(s: string, sep: char): (parts: seq<string>)
    ensures |parts| >= 1
    ensures forall i :: 0 <= i < |parts| ==> sep !in parts[i]
    ensures |s| > 0 && s[0] != sep ==> |parts[0]| > 0 && parts[0][0] == s[0]
    decreases |s|
  {
    if |s| == 0 then [""]
    else if s[0] == sep then [""] + SplitOn(s[1..], sep)
    else
      var rest := SplitOn(s[1..], sep);
      [[s[0]] + rest[0]] + rest[1..]
  }

  /** `parts.join(sep)` for a one-character separator. */
  function JoinWith(parts: seq<string>, sep: char): string
    decreases |parts|
  {
    if |parts| == 0 then ""
    else if |parts| == 1 then parts[0]
    else parts[0] + [sep] + JoinWith(parts[1..], sep)
  }

  /** Joining the pieces of a split with the same separator restores the string. */
  lemma {:induction false} JoinSplit(s: string, sep: char)
    ensures JoinWith(SplitOn(s, sep), sep) == s
    decreases |s|
  {
    if |s| == 0 {
    } else if s[0] == sep {
      var rest := SplitOn(s[1..], sep);
      JoinSplit(s[1..], sep);
      assert SplitOn(s, sep) == [""] + rest;
      assert ([""] + rest)[1..] == rest;
      assert JoinWith([""] + rest, sep) == "" + [sep] + JoinWith(rest, sep);
      assert s == [s[0]] + s[1..];
    } else {
      var rest := SplitOn(s[1..], sep);
      JoinSplit(s[1..], sep);
      var parts := [[s[0]] + rest[0]] + rest[1..];
      assert SplitOn(s, sep) == parts;
      if |rest| == 1 {
        assert JoinWith(rest, sep) == rest[0];
        assert JoinWith(parts, sep) == [s[0]] + rest[0];
      } else {
        assert parts[1..] == rest[1..];
        assert JoinWith(rest, sep) == rest[0] + [sep] + JoinWith(rest[1..], sep);
        assert JoinWith(parts, sep) == ([s[0]] + rest[0]) + [sep] + JoinWith(rest[1..], sep);
      }
      assert s == [s[0]] + s[1..];
    }
  }

  /** A string without the separator splits into itself alone. */
  lemma {:induction false} SplitWithoutSeparator(s: string, sep: char)
    requires sep !in s
    ensures SplitOn(s, sep) == [s]
    decreases |s|
  {
    if |s| > 0 {
      assert sep !in s[1..];
      SplitWithoutSeparator(s[1..], sep);
      assert s == [s[0]] + s[1..];
    }
  }

  /**
    When the first separator of `s` is at index `i`, the first piece is
    `s[..i]` and the remaining pieces are those of `s[i+1..]`.
   */
  lemma {:induction false} SplitAtFirst(s: string, sep: char, i: nat)
    requires i < |s| && s[i] == sep && sep !in s[..i]
    ensures SplitOn(s, sep) == [s[..i]] + SplitOn(s[i + 1..], sep)
    decreases i
  {
    if i == 0 {
      assert s[..0] == "";
      assert s[1..] == s[i + 1..];
    } else {
      assert s[0] == s[..i][0];
      assert s[1..][..i - 1] == s[1..i];
      assert sep !in s[1..i] by {
        forall k | 0 <= k < i - 1 ensures s[1..i][k] != sep {
          assert s[1..i][k] == s[..i][k + 1];
        }
      }
      SplitAtFirst(s[1..], sep, i - 1);
      assert s[1..][i..] == s[i + 1..];
      assert [s[0]] + s[1..i] == s[..i];
    }
  }
}
