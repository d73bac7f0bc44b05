/**
  The path helpers of `src/ot-core/util.js`: `path` walks a JSON-like tree one
  property at a time, `pathOr` substitutes a default for `undefined`, and
  `properCase` upper-cases the first character of a string.
 */
module Util {
  import opened Js

  /** A JavaScript value of the kinds the helpers are given.
      Numbers are integers; functions and prototypes are not modelled. */
  datatype Json =
    | Undefined
    | Null
    | Bool(b: bool)
    | Num(n: int)
    | Str(s: string)
    | Arr(items: seq<Json>)
    | Obj(fields: map<string, Json>)

  /** JavaScript truthiness. */
  predicate JsonTruthy(v: Json)
  {
    match v
    case Undefined => false
    case Null => false
    case Bool(b) => b
    case Num(n) => n != 0
    case Str(s) => s != ""
    case Arr(_) => true
    case Obj(_) => true
  }

  predicate IsDigit(c: char)
  {
    '0' <= c <= '9'
  }

  /** The value of a string of decimal digits. */
  function DigitsValue(s: string): nat
    requires forall i | 0 <= i < |s| :: IsDigit(s[i])
  {
    if s == [] then 0
    else
      assert IsDigit(s[|s| - 1]);
      10 * DigitsValue(s[..|s| - 1]) + (s[|s| - 1] as int - '0' as int)
  }

  /** The index a property key denotes on an array or a string: a canonical
      decimal numeral (no sign, no leading zero except "0" itself). */
  function ArrayIndex(key: string): Option<nat>
  {
    if key != [] && (forall i | 0 <= i < |key| :: IsDigit(key[i])) && (key[0] != '0' || |key| == 1)
    then Some(DigitsValue(key))
    else None
  }

  /** `v[key]`: indexing `undefined` or `null` throws a TypeError; a missing
      property reads as `undefined`. */
  function Get(v: Json, key: string): (r: Result<Json>)
    ensures r.Err? <==> v.Undefined? || v.Null?
    ensures r.Err? ==> r.error == TypeError
    ensures v.Obj? ==> r == Ok(if key in v.fields then v.fields[key] else Undefined)
  {
    match v
    case Undefined => Err(TypeError)
    case Null => Err(TypeError)
    case Bool(_) => Ok(Undefined)
    case Num(_) => Ok(Undefined)
    case Str(s) =>
      if key == "length" then Ok(Num(|s|))
      else (match ArrayIndex(key)
            case Some(i) => if i < |s| then Ok(Str([s[i]])) else Ok(Undefined)
            case None => Ok(Undefined))
    case Arr(a) =>
      if key == "length" then Ok(Num(|a|))
      else (match ArrayIndex(key)
            case Some(i) => if i < |a| then Ok(a[i]) else Ok(Undefined)
            case None => Ok(Undefined))
    case Obj(m) => Ok(if key in m then m[key] else Undefined)
  }

  /** `text.split(sep)` for a one-character separator. */
  function Split(s: string, sep: char): (parts: seq<string>)
    ensures |parts| >= 1
    ensures forall i | 0 <= i < |parts| :: sep !in parts[i]
    decreases |s|
  {
    if s == [] then [""]
    else
      var rest := Split(s[1..], sep);
      if s[0] == sep then [""] + rest
      else [[s[0]] + rest[0]] + rest[1..]
  }

  /** `parts.join(sep)`, the inverse of Split. */
  function Join(parts: seq<string>, sep: char): string
    requires |parts| >= 1
  {
    if |parts| == 1 then parts[0] else parts[0] + [sep] + Join(parts[1..], sep)
  }

  /** Joining the pieces of a split gives back the text. */
  lemma {:induction false} JoinSplit(s: string, sep: char)
    ensures Join(Split(s, sep), sep) == s
    decreases |s|
  {
    if s != [] {
      JoinSplit(s[1..], sep);
      var rest := Split(s[1..], sep);
      if s[0] == sep {
        assert Split(s, sep) == [""] + rest;
        assert ([""] + rest)[1..] == rest;
      } else {
        var first := [s[0]] + rest[0];
        assert Split(s, sep) == [first] + rest[1..];
        if |rest| == 1 {
          assert Join(rest, sep) == rest[0];
        } else {
          assert ([first] + rest[1..])[1..] == rest[1..];
          assert Join(rest, sep) == rest[0] + [sep] + Join(rest[1..], sep);
        }
        assert s == [s[0]] + s[1..];
      }
    }
  }

  /** A text without the separator splits into itself alone. */
  lemma {:induction false} SplitWithoutSeparator(s: string, sep: char)
    requires sep !in s
    ensures Split(s, sep) == [s]
    decreases |s|
  {
    if s != [] {
      assert sep !in s[1..] by {
        forall i | 0 <= i < |s[1..]| ensures s[1..][i] != sep {
          assert s[1..][i] == s[i + 1];
        }
      }
      SplitWithoutSeparator(s[1..], sep);
      assert s == [s[0]] + s[1..];
    }
  }

  /** Splitting at the first separator. */
  lemma {:induction false} SplitAtSeparator(a: string, b: string, sep: char)
    requires sep !in a
    ensures Split(a + [sep] + b, sep) == [a] + Split(b, sep)
    decreases |a|
  {
    if a == [] {
      assert a + [sep] + b == [sep] + b;
      assert ([sep] + b)[1..] == b;
    } else {
      var s := a + [sep] + b;
      assert s[0] == a[0] && s[1..] == a[1..] + [sep] + b;
      assert sep !in a[1..] by {
        forall i | 0 <= i < |a[1..]| ensures a[1..][i] != sep {
          assert a[1..][i] == a[i + 1];
        }
      }
      SplitAtSeparator(a[1..], b, sep);
      assert a == [a[0]] + a[1..];
    }
  }

  /** Splitting a join of separator-free pieces gives back the pieces. */
  lemma {:induction false} SplitJoin(parts: seq<string>, sep: char)
    requires |parts| >= 1
    requires forall i | 0 <= i < |parts| :: sep !in parts[i]
    ensures Split(Join(parts, sep), sep) == parts
    decreases |parts|
  {
    if |parts| == 1 {
      SplitWithoutSeparator(parts[0], sep);
    } else {
      SplitJoin(parts[1..], sep);
      SplitAtSeparator(parts[0], Join(parts[1..], sep), sep);
      assert parts == [parts[0]] + parts[1..];
    }
  }

  /** The `props` argument of `path`: a dotted string or an array of keys. */
  datatype Props = Dotted(text: string) | Keys(keys: seq<string>)

  /** A string argument is split on '.'; an array is used as given. */
  function Properties(props: Props): (keys: seq<string>)
    ensures props.Keys? ==> keys == props.keys
    ensures props.Dotted? ==> |keys| >= 1 && Join(keys, '.') == props.text
  {
    match props
    case Dotted(text) => JoinSplit(text, '.'); Split(text, '.')
    case Keys(keys) => keys
  }

  /** What the loop of `path` computes: step through the keys, stopping with
      `undefined` as soon as a step yields `undefined`. */
  function Walk(v: Json, keys: seq<string>): Result<Json>
    decreases |keys|
  {
    if keys == [] then Ok(v)
    else match Get(v, keys[0])
      case Err(e) => Err(e)
      case Ok(next) => if next.Undefined? then Ok(Undefined) else Walk(next, keys[1..])
  }

  /** Continuing a walk from the result of an earlier one. */
  function Continue(r: Result<Json>, keys: seq<string>): Result<Json>
  {
    match r
    case Err(e) => Err(e)
    case Ok(w) => if w.Undefined? then Ok(Undefined) else Walk(w, keys)
  }

  /** A walk along `a + b` is a walk along `a` continued along `b`. */
  lemma {:induction false} WalkAppend(v: Json, a: seq<string>, b: seq<string>)
    requires a != []
    ensures Walk(v, a + b) == Continue(Walk(v, a), b)
    decreases |a|
  {
    assert (a + b)[0] == a[0];
    assert (a + b)[1..] == a[1..] + b;
    match Get(v, a[0])
    case Err(_) =>
    case Ok(next) =>
      if !next.Undefined? && a[1..] != [] {
        WalkAppend(next, a[1..], b);
      }
  }

  /** A walk of one key is a single property read. */
  lemma WalkOneKey(v: Json, k: string)
    ensures Walk(v, [k]) == Get(v, k)
  {
    assert [k][1..] == [];
  }

  /** A walk of two keys reads the first and continues with the second. */
  lemma WalkTwoKeys(v: Json, a: string, b: string)
    ensures Walk(v, [a, b]) == Continue(Get(v, a), [b])
  {
    assert [a, b][0] == a && [a, b][1..] == [b];
  }

  /** Only `undefined` short-circuits: once a step yields it, the rest of the
      path is not looked at. */
  lemma UndefinedStopsWalk(v: Json, a: seq<string>, b: seq<string>)
    requires a != [] && Walk(v, a) == Ok(Undefined)
    ensures Walk(v, a + b) == Ok(Undefined)
  {
    WalkAppend(v, a, b);
  }

  /** A `null` reached before the last step is indexed by the next step, which
      throws a TypeError. */
  lemma NullIntermediateThrows(v: Json, a: seq<string>, b: seq<string>)
    requires Walk(v, a) == Ok(Null) && b != []
    ensures Walk(v, a + b) == Err(TypeError)
  {
    if a == [] {
      assert a + b == b;
    } else {
      WalkAppend(v, a, b);
    }
  }

  /** `path(props, obj)`: the loop of the source, updating `nested` and
      returning early on `undefined`; indexing `undefined`/`null` throws. */
  method Path(props: Props, obj: Json) returns (r: Result<Json>)
    ensures r == Walk(obj, Properties(props))
    ensures props.Keys? && props.keys == [] ==> r == Ok(obj)
  {
    var nested := obj;
    var properties := Properties(props);
    var i := 0;
    while i < |properties|
      invariant 0 <= i <= |properties|
      invariant Walk(obj, properties) == Walk(nested, properties[i..])
    {
      assert properties[i..][0] == properties[i];
      assert properties[i..][1..] == properties[i + 1..];
      var step := Get(nested, properties[i]);
      if step.Err? {
        return Err(step.error);
      }
      nested := step.value;
      if nested.Undefined? {
        return Ok(Undefined);
      }
      i := i + 1;
    }
    return Ok(nested);
  }

  /** `pathOr(d, props, obj)`: the default exactly when `path` gives
      `undefined`; every other value, falsy ones included, is returned as is. */
  function PathOr(d: Json, props: Props, obj: Json): (r: Result<Json>)
    ensures Walk(obj, Properties(props)) == Ok(Undefined) ==> r == Ok(d)
    ensures Walk(obj, Properties(props)) != Ok(Undefined) ==> r == Walk(obj, Properties(props))
  {
    match Walk(obj, Properties(props))
    case Err(e) => Err(e)
    case Ok(v) => Ok(if v.Undefined? then d else v)
  }

  /** Falsy values other than `undefined` (`null`, 0, '', false) are not
      replaced by the default. */
  lemma PathOrKeepsFalsy(d: Json, props: Props, obj: Json)
    requires Walk(obj, Properties(props)).Ok?
    requires var v := Walk(obj, Properties(props)).value; !JsonTruthy(v) && !v.Undefined?
    ensures PathOr(d, props, obj) == Walk(obj, Properties(props))
    ensures PathOr(d, props, obj).value in {Null, Num(0), Str(""), Bool(false)}
  {
  }

  /** `toUpperCase` on one character (ASCII letters only). */
  function UpperCase(c: char): (u: char)
    ensures 'a' <= c <= 'z' ==> u as int == c as int - 32
    ensures !('a' <= c <= 'z') ==> u == c
  {
    if 'a' <= c <= 'z' then (c as int - 32) as char else c
  }

  /** The string properCase builds from non-empty text. */
  function Capitalized(text: string): (r: string)
    requires text != []
    ensures |r| == |text|
    ensures r[0] == UpperCase(text[0])
    ensures forall i | 1 <= i < |r| :: r[i] == text[i]
  {
    [UpperCase(text[0])] + text[1..]
  }

  /** `properCase(text)`: on '' the source reads `text[0]` as `undefined` and
      calling `toUpperCase` on it throws. */
  function ProperCase(text: string): (r: Result<string>)
    ensures r.Err? <==> text == []
    ensures r.Err? ==> r.error == TypeError
    ensures r.Ok? ==> r.value == Capitalized(text)
  {
    if text == [] then Err(TypeError) else Ok(Capitalized(text))
  }

  /** 'camera' becomes 'Camera', the suffix of the 'subscribeToCamera' event. */
  lemma ProperCaseOfTypes()
    ensures ProperCase("camera") == Ok("Camera")
    ensures ProperCase("screen") == Ok("Screen")
    ensures ProperCase("sip") == Ok("Sip")
    ensures ProperCase("audio") == Ok("Audio")
    ensures ProperCase("video") == Ok("Video")
  {
    assert UpperCase('c') == 'C' && UpperCase('s') == 'S';
    assert UpperCase('a') == 'A' && UpperCase('v') == 'V';
    assert Capitalized("camera") == ['C'] + "amera" == "Camera";
    assert Capitalized("screen") == ['S'] + "creen" == "Screen";
    assert Capitalized("sip") == ['S'] + "ip" == "Sip";
    assert Capitalized("audio") == ['A'] + "udio" == "Audio";
    assert Capitalized("video") == ['V'] + "ideo" == "Video";
  }

  /** Proper-casing an already proper-cased text changes nothing. */
  lemma ProperCaseIdempotent(text: string)
    requires text != []
    ensures ProperCase(Capitalized(text)) == Ok(Capitalized(text))
  {
    var c := Capitalized(text);
    assert UpperCase(c[0]) == c[0];
    assert Capitalized(c) == [c[0]] + c[1..] == c;
  }
}
