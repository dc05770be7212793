/**
 * The JavaScript values the SDK handles without a static type: JSON request and
 * response bodies, webhook payloads and verified token payloads.
 */
module Js {
  import opened Wrappers

  datatype JsValue =
    | Undefined
    | Null
    | Bool(b: bool)
    | Num(n: real)
    | Str(s: string)
    | Arr(elems: seq<JsValue>)
    | Obj(props: map<string, JsValue>)

  /** JSON.stringify, or String() on a non-string value: a foreign serialiser. */
  type Render = JsValue -> string

  /** JavaScript truthiness: `undefined`, `null`, `false`, `0` and `""` are falsy. */
  predicate Truthy(v: JsValue)
  {
    match v
    case Undefined => false
    case Null => false
    case Bool(b) => b
    case Num(n) => n != 0.0
    case Str(s) => s != ""
    case Arr(_) => true
    case Obj(_) => true
  }

  predicate Nullish(v: JsValue)
  {
    v.Undefined? || v.Null?
  }

  /**
   * `v?.[key]`: the own property of an object, `undefined` otherwise.
   * Also `v[key]` on a value that is not null or undefined.
   */
  function Get(v: JsValue, key: string): (r: JsValue)
    ensures !v.Obj? ==> r == Undefined
    ensures v.Obj? && key !in v.props ==> r == Undefined
    ensures v.Obj? && key in v.props ==> r == v.props[key]
  {
    if v.Obj? && key in v.props then v.props[key] else Undefined
  }

  /** `v.key`, which throws a TypeError (None) when `v` is null or undefined. */
  function Member(v: JsValue, key: string): (r: Option<JsValue>)
    ensures r.None? <==> Nullish(v)
    ensures r.Some? ==> r.value == Get(v, key)
  {
    if Nullish(v) then None else Some(Get(v, key))
  }

  /** The string a template literal `${v}` interpolates. */
  function Interpolate(v: JsValue, display: Render): (r: string)
    ensures v.Str? ==> r == v.s
  {
    if v.Str? then v.s else display(v)
  }

  /** An HTTP request, seen through its header lookup (`req.header(name)`). */
  type Request = map<string, string>

  function Header(req: Request, name: string): Option<string>
  {
    if name in req then Some(req[name]) else None
  }

  /** The fields joined with the separator: the inverse of `Split`. */
  function Join(fields: seq<string>, sep: char): string
    requires |fields| >= 1
    decreases |fields|
  {
    if |fields| == 1 then fields[0] else fields[0] + [sep] + Join(fields[1..], sep)
  }

  /**
   * `s.split(sep)` for a one-character separator: every field between two
   * separators, so "" gives [""] and "a b" gives ["a", "b"].
   */
  function Split(s: string, sep: char): (fields: seq<string>)
    ensures |fields| >= 1
    ensures forall i :: 0 <= i < |fields| ==> sep !in fields[i]
    ensures Join(fields, sep) == s
    decreases |s|
  {
    if |s| == 0 then [""]
    else if s[0] == sep then [""] + Split(s[1..], sep)
    else
      var rest := Split(s[1..], sep);
      assert Join(rest, sep) == s[1..];
      var fields := [[s[0]] + rest[0]] + rest[1..];
      assert fields[1..] == rest[1..];
      assert |rest| > 1 ==> Join(fields, sep) == [s[0]] + Join(rest, sep);
      fields
  }

  /** A string without the separator is one field. */
  lemma {:induction false} SplitWithoutSeparator(s: string, sep: char)
    requires sep !in s
    ensures Split(s, sep) == [s]
    decreases |s|
  {
    if |s| > 0 {
      assert sep !in s[1..];
      SplitWithoutSeparator(s[1..], sep);
    }
  }

  /** Splitting `w + sep + t` for a first field `w` without the separator. */
  lemma {:induction false} SplitAfterField(w: string, t: string, sep: char)
    requires sep !in w
    ensures Split(w + [sep] + t, sep) == [w] + Split(t, sep)
    decreases |w|
  {
    if |w| == 0 {
      assert w + [sep] + t == [sep] + t;
      assert ([sep] + t)[1..] == t;
    } else {
      assert (w + [sep] + t)[1..] == w[1..] + [sep] + t;
      assert sep !in w[1..];
      SplitAfterField(w[1..], t, sep);
      assert [w[0]] + w[1..] == w;
    }
  }

  /** Joining at least two fields: the first, the separator, the second, then the rest after a separator. */
  lemma JoinFirstTwo(fields: seq<string>, sep: char)
    requires |fields| >= 2
    ensures Join(fields, sep) == fields[0] + [sep] + fields[1]
      + (if |fields| == 2 then [] else [sep] + Join(fields[2..], sep))
  {
    assert fields[1..][1..] == fields[2..];
  }

  /**
   * `f` is what lies between the first space of `s` and the next space or the
   * end: `s` is a space-free word, a space, `f`, then nothing or a space and more.
   */
  ghost predicate SecondFieldOf(s: string, f: string)
  {
    exists w, rest :: ' ' !in w && s == w + " " + f + rest && (rest == "" || rest[0] == ' ')
  }

  /** The second field `Split` yields is the text after the first space. */
  lemma SplitSecondField(s: string)
    requires |Split(s, ' ')| > 1
    ensures SecondFieldOf(s, Split(s, ' ')[1])
  {
    var fields := Split(s, ' ');
    var rest := if |fields| == 2 then "" else " " + Join(fields[2..], ' ');
    JoinFirstTwo(fields, ' ');
    assert s == fields[0] + " " + fields[1] + rest;
    assert ' ' !in fields[0] && (rest == "" || rest[0] == ' ');
  }

  /** `s.split(' ')[1]`: the second space-separated field, undefined when there is no space. */
  function SecondField(s: string): (r: JsValue)
    ensures r.Undefined? <==> ' ' !in s
    ensures ' ' in s ==> r.Str?
    ensures r.Str? ==> ' ' !in r.s
    ensures r.Str? ==> SecondFieldOf(s, r.s)
  {
    var fields := Split(s, ' ');
    if |fields| > 1 then
      SplitSecondField(s);
      Str(fields[1])
    else
      assert s == Join(fields, ' ') == fields[0];
      Undefined
  }

  /** The second field of "Bearer " + t is t itself, whenever t holds no space. */
  lemma BearerField(t: string)
    requires ' ' !in t
    ensures SecondField("Bearer " + t) == Str(t)
  {
    assert "Bearer " + t == "Bearer" + [' '] + t;
    SplitAfterField("Bearer", t, ' ');
    SplitWithoutSeparator(t, ' ');
  }
}
