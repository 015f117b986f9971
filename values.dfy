/** The JavaScript values that flow through a route: request bodies, query
    objects, stored documents and the payload carried by an event. */
module Values {

  /** A JavaScript value, as far as the route code inspects it.
      `Oid` is a store-generated document identifier (a Mongo ObjectId),
      `Contains` is the pattern `new RegExp('.*' + v + '.*')` built by a
      non-strict filter, and `Page` is the pagination library's page object
      for a 1-based `page` of `length` documents: `entries` holds the whole
      unsliced listing, and the slicing and the page metadata are left to
      that library. An array and a page object are objects too, so a
      property assignment such as `event.data.uuid = uuid` puts a named
      property on them; `props` holds those. */
  datatype Value =
    | Undefined
    | Null
    | Bool(b: bool)
    | Num(n: int)
    | Str(s: string)
    | Arr(items: seq<Value>, props: Fields)
    | Obj(fields: map<string, Value>)
    | Oid(id: nat)
    | Contains(pattern: Value)
    | Page(entries: seq<Value>, page: Value, length: Value, props: Fields)

  /** The own properties of an object, by name. */
  type Fields = map<string, Value>

  /** JavaScript truthiness: `undefined`, `null`, `false`, `0` and `""` are falsy. */
  predicate Truthy(v: Value)
  {
    match v
    case Undefined => false
    case Null => false
    case Bool(b) => b
    case Num(n) => n != 0
    case Str(s) => s != ""
    case _ => true
  }

  /** The property read `v.key`, as far as the route code reads properties:
      the fields of an object, and the properties set on an array or a page
      object; anything else has no such property. */
  function Field(v: Value, key: string): Value
  {
    match v
    case Obj(f) => if key in f then f[key] else Undefined
    case Arr(_, p) => if key in p then p[key] else Undefined
    case Page(_, _, _, p) => if key in p then p[key] else Undefined
    case _ => Undefined
  }

  /** The values on which a property assignment sticks: objects, arrays
      and page objects. Assigning to a property of a boolean, number or
      string is silently ignored, since Route.js is not in strict mode. */
  predicate HoldsProperties(v: Value)
  {
    v.Obj? || v.Arr? || v.Page?
  }

  /** The properties a `for (var m in v)` loop visits, as far as the model
      keeps them: an object's fields, and the named properties set on an
      array or a page object. */
  function OwnProperties(v: Value): Fields
  {
    match v
    case Obj(f) => f
    case Arr(_, p) => p
    case Page(_, _, _, p) => p
    case _ => map[]
  }

  /** JavaScript's `a || b`: the first truthy operand, else the last one. */
  function Or(a: Value, b: Value): (r: Value)
    ensures Truthy(r) <==> Truthy(a) || Truthy(b)
    ensures Truthy(a) ==> r == a
    ensures !Truthy(a) ==> r == b
  {
    if Truthy(a) then a else b
  }

  function DigitChar(d: nat): (c: char)
    requires d < 10
  {
    "0123456789"[d]
  }

  /** The decimal numeral of `n`. */
  function Digits(n: nat): string
    decreases n
  {
    if n < 10 then [DigitChar(n)] else Digits(n / 10) + [DigitChar(n % 10)]
  }

  function JoinWithCommas(parts: seq<string>): string
  {
    if |parts| == 0 then ""
    else if |parts| == 1 then parts[0]
    else parts[0] + "," + JoinWithCommas(parts[1..])
  }

  /** How `Array.prototype.join` renders one element: `null` and
      `undefined` become the empty string. */
  function ElementText(v: Value): string
    decreases v, 1
  {
    if v.Null? || v.Undefined? then "" else Text(v)
  }

  /** `String(v)`, the text that string concatenation produces. */
  function Text(v: Value): string
    decreases v, 0
  {
    match v
    case Undefined => "undefined"
    case Null => "null"
    case Bool(b) => if b then "true" else "false"
    case Num(n) => if n < 0 then "-" + Digits(-n) else Digits(n)
    case Str(s) => s
    case Arr(items, _) => JoinWithCommas(seq(|items|, i requires 0 <= i < |items| => ElementText(items[i])))
    case Obj(_) => "[object Object]"
    case Oid(id) => Digits(id)
    case Contains(p) => "/.*" + Text(p) + ".*/"
    case Page(_, _, _, _) => "[object Object]"
  }

  /** An array is rendered as its elements joined with commas, a missing
      (`null` or `undefined`) element as nothing: `String([null, s])` is
      `"," + s`, whatever properties the array carries. */
  lemma ArrayTextLeavesMissingElementsEmpty(missing: Value, s: string, props: Fields)
    requires missing.Null? || missing.Undefined?
    ensures Text(Arr([missing, Str(s)], props)) == "," + s
    ensures Text(Arr([Str(s), missing], props)) == s + ","
  {
    assert Text(Str(s)) == s && ElementText(Str(s)) == s && ElementText(missing) == "";
    var items := [missing, Str(s)];
    var parts := seq(|items|, i requires 0 <= i < |items| => ElementText(items[i]));
    assert parts[0] == "" && parts[1] == s;
    assert parts[1..] == [s];
    assert JoinWithCommas(parts[1..]) == s;
    assert Text(Arr(items, props)) == JoinWithCommas(parts) == "" + "," + s;
    var swapped := [Str(s), missing];
    var swappedParts := seq(|swapped|, i requires 0 <= i < |swapped| => ElementText(swapped[i]));
    assert swappedParts[0] == s && swappedParts[1] == "";
    assert swappedParts[1..] == [""];
    assert JoinWithCommas(swappedParts[1..]) == "";
    assert Text(Arr(swapped, props)) == JoinWithCommas(swappedParts) == s + "," + "";
  }

  /** `p` occurs in `s` at some position (what the pattern `.*p.*` finds in a string). */
  predicate Occurs(p: string, s: string)
    decreases |s|
  {
    p <= s || (|s| > 0 && Occurs(p, s[1..]))
  }

  /** `p` sits in `s` starting at position `i`. */
  predicate OccursAt(p: string, s: string, i: int)
  {
    0 <= i && i + |p| <= |s| && s[i..i + |p|] == p
  }

  /** Moving past the first character of `s` moves every position back by one. */
  lemma OccursAtShifts(p: string, s: string, i: int)
    requires |s| > 0 && 1 <= i
    ensures OccursAt(p, s[1..], i - 1) <==> OccursAt(p, s, i)
  {
    if i + |p| <= |s| {
      assert s[1..][i - 1..i - 1 + |p|] == s[i..i + |p|];
    }
  }

  /** A pattern that sits at some position of `s` occurs in `s`. */
  lemma {:induction false} OccursFromPosition(p: string, s: string, i: int)
    requires OccursAt(p, s, i)
    ensures Occurs(p, s)
    decreases i
  {
    if i == 0 {
      assert s[..|p|] == p;
    } else {
      OccursAtShifts(p, s, i);
      OccursFromPosition(p, s[1..], i - 1);
    }
  }

  /** A pattern that occurs in `s` sits at some position of it. */
  lemma {:induction false} PositionOfOccurrence(p: string, s: string) returns (i: int)
    requires Occurs(p, s)
    ensures OccursAt(p, s, i)
    decreases |s|
  {
    if p <= s {
      i := 0;
      assert s[0..|p|] == s[..|p|];
    } else {
      var j := PositionOfOccurrence(p, s[1..]);
      i := j + 1;
      OccursAtShifts(p, s, i);
    }
  }

  /** `Occurs` agrees with the positional definition of a substring. */
  lemma OccursAtSomePosition(p: string, s: string)
    ensures Occurs(p, s) <==> exists i :: OccursAt(p, s, i)
  {
    if Occurs(p, s) {
      var i := PositionOfOccurrence(p, s);
    }
    if exists i :: OccursAt(p, s, i) {
      var i :| OccursAt(p, s, i);
      OccursFromPosition(p, s, i);
    }
  }
}
