/** The small part of JavaScript's runtime that the server relies on: the values
    JSON.parse can produce, truthiness, property access and destructuring,
    template-literal conversion to text, and the String methods split, trim,
    startsWith and replace. */
module Js {

  /** A JavaScript value as JSON.parse produces it, plus `undefined`, which is
      what reading a missing property gives. Numbers are modelled as integers. */
  datatype Value =
    | Undefined
    | Null
    | Bool(b: bool)
    | Num(n: int)
    | Str(s: string)
    | Arr(items: seq<Value>)
    | Obj(props: map<string, Value>)

  /** The outcome of a call that may throw: its value, or the thrown error's message. */
  datatype Outcome<+T> = Returned(value: T) | Threw(message: string)

  datatype Option<+T> = None | Some(value: T)

  /** ToBoolean: `if (v)`, `!v` and `v || d` test this. */
  predicate Truthy(v: Value) {
    match v
    case Undefined => false
    case Null => false
    case Bool(b) => b
    case Num(n) => n != 0
    case Str(s) => s != ""
    case Arr(_) => true
    case Obj(_) => true
  }

  /** Nullish: the two values whose properties cannot be read. */
  predicate Nullish(v: Value) {
    v.Undefined? || v.Null?
  }

  /** `v.key` for a value that is not nullish: an own property of an object,
      `undefined` otherwise (none of the keys the server reads is a property of
      a string, number, boolean or array). */
  function Get(v: Value, key: string): (r: Value)
    ensures !v.Obj? ==> r == Undefined
    ensures v.Obj? ==> (r != Undefined <==> key in v.props && v.props[key] != Undefined)
  {
    match v
    case Obj(p) => if key in p then p[key] else Undefined
    case _ => Undefined
  }

  /** `const { key } = v`: throws a TypeError when `v` is null or undefined. */
  function Destructure(v: Value, key: string): (r: Outcome<Value>)
    ensures r.Threw? <==> Nullish(v)
    ensures r.Returned? ==> r.value == Get(v, key)
  {
    if Nullish(v) then Threw("Cannot destructure property '" + key + "' of a nullish value")
    else Returned(Get(v, key))
  }

  /** `v?.key`: never throws, `undefined` on a nullish value. */
  function OptionalGet(v: Value, key: string): (r: Value)
    ensures Nullish(v) ==> r == Undefined
    ensures !Nullish(v) ==> r == Get(v, key)
  {
    if Nullish(v) then Undefined else Get(v, key)
  }

  /** The number a string of decimal digits denotes, most significant first. */
  function DigitsValue(s: string): int
    decreases |s|
  {
    if s == [] then 0 else 10 * DigitsValue(s[..|s| - 1]) + (s[|s| - 1] as int - '0' as int)
  }

  /** The decimal numeral of a natural number: digits only, no leading zero,
      denoting the number. */
  function NatToString(n: nat): (s: string)
    ensures |s| >= 1
    ensures forall i :: 0 <= i < |s| ==> '0' <= s[i] <= '9'
    ensures DigitsValue(s) == n
    ensures n >= 10 ==> s[0] != '0'
    decreases n
  {
    var d := [(('0' as int) + n % 10) as char];
    if n < 10 then d
    else
      var s := NatToString(n / 10) + d;
      assert s[..|s| - 1] == NatToString(n / 10);
      s
  }

  function IntToString(n: int): string {
    if n < 0 then "-" + NatToString(-n) else NatToString(n)
  }

  /** The TypeError ToString throws for an object with no usable conversion. */
  const NoPrimitiveMessage: string := "Cannot convert object to primitive value"

  /** Whether ToString(v) throws. JSON.parse produces no functions, so an
      object with an own `toString` property has no callable `toString`, and
      the inherited `valueOf` hands back the object itself: no primitive is
      found. An array converts its elements that are not null or undefined. */
  predicate Unprintable(v: Value)
    decreases v
  {
    match v
    case Obj(props) => "toString" in props
    case Arr(items) => exists i :: 0 <= i < |items| && !Nullish(items[i]) && Unprintable(items[i])
    case _ => false
  }

  /** `${v}` in a template literal, i.e. ToString(v). An array prints its
      elements joined by commas, with null and undefined elements empty; an
      object prints as `[object Object]` unless it shadows `toString`. */
  function Display(v: Value): (r: Outcome<string>)
    ensures r.Threw? <==> Unprintable(v)
    ensures r.Threw? ==> r.message == NoPrimitiveMessage
    ensures v.Str? ==> r == Returned(v.s)
    ensures v.Obj? && !Unprintable(v) ==> r == Returned("[object Object]")
    decreases v, 1
  {
    match v
    case Undefined => Returned("undefined")
    case Null => Returned("null")
    case Bool(b) => Returned(if b then "true" else "false")
    case Num(n) => Returned(IntToString(n))
    case Str(s) => Returned(s)
    case Arr(items) => DisplayItems(v, items)
    case Obj(props) => if "toString" in props then Threw(NoPrimitiveMessage) else Returned("[object Object]")
  }

  /** Array.prototype.join(',') over the elements of `whole`. */
  function DisplayItems(ghost whole: Value, items: seq<Value>): (r: Outcome<string>)
    requires forall x :: x in items ==> x < whole
    ensures r.Threw? <==> exists i :: 0 <= i < |items| && !Nullish(items[i]) && Unprintable(items[i])
    ensures r.Threw? ==> r.message == NoPrimitiveMessage
    decreases whole, 0, |items|
  {
    if items == [] then Returned("")
    else
      assert items[0] in items;
      var first := if Nullish(items[0]) then Returned("") else Display(items[0]);
      if first.Threw? then first
      else if |items| == 1 then first
      else
        assert forall x :: x in items[1..] ==> x in items;
        var rest := DisplayItems(whole, items[1..]);
        assert forall i :: 1 <= i < |items| ==> items[i] == items[1..][i - 1];
        if rest.Threw? then rest else Returned(first.value + "," + rest.value)
  }

  // ---------------------------------------------------------------------------
  // String.prototype.split and Array.prototype.join on one separator character

  /** `s.split(sep)` for a one-character separator. Splitting never loses a
      piece: the empty string splits into one empty piece. */
  function Split(s: string, sep: char): (parts: seq<string>)
    ensures |parts| >= 1
    ensures forall i :: 0 <= i < |parts| ==> sep !in parts[i]
    decreases |s|
  {
    if s == [] then [""]
    else
      var rest := Split(s[1..], sep);
      if s[0] == sep then [""] + rest
      else [[s[0]] + rest[0]] + rest[1..]
  }

  /** `parts.join(sep)`. */
  function Join(parts: seq<string>, sep: char): string
    decreases |parts|
  {
    if parts == [] then ""
    else if |parts| == 1 then parts[0]
    else parts[0] + [sep] + Join(parts[1..], sep)
  }

  /** Number of occurrences of `c` in `s`. */
  function Count(s: string, c: char): nat
    decreases |s|
  {
    if s == [] then 0
    else if s[0] == c then 1 + Count(s[1..], c)
    else Count(s[1..], c)
  }

  /** Joining the pieces of a split gives the text back. */
  lemma {:induction false} JoinSplit(s: string, sep: char)
    ensures Join(Split(s, sep), sep) == s
    decreases |s|
  {
    if s != [] {
      var rest := Split(s[1..], sep);
      JoinSplit(s[1..], sep);
      if s[0] == sep {
        assert Join([""] + rest, sep) == "" + [sep] + Join(rest, sep) by {
          assert ([""] + rest)[1..] == rest;
        }
        assert s == [s[0]] + s[1..];
      } else if |rest| == 1 {
        assert s == [s[0]] + s[1..];
      } else {
        var parts := [[s[0]] + rest[0]] + rest[1..];
        assert parts[1..] == rest[1..];
        assert Join(rest, sep) == rest[0] + [sep] + Join(rest[1..], sep);
        assert Join(parts, sep) == [s[0]] + (rest[0] + [sep] + Join(rest[1..], sep));
        assert s == [s[0]] + s[1..];
      }
    }
  }

  lemma {:induction false} SplitWithoutSeparator(s: string, sep: char)
    requires sep !in s
    ensures Split(s, sep) == [s]
    decreases |s|
  {
    if s != [] {
      SplitWithoutSeparator(s[1..], sep);
      assert s == [s[0]] + s[1..];
    }
  }

  lemma {:induction false} SplitAfterPiece(p: string, rest: string, sep: char)
    requires sep !in p
    ensures Split(p + [sep] + rest, sep) == [p] + Split(rest, sep)
    decreases |p|
  {
    var s := p + [sep] + rest;
    if p == [] {
      assert s == [sep] + rest;
      assert s[1..] == rest;
    } else {
      assert s[1..] == p[1..] + [sep] + rest;
      SplitAfterPiece(p[1..], rest, sep);
      assert [p[0]] + p[1..] == p;
    }
  }

  /** Splitting a join of separator-free pieces gives the pieces back. */
  lemma {:induction false} SplitJoin(parts: seq<string>, sep: char)
    requires |parts| >= 1
    requires forall i :: 0 <= i < |parts| ==> sep !in parts[i]
    ensures Split(Join(parts, sep), sep) == parts
    decreases |parts|
  {
    if |parts| == 1 {
      SplitWithoutSeparator(parts[0], sep);
    } else {
      SplitJoin(parts[1..], sep);
      SplitAfterPiece(parts[0], Join(parts[1..], sep), sep);
      assert [parts[0]] + parts[1..] == parts;
    }
  }

  /** A text has one more piece than it has separators. */
  lemma {:induction false} SplitCount(s: string, sep: char)
    ensures |Split(s, sep)| == Count(s, sep) + 1
    decreases |s|
  {
    if s != [] {
      SplitCount(s[1..], sep);
    }
  }

  // ---------------------------------------------------------------------------
  // String.prototype.trim

  /** ECMAScript WhiteSpace and LineTerminator code points, which trim removes. */
  predicate IsSpace(c: char) {
    || c == '\t' || c == '\n' || c == '\U{B}' || c == '\U{C}' || c == '\r' || c == ' '
    || c == '\U{A0}' || c == '\U{1680}' || ('\U{2000}' <= c <= '\U{200A}')
    || c == '\U{2028}' || c == '\U{2029}' || c == '\U{202F}' || c == '\U{205F}'
    || c == '\U{3000}' || c == '\U{FEFF}'
  }

  function TrimStart(s: string): (r: string)
    ensures |r| <= |s| && r == s[|s| - |r|..]
    ensures forall i :: 0 <= i < |s| - |r| ==> IsSpace(s[i])
    ensures r != [] ==> !IsSpace(r[0])
    decreases |s|
  {
    if s != [] && IsSpace(s[0]) then TrimStart(s[1..]) else s
  }

  function TrimEnd(s: string): (r: string)
    ensures |r| <= |s| && r == s[..|r|]
    ensures forall i :: |r| <= i < |s| ==> IsSpace(s[i])
    ensures r != [] ==> !IsSpace(r[|r| - 1])
    decreases |s|
  {
    if s != [] && IsSpace(s[|s| - 1]) then TrimEnd(s[..|s| - 1]) else s
  }

  /** `s.trim()`: the text between the leading and the trailing white space. */
  function Trim(s: string): (r: string)
    ensures r != [] ==> !IsSpace(r[0]) && !IsSpace(r[|r| - 1])
    ensures (r == []) <==> (forall i :: 0 <= i < |s| ==> IsSpace(s[i]))
  {
    TrimBothEnds(s);
    TrimEnd(TrimStart(s))
  }

  /** Trimming the end after the start leaves a text that neither starts nor
      ends with white space, and nothing only when all of `s` is white space. */
  lemma TrimBothEnds(s: string)
    ensures var r := TrimEnd(TrimStart(s));
      && (r != [] ==> !IsSpace(r[0]) && !IsSpace(r[|r| - 1]))
      && ((r == []) <==> (forall i :: 0 <= i < |s| ==> IsSpace(s[i])))
  {
    var t := TrimStart(s);
    var r := TrimEnd(t);
    if r == [] {
      assert t == [];
    } else {
      assert r[0] == t[0];
      assert s[|s| - |t|] == t[0];
    }
  }

  // ---------------------------------------------------------------------------
  // String.prototype.startsWith and replace with a string pattern

  predicate StartsWith(s: string, prefix: string) {
    |prefix| <= |s| && s[..|prefix|] == prefix
  }

  /** GetSubstitution for a string pattern (no capture groups): in the
      replacement text `$$` stands for `$`, `$&` for the matched text, `` $` ``
      for the text before the match and `$'` for the text after it; any other
      `$` is kept as it is. */
  function Substitute(rep: string, matched: string, before: string, after: string): string
    decreases |rep|
  {
    if rep == [] then ""
    else if rep[0] == '$' && |rep| >= 2 && rep[1] in {'$', '&', '`', '\''} then
      var piece := match rep[1]
        case '$' => "$"
        case '&' => matched
        case '`' => before
        case _ => after;
      piece + Substitute(rep[2..], matched, before, after)
    else [rep[0]] + Substitute(rep[1..], matched, before, after)
  }

  /** A replacement text without `$` is inserted literally. */
  lemma {:induction false} SubstituteLiteral(rep: string, matched: string, before: string, after: string)
    requires '$' !in rep
    ensures Substitute(rep, matched, before, after) == rep
    decreases |rep|
  {
    if rep != [] {
      SubstituteLiteral(rep[1..], matched, before, after);
      assert rep == [rep[0]] + rep[1..];
    }
  }

  /** A prefix without `$` is copied as it is, and the rest is substituted on its own. */
  lemma {:induction false} SubstituteLiteralPrefix(prefix: string, tail: string, matched: string, before: string, after: string)
    requires '$' !in prefix
    ensures Substitute(prefix + tail, matched, before, after) == prefix + Substitute(tail, matched, before, after)
    decreases |prefix|
  {
    if prefix == [] {
      assert prefix + tail == tail;
    } else {
      var s := prefix + tail;
      assert s[0] == prefix[0] != '$' && s[1..] == prefix[1..] + tail;
      SubstituteLiteralPrefix(prefix[1..], tail, matched, before, after);
      assert Substitute(s, matched, before, after) == [prefix[0]] + Substitute(s[1..], matched, before, after);
      assert prefix == [prefix[0]] + prefix[1..];
    }
  }

  /** Index of the first occurrence of `c` in `s`, or |s| when there is none. */
  function IndexOf(s: string, c: char): (k: nat)
    ensures k <= |s|
    ensures k < |s| ==> s[k] == c
    ensures forall i :: 0 <= i < k ==> s[i] != c
    decreases |s|
  {
    if s == [] then 0 else if s[0] == c then 0 else 1 + IndexOf(s[1..], c)
  }

  /** `s.replace(c, rep)` with a one-character string pattern: only the first
      occurrence is replaced, and `$` patterns in `rep` are interpreted. */
  function ReplaceFirst(s: string, c: char, rep: string): (r: string)
    ensures c !in s ==> r == s
    ensures c in s ==> |r| >= IndexOf(s, c) && r[..IndexOf(s, c)] == s[..IndexOf(s, c)]
    ensures c in s && '$' !in rep ==>
      r == s[..IndexOf(s, c)] + rep + s[IndexOf(s, c) + 1..]
  {
    var k := IndexOf(s, c);
    if k == |s| then s
    else
      var inserted := Substitute(rep, [c], s[..k], s[k + 1..]);
      assert '$' !in rep ==> inserted == rep by {
        if '$' !in rep {
          SubstituteLiteral(rep, [c], s[..k], s[k + 1..]);
        }
      }
      s[..k] + inserted + s[k + 1..]
  }

  /** `s.replace(/c/g, rep)`: every occurrence of `c` becomes `rep`. The
      replacement texts this is used with hold no substitution pattern, so
      they are inserted literally. */
  function ReplaceAll(s: string, c: char, rep: string): (r: string)
    ensures c !in s ==> r == s
    decreases |s|
  {
    if s == [] then ""
    else if s[0] == c then rep + ReplaceAll(s[1..], c, rep)
    else [s[0]] + ReplaceAll(s[1..], c, rep)
  }

  /** A global replace works piece by piece. */
  lemma {:induction false} ReplaceAllAppend(a: string, b: string, c: char, rep: string)
    ensures ReplaceAll(a + b, c, rep) == ReplaceAll(a, c, rep) + ReplaceAll(b, c, rep)
    decreases |a|
  {
    if a != [] {
      assert (a + b)[0] == a[0] && (a + b)[1..] == a[1..] + b;
      ReplaceAllAppend(a[1..], b, c, rep);
      if a[0] == c {
        assert ReplaceAll(a + b, c, rep) == rep + (ReplaceAll(a[1..], c, rep) + ReplaceAll(b, c, rep));
      } else {
        assert ReplaceAll(a + b, c, rep) == [a[0]] + (ReplaceAll(a[1..], c, rep) + ReplaceAll(b, c, rep));
      }
    } else {
      assert a + b == b;
    }
  }
}
